/**
 * `main` (rss_bot.py lines 256-341): the weekly run over the checkpoint
 * files, stage by stage, with the paths on which it raises.
 */
module Pipeline {
  import opened Wrappers
  import opened Seqs
  import opened PyDict
  import opened HtmlEscape
  import opened Items
  import opened Ingest
  import opened Classify
  import opened Summarize
  import opened Report
  import opened Checkpoint

  /** The keys of `config.json` that `main` reads. */
  datatype Config = Config(prefix: string, rssFeeds: seq<string>, interestingTopics: seq<string>,
                           llmClients: seq<Endpoint>)

  /** The collaborators and the clock, in naive local seconds. */
  datatype Env = Env(parse: Parser, fetch: Fetcher, ask: Oracle, now: int)

  /** The exceptions that end a run early. */
  datatype Crash =
    | DivisionByZero  // line 289: `i % num_clients` with no classifying endpoint
    | NoWorkers       // line 291: `ThreadPoolExecutor(max_workers=0)`
    | NoSummarizer    // line 310: `config['llm_clients'][0]` on an empty list
    | NoClockMethod   // lines 105 and 174: `datetime.now()` on the module `datetime`

  datatype Outcome = Completed(reportName: string) | Crashed(crash: Crash)

  /** What a run returns and leaves on disk. */
  datatype RunResult = RunResult(outcome: Outcome, files: Files, reports: map<string, string>)

  /** Lines 264-272: the window follows from last week's snapshot. */
  function WindowOf(files: Files, cfg: Config): Window
  {
    Lookback(LoadFrom(files, LastWeekName(cfg.prefix)))
  }

  /** Lines 274-281: the fetch checkpoint when it holds articles, else a fresh scan. */
  function FetchedOf(files: Files, cfg: Config, env: Env): seq<Item>
  {
    var fetchedFile := FetchedName(cfg.prefix);
    if HasCheckpoint(files, fetchedFile) then files[fetchedFile]
    else
      var w := WindowOf(files, cfg);
      Ingested(cfg.rssFeeds, env.parse, env.now - w.days * SecondsPerDay, w.exclude, env.fetch)
  }

  /** The directory after the fetch stage: a fresh scan is saved (line 279). */
  function AfterFetch(files: Files, cfg: Config, env: Env): Files
  {
    var fetchedFile := FetchedName(cfg.prefix);
    if HasCheckpoint(files, fetchedFile) then files
    else files[fetchedFile := FetchedOf(files, cfg, env)]
  }

  /** Lines 284-300 as a value, for a run that gets past line 291. */
  function ClassifiedFor(fetched: Files, articles: seq<Item>, cfg: Config, env: Env): seq<Item>
    requires HasCheckpoint(fetched, ClassifiedName(cfg.prefix)) || |cfg.llmClients| >= 2
  {
    var classifiedFile := ClassifiedName(cfg.prefix);
    if HasCheckpoint(fetched, classifiedFile) then fetched[classifiedFile]
    else ClassifiedOf(Relabeled(articles, Dispatch(articles, cfg.llmClients, cfg.interestingTopics, env.ask)))
  }

  /** Lines 324-326: the report is named after the run's date. */
  function ReportName(now: int): string
  {
    FormatDate(now) + ".html"
  }

  /** The summaries of lines 304-320 are all of configured topics, so they can be rendered. */
  lemma SummariesRenderable(classified: seq<Item>, topics: seq<string>, answer: Answers)
    ensures Renderable(Categorize(classified, topics), SummaryTable(Categorize(classified, topics), answer))
  {
    var d := Categorize(classified, topics);
    var table := SummaryTable(d, answer);
    CategorizeSpec(classified, topics);
    SummaryTableOrder(d, answer);
    forall j | 0 <= j < |table| ensures table[j].0 in Keys(d) {
      assert Keys(table)[j] == table[j].0;
      SubseqMember(Keys(table), Keys(d), table[j].0);
    }
  }

  /** The report body of lines 304-326 for the classified articles. */
  function BodyFor(classified: seq<Item>, cfg: Config, env: Env): Body
    requires cfg.llmClients != []
  {
    var categorized := Categorize(classified, cfg.interestingTopics);
    var answer := Summarizer(cfg.llmClients[0], env.ask);
    SummariesRenderable(classified, cfg.interestingTopics, answer);
    BodyOf(categorized, SummaryTable(categorized, answer))
  }

  /** The directory after the classification stage of a run that gets past line 291: a fresh result is saved (line 300). */
  function AfterClassify(files: Files, cfg: Config, env: Env): Files
    requires HasCheckpoint(AfterFetch(files, cfg, env), ClassifiedName(cfg.prefix)) || |cfg.llmClients| >= 2
  {
    var classifiedFile := ClassifiedName(cfg.prefix);
    var fetched := AfterFetch(files, cfg, env);
    if HasCheckpoint(fetched, classifiedFile) then fetched
    else fetched[classifiedFile := ClassifiedFor(fetched, FetchedOf(files, cfg, env), cfg, env)]
  }

  /** Lines 256-341 as a value: the outcome, the checkpoint files and the reports after one run. */
  function Result(files: Files, reports: map<string, string>, cfg: Config, env: Env): RunResult
  {
    var classifiedFile := ClassifiedName(cfg.prefix);
    var articles := FetchedOf(files, cfg, env);
    var fetched := AfterFetch(files, cfg, env);
    if !HasCheckpoint(fetched, classifiedFile) && |cfg.llmClients| < 2 then
      RunResult(Crashed(if articles == [] then NoWorkers else DivisionByZero), fetched, reports)
    else FinishRun(files, reports, cfg, env)
  }

  /** Lines 296-339 as a value, for a run that gets past line 291. */
  function FinishRun(files: Files, reports: map<string, string>, cfg: Config, env: Env): (r: RunResult)
    requires HasCheckpoint(AfterFetch(files, cfg, env), ClassifiedName(cfg.prefix)) || |cfg.llmClients| >= 2
    ensures r.outcome.Crashed? ==> r.reports == reports
    ensures r.outcome.Completed? ==>
      r.outcome.reportName == ReportName(env.now) && r.outcome.reportName in r.reports &&
      r.reports == reports[r.outcome.reportName := r.reports[r.outcome.reportName]]
  {
    var saved := AfterClassify(files, cfg, env);
    if cfg.llmClients == [] then RunResult(Crashed(NoSummarizer), saved, reports)
    else
      var classified := ClassifiedFor(AfterFetch(files, cfg, env), FetchedOf(files, cfg, env), cfg, env);
      Completion(saved, classified, reports, cfg, env)
  }

  /** Lines 304-339 as a value: the report is added under the run's date, then the directory is rotated. */
  function Completion(saved: Files, classified: seq<Item>, reports: map<string, string>, cfg: Config, env: Env)
    : (r: RunResult)
    requires cfg.llmClients != []
    ensures r.outcome == Completed(ReportName(env.now)) && r.outcome.reportName in r.reports
    ensures r.reports == reports[r.outcome.reportName := r.reports[r.outcome.reportName]]
  {
    var name := ReportName(env.now);
    var html := Page(FormatDate(env.now), BodyFor(classified, cfg, env));
    RunResult(Completed(name), Rotated(saved, cfg.prefix), reports[name := html])
  }

  /**
   * A report is written exactly by a completed run, under the run's date,
   * and no other report changes.
   */
  lemma ReportWritten(files: Files, reports: map<string, string>, cfg: Config, env: Env)
    ensures var r := Result(files, reports, cfg, env);
      (r.outcome.Crashed? ==> r.reports == reports) &&
      (r.outcome.Completed? ==>
        r.outcome.reportName == ReportName(env.now) && r.outcome.reportName in r.reports &&
        r.reports == reports[r.outcome.reportName := r.reports[r.outcome.reportName]])
  {
    var fetched := AfterFetch(files, cfg, env);
    if !HasCheckpoint(fetched, ClassifiedName(cfg.prefix)) && |cfg.llmClients| < 2 {
      assert Result(files, reports, cfg, env).reports == reports;
    } else {
      assert Result(files, reports, cfg, env) == FinishRun(files, reports, cfg, env);
    }
  }

  /**
   * The same run as the source is written: line 11 rebinds `datetime` to the
   * module, so `datetime.now()` raises `AttributeError` at line 105 whenever
   * the fetch stage runs, and at line 174 in every run that reaches the
   * report.
   */
  function ResultAsWritten(files: Files, reports: map<string, string>, cfg: Config, env: Env): RunResult
  {
    if !HasCheckpoint(files, FetchedName(cfg.prefix)) then RunResult(Crashed(NoClockMethod), files, reports)
    else
      var r := Result(files, reports, cfg, env);
      if r.outcome.Crashed? then r
      else RunResult(Crashed(NoClockMethod), AfterClassify(files, cfg, env), reports)
  }

  /**
   * The run as written never completes, never writes a report and never
   * touches last week's snapshot; without a fetch checkpoint it changes
   * nothing at all.
   */
  lemma AsWrittenNeverCompletes(files: Files, reports: map<string, string>, cfg: Config, env: Env)
    ensures var r := ResultAsWritten(files, reports, cfg, env);
      r.outcome.Crashed? && r.reports == reports &&
      LoadFrom(r.files, LastWeekName(cfg.prefix)) == LoadFrom(files, LastWeekName(cfg.prefix)) &&
      (!HasCheckpoint(files, FetchedName(cfg.prefix)) ==> r == RunResult(Crashed(NoClockMethod), files, reports))
  {
    if HasCheckpoint(files, FetchedName(cfg.prefix)) {
      var r := Result(files, reports, cfg, env);
      if r.outcome.Crashed? {
        ResumeAfterCrash(files, reports, cfg, env, cfg, env);
        assert ResultAsWritten(files, reports, cfg, env) == r;
      } else {
        CompletesIff(files, reports, cfg, env);
        Untouched(files, cfg, env);
        assert ResultAsWritten(files, reports, cfg, env) ==
               RunResult(Crashed(NoClockMethod), AfterClassify(files, cfg, env), reports);
      }
    }
  }

  /** The fetch and classification stages never touch last week's snapshot. */
  lemma Untouched(files: Files, cfg: Config, env: Env)
    ensures HasCheckpoint(AfterFetch(files, cfg, env), ClassifiedName(cfg.prefix)) ==
            HasCheckpoint(files, ClassifiedName(cfg.prefix))
    ensures LoadFrom(AfterFetch(files, cfg, env), ClassifiedName(cfg.prefix)) == LoadFrom(files, ClassifiedName(cfg.prefix))
    ensures LoadFrom(AfterFetch(files, cfg, env), LastWeekName(cfg.prefix)) == LoadFrom(files, LastWeekName(cfg.prefix))
    ensures HasCheckpoint(files, ClassifiedName(cfg.prefix)) || |cfg.llmClients| >= 2 ==>
      LoadFrom(AfterClassify(files, cfg, env), LastWeekName(cfg.prefix)) == LoadFrom(files, LastWeekName(cfg.prefix))
  {
    NamesDistinct(cfg.prefix);
  }

  /**
   * Where the two differ: with two or more endpoints the intended run
   * completes, while the run as written raises at line 105 (no fetch
   * checkpoint) or at line 174 (one present).
   */
  lemma AsWrittenDiffers(files: Files, reports: map<string, string>, cfg: Config, env: Env)
    requires |cfg.llmClients| >= 2
    ensures Result(files, reports, cfg, env).outcome.Completed?
    ensures ResultAsWritten(files, reports, cfg, env).outcome == Crashed(NoClockMethod)
  {
    CompletesIff(files, reports, cfg, env);
  }

  /** Lines 264-281 on the store. */
  method FetchStage(store: Store, cfg: Config, env: Env) returns (articlesToProcess: seq<Item>)
    modifies store
    ensures articlesToProcess == FetchedOf(old(store.files), cfg, env)
    ensures store.files == AfterFetch(old(store.files), cfg, env) && store.reports == old(store.reports)
  {
    var lastWeekFile, fetchedFile := LastWeekName(cfg.prefix), FetchedName(cfg.prefix);
    var window := Lookback(LoadFrom(store.files, lastWeekFile));
    var daysToScan, existingLinks := window.days, window.exclude;
    var cachedArticles := LoadFrom(store.files, fetchedFile);
    if cachedArticles.None? || cachedArticles.value == [] {
      articlesToProcess := FetchAndFilter(cfg.rssFeeds, env.parse, daysToScan, existingLinks, env.now, env.fetch);
      store.Save(fetchedFile, articlesToProcess);
    } else {
      articlesToProcess := cachedArticles.value;
    }
  }

  /** Lines 284-302 on the store: `None` when line 289 or 291 raises. */
  method ClassifyStage(store: Store, cfg: Config, env: Env, articlesToProcess: seq<Item>)
    returns (classifiedArticles: Option<seq<Item>>)
    modifies store
    ensures var classifiedFile := ClassifiedName(cfg.prefix);
      var resumed := HasCheckpoint(old(store.files), classifiedFile);
      (classifiedArticles.None? <==> !resumed && |cfg.llmClients| < 2) &&
      (classifiedArticles.Some? ==>
        classifiedArticles.value == ClassifiedFor(old(store.files), articlesToProcess, cfg, env)) &&
      store.files == (if resumed || classifiedArticles.None? then old(store.files)
                     else old(store.files)[classifiedFile := classifiedArticles.value]) &&
      store.reports == old(store.reports)
  {
    var classifiedFile := ClassifiedName(cfg.prefix);
    var cached := LoadFrom(store.files, classifiedFile);
    if cached.None? || cached.value == [] {
      if |cfg.llmClients| < 2 {
        return None;
      }
      var classified := ClassifyArticles(articlesToProcess, cfg.llmClients, cfg.interestingTopics, env.ask);
      store.Save(classifiedFile, classified);
      classifiedArticles := Some(classified);
    } else {
      classifiedArticles := cached;
    }
  }

  /** Lines 304-339 on the store, once a summarizing endpoint exists. */
  method ReportStage(store: Store, cfg: Config, env: Env, classifiedArticles: seq<Item>) returns (reportName: string)
    requires cfg.llmClients != []
    modifies store
    ensures reportName == ReportName(env.now)
    ensures store.files == Rotated(old(store.files), cfg.prefix)
    ensures store.reports == old(store.reports)[reportName := Page(FormatDate(env.now), BodyFor(classifiedArticles, cfg, env))]
  {
    var categorized := BuildCategorized(classifiedArticles, cfg.interestingTopics);
    var summaries := BuildSummaries(categorized, cfg.llmClients[0], env.ask);
    SummariesRenderable(classifiedArticles, cfg.interestingTopics, Summarizer(cfg.llmClients[0], env.ask));
    reportName := ReportName(env.now);
    var html := GenerateHtml(categorized, summaries, FormatDate(env.now));
    store.WriteReport(reportName, html);
    store.Rotate(cfg.prefix);
  }

  /** `main`: the stages on the store, in the source's order. */
  method Run(store: Store, cfg: Config, env: Env) returns (outcome: Outcome)
    modifies store
    ensures var r := Result(old(store.files), old(store.reports), cfg, env);
      outcome == r.outcome && store.files == r.files && store.reports == r.reports
  {
    NamesDistinct(cfg.prefix);
    var articlesToProcess := FetchStage(store, cfg, env);
    var classifiedArticles := ClassifyStage(store, cfg, env, articlesToProcess);
    if classifiedArticles.None? {
      outcome := Crashed(if articlesToProcess == [] then NoWorkers else DivisionByZero);
      return;
    }
    if cfg.llmClients == [] {
      outcome := Crashed(NoSummarizer);
      return;
    }
    var reportName := ReportStage(store, cfg, env, classifiedArticles.value);
    outcome := Completed(reportName);
  }

  /**
   * A run completes exactly when the classification stage can run (two or
   * more endpoints) or is skipped and a summarizing endpoint exists; which
   * exception ends it otherwise depends on the same two facts.
   */
  lemma CompletesIff(files: Files, reports: map<string, string>, cfg: Config, env: Env)
    ensures var r := Result(files, reports, cfg, env);
      var resumed := HasCheckpoint(files, ClassifiedName(cfg.prefix));
      (r.outcome.Completed? <==> |cfg.llmClients| >= 2 || (resumed && |cfg.llmClients| == 1)) &&
      (r.outcome == Crashed(NoSummarizer) <==> resumed && cfg.llmClients == []) &&
      (r.outcome == Crashed(NoWorkers) <==> !resumed && |cfg.llmClients| < 2 && FetchedOf(files, cfg, env) == []) &&
      (r.outcome.Completed? ==> r.outcome.reportName == ReportName(env.now))
  {
    OutcomeCases(files, reports, cfg, env);
  }

  /** The outcome of a run, by the checkpoint and the number of endpoints. */
  lemma OutcomeCases(files: Files, reports: map<string, string>, cfg: Config, env: Env)
    ensures Result(files, reports, cfg, env).outcome ==
      if !HasCheckpoint(files, ClassifiedName(cfg.prefix)) && |cfg.llmClients| < 2 then
        Crashed(if FetchedOf(files, cfg, env) == [] then NoWorkers else DivisionByZero)
      else if cfg.llmClients == [] then Crashed(NoSummarizer)
      else Completed(ReportName(env.now))
  {
    Untouched(files, cfg, env);
    if !HasCheckpoint(AfterFetch(files, cfg, env), ClassifiedName(cfg.prefix)) && |cfg.llmClients| < 2 {
    } else {
      assert Result(files, reports, cfg, env) == FinishRun(files, reports, cfg, env);
    }
  }

  /**
   * A run that raises keeps last week's snapshot and leaves this week's
   * scan in the fetch checkpoint; when that scan found articles, the next
   * run with the same prefix reuses it whatever its feeds and collaborators.
   */
  lemma ResumeAfterCrash(files: Files, reports: map<string, string>, cfg: Config, env: Env,
                         cfg2: Config, env2: Env)
    requires Result(files, reports, cfg, env).outcome.Crashed?
    requires cfg2.prefix == cfg.prefix
    ensures var r := Result(files, reports, cfg, env);
      r.reports == reports &&
      LoadFrom(r.files, LastWeekName(cfg.prefix)) == LoadFrom(files, LastWeekName(cfg.prefix)) &&
      WindowOf(r.files, cfg2) == WindowOf(files, cfg) &&
      LoadFrom(r.files, FetchedName(cfg.prefix)) == Some(FetchedOf(files, cfg, env)) &&
      (FetchedOf(files, cfg, env) != [] ==> FetchedOf(r.files, cfg2, env2) == FetchedOf(files, cfg, env))
  {
  }

  /**
   * After a completed run both working checkpoints are gone and the next
   * run's window is the steady one excluding exactly this week's classified
   * links, or the first-run one when nothing was classified.
   */
  lemma NextWeekWindow(files: Files, reports: map<string, string>, cfg: Config, env: Env)
    requires Result(files, reports, cfg, env).outcome.Completed?
    ensures var r := Result(files, reports, cfg, env);
      var fetched := AfterFetch(files, cfg, env);
      var classified := ClassifiedFor(fetched, FetchedOf(files, cfg, env), cfg, env);
      FetchedName(cfg.prefix) !in r.files && ClassifiedName(cfg.prefix) !in r.files &&
      LoadFrom(r.files, LastWeekName(cfg.prefix)) == Some(classified) &&
      WindowOf(r.files, cfg) == Lookback(Some(classified)) &&
      (classified != [] ==> WindowOf(r.files, cfg).days == SteadyDays) &&
      (classified == [] ==> WindowOf(r.files, cfg) == Window(FirstRunDays, {}))
  {
    var classifiedFile := ClassifiedName(cfg.prefix);
    CompletesIff(files, reports, cfg, env);
    Untouched(files, cfg, env);
    var fetched := AfterFetch(files, cfg, env);
    var classified := ClassifiedFor(fetched, FetchedOf(files, cfg, env), cfg, env);
    var saved := AfterClassify(files, cfg, env);
    assert saved[classifiedFile] == classified;
    assert Result(files, reports, cfg, env).files == Rotated(saved, cfg.prefix);
  }

  /**
   * The report of a completed run shows the placeholder when no topic was
   * summarized, and otherwise one section per summarized topic: a heading
   * decodes to a topic exactly when that topic is configured, carried by
   * some classified article and answered with a non-empty summary.
   */
  lemma ReportTopics(classified: seq<Item>, cfg: Config, env: Env, t: string)
    requires cfg.llmClients != []
    ensures var b := BodyFor(classified, cfg, env);
      var answer := Summarizer(cfg.llmClients[0], env.ask);
      var shown := t in cfg.interestingTopics && Summarized(answer, Group(classified, t));
      (b.NoArticles? ==> !shown) &&
      (b.Sections? ==> ((exists j :: 0 <= j < |b.sections| && Unescape(b.sections[j].heading) == t) <==> shown))
  {
    var topics := cfg.interestingTopics;
    var answer := Summarizer(cfg.llmClients[0], env.ask);
    var categorized := Categorize(classified, topics);
    var summaries := SummaryTable(categorized, answer);
    SummariesRenderable(classified, topics, answer);
    SummarizedTopics(classified, topics, answer, t);
    if summaries != [] {
      SectionFor(categorized, summaries, t);
    }
  }
}
