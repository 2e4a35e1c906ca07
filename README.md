# RSS summary bot, modelled in Dafny

A model of `rss_bot/rss_bot.py`, a weekly batch job that works in four stages:

1. It reads a list of RSS feeds and keeps the entries of the last 8 days (15 on a first run), skipping links classified last week.
2. A pool of text-generation endpoints sorts each article into one of the configured topics. It uses `llm_clients[1:]` round robin and strips `<think>…</think>` reasoning blocks from the answers.
3. `llm_clients[0]` writes one summary per topic that has articles.
4. It renders an HTML report with every piece of text HTML-escaped.

Three JSON checkpoint files make the run resumable: the fetched articles, the classified articles, and last week's classified articles. At the end of a successful run they are rotated.

The modules follow the program's parts:

| module | models |
|---|---|
| `Wrappers`, `Seqs`, `PyStr`, `PyDict` | `Option`; list filtering and `str.join`; `str.strip` and slicing; a Python dict as an insertion-ordered association list with `d[k] = v` |
| `Think` | the answer post-processing: `re.sub(r'<think>.*?</think>', '', …, flags=re.DOTALL).strip()` |
| `HtmlEscape` | `html.escape` together with its inverse, and the `\n` → `<br>` rewrite |
| `Items` | the article record, the endpoint record, the prompts, and the date format `%Y-%m-%d` |
| `Ingest` | the lookback window and `fetch_and_filter_rss` |
| `Classify` | round-robin dispatch, write-back by index into an array, and the classified filter |
| `Summarize` | grouping by topic, the summary prompt input, and the summary loop |
| `Report` | `generate_html_inline_css`: the report's structure, and the page text built by `+=` |
| `Checkpoint` | the checkpoint directory as a `Store` class: `load_cache`, `save_cache`, `os.remove`, `os.rename`, and the final rotation |
| `Pipeline` | `main` as a whole, including the paths on which it raises |

Each loop of the source is a method. It is proved equal to a function that states the same computation as a value, and the properties are lemmas about those functions.

The collaborators the job cannot see are parameters:
- the endpoints' answers: `Oracle`
- `feedparser.parse`: `Parser`
- the full-text scraper: `Fetcher`
- the clock: `now`, in naive local seconds

Behaviour of the code that the model follows:
- **No retry.** An endpoint is asked once. A network, key or index error gives `None`, and the article stays unclassified.
- **Sections per summary, not per topic.** The report shows one section per recorded summary, in the configured topic order. A topic whose group is empty, or whose summary came back empty, gets no section. The "no articles" placeholder appears exactly when no summary was recorded.
- **Labels are not checked.** A classifier's answer is accepted as long as it is non-empty and not `其他`, even when it is not a configured topic. Such an article is then in no group, so no report shows it (`Summarize.UnknownTopicInNoGroup`).
- **Classified is not reported.** The links skipped next week are those of this week's classified list (lines 298-300 and 333-334), not those of the report. An article can be classified and still appear in no report: its topic's summary answer was `None` or empty (line 318), or its label is not a configured topic (lines 305-307). The next run skips its link all the same, so such an article is used up without ever being reported (`Pipeline.NextWeekWindow`, `Pipeline.ReportTopics`).
- **No within-run deduplication.** Only last week's links are excluded. Two feeds that carry the same link both contribute it.
- **Rotation deletes, then renames.** Last week's file is deleted, the classified file is renamed over it, and the fetch file is deleted. A successful run that classified nothing saves `[]` at line 300, and lines 333-334 rename it to the snapshot. That run therefore leaves an empty snapshot, which the next run treats like a missing one: the next run is a first run again (`Pipeline.NextWeekWindow`).
- **Fewer than two endpoints.** With fewer than two configured endpoints the classification stage raises. With articles it raises `ZeroDivisionError` at line 289; without articles, `ThreadPoolExecutor(max_workers=0)` raises `ValueError` at line 291. With no endpoint at all, a run resumed from a classified checkpoint raises `IndexError` at line 310. A crash keeps last week's snapshot and leaves this week's scan in the fetch checkpoint. When that scan found articles, the next run with the same prefix reuses it and does not fetch again (`Pipeline.ResumeAfterCrash`). The `ThreadPoolExecutor` crash at line 291 happens only with an empty scan, so the run after it fetches again.

## Model

| member | source | states |
|---|---|---|
| PyStr.StripSpec | rss_bot/rss_bot.py:80 | `strip()` leaves no whitespace at either end and removes only whitespace, at both ends of the text |
| PyStr.StripTrimmed | rss_bot/rss_bot.py:80 | text without surrounding whitespace is unchanged by `strip()` |
| PyDict.Put | rss_bot/rss_bot.py:307 | `d[k] = v` keeps the key order and appends a new key at the end; afterwards `k` maps to `v`, every entry of another key is unchanged in place, and distinct keys stay distinct |
| Think.RemoveThink | rss_bot/rss_bot.py:79 | removing the reasoning blocks never lengthens the answer |
| Think.Clean | rss_bot/rss_bot.py:79-80 | the cleaned answer is empty or has no whitespace at either end, and is no longer than the raw answer |
| Think.LlmCall | rss_bot/rss_bot.py:46-87 | the call yields no text exactly when it failed; a text it yields has no whitespace at either end |
| Think.CleanWithoutThink | rss_bot/rss_bot.py:79-80 | an answer without `<think>` is only stripped |
| Think.RemoveLeftmostBlock | rss_bot/rss_bot.py:79 | the substitution removes the leftmost `<think>` up to the first `</think>` after it (the non-greedy match across newlines) and goes on after it |
| Think.UnclosedKept | rss_bot/rss_bot.py:79 | a `<think>` with no `</think>` after it does not match, so the text is kept unchanged |
| Think.CleanDropsReasoning | rss_bot/rss_bot.py:79-80 | a leading reasoning block and the whitespace around the answer are removed, leaving the stripped answer |
| HtmlEscape.Escape | rss_bot/rss_bot.py:214 | escaped text contains no raw `<`, `>`, `"` or `'` |
| HtmlEscape.UnescapeEscape | rss_bot/rss_bot.py:214 | decoding the entities recovers the original text exactly |
| HtmlEscape.EscapeInjective | rss_bot/rss_bot.py:214 | two different texts never escape to the same markup |
| HtmlEscape.EscapePlain | rss_bot/rss_bot.py:230-232 | text without `&<>"'` is embedded unchanged |
| HtmlEscape.NewlinesToBreaksSafe | rss_bot/rss_bot.py:215 | on escaped text, the newline rewrite yields only `<br>` tags and can be undone |
| HtmlEscape.FormatSummarySafe | rss_bot/rss_bot.py:215 | a formatted summary holds no markup but `<br>`, and turning breaks back into newlines and decoding gives the summary back |
| Ingest.Lookback | rss_bot/rss_bot.py:264-272 | a non-empty snapshot gives 8 days and excludes exactly its links; no snapshot, or an empty one, gives 15 days and excludes nothing |
| Ingest.KeptItems | rss_bot/rss_bot.py:111-130 | every record built has no category and a link that is not excluded |
| Ingest.Ingested | rss_bot/rss_bot.py:108-131 | every record of the scan has no category and a link that is not excluded |
| Ingest.FetchAndFilter | rss_bot/rss_bot.py:104-132 | the nested loops build exactly the scan of all feeds against the cutoff `now - days` |
| Ingest.IngestedAppend | rss_bot/rss_bot.py:108-110 | feeds contribute in configuration order: scanning `a + b` gives the records of `a` followed by those of `b` |
| Ingest.KeptItemsAppend | rss_bot/rss_bot.py:111 | entries contribute in feed order |
| Ingest.KeptItemsMember | rss_bot/rss_bot.py:111-130 | a record comes from a feed exactly when some entry is dated, is not older than the cutoff, is not excluded, and builds that record (full text if non-empty, else the summary or `""`) |
| Ingest.IngestedMember | rss_bot/rss_bot.py:104-132 | a record is in the scan exactly when some configured feed has an entry that builds it |
| Classify.ClassifierIndex | rss_bot/rss_bot.py:287-289 | a classification task never goes to the summarizing endpoint 0 |
| Classify.ClassifierFor | rss_bot/rss_bot.py:287-289 | `clients[i % num_clients]` on the slice `llm_clients[1:]` is `llm_clients[1 + i % (n - 1)]` |
| Classify.RoundRobinNext | rss_bot/rss_bot.py:289 | task 0 goes to endpoint 1, and each next task to the next endpoint, wrapping back to 1 |
| Classify.Periodic | rss_bot/rss_bot.py:289 | the assignment repeats every `n - 1` tasks |
| Classify.FirstRound | rss_bot/rss_bot.py:289 | in the first `n - 1` tasks each classifier gets at most one task, in order |
| Classify.NextRound | rss_bot/rss_bot.py:289 | every further `n - 1` tasks give each classifier exactly one more task |
| Classify.Balanced | rss_bot/rss_bot.py:289 | no classifier gets more than one task more than another |
| Classify.Dispatch | rss_bot/rss_bot.py:287-292 | one answer per article, in task order; the answer for article `i` is the cleaned reply of endpoint `llm_clients[1 + i % (n - 1)]` to that article's classification prompt |
| Classify.Relabel | rss_bot/rss_bot.py:295-296 | only the category can change; it becomes the answer exactly when the answer is non-empty and not `其他` |
| Classify.WriteBack | rss_bot/rss_bot.py:294-296 | writing back by index relabels each array element with its own task's answer, in place |
| Classify.ClassifiedOf | rss_bot/rss_bot.py:298 | the classified list is no longer than the article list and every article in it carries a non-empty category |
| Classify.ClassifyArticles | rss_bot/rss_bot.py:284-298 | the stage yields the relabelled articles that carry a category, with the answer for article `i` coming from its round-robin endpoint |
| Classify.ClassifiedOrder | rss_bot/rss_bot.py:298 | the classified list keeps the fetched order |
| Classify.ClassifiedMember | rss_bot/rss_bot.py:294-298 | on fresh articles, an article is classified exactly when its answer was accepted, and it then carries that answer |
| Classify.UnmatchedDropped | rss_bot/rss_bot.py:295-298 | an article answered with `其他`, an empty text or nothing contributes no entry: the classified list is the same as that of the other articles with their answers |
| Classify.ClassifiedCount | rss_bot/rss_bot.py:294-298 | on fresh articles, the classified list has one entry per accepted answer |
| Summarize.Group | rss_bot/rss_bot.py:307 | every article of a topic's group carries that topic |
| Summarize.GroupSpec | rss_bot/rss_bot.py:307 | a group holds exactly the classified articles of its topic, in classified order |
| Summarize.Categorize | rss_bot/rss_bot.py:305-307 | the grouping has distinct keys, at most one per configured topic, and each key maps to its topic's group |
| Summarize.BuildCategorized | rss_bot/rss_bot.py:305-307 | the loop builds the grouping of the classified articles by configured topic |
| Summarize.CategorizeSpec | rss_bot/rss_bot.py:305-307 | the grouping has each configured topic once, in order of first occurrence, mapped to its group |
| Summarize.UnknownTopicInNoGroup | rss_bot/rss_bot.py:305-307 | an article labelled with a topic that is not configured is in no group |
| Summarize.Block | rss_bot/rss_bot.py:316 | an article's block is the labelled title followed by the labelled first 1000 characters of its content, or all of it when shorter |
| Summarize.SummaryInput | rss_bot/rss_bot.py:315-317 | the joined prompt input is empty exactly when the group is empty |
| Summarize.SummaryInputContains | rss_bot/rss_bot.py:315-317 | each article's block (title and first 1000 characters) appears unbroken in the summary prompt |
| Summarize.SummaryTable | rss_bot/rss_bot.py:309-320 | at most one summary per group, and no recorded summary is empty |
| Summarize.BuildSummaries | rss_bot/rss_bot.py:309-320 | the loop asks once per non-empty group and records exactly the non-empty answers |
| Summarize.SummaryTableOrder | rss_bot/rss_bot.py:311-320 | summaries follow the grouping's topic order, each topic once |
| Summarize.SummaryTableStep | rss_bot/rss_bot.py:311-320 | each step appends its topic's summary or leaves the table as it was |
| Summarize.SummaryTableKeys | rss_bot/rss_bot.py:311-320 | a topic has a summary exactly when its group is non-empty and its answer is non-empty |
| Summarize.SummaryTableValue | rss_bot/rss_bot.py:318-320 | the recorded summary is that group's cleaned answer |
| Summarize.SummarizedTopics | rss_bot/rss_bot.py:305-320 | a topic has a summary exactly when it is configured, some classified article carries it, and the answer is non-empty |
| Summarize.SummaryKeysFollowTopics | rss_bot/rss_bot.py:305-320 | the summarized topics appear in the configured topic order |
| Report.BodyOf | rss_bot/rss_bot.py:210-239 | the body is the placeholder exactly when there are no summaries, and otherwise has one section per summary |
| Report.RenderLinks | rss_bot/rss_bot.py:229-236 | the `+=` loop writes one list entry per article, in group order |
| Report.RenderSection | rss_bot/rss_bot.py:212-237 | one section's markup is its heading, formatted summary, list and closing tags |
| Report.GenerateHtml | rss_bot/rss_bot.py:173-248 | the page is the header, the placeholder or the sections, and the footer |
| Report.SectionsDecode | rss_bot/rss_bot.py:212-237 | one section per summary, in order: heading, text and each link, title and date decode to the category, the summary and that category's articles, in order |
| Report.SectionsSafe | rss_bot/rss_bot.py:213-232 | no field holds a raw `<`, `>`, `"` or `'` apart from the summary's `<br>` tags |
| Report.PageShows | rss_bot/rss_bot.py:194-248 | the page shows the placeholder when there is nothing to report, and otherwise every section's markup, unbroken |
| Report.SectionFor | rss_bot/rss_bot.py:212-237 | some section's heading decodes to a topic exactly when that topic has a summary |
| Checkpoint.NamesDistinct | rss_bot/rss_bot.py:260-262 | the three checkpoint files of a prefix are distinct |
| Checkpoint.LoadFrom | rss_bot/rss_bot.py:37-42 | loading yields the stored list exactly when the file exists |
| Checkpoint.HasCheckpoint | rss_bot/rss_bot.py:274-285 | a checkpoint is used exactly when its file exists and holds a non-empty list |
| Checkpoint.Rotated | rss_bot/rss_bot.py:328-339 | after rotation the snapshot holds exactly this week's classified list (absent if there was none), both working files are gone, and every other file is untouched |
| Checkpoint.Store.Save | rss_bot/rss_bot.py:32-35 | the file is created or overwritten, nothing else changes |
| Checkpoint.Store.Remove | rss_bot/rss_bot.py:329-330 | an existing file is deleted, nothing else changes |
| Checkpoint.Store.Rename | rss_bot/rss_bot.py:333-334 | an existing file moves to the new name, replacing any file there |
| Checkpoint.Store.WriteReport | rss_bot/rss_bot.py:250-251 | the report file is written, the checkpoints are untouched |
| Checkpoint.Store.Rotate | rss_bot/rss_bot.py:328-339 | each guarded step of the clean-up, giving the rotated directory |
| Pipeline.SummariesRenderable | rss_bot/rss_bot.py:229 | every summarized category is a key of the grouping, so `categorized_articles[category]` never raises |
| Pipeline.FetchStage | rss_bot/rss_bot.py:264-281 | a non-empty fetch checkpoint is reused; otherwise the window's scan is made and saved |
| Pipeline.ClassifyStage | rss_bot/rss_bot.py:284-302 | a non-empty classified checkpoint is reused; otherwise the stage raises with fewer than two endpoints, or classifies and saves |
| Pipeline.ReportStage | rss_bot/rss_bot.py:304-339 | the report for the classified articles is written under the run's date, then the directory is rotated |
| Pipeline.FinishRun | rss_bot/rss_bot.py:296-339 | past line 291, a run that raises writes no report, and a completed one writes exactly one report, named after its date |
| Pipeline.Completion | rss_bot/rss_bot.py:324-339 | a completed run is named after its date, and its report is the only one added or changed |
| Pipeline.ReportWritten | rss_bot/rss_bot.py:256-341 | a run that raises writes no report; a completed run writes exactly one report, named after its date, and leaves every other report as it was |
| Pipeline.Untouched | rss_bot/rss_bot.py:274-300 | the fetch and classification stages never touch last week's snapshot, and the fetch stage never touches the classified checkpoint |
| Pipeline.OutcomeCases | rss_bot/rss_bot.py:284-310 | the outcome of a run follows from the classified checkpoint, the number of endpoints and whether the scan is empty |
| Pipeline.Run | rss_bot/rss_bot.py:256-341 | the run's outcome, checkpoint files and reports are those of the stage-by-stage description |
| Pipeline.CompletesIff | rss_bot/rss_bot.py:284-310 | a run completes exactly when there are two or more endpoints, or one endpoint and a classified checkpoint; each exception is matched to its condition |
| Pipeline.ResumeAfterCrash | rss_bot/rss_bot.py:274-300 | a failed run writes no report, keeps last week's snapshot and the window, and stores its scan; a non-empty scan is reused by the next run whatever its feeds and collaborators |
| Pipeline.NextWeekWindow | rss_bot/rss_bot.py:264-272 | after a completed run both working files are gone, the snapshot holds this week's classified list, and the next window is 8 days excluding exactly this week's classified links, or the first-run window when nothing was classified |
| Items.ZeroPad | rss_bot/rss_bot.py:129 | a padded number is at least the requested width |
| Items.ZeroPadValue | rss_bot/rss_bot.py:129 | a non-negative number is padded to a text of decimal digits that reads back as the number, exactly `width` characters long when the number fits in them |
| Items.FormatDate | rss_bot/rss_bot.py:324-325 | the `%Y-%m-%d` text of a day is at least ten characters |
| Pipeline.AsWrittenNeverCompletes | rss_bot/rss_bot.py:105-174 | the run as written always raises, writes no report and keeps last week's snapshot; without a fetch checkpoint it changes nothing |
| Pipeline.AsWrittenDiffers | rss_bot/rss_bot.py:11 | with two or more endpoints the intended run completes while the run as written raises `AttributeError` |
| Pipeline.ReportTopics | rss_bot/rss_bot.py:304-320 | the report has a section for a topic exactly when it is configured, some classified article carries it, and it got a non-empty summary; the placeholder shows no topic |

## Left out

- The HTTP request of `requests_based_llm_call` is abstracted as the `Oracle` parameter. This covers its headers, payload, temperature, timeout and `verify_ssl`. An answer is the `Option` of `choices[0].message.content`.
- A response body of the wrong shape is not modelled. A JSON list, a `choices` that is `null` (line 78), or a `content` that is not a string (line 79) makes the call raise `TypeError`. The call does not catch it, and it ends the whole run when line 294 takes that worker's result.
- The prompt texts of `classify_article_worker` and `summarize_articles` are abstracted to `Prompt` values. The values carry the parts these functions embed: the title, the first 500 or the first 1000 characters of the content, the topic list, and the joined blocks.
- The collaborators are pure functions: `Oracle`, `Parser` and `Fetcher` give equal answers to equal questions. In the source, sampling at temperature 0.7 (line 64) can give two equal prompts different answers, and a feed or a page can change between two requests. So where the source might label two equal articles differently in one run, the model labels them the same.
- `get_article_full_content`, which uses `requests` and BeautifulSoup, is the `Fetcher` parameter.
- `feedparser.parse` is the `Parser` parameter.
- Every `Entry` has a `title` and a `link`. In the source, reading a missing one as an attribute raises `AttributeError`: line 117 for an in-window entry without `link`, line 126 for a kept entry without `title`. Either ends the run before line 279 saves the scan, so `Pipeline.CompletesIff` holds only for feeds whose entries carry both fields.
- An entry's `published_parsed` arrives as already-converted local seconds. `time.mktime` and daylight-saving handling are not modelled.
- The clock is the parameter `now`. The pipeline that the other members use follows the evident intent of each clock call on its own line: lines 105, 114 and 174 use the class `datetime.datetime`, and line 324 uses the module's `datetime.date.today()` (see "## Findings").
- The report title date (line 174) and the report file name (line 324) are both taken from that one `now`.
- Items.FormatDate: only the length of the date text is proved, not the ranges of month and day. Years before 1000 are zero-padded to four digits, which the platform's `strftime` may not do.
- `load_config` is not modelled. The configuration is the `Config` parameter. A missing `config.json`, which exits, and a missing key, which raises `KeyError`, are not modelled.
- JSON encoding and decoding of the checkpoint files are not modelled. A file holds a list of article records. A malformed file is not modelled.
- Report files and checkpoint files are kept in two separate maps of the `Store`. Their names (`….html` and `….json`) never coincide.
- `ThreadPoolExecutor.map` is modelled as the sequential map it is observably: results arrive in task order and are written back by index. Thread interleaving is not modelled.
- The `styles` dictionary (lines 175-192) is left out, as are the `style` attributes and the whitespace of the f-string templates. The tags, attributes and texts are those of the source.
- Think.RemoveThink: its contract states only the length bound. What it removes is stated by `Think.RemoveLeftmostBlock` (a closed block) and `Think.UnclosedKept` (an unclosed one).
- Console output (`print`) is left out.

## Findings

| source | as written | input that shows it | evidently intended | confidence | as-written member | corrected member |
|---|---|---|---|---|---|---|
| rss_bot/rss_bot.py:11 | `import datetime` rebinds the name imported at line 6 to the module, so `datetime.now()` at lines 105 and 174 raises `AttributeError` | any run with two or more endpoints: without a fetch checkpoint it raises at line 105, otherwise at line 174 after summarizing | lines 105, 114 and 174 use the class imported at line 6, and line 324 uses the module's `date.today()`; with either single binding of the name a run raises (with the class, at line 324), so the intended run takes each call as its own line means it and completes | high, not executed | Pipeline.AsWrittenNeverCompletes | Pipeline.CompletesIff |

