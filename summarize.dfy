/**
 * Grouping by topic and the summary loop of `main` (rss_bot.py lines
 * 304-320) with `summarize_articles` (lines 157-168).
 */
module Summarize {
  import opened Wrappers
  import opened PyStr
  import opened Seqs
  import opened PyDict
  import opened Items
  import opened Think

  /** How much of an article's content a summary prompt embeds (line 316). */
  const BlockContentLength: nat := 1000

  /** The separator between article blocks (line 315). */
  const BlockSeparator: string := "\n\n---\n\n"

  /** `(topic, articles)` pairs in insertion order: `categorized_articles`. */
  type Groups = seq<(string, seq<Item>)>

  /** `(topic, summary)` pairs in insertion order: `summaries`. */
  type Summaries = seq<(string, string)>

  /** Line 307: `[a for a in classified_articles if a['category'] == topic]`. */
  function Group(classified: seq<Item>, topic: string): (g: seq<Item>)
    ensures forall k :: 0 <= k < |g| ==> g[k].category == Some(topic)
  {
    Filter((a: Item) => a.category == Some(topic), classified)
  }

  /**
   * Lines 305-307 as a value: each configured topic, in order of first
   * occurrence, with its group.
   */
  function Categorize(classified: seq<Item>, topics: seq<string>): (r: Groups)
    ensures DistinctKeys(r) && |r| <= |topics|
    ensures forall k :: 0 <= k < |r| ==> r[k].1 == Group(classified, r[k].0)
  {
    if topics == [] then []
    else
      var t := topics[|topics| - 1];
      Put(Categorize(classified, topics[..|topics| - 1]), t, Group(classified, t))
  }

  /** Lines 305-307: the loop filling `categorized_articles`. */
  method BuildCategorized(classified: seq<Item>, topics: seq<string>) returns (categorized: Groups)
    ensures categorized == Categorize(classified, topics)
  {
    categorized := [];
    for t := 0 to |topics|
      invariant categorized == Categorize(classified, topics[..t])
    {
      assert topics[..t + 1][..t] == topics[..t];
      assert topics[..t + 1][t] == topics[t];
      assert Categorize(classified, topics[..t + 1]) ==
             Put(Categorize(classified, topics[..t]), topics[t], Group(classified, topics[t]));
      categorized := Put(categorized, topics[t], Group(classified, topics[t]));
    }
    assert topics[..|topics|] == topics;
  }

  /**
   * `categorized_articles` has each configured topic once, in order of first
   * occurrence, and maps it to its group.
   */
  lemma {:induction false} CategorizeSpec(classified: seq<Item>, topics: seq<string>)
    ensures var d := Categorize(classified, topics);
      DistinctKeys(d) && Keys(d) == Dedup(topics) &&
      forall k :: 0 <= k < |d| ==> d[k].1 == Group(classified, d[k].0)
    decreases |topics|
  {
    if topics != [] {
      CategorizeSpec(classified, topics[..|topics| - 1]);
    }
  }

  /**
   * A group holds, in their classified order, exactly the classified articles
   * whose category is the topic.
   */
  lemma GroupSpec(classified: seq<Item>, topic: string, x: Item)
    ensures x in Group(classified, topic) <==> x in classified && x.category == Some(topic)
    ensures IsSubseq(Group(classified, topic), classified)
  {
    FilterMember((a: Item) => a.category == Some(topic), classified, x);
    FilterIsSubseq((a: Item) => a.category == Some(topic), classified);
  }

  /**
   * An article whose label is not a configured topic is in no group (the
   * classifier's answer is not checked against the topic list, so such an
   * article silently disappears here).
   */
  lemma UnknownTopicInNoGroup(classified: seq<Item>, topics: seq<string>, x: Item)
    requires x.category.Some? && x.category.value !in topics
    ensures forall k :: 0 <= k < |Categorize(classified, topics)| ==> x !in Categorize(classified, topics)[k].1
  {
  }

  /** Line 316: one article's block in the summary prompt. */
  function Block(a: Item): (b: string)
    ensures var head := "标题: " + a.title + "\n内容摘要: ";
      var n := if |a.content| < BlockContentLength then |a.content| else BlockContentLength;
      |b| == |head| + n && b[..|head|] == head && b[|head|..] == a.content[..n]
  {
    "标题: " + a.title + "\n内容摘要: " + Prefix(a.content, BlockContentLength)
  }

  /** Lines 315-317: the article blocks of a group joined by the separator. */
  function SummaryInput(articles: seq<Item>): (r: string)
    ensures r == [] <==> articles == []
  {
    var blocks := seq(|articles|, i requires 0 <= i < |articles| => Block(articles[i]));
    if articles != [] then
      JoinContains(BlockSeparator, blocks, 0);
      assert |blocks[0]| > 0;
      Join(BlockSeparator, blocks)
    else
      Join(BlockSeparator, blocks)
  }

  /** Every article of the group is embedded, unbroken, in its summary input. */
  lemma SummaryInputContains(articles: seq<Item>, i: nat)
    requires i < |articles|
    ensures IsInfix(Block(articles[i]), SummaryInput(articles))
  {
    JoinContains(BlockSeparator, seq(|articles|, i requires 0 <= i < |articles| => Block(articles[i])), i);
  }

  /** Line 318: the cleaned answer of the summarizing endpoint for one group. */
  function SummaryOf(summarizer: Endpoint, ask: Oracle, articles: seq<Item>): Option<string>
  {
    LlmCall(ask(summarizer, SummaryPrompt(SummaryInput(articles))))
  }

  /** The cleaned answer for each group, as `SummaryOf` gives it for a fixed endpoint and collaborator. */
  type Answers = seq<Item> -> Option<string>

  function Summarizer(summarizer: Endpoint, ask: Oracle): Answers
  {
    (articles: seq<Item>) => SummaryOf(summarizer, ask, articles)
  }

  /** Whether the loop of lines 311-320 records a summary for a group. */
  predicate Summarized(answer: Answers, articles: seq<Item>)
  {
    articles != [] && Truthy(answer(articles))
  }

  /** Lines 309-320 as a value: `summaries` after the loop. */
  function SummaryTable(categorized: Groups, answer: Answers): (r: Summaries)
    ensures |r| <= |categorized|
    ensures forall j :: 0 <= j < |r| ==> r[j].1 != []
  {
    if categorized == [] then []
    else
      var table := SummaryTable(categorized[..|categorized| - 1], answer);
      var (category, articles) := categorized[|categorized| - 1];
      if !Summarized(answer, articles) then table
      else Put(table, category, answer(articles).value)
  }

  /** Lines 309-320: one request per non-empty group, keeping the non-empty answers. */
  method BuildSummaries(categorized: Groups, summarizer: Endpoint, ask: Oracle) returns (summaries: Summaries)
    ensures summaries == SummaryTable(categorized, Summarizer(summarizer, ask))
  {
    summaries := [];
    for c := 0 to |categorized|
      invariant summaries == SummaryTable(categorized[..c], Summarizer(summarizer, ask))
    {
      assert categorized[..c + 1][..c] == categorized[..c];
      var (category, articles) := categorized[c];
      if articles == [] {
        continue;
      }
      var combinedContent := SummaryInput(articles);
      var summary := LlmCall(ask(summarizer, SummaryPrompt(combinedContent)));
      if Truthy(summary) {
        summaries := Put(summaries, category, summary.value);
      }
    }
    assert categorized[..|categorized|] == categorized;
  }

  /** The summaries follow the order of `categorized` (so the configured topic order), each topic once. */
  lemma {:induction false} SummaryTableOrder(categorized: Groups, answer: Answers)
    requires DistinctKeys(categorized)
    ensures DistinctKeys(SummaryTable(categorized, answer))
    ensures IsSubseq(Keys(SummaryTable(categorized, answer)), Keys(categorized))
    decreases |categorized|
  {
    if categorized != [] {
      var n := |categorized| - 1;
      var init := categorized[..n];
      SummaryTableOrder(init, answer);
      var before := SummaryTable(init, answer);
      var keys := Keys(categorized);
      assert keys[..n] == Keys(init);
      var (category, articles) := categorized[n];
      if Summarized(answer, articles) {
        if category in Keys(before) {
          SubseqMember(Keys(before), Keys(init), category);
        }
        var table := before + [(category, answer(articles).value)];
        assert Keys(table)[..|before|] == Keys(before);
      }
    }
  }

  /** One step of the loop of lines 311-320. */
  lemma SummaryTableStep(categorized: Groups, answer: Answers)
    requires categorized != [] && DistinctKeys(categorized)
    ensures var n := |categorized| - 1;
      var before := SummaryTable(categorized[..n], answer);
      var (category, articles) := categorized[n];
      category !in Keys(before) &&
      SummaryTable(categorized, answer) ==
        if Summarized(answer, articles)
        then before + [(category, answer(articles).value)]
        else before
  {
    var n := |categorized| - 1;
    var init := categorized[..n];
    SummaryTableOrder(init, answer);
    var before := SummaryTable(init, answer);
    var category := categorized[n].0;
    assert category !in Keys(init) by {
      forall j | 0 <= j < n ensures Keys(init)[j] != category {
        assert categorized[j].0 != categorized[n].0;
      }
    }
    if category in Keys(before) {
      SubseqMember(Keys(before), Keys(init), category);
    }
  }

  /** A topic has a summary exactly when its group is non-empty and its answer is non-empty. */
  lemma {:induction false} SummaryTableKeys(categorized: Groups, answer: Answers)
    requires DistinctKeys(categorized)
    ensures forall k :: 0 <= k < |categorized| ==>
      (categorized[k].0 in Keys(SummaryTable(categorized, answer)) <==>
       Summarized(answer, categorized[k].1))
    decreases |categorized|
  {
    if categorized != [] {
      var n := |categorized| - 1;
      var init := categorized[..n];
      SummaryTableKeys(init, answer);
      SummaryTableStep(categorized, answer);
      var table := SummaryTable(categorized, answer);
      var before := SummaryTable(init, answer);
      var category := categorized[n].0;
      assert Keys(table) == Keys(before) || Keys(table) == Keys(before) + [category];
      forall k | 0 <= k < |categorized|
        ensures categorized[k].0 in Keys(table) <==> Summarized(answer, categorized[k].1)
      {
        if k < n {
          assert init[k] == categorized[k];
          assert categorized[k].0 != category;
        }
      }
    }
  }

  /** A recorded summary is the cleaned answer for that topic's group. */
  lemma {:induction false} SummaryTableValue(categorized: Groups, answer: Answers, k: nat)
    requires DistinctKeys(categorized) && k < |categorized| && Summarized(answer, categorized[k].1)
    ensures categorized[k].0 in Keys(SummaryTable(categorized, answer))
    ensures Lookup(SummaryTable(categorized, answer), categorized[k].0) ==
            answer(categorized[k].1).value
    decreases |categorized|
  {
    var n := |categorized| - 1;
    var init := categorized[..n];
    var table := SummaryTable(categorized, answer);
    var before := SummaryTable(init, answer);
    var category, articles := categorized[n].0, categorized[n].1;
    var v := answer(articles).GetOr([]);
    SummaryTableStep(categorized, answer);
    if k == n {
      assert table == before + [(category, v)];
      SummaryTableOrder(categorized, answer);
      LookupAt(table, |before|);
    } else {
      assert init[k] == categorized[k];
      SummaryTableValue(init, answer, k);
      if Summarized(answer, articles) {
        assert table == before + [(category, v)];
        LookupAppend(before, [(category, v)], categorized[k].0);
      } else {
        assert table == before;
      }
    }
  }

  /**
   * A topic gets a summary exactly when it is configured, some classified
   * article carries it, and its answer is non-empty.
   */
  lemma SummarizedTopics(classified: seq<Item>, topics: seq<string>, answer: Answers, t: string)
    ensures t in Keys(SummaryTable(Categorize(classified, topics), answer)) <==>
            t in topics && Summarized(answer, Group(classified, t))
  {
    var d := Categorize(classified, topics);
    var table := SummaryTable(d, answer);
    CategorizeSpec(classified, topics);
    SummaryTableKeys(d, answer);
    SummaryTableOrder(d, answer);
    if t in Keys(table) {
      SubseqMember(Keys(table), Keys(d), t);
    }
    if t in Keys(d) {
      var k :| 0 <= k < |d| && Keys(d)[k] == t;
      assert d[k].0 == t;
    }
  }

  /** The summaries are iterated in the configured topic order. */
  lemma SummaryKeysFollowTopics(classified: seq<Item>, topics: seq<string>, answer: Answers)
    ensures IsSubseq(Keys(SummaryTable(Categorize(classified, topics), answer)), topics)
  {
    var d := Categorize(classified, topics);
    CategorizeSpec(classified, topics);
    SummaryTableOrder(d, answer);
    DedupIsSubseq(topics);
    SubseqTrans(Keys(SummaryTable(d, answer)), Keys(d), topics);
  }
}
