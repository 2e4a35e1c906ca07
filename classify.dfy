/**
 * The classification stage of `main` (rss_bot.py lines 284-302) and the
 * worker `classify_article_worker` (lines 136-154): round-robin dispatch
 * over `llm_clients[1:]`, write-back by index and the classified filter.
 */
module Classify {
  import opened Wrappers
  import opened PyStr
  import opened Seqs
  import opened Items
  import opened Think

  /** The answer a classifier gives when no topic applies (line 142). */
  const Unmatched: string := "其他"

  /** How much of an article's content the classification prompt embeds (line 149). */
  const ExcerptLength: nat := 500

  /**
   * Line 289: task `i` goes to `clients[i % num_clients]` with
   * `clients = llm_clients[1:]`, that is to `llm_clients[1 + i % (n - 1)]`;
   * `llm_clients[0]` is never a classifier.
   */
  function ClassifierIndex(i: nat, numClients: nat): (r: nat)
    requires numClients >= 2
    ensures 1 <= r < numClients
  {
    1 + i % (numClients - 1)
  }

  /** The endpoint that classifies task `i`, written as line 289 selects it from the slice. */
  function ClassifierFor(i: nat, llmClients: seq<Endpoint>): (e: Endpoint)
    requires |llmClients| >= 2
    ensures e == llmClients[ClassifierIndex(i, |llmClients|)]
  {
    var clients := llmClients[1..];
    clients[i % |clients|]
  }

  lemma MulAtLeast(d: nat, k: nat)
    requires d >= 1
    ensures d * k >= k
  {
  }

  /** Quotient and remainder are unique. */
  lemma ModOf(x: nat, k: nat, q: nat, r: nat)
    requires 0 <= r < k && x == q * k + r
    ensures x % k == r && x / k == q
  {
    var q', r' := x / k, x % k;
    assert x == q' * k + r';
    if q > q' {
      MulAtLeast(q - q', k);
    } else if q' > q {
      MulAtLeast(q' - q, k);
    }
  }

  /**
   * Round robin: the first task goes to endpoint 1, and each next task to the
   * next endpoint, wrapping from the last one back to endpoint 1.
   */
  lemma RoundRobinNext(i: nat, numClients: nat)
    requires numClients >= 2
    ensures ClassifierIndex(0, numClients) == 1
    ensures ClassifierIndex(i + 1, numClients) ==
            if ClassifierIndex(i, numClients) == numClients - 1 then 1 else ClassifierIndex(i, numClients) + 1
  {
    var k := numClients - 1;
    var q, r := i / k, i % k;
    assert i == q * k + r;
    if r + 1 < k {
      ModOf(i + 1, k, q, r + 1);
    } else {
      assert i + 1 == (q + 1) * k + 0;
      ModOf(i + 1, k, q + 1, 0);
    }
  }

  lemma Periodic(i: nat, numClients: nat)
    requires numClients >= 2
    ensures ClassifierIndex(i + (numClients - 1), numClients) == ClassifierIndex(i, numClients)
  {
    var k := numClients - 1;
    var q, r := i / k, i % k;
    assert i + k == (q + 1) * k + r;
    ModOf(i + k, k, q + 1, r);
  }

  /** How many of the tasks `0 .. m - 1` go to endpoint `j`. */
  function AssignedCount(m: nat, numClients: nat, j: nat): nat
    requires numClients >= 2
  {
    if m == 0 then 0
    else AssignedCount(m - 1, numClients, j) + (if ClassifierIndex(m - 1, numClients) == j then 1 else 0)
  }

  lemma {:induction false} FirstRound(m: nat, numClients: nat, j: nat)
    requires numClients >= 2 && m <= numClients - 1
    ensures AssignedCount(m, numClients, j) == if 1 <= j <= m then 1 else 0
  {
    if m > 0 {
      FirstRound(m - 1, numClients, j);
      ModOf(m - 1, numClients - 1, 0, m - 1);
    }
  }

  lemma {:induction false} NextRound(m: nat, numClients: nat, j: nat)
    requires numClients >= 2 && 1 <= j < numClients
    ensures AssignedCount(m + (numClients - 1), numClients, j) == AssignedCount(m, numClients, j) + 1
  {
    if m == 0 {
      FirstRound(numClients - 1, numClients, j);
    } else {
      NextRound(m - 1, numClients, j);
      Periodic(m - 1, numClients);
      assert m + (numClients - 1) - 1 == (m - 1) + (numClients - 1);
    }
  }

  /** The load is spread evenly: no classifier endpoint gets more than one task more than another. */
  lemma {:induction false} Balanced(m: nat, numClients: nat, j1: nat, j2: nat)
    requires numClients >= 2 && 1 <= j1 < numClients && 1 <= j2 < numClients
    ensures AssignedCount(m, numClients, j1) <= AssignedCount(m, numClients, j2) + 1
    decreases m
  {
    if m < numClients - 1 {
      FirstRound(m, numClients, j1);
      FirstRound(m, numClients, j2);
    } else {
      var m' := m - (numClients - 1);
      Balanced(m', numClients, j1, j2);
      NextRound(m', numClients, j1);
      NextRound(m', numClients, j2);
    }
  }

  /** The prompt `classify_article_worker` sends for one article. */
  function ClassifyRequest(article: Item, topics: seq<string>): Prompt
  {
    ClassifyPrompt(article.title, Prefix(article.content, ExcerptLength), topics)
  }

  /**
   * `executor.map` over the tasks, taken as the sequential map it is
   * observably: result `i` is task `i`'s cleaned answer, in input order.
   */
  function Dispatch(articles: seq<Item>, llmClients: seq<Endpoint>, topics: seq<string>, ask: Oracle)
    : (results: seq<Option<string>>)
    requires |llmClients| >= 2
    ensures |results| == |articles|
    ensures forall i :: 0 <= i < |results| ==>
      results[i] == LlmCall(ask(llmClients[ClassifierIndex(i, |llmClients|)], ClassifyRequest(articles[i], topics)))
  {
    var results := seq(|articles|, i requires 0 <= i < |articles| =>
      LlmCall(ask(ClassifierFor(i, llmClients), ClassifyRequest(articles[i], topics))));
    assert forall i :: 0 <= i < |results| ==>
      results[i] == LlmCall(ask(ClassifierFor(i, llmClients), ClassifyRequest(articles[i], topics)));
    results
  }

  /** Line 295: an answer is written back when it is non-empty and not the "no topic" answer. */
  predicate Accepted(answer: Option<string>)
  {
    Truthy(answer) && answer.value != Unmatched
  }

  /** Line 296 for one article: only the category can change. */
  function Relabel(article: Item, answer: Option<string>): (r: Item)
    ensures r.(category := article.category) == article
    ensures Accepted(answer) ==> r.category == answer
    ensures !Accepted(answer) ==> r == article
  {
    if Accepted(answer) then article.(category := answer) else article
  }

  function Relabeled(articles: seq<Item>, labels: seq<Option<string>>): seq<Item>
    requires |labels| == |articles|
  {
    seq(|articles|, i requires 0 <= i < |articles| => Relabel(articles[i], labels[i]))
  }

  /** Lines 294-296: results are written back by their original index, in place. */
  method WriteBack(articles: array<Item>, labels: seq<Option<string>>)
    requires |labels| == articles.Length
    modifies articles
    ensures articles[..] == Relabeled(old(articles[..]), labels)
  {
    for index := 0 to articles.Length
      invariant forall i :: 0 <= i < index ==> articles[i] == Relabel(old(articles[i]), labels[i])
      invariant forall i :: index <= i < articles.Length ==> articles[i] == old(articles[i])
    {
      var category := labels[index];
      if Truthy(category) && category.value != Unmatched {
        articles[index] := articles[index].(category := category);
      }
    }
  }

  predicate HasTopic(a: Item)
  {
    Truthy(a.category)
  }

  /** Line 298: `[a for a in articles_to_process if a['category']]`. */
  function ClassifiedOf(articles: seq<Item>): (r: seq<Item>)
    ensures |r| <= |articles|
    ensures forall k :: 0 <= k < |r| ==> r[k].category.Some? && r[k].category.value != []
  {
    Filter(HasTopic, articles)
  }

  /** Lines 287-298: dispatch, write back in place, keep the classified articles. */
  method ClassifyArticles(articles: seq<Item>, llmClients: seq<Endpoint>, topics: seq<string>, ask: Oracle)
    returns (classified: seq<Item>)
    requires |llmClients| >= 2
    ensures classified == ClassifiedOf(Relabeled(articles, Dispatch(articles, llmClients, topics, ask)))
  {
    var results := Dispatch(articles, llmClients, topics, ask);
    var toProcess := new Item[|articles|](i requires 0 <= i < |articles| => articles[i]);
    assert toProcess[..] == articles;
    WriteBack(toProcess, results);
    classified := ClassifiedOf(toProcess[..]);
  }

  /** How many labels are accepted. */
  function CountAccepted(labels: seq<Option<string>>): nat
  {
    if labels == [] then 0
    else CountAccepted(labels[..|labels| - 1]) + (if Accepted(labels[|labels| - 1]) then 1 else 0)
  }

  predicate Unclassified(articles: seq<Item>)
  {
    forall i :: 0 <= i < |articles| ==> articles[i].category.None?
  }

  /** The classified list keeps the order of the written-back list. */
  lemma ClassifiedOrder(articles: seq<Item>, labels: seq<Option<string>>)
    requires |labels| == |articles|
    ensures IsSubseq(ClassifiedOf(Relabeled(articles, labels)), Relabeled(articles, labels))
  {
    FilterIsSubseq(HasTopic, Relabeled(articles, labels));
  }

  /**
   * On freshly fetched articles (no category yet) the classified list holds
   * exactly the articles whose answer was accepted, each carrying that answer;
   * an article answered with the "no topic" label, an empty text or nothing
   * is dropped.
   */
  lemma ClassifiedMember(articles: seq<Item>, labels: seq<Option<string>>, x: Item)
    requires |labels| == |articles| && Unclassified(articles)
    ensures x in ClassifiedOf(Relabeled(articles, labels)) <==>
            exists i :: 0 <= i < |articles| && Accepted(labels[i]) && x == articles[i].(category := labels[i])
  {
    var r := Relabeled(articles, labels);
    FilterMember(HasTopic, r, x);
    if exists i :: 0 <= i < |articles| && Accepted(labels[i]) && x == articles[i].(category := labels[i]) {
      var i :| 0 <= i < |articles| && Accepted(labels[i]) && x == articles[i].(category := labels[i]);
      assert r[i] == x;
    }
    if x in r && HasTopic(x) {
      var i :| 0 <= i < |r| && r[i] == x;
      assert Accepted(labels[i]);
    }
  }

  /**
   * An article whose answer is not accepted (the "no topic" label, an empty
   * text or nothing) contributes nothing: the classified list is the one the
   * other articles and their answers give.
   */
  lemma UnmatchedDropped(articles: seq<Item>, labels: seq<Option<string>>, i: nat)
    requires |labels| == |articles| && Unclassified(articles)
    requires i < |articles| && !Accepted(labels[i])
    ensures ClassifiedOf(Relabeled(articles, labels)) ==
            ClassifiedOf(Relabeled(articles[..i] + articles[i + 1..], labels[..i] + labels[i + 1..]))
  {
    var r := Relabeled(articles, labels);
    var before := Relabeled(articles[..i], labels[..i]);
    var after := Relabeled(articles[i + 1..], labels[i + 1..]);
    assert r == before + [r[i]] + after;
    assert Relabeled(articles[..i] + articles[i + 1..], labels[..i] + labels[i + 1..]) == before + after;
    assert Filter(HasTopic, [r[i]]) == [] by {
      assert [r[i]][..0] == [];
    }
    FilterAppend(HasTopic, before + [r[i]], after);
    FilterAppend(HasTopic, before, [r[i]]);
    FilterAppend(HasTopic, before, after);
  }

  /** On freshly fetched articles the classified list has one entry per accepted answer. */
  lemma {:induction false} ClassifiedCount(articles: seq<Item>, labels: seq<Option<string>>)
    requires |labels| == |articles| && Unclassified(articles)
    ensures |ClassifiedOf(Relabeled(articles, labels))| == CountAccepted(labels)
    decreases |articles|
  {
    if articles != [] {
      var n := |articles| - 1;
      var r := Relabeled(articles, labels);
      ClassifiedCount(articles[..n], labels[..n]);
      assert r[..n] == Relabeled(articles[..n], labels[..n]);
      assert HasTopic(r[n]) == Accepted(labels[n]);
    }
  }
}
