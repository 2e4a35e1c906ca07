/**
 * The lookback choice in `main` (rss_bot.py lines 264-272) and
 * `fetch_and_filter_rss` (lines 104-132).
 */
module Ingest {
  import opened Wrappers
  import opened PyStr
  import opened Items

  /** Days scanned when last week's snapshot holds articles. */
  const SteadyDays: nat := 8
  /** Days scanned on a first run (no snapshot, or an empty one). */
  const FirstRunDays: nat := 15

  /** How far back to scan, and which links were already reported. */
  datatype Window = Window(days: nat, exclude: set<string>)

  /** `main` lines 264-272: the window follows from the loaded `_last_week` snapshot. */
  function Lookback(lastWeek: Option<seq<Item>>): (w: Window)
    ensures lastWeek.Some? && lastWeek.value != [] ==>
      w.days == SteadyDays &&
      forall l :: l in w.exclude <==> exists k :: 0 <= k < |lastWeek.value| && lastWeek.value[k].link == l
    ensures lastWeek.None? || lastWeek.value == [] ==> w.days == FirstRunDays && w.exclude == {}
  {
    if lastWeek.Some? && lastWeek.value != [] then
      Window(SteadyDays, set a | a in lastWeek.value :: a.link)
    else
      Window(FirstRunDays, {})
  }

  /** The collaborator `feedparser.parse(url).entries`. */
  type Parser = string -> seq<Entry>

  /** The collaborator `get_article_full_content(link)`: extracted text or `None`. */
  type Fetcher = string -> Option<string>

  /** An entry is kept when it has a timestamp, is not older than the cutoff and is not excluded. */
  predicate Kept(e: Entry, cutoff: int, exclude: set<string>)
  {
    e.publishedParsed.Some? && e.publishedParsed.value >= cutoff && e.link !in exclude
  }

  /** The record built for a kept entry: the full text when it is non-empty, else the feed summary or `""`. */
  function ToItem(e: Entry, fullText: Option<string>): Item
    requires e.publishedParsed.Some?
  {
    Item(e.title, e.link,
         if Truthy(fullText) then fullText.value else e.summary.GetOr(""),
         FormatDate(e.publishedParsed.value), None)
  }

  /** The records one feed contributes, in the feed's entry order. */
  function KeptItems(entries: seq<Entry>, cutoff: int, exclude: set<string>, fetch: Fetcher): (r: seq<Item>)
    ensures forall k :: 0 <= k < |r| ==> r[k].category.None? && r[k].link !in exclude
  {
    if entries == [] then []
    else
      var e := entries[|entries| - 1];
      KeptItems(entries[..|entries| - 1], cutoff, exclude, fetch) +
      (if Kept(e, cutoff, exclude) then [ToItem(e, fetch(e.link))] else [])
  }

  /** The records of all feeds, feed after feed. */
  function Ingested(urls: seq<string>, parse: Parser, cutoff: int, exclude: set<string>, fetch: Fetcher): (r: seq<Item>)
    ensures forall k :: 0 <= k < |r| ==> r[k].category.None? && r[k].link !in exclude
  {
    if urls == [] then []
    else
      Ingested(urls[..|urls| - 1], parse, cutoff, exclude, fetch) +
      KeptItems(parse(urls[|urls| - 1]), cutoff, exclude, fetch)
  }

  /** `fetch_and_filter_rss`: nested loops over feeds and entries appending to `new_articles`. */
  method FetchAndFilter(feedUrls: seq<string>, parse: Parser, daysToScan: int, existingLinks: set<string>,
                        now: int, fetch: Fetcher)
    returns (newArticles: seq<Item>)
    ensures newArticles == Ingested(feedUrls, parse, now - daysToScan * SecondsPerDay, existingLinks, fetch)
  {
    var scanSince := now - daysToScan * SecondsPerDay;
    newArticles := [];
    for u := 0 to |feedUrls|
      invariant newArticles == Ingested(feedUrls[..u], parse, scanSince, existingLinks, fetch)
    {
      var entries := parse(feedUrls[u]);
      ghost var before := newArticles;
      for j := 0 to |entries|
        invariant newArticles == before + KeptItems(entries[..j], scanSince, existingLinks, fetch)
      {
        var entry := entries[j];
        assert entries[..j + 1][..j] == entries[..j];
        if entry.publishedParsed.Some? && entry.publishedParsed.value >= scanSince {
          if entry.link in existingLinks {
            continue;
          }
          var content := entry.summary.GetOr("");
          var fullContent := fetch(entry.link);
          if Truthy(fullContent) {
            content := fullContent.value;
          }
          newArticles := newArticles + [Item(entry.title, entry.link, content,
                                             FormatDate(entry.publishedParsed.value), None)];
        }
      }
      assert entries[..|entries|] == entries;
      assert feedUrls[..u + 1][..u] == feedUrls[..u];
    }
    assert feedUrls[..|feedUrls|] == feedUrls;
  }

  /** Feeds contribute in configuration order: scanning two lists of feeds concatenates their records. */
  lemma {:induction false} IngestedAppend(a: seq<string>, b: seq<string>, parse: Parser, cutoff: int,
                                          exclude: set<string>, fetch: Fetcher)
    ensures Ingested(a + b, parse, cutoff, exclude, fetch) ==
            Ingested(a, parse, cutoff, exclude, fetch) + Ingested(b, parse, cutoff, exclude, fetch)
    decreases |b|
  {
    if b == [] {
      assert a + b == a;
    } else {
      var b' := b[..|b| - 1];
      var last := KeptItems(parse(b[|b| - 1]), cutoff, exclude, fetch);
      assert (a + b)[..|a + b| - 1] == a + b';
      assert (a + b)[|a + b| - 1] == b[|b| - 1];
      assert Ingested(a + b, parse, cutoff, exclude, fetch) == Ingested(a + b', parse, cutoff, exclude, fetch) + last;
      IngestedAppend(a, b', parse, cutoff, exclude, fetch);
      assert Ingested(b, parse, cutoff, exclude, fetch) == Ingested(b', parse, cutoff, exclude, fetch) + last;
    }
  }

  /** Within a feed, entries contribute in the feed's order. */
  lemma {:induction false} KeptItemsAppend(a: seq<Entry>, b: seq<Entry>, cutoff: int, exclude: set<string>,
                                           fetch: Fetcher)
    ensures KeptItems(a + b, cutoff, exclude, fetch) ==
            KeptItems(a, cutoff, exclude, fetch) + KeptItems(b, cutoff, exclude, fetch)
    decreases |b|
  {
    if b == [] {
      assert a + b == a;
    } else {
      var b' := b[..|b| - 1];
      assert (a + b)[..|a + b| - 1] == a + b';
      KeptItemsAppend(a, b', cutoff, exclude, fetch);
    }
  }

  /** `x` is the record built from the kept entry `e`. */
  predicate BuiltFrom(x: Item, e: Entry, cutoff: int, exclude: set<string>, fetch: Fetcher)
  {
    Kept(e, cutoff, exclude) && x == ToItem(e, fetch(e.link))
  }

  lemma {:induction false} KeptItemsMember(entries: seq<Entry>, cutoff: int, exclude: set<string>,
                                           fetch: Fetcher, x: Item)
    ensures x in KeptItems(entries, cutoff, exclude, fetch) <==>
            exists e :: e in entries && BuiltFrom(x, e, cutoff, exclude, fetch)
    decreases |entries|
  {
    if entries != [] {
      var init, last := entries[..|entries| - 1], entries[|entries| - 1];
      assert entries == init + [last];
      KeptItemsMember(init, cutoff, exclude, fetch, x);
      var head := KeptItems(init, cutoff, exclude, fetch);
      var tail := if Kept(last, cutoff, exclude) then [ToItem(last, fetch(last.link))] else [];
      assert KeptItems(entries, cutoff, exclude, fetch) == head + tail;
      if x in head {
        var e :| e in init && BuiltFrom(x, e, cutoff, exclude, fetch);
        assert e in entries;
      }
      if x in tail {
        assert BuiltFrom(x, last, cutoff, exclude, fetch) && last in entries;
      }
      if exists e :: e in entries && BuiltFrom(x, e, cutoff, exclude, fetch) {
        var e :| e in entries && BuiltFrom(x, e, cutoff, exclude, fetch);
        if e != last {
          assert e in init;
        } else {
          assert x in tail;
        }
      }
    }
  }

  /**
   * A record is emitted exactly when some feed has a kept entry it is built
   * from: a timestamp at or after the cutoff and a link outside the
   * exclusion set.
   */
  lemma {:induction false} IngestedMember(urls: seq<string>, parse: Parser, cutoff: int, exclude: set<string>,
                                          fetch: Fetcher, x: Item)
    ensures x in Ingested(urls, parse, cutoff, exclude, fetch) <==>
            exists u, e :: u in urls && e in parse(u) && BuiltFrom(x, e, cutoff, exclude, fetch)
    decreases |urls|
  {
    if urls != [] {
      var init, last := urls[..|urls| - 1], urls[|urls| - 1];
      assert urls == init + [last];
      IngestedMember(init, parse, cutoff, exclude, fetch, x);
      KeptItemsMember(parse(last), cutoff, exclude, fetch, x);
      if exists u, e :: u in urls && e in parse(u) && BuiltFrom(x, e, cutoff, exclude, fetch) {
        var u, e :| u in urls && e in parse(u) && BuiltFrom(x, e, cutoff, exclude, fetch);
        if u != last {
          assert u in init;
        }
      }
    }
  }
}
