/**
 * The JSON checkpoint files of `main` (rss_bot.py lines 32-42, 258-262 and
 * 328-339): a directory of named article lists that the run reads, writes,
 * deletes and renames, plus the HTML reports it writes.
 */
module Checkpoint {
  import opened Wrappers
  import opened Items

  /** The article lists on disk, by file name. */
  type Files = map<string, seq<Item>>

  /** Lines 260-262. */
  function LastWeekName(prefix: string): string { prefix + "_last_week.json" }
  function FetchedName(prefix: string): string { prefix + "_fetched.json" }
  function ClassifiedName(prefix: string): string { prefix + "_classified.json" }

  /** The three checkpoint names of one prefix are three different files. */
  lemma NamesDistinct(prefix: string)
    ensures LastWeekName(prefix) != FetchedName(prefix)
    ensures LastWeekName(prefix) != ClassifiedName(prefix)
    ensures FetchedName(prefix) != ClassifiedName(prefix)
  {
  }

  /** `load_cache` (lines 37-42): the stored list, or `None` when the file does not exist. */
  function LoadFrom(files: Files, name: string): (r: Option<seq<Item>>)
    ensures r.Some? <==> name in files
    ensures r.Some? ==> r.value == files[name]
  {
    if name in files then Some(files[name]) else None
  }

  /** `if not load_cache(name)` (lines 275 and 285) is false exactly for a stored non-empty list. */
  function HasCheckpoint(files: Files, name: string): (skip: bool)
    ensures skip <==> LoadFrom(files, name).Some? && LoadFrom(files, name).value != []
  {
    name in files && files[name] != []
  }

  /**
   * Lines 329-339 on the directory: drop last week's snapshot, promote this
   * week's classification, drop the fetch checkpoint. After rotation the
   * snapshot holds exactly this week's classification (and is absent when
   * there was none), both working checkpoints are gone, and every other file
   * is untouched.
   */
  function Rotated(files: Files, prefix: string): (r: Files)
    ensures LastWeekName(prefix) in r <==> ClassifiedName(prefix) in files
    ensures ClassifiedName(prefix) in files ==> r[LastWeekName(prefix)] == files[ClassifiedName(prefix)]
    ensures ClassifiedName(prefix) !in r && FetchedName(prefix) !in r
    ensures forall name :: name != LastWeekName(prefix) && name != ClassifiedName(prefix) && name != FetchedName(prefix) ==>
      (name in r <==> name in files) && (name in files ==> r[name] == files[name])
  {
    NamesDistinct(prefix);
    var lastWeek, classified, fetched := LastWeekName(prefix), ClassifiedName(prefix), FetchedName(prefix);
    var afterRemove := files - {lastWeek};
    var afterRename := if classified in afterRemove
                       then (afterRemove - {classified})[lastWeek := afterRemove[classified]]
                       else afterRemove;
    afterRename - {fetched}
  }

  /** The working directory as the run sees it. */
  class Store {
    /** The JSON checkpoint files. */
    var files: Files
    /** The HTML reports written so far. */
    var reports: map<string, string>

    constructor (files0: Files, reports0: map<string, string>)
      ensures files == files0 && reports == reports0
    {
      files := files0;
      reports := reports0;
    }

    /** `save_cache` (lines 32-35): the file is created or overwritten. */
    method Save(name: string, data: seq<Item>)
      modifies this
      ensures files == old(files)[name := data] && reports == old(reports)
    {
      files := files[name := data];
    }

    /** `os.remove` of an existing file. */
    method Remove(name: string)
      requires name in files
      modifies this
      ensures files == old(files) - {name} && reports == old(reports)
    {
      files := files - {name};
    }

    /** `os.rename` of an existing file; an existing target is replaced. */
    method Rename(src: string, dst: string)
      requires src in files
      modifies this
      ensures files == (old(files) - {src})[dst := old(files)[src]] && reports == old(reports)
    {
      files := (files - {src})[dst := files[src]];
    }

    /** The report write of lines 250-251. */
    method WriteReport(name: string, html: string)
      modifies this
      ensures reports == old(reports)[name := html] && files == old(files)
    {
      reports := reports[name := html];
    }

    /** Lines 328-339: each step runs only when its file exists. */
    method Rotate(prefix: string)
      modifies this
      ensures files == Rotated(old(files), prefix) && reports == old(reports)
    {
      var lastWeekFile, classifiedFile, fetchedFile :=
        LastWeekName(prefix), ClassifiedName(prefix), FetchedName(prefix);
      if lastWeekFile in files {
        Remove(lastWeekFile);
      }
      if classifiedFile in files {
        Rename(classifiedFile, lastWeekFile);
      }
      if fetchedFile in files {
        Remove(fetchedFile);
      }
    }
  }
}
