/**
 * `generate_html_inline_css` (rss_bot.py lines 173-252): the report's
 * structure and the markup built around it. The inline styles are left
 * out; the tags and texts are those of the source.
 */
module Report {
  import opened Items
  import opened PyDict
  import opened HtmlEscape
  import opened Summarize
  import opened Seqs

  /** Line 211: shown instead of any section when there are no summaries. */
  const NoArticlesText: string := "<p>本周没有发现与您感兴趣话题相关的新文章。</p>"

  /** One list entry of a section, every field already escaped. */
  datatype ArticleLink = ArticleLink(href: string, title: string, published: string)

  /** One topic's section: escaped heading, formatted summary, the topic's articles. */
  datatype Section = Section(heading: string, summary: string, articles: seq<ArticleLink>)

  /** The part of the report between its header and its footer. */
  datatype Body = NoArticles | Sections(sections: seq<Section>)

  /** Lines 230-232. */
  function LinkOf(a: Item): ArticleLink
  {
    ArticleLink(Escape(a.link), Escape(a.title), Escape(a.published))
  }

  function LinksOf(articles: seq<Item>): seq<ArticleLink>
  {
    seq(|articles|, i requires 0 <= i < |articles| => LinkOf(articles[i]))
  }

  /** Lines 214-215 and 229-238 for one `(category, summary)` pair. */
  function SectionOf(category: string, summary: string, articles: seq<Item>): Section
  {
    Section(Escape(category), FormatSummary(summary), LinksOf(articles))
  }

  /** Line 229 looks every summary's category up in `categorized_articles`. */
  predicate Renderable(categorized: Groups, summaries: Summaries)
  {
    forall j :: 0 <= j < |summaries| ==> summaries[j].0 in Keys(categorized)
  }

  /** Lines 210-239 as a value: a placeholder, or one section per summary in the summaries' order. */
  function BodyOf(categorized: Groups, summaries: Summaries): (b: Body)
    requires Renderable(categorized, summaries)
    ensures b.NoArticles? <==> summaries == []
    ensures b.Sections? ==> |b.sections| == |summaries|
  {
    if summaries == [] then NoArticles
    else Sections(seq(|summaries|, j requires 0 <= j < |summaries| =>
                    SectionOf(summaries[j].0, summaries[j].1, Lookup(categorized, summaries[j].0))))
  }

  function Header(reportDate: string): string
  {
    "<!DOCTYPE html><html lang=\"zh-CN\"><head><meta charset=\"UTF-8\">" +
    "<meta name=\"viewport\" content=\"width=device-width, initial-scale=1.0\">" +
    "<title>每周RSS动态总结 - " + reportDate + "</title></head><body><div><div>" +
    "<h1>每周 RSS 动态总结</h1><p class=\"date\">" + reportDate + "</p></div>"
  }

  const Footer: string := "<div><p>由 RSS Summary Bot 自动生成</p></div></div></body></html>"

  const SectionClose: string := "</ul></div></div>"

  function SectionOpen(s: Section): string
  {
    "<div><h2>" + s.heading + "</h2><div><h3>本周总结</h3><p>" + s.summary +
    "</p></div><div><h4>相关文章</h4><ul>"
  }

  function LinkHtml(l: ArticleLink): string
  {
    "<li><a href=\"" + l.href + "\" target=\"_blank\" rel=\"noopener noreferrer\">" + l.title +
    "</a><span>- " + l.published + "</span></li>"
  }

  function LinksHtml(ls: seq<ArticleLink>): string
  {
    if ls == [] then "" else LinksHtml(ls[..|ls| - 1]) + LinkHtml(ls[|ls| - 1])
  }

  function SectionHtml(s: Section): string
  {
    SectionOpen(s) + LinksHtml(s.articles) + SectionClose
  }

  function SectionsHtml(ss: seq<Section>): string
  {
    if ss == [] then "" else SectionsHtml(ss[..|ss| - 1]) + SectionHtml(ss[|ss| - 1])
  }

  function BodyHtml(b: Body): string
  {
    match b
    case NoArticles => NoArticlesText
    case Sections(ss) => SectionsHtml(ss)
  }

  /** The document text: header, body, footer; `html_content` after line 248. */
  function Page(reportDate: string, b: Body): string
  {
    Header(reportDate) + BodyHtml(b) + Footer
  }

  /** Each section's markup lies unbroken in the markup of all sections. */
  lemma {:induction false} SectionsHtmlContains(ss: seq<Section>, j: nat)
    requires j < |ss|
    ensures IsInfix(SectionHtml(ss[j]), SectionsHtml(ss))
    decreases |ss|
  {
    var init := ss[..|ss| - 1];
    var last := SectionHtml(ss[|ss| - 1]);
    assert SectionsHtml(ss) == SectionsHtml(init) + last;
    if j < |ss| - 1 {
      SectionsHtmlContains(init, j);
      assert init[j] == ss[j];
      InfixExtend(SectionHtml(ss[j]), SectionsHtml(init), last);
    } else {
      assert last[0..|last|] == last;
      assert InfixAt(last, last, 0);
      InfixExtend(last, SectionsHtml(init), last);
    }
  }

  /**
   * The page shows what its body holds: the placeholder when there is
   * nothing to report, and otherwise every section's markup, unbroken.
   */
  lemma PageShows(reportDate: string, b: Body)
    ensures b.NoArticles? ==> IsInfix(NoArticlesText, Page(reportDate, b))
    ensures b.Sections? ==>
      forall j :: 0 <= j < |b.sections| ==> IsInfix(SectionHtml(b.sections[j]), Page(reportDate, b))
  {
    var h, m := Header(reportDate), BodyHtml(b);
    assert Page(reportDate, b) == h + m + Footer;
    if b.NoArticles? {
      InfixSelf(m);
      InfixAround(m, h, m, Footer);
    } else {
      forall j | 0 <= j < |b.sections|
        ensures IsInfix(SectionHtml(b.sections[j]), Page(reportDate, b))
      {
        SectionsHtmlContains(b.sections, j);
        InfixAround(SectionHtml(b.sections[j]), h, m, Footer);
      }
    }
  }

  /** Lines 230-236: the list entries of one section, built up by `+=`. */
  method RenderLinks(articles: seq<Item>) returns (out: string)
    ensures out == LinksHtml(LinksOf(articles))
  {
    out := "";
    ghost var links := LinksOf(articles);
    for i := 0 to |articles|
      invariant out == LinksHtml(links[..i])
    {
      var safeTitle := Escape(articles[i].title);
      var safeLink := Escape(articles[i].link);
      var safePublished := Escape(articles[i].published);
      assert links[..i + 1][..i] == links[..i];
      out := out + LinkHtml(ArticleLink(safeLink, safeTitle, safePublished));
    }
    assert links[..|articles|] == links;
  }

  /** Lines 214-238: one section, built up by `+=`. */
  method RenderSection(category: string, summary: string, articles: seq<Item>) returns (out: string)
    ensures out == SectionHtml(SectionOf(category, summary, articles))
  {
    var section := Section(Escape(category), FormatSummary(summary), LinksOf(articles));
    var links := RenderLinks(articles);
    out := SectionOpen(section) + links + SectionClose;
  }

  /**
   * Lines 194-248: `html_content` built up by `+=`. The sections are gathered
   * first and put between header and footer at the end, which gives the same
   * text since concatenation is associative.
   */
  method GenerateHtml(categorized: Groups, summaries: Summaries, reportDate: string) returns (html: string)
    requires Renderable(categorized, summaries)
    ensures html == Page(reportDate, BodyOf(categorized, summaries))
  {
    var body := "";
    if summaries == [] {
      body := NoArticlesText;
    } else {
      ghost var sections := BodyOf(categorized, summaries).sections;
      for j := 0 to |summaries|
        invariant body == SectionsHtml(sections[..j])
      {
        var (category, summary) := summaries[j];
        var section := RenderSection(category, summary, Lookup(categorized, category));
        assert sections[..j + 1][..j] == sections[..j];
        body := body + section;
      }
      assert sections[..|summaries|] == sections;
    }
    html := Header(reportDate) + body + Footer;
  }

  /**
   * Otherwise there is one section per summary, in the summaries' order: its
   * heading decodes to the category, its text to the summary, and its list
   * to that category's articles (link, title and date), in their order.
   */
  lemma SectionsDecode(categorized: Groups, summaries: Summaries)
    requires Renderable(categorized, summaries) && summaries != []
    ensures var ss := BodyOf(categorized, summaries).sections;
      |ss| == |summaries| &&
      forall j :: 0 <= j < |ss| ==>
        Unescape(ss[j].heading) == summaries[j].0 &&
        Unescape(BreaksToNewlines(ss[j].summary)) == summaries[j].1 &&
        |ss[j].articles| == |Lookup(categorized, summaries[j].0)| &&
        forall i :: 0 <= i < |ss[j].articles| ==>
          var a := Lookup(categorized, summaries[j].0)[i];
          Unescape(ss[j].articles[i].href) == a.link &&
          Unescape(ss[j].articles[i].title) == a.title &&
          Unescape(ss[j].articles[i].published) == a.published
  {
    var ss := BodyOf(categorized, summaries).sections;
    forall j | 0 <= j < |ss|
      ensures Unescape(ss[j].heading) == summaries[j].0
      ensures Unescape(BreaksToNewlines(ss[j].summary)) == summaries[j].1
      ensures forall i :: 0 <= i < |ss[j].articles| ==>
          var a := Lookup(categorized, summaries[j].0)[i];
          Unescape(ss[j].articles[i].href) == a.link &&
          Unescape(ss[j].articles[i].title) == a.title &&
          Unescape(ss[j].articles[i].published) == a.published
    {
      UnescapeEscape(summaries[j].0);
      FormatSummarySafe(summaries[j].1);
      var articles := Lookup(categorized, summaries[j].0);
      forall i | 0 <= i < |articles|
        ensures Unescape(ss[j].articles[i].href) == articles[i].link
        ensures Unescape(ss[j].articles[i].title) == articles[i].title
        ensures Unescape(ss[j].articles[i].published) == articles[i].published
      {
        UnescapeEscape(articles[i].link);
        UnescapeEscape(articles[i].title);
        UnescapeEscape(articles[i].published);
      }
    }
  }

  /** No section field holds a raw `<`, `>`, `"` or `'`, except the `<br>` tags of a summary. */
  lemma SectionsSafe(categorized: Groups, summaries: Summaries)
    requires Renderable(categorized, summaries) && summaries != []
    ensures var ss := BodyOf(categorized, summaries).sections;
      forall j :: 0 <= j < |ss| ==>
        (forall k :: 0 <= k < |ss[j].heading| ==> !Raw(ss[j].heading[k])) &&
        BreaksOnly(ss[j].summary) &&
        forall i :: 0 <= i < |ss[j].articles| ==>
          (forall k :: 0 <= k < |ss[j].articles[i].href| ==> !Raw(ss[j].articles[i].href[k])) &&
          (forall k :: 0 <= k < |ss[j].articles[i].title| ==> !Raw(ss[j].articles[i].title[k])) &&
          (forall k :: 0 <= k < |ss[j].articles[i].published| ==> !Raw(ss[j].articles[i].published[k]))
  {
    var ss := BodyOf(categorized, summaries).sections;
    forall j | 0 <= j < |ss| ensures BreaksOnly(ss[j].summary) {
      FormatSummarySafe(summaries[j].1);
    }
  }

  /** A section heading decodes to `t` exactly when `t` has a summary. */
  lemma SectionFor(categorized: Groups, summaries: Summaries, t: string)
    requires Renderable(categorized, summaries) && summaries != []
    ensures var ss := BodyOf(categorized, summaries).sections;
      (exists j :: 0 <= j < |ss| && Unescape(ss[j].heading) == t) <==> t in Keys(summaries)
  {
    var ss := BodyOf(categorized, summaries).sections;
    SectionsDecode(categorized, summaries);
    if t in Keys(summaries) {
      var j :| 0 <= j < |summaries| && Keys(summaries)[j] == t;
      assert Unescape(ss[j].heading) == t;
    }
    if exists j :: 0 <= j < |ss| && Unescape(ss[j].heading) == t {
      var j :| 0 <= j < |ss| && Unescape(ss[j].heading) == t;
      assert Keys(summaries)[j] == t;
    }
  }
}
