/**
 * The JSON-LD rules of the `SEO` component (src/components/SEO.tsx): the keyword merge, the
 * canonical address, the fallbacks of the article schema, and the conditions under which each
 * schema block exists. Blocks made only of literals are not modelled field by field.
 */
module Seo {
  import opened Wrappers
  import opened Strings
  import opened Seqs
  import FormEncoding
  import TextUtils

  // ---- allKeywords ----

  const RampurHi := "\U{0930}\U{093E}\U{092E}\U{092A}\U{0941}\U{0930}"
  const NewsHi := "\U{0928}\U{094D}\U{092F}\U{0942}\U{091C}\U{093C}"
  const SamacharHi := "\U{0938}\U{092E}\U{093E}\U{091A}\U{093E}\U{0930}"

  /** `defaultKeywords`, in the source's order. */
  const DefaultKeywords: seq<string> := [
    RampurHi,
    RampurHi + " " + NewsHi,
    "Rampur News",
    "\U{0909}\U{0924}\U{094D}\U{0924}\U{0930} \U{092A}\U{094D}\U{0930}\U{0926}\U{0947}\U{0936}",
    "\U{0939}\U{093F}\U{0902}\U{0926}\U{0940} " + SamacharHi,
    "\U{0924}\U{093E}\U{091C}\U{093C}\U{093E} \U{0916}\U{092C}\U{0930}\U{0947}\U{0902}",
    "Hindi News",
    "UP News",
    RampurHi + " " + SamacharHi,
    "\U{0932}\U{094B}\U{0915}\U{0932} " + NewsHi,
    "\U{092C}\U{094D}\U{0930}\U{0947}\U{0915}\U{093F}\U{0902}\U{0917} " + NewsHi]

  /** The list after the `forEach` has seen `keywords`: each keyword not yet present is appended. */
  function Merged(defaults: seq<string>, keywords: seq<string>): (r: seq<string>)
    ensures |r| >= |defaults|
  {
    if keywords == [] then defaults
    else
      var m := Merged(defaults, keywords[..|keywords| - 1]);
      var k := keywords[|keywords| - 1];
      if k in m then m else m + [k]
  }

  /** `const allKeywords = defaultKeywords.slice(); keywords.forEach(...)`. */
  method MergeKeywords(defaults: seq<string>, keywords: seq<string>) returns (all: seq<string>)
    ensures all == Merged(defaults, keywords)
  {
    all := defaults;
    for i := 0 to |keywords|
      invariant all == Merged(defaults, keywords[..i])
    {
      assert keywords[..i + 1][..i] == keywords[..i];
      if keywords[i] !in all {
        all := all + [keywords[i]];
      }
    }
    assert keywords[..|keywords|] == keywords;
  }

  /** The defaults stay in front, and every keyword appears in the result, which holds nothing else. */
  lemma {:induction false} MergedContents(defaults: seq<string>, keywords: seq<string>)
    ensures Merged(defaults, keywords)[..|defaults|] == defaults
    ensures forall k :: k in keywords ==> k in Merged(defaults, keywords)
    ensures forall k :: k in Merged(defaults, keywords) ==> k in defaults || k in keywords
  {
    if keywords != [] {
      var init := keywords[..|keywords| - 1];
      MergedContents(defaults, init);
      var m := Merged(defaults, init);
      var x := keywords[|keywords| - 1];
      assert keywords == init + [x];
      if x !in m {
        assert (m + [x])[..|defaults|] == m[..|defaults|];
      }
    }
  }

  function Same(s: string): string {
    s
  }

  /** With distinct defaults, the merge is `uniq` of the defaults followed by the keywords, comparing exactly. */
  lemma {:induction false} MergedIsUniq(defaults: seq<string>, keywords: seq<string>)
    requires TextUtils.DistinctKeys(defaults, Same)
    ensures Merged(defaults, keywords) == TextUtils.FirstOccurrences(defaults + keywords, Same)
  {
    if keywords == [] {
      assert defaults + keywords == defaults;
      TextUtils.FirstOccurrencesOfDistinct(defaults, Same);
    } else {
      var init := keywords[..|keywords| - 1];
      var x := keywords[|keywords| - 1];
      MergedIsUniq(defaults, init);
      var all := defaults + keywords;
      var pre := defaults + init;
      assert all[..|all| - 1] == pre && all[|all| - 1] == x;
      assert TextUtils.FirstOccurrences(all, Same)
          == TextUtils.FirstOccurrences(pre, Same) + (if Same(x) in TextUtils.KeysOf(pre, Same) then [] else [x]);
      var m := Merged(defaults, init);
      TextUtils.FirstOccurrencesKeys(pre, Same);
      KeysOfSame(m);
      assert (x in m) == (Same(x) in TextUtils.KeysOf(pre, Same));
    }
  }

  lemma KeysOfSame(s: seq<string>)
    ensures forall x :: x in TextUtils.KeysOf(s, Same) <==> x in s
  {
    forall x | x in s ensures x in TextUtils.KeysOf(s, Same) {
      var i :| 0 <= i < |s| && s[i] == x;
      assert Same(s[i]) == x;
    }
  }

  /** The merged list has no duplicates when the defaults have none. */
  lemma MergedDistinct(defaults: seq<string>, keywords: seq<string>)
    requires TextUtils.DistinctKeys(defaults, Same)
    ensures forall i, j :: 0 <= i < j < |Merged(defaults, keywords)| ==> Merged(defaults, keywords)[i] != Merged(defaults, keywords)[j]
  {
    MergedIsUniq(defaults, keywords);
    TextUtils.FirstOccurrencesKeys(defaults + keywords, Same);
  }

  /** The eleven defaults are distinct. */
  lemma DefaultKeywordsDistinct()
    ensures |DefaultKeywords| == 11 && TextUtils.DistinctKeys(DefaultKeywords, Same)
  {
    var d := DefaultKeywords;
    var sig := seq(11, k requires 0 <= k < 11 => (|d[k]|, d[k][0], d[k][|d[k]| - 1]));
    forall i, j | 0 <= i < j < 11 ensures Same(d[i]) != Same(d[j]) {
      assert sig[i] != sig[j];
    }
  }

  // ---- canonicalUrl, and the fallbacks of the article schema ----

  const DefaultSiteUrl := "https://rampurnews.com"
  const DefaultOgImage := "https://rampurnews.com/og-image.jpg"

  /** `process.env.NEXT_PUBLIC_SITE_URL || "https://rampurnews.com"`. */
  function SiteUrl(env: Option<string>): (r: string)
    ensures r != ""
    ensures env.Some? && env.value != "" ==> r == env.value
  {
    if env.Some? && env.value != "" then env.value else DefaultSiteUrl
  }

  /** `canonical ? siteUrl + canonical : siteUrl`. */
  function CanonicalUrl(siteUrl: string, canonical: Option<string>): (r: string)
    ensures StartsWith(r, siteUrl)
    ensures r[|siteUrl|..] == (if canonical.Some? then canonical.value else "")
  {
    if canonical.Some? && canonical.value != "" then siteUrl + canonical.value else siteUrl
  }

  /** `a || b` on optional strings: the first when it is a non-empty string. */
  function OrElse(a: Option<string>, b: Option<string>): (r: Option<string>)
    ensures a.Some? && a.value != "" ==> r == a
    ensures !(a.Some? && a.value != "") ==> r == b
  {
    if a.Some? && a.value != "" then a else b
  }

  /** `a || fallback`, with a string fallback. */
  function OrText(a: Option<string>, fallback: string): (r: string)
    ensures a.Some? && a.value != "" ==> r == a.value
    ensures !(a.Some? && a.value != "") ==> r == fallback
  {
    if a.Some? && a.value != "" then a.value else fallback
  }

  /** `NewsArticleSchema`, the article data the page passes in. */
  datatype NewsArticleInput = NewsArticleInput(
    headline: string, description: string, image: Option<string>, datePublished: Option<string>,
    dateModified: Option<string>, author: Option<string>, section: Option<string>, articleBody: Option<string>)

  /** The fields of the `NewsArticle` block that are computed rather than literal. */
  datatype ArticleSchema = ArticleSchema(
    id: string, pageId: string, headline: string, articleBody: string, imageUrl: string,
    datePublished: Option<string>, dateModified: Option<string>, authorName: string, authorUrl: string,
    section: string, wordCount: nat, keywords: string)

  const DefaultReporter := "\U{0930}\U{093E}\U{092E}\U{092A}\U{0941}\U{0930} \U{0928}\U{094D}\U{092F}\U{0942}\U{091C}\U{093C} \U{0938}\U{0902}\U{0935}\U{093E}\U{0926}\U{0926}\U{093E}\U{0924}\U{093E}"
  const DefaultSection := "\U{0938}\U{092E}\U{093E}\U{091A}\U{093E}\U{0930}"

  /** The `newsArticleSchema` object for a given article. */
  function NewsArticleSchema(n: NewsArticleInput, ogImage: string, siteUrl: string, canonicalUrl: string,
                             allKeywords: seq<string>): (r: ArticleSchema)
    ensures r.headline == n.headline
    ensures r.articleBody == OrText(n.articleBody, n.description)
    ensures r.wordCount == WordCount(r.articleBody)
    ensures r.imageUrl == OrText(n.image, ogImage)
    ensures r.datePublished == n.datePublished && r.dateModified == OrElse(n.dateModified, n.datePublished)
    ensures r.authorName == OrText(n.author, DefaultReporter)
    ensures r.authorUrl == siteUrl + "/author/" + FormEncoding.UriComponentEncode(OrText(n.author, "rampur-news"))
    ensures r.section == OrText(n.section, DefaultSection)
    ensures r.id == canonicalUrl + "#article" && r.pageId == canonicalUrl && r.keywords == Join(allKeywords, ", ")
  {
    var body := OrText(n.articleBody, n.description);
    ArticleSchema(
      canonicalUrl + "#article", canonicalUrl, n.headline, body, OrText(n.image, ogImage),
      n.datePublished, OrElse(n.dateModified, n.datePublished), OrText(n.author, DefaultReporter),
      siteUrl + "/author/" + FormEncoding.UriComponentEncode(OrText(n.author, "rampur-news")),
      OrText(n.section, DefaultSection), WordCount(body), Join(allKeywords, ", "))
  }

  /** The word count is zero exactly when the body (or the description standing in for it) is blank. */
  lemma WordCountZeroIffBlank(n: NewsArticleInput, ogImage: string, siteUrl: string, canonicalUrl: string, allKeywords: seq<string>)
    ensures var r := NewsArticleSchema(n, ogImage, siteUrl, canonicalUrl, allKeywords);
            r.wordCount == 0 <==> AllSpace(r.articleBody)
  {
    WordCountZeroIffAllSpace(OrText(n.articleBody, n.description));
  }

  // ---- which blocks exist ----

  /** `JobPostingSchema`; only the optional location changes the block's shape. */
  datatype JobPostingInput = JobPostingInput(title: string, description: string, datePosted: string, jobLocation: Option<string>)

  /** The props that decide which blocks exist. */
  datatype SeoProps = SeoProps(
    title: string, description: string, canonical: Option<string>, ogImage: Option<string>,
    newsArticle: Option<NewsArticleInput>, jobPosting: Option<JobPostingInput>,
    isHomepage: bool, keywords: seq<string>, speakable: seq<string>)

  /** A breadcrumb entry: position, name and address. */
  datatype Crumb = Crumb(position: nat, name: string, item: string)

  /** The job block: whether it has a place, and the locality when it has. */
  datatype JobSchema = JobSchema(title: string, locality: Option<string>)

  /** The blocks besides the website and organization ones, which always exist. */
  datatype Blocks = Blocks(
    article: Option<ArticleSchema>, job: Option<JobSchema>, speakable: Option<seq<string>>,
    breadcrumb: Option<seq<Crumb>>, collection: Option<string>, faq: bool)

  const DefaultSelectors: seq<string> := [".article-headline", ".article-summary", "h1", ".excerpt"]
  const HomeHi := "\U{0939}\U{094B}\U{092E}"

  /** The `ogImage` prop: its default parameter applies only when the prop is missing, so an empty one is kept. */
  function OgImage(p: SeoProps): (r: string)
    ensures p.ogImage.None? ==> r == DefaultOgImage
    ensures p.ogImage.Some? ==> r == p.ogImage.value
  {
    p.ogImage.GetOr(DefaultOgImage)
  }

  /** Every block of the page for the given props and the merged keywords. */
  function SchemaBlocks(p: SeoProps, siteUrl: string, allKeywords: seq<string>): (r: Blocks)
    ensures r.article.Some? <==> p.newsArticle.Some?
    ensures r.article.Some? ==>
              r.article.value == NewsArticleSchema(p.newsArticle.value, OgImage(p), siteUrl, CanonicalUrl(siteUrl, p.canonical), allKeywords)
    ensures r.job.Some? <==> p.jobPosting.Some?
    ensures r.job.Some? ==> (r.job.value.locality.Some? <==> p.jobPosting.value.jobLocation.Some? && p.jobPosting.value.jobLocation.value != "")
    ensures r.job.Some? ==> r.job.value.title == p.jobPosting.value.title
    ensures r.job.Some? && r.job.value.locality.Some? ==> r.job.value.locality == p.jobPosting.value.jobLocation
    ensures r.speakable.Some? <==> |p.speakable| > 0 || p.newsArticle.Some?
    ensures r.speakable.Some? ==> r.speakable.value == if |p.speakable| > 0 then p.speakable else DefaultSelectors
    ensures r.breadcrumb.Some? <==> !p.isHomepage
    ensures r.breadcrumb.Some? ==> |r.breadcrumb.value| == 2 && r.breadcrumb.value[0].position == 1 && r.breadcrumb.value[1].position == 2
    ensures r.breadcrumb.Some? ==> r.breadcrumb.value[0].item == siteUrl && r.breadcrumb.value[1].item == CanonicalUrl(siteUrl, p.canonical)
    ensures r.breadcrumb.Some? ==> r.breadcrumb.value[0].name == HomeHi && r.breadcrumb.value[1].name == p.title
    ensures r.collection.Some? <==> !p.isHomepage && p.newsArticle.None?
    ensures r.collection.Some? ==> r.collection.value == CanonicalUrl(siteUrl, p.canonical) + "#collection"
    ensures r.faq <==> p.isHomepage
  {
    var canonicalUrl := CanonicalUrl(siteUrl, p.canonical);
    var ogImage := OgImage(p);
    Blocks(
      if p.newsArticle.Some? then Some(NewsArticleSchema(p.newsArticle.value, ogImage, siteUrl, canonicalUrl, allKeywords)) else None,
      if p.jobPosting.Some? then
        var loc := p.jobPosting.value.jobLocation;
        Some(JobSchema(p.jobPosting.value.title, if loc.Some? && loc.value != "" then loc else None))
      else None,
      if |p.speakable| > 0 || p.newsArticle.Some? then Some(if |p.speakable| > 0 then p.speakable else DefaultSelectors) else None,
      if !p.isHomepage then Some([Crumb(1, HomeHi, siteUrl), Crumb(2, p.title, canonicalUrl)]) else None,
      if !p.isHomepage && p.newsArticle.None? then Some(canonicalUrl + "#collection") else None,
      p.isHomepage)
  }

  /** The homepage carries the FAQ block and neither a breadcrumb nor a collection block; other pages the reverse of the FAQ. */
  lemma HomepageBlocks(p: SeoProps, siteUrl: string, allKeywords: seq<string>)
    ensures var r := SchemaBlocks(p, siteUrl, allKeywords);
            (r.faq ==> r.breadcrumb.None? && r.collection.None?) && (!r.faq ==> r.breadcrumb.Some?)
  {
  }

  /** An empty `ogImage` is passed through: an article without its own image then has an empty image URL. */
  lemma EmptyOgImageKept(p: SeoProps, siteUrl: string, allKeywords: seq<string>)
    requires p.ogImage == Some("") && p.newsArticle.Some?
    requires p.newsArticle.value.image.None? || p.newsArticle.value.image == Some("")
    ensures var r := SchemaBlocks(p, siteUrl, allKeywords);
            r.article.Some? && r.article.value.imageUrl == ""
  {
  }

  /** An article page always has a speakable block, and never a collection block. */
  lemma ArticlePageBlocks(p: SeoProps, siteUrl: string, allKeywords: seq<string>)
    requires p.newsArticle.Some?
    ensures var r := SchemaBlocks(p, siteUrl, allKeywords);
            r.speakable.Some? && r.collection.None? && r.article.Some?
  {
  }

  /** The component: the merged keywords, then the blocks. */
  method SeoSchemas(p: SeoProps, siteEnv: Option<string>) returns (all: seq<string>, blocks: Blocks)
    ensures all == Merged(DefaultKeywords, p.keywords)
    ensures all[..|DefaultKeywords|] == DefaultKeywords
    ensures forall i, j :: 0 <= i < j < |all| ==> all[i] != all[j]
    ensures blocks == SchemaBlocks(p, SiteUrl(siteEnv), all)
  {
    all := MergeKeywords(DefaultKeywords, p.keywords);
    MergedContents(DefaultKeywords, p.keywords);
    DefaultKeywordsDistinct();
    MergedDistinct(DefaultKeywords, p.keywords);
    blocks := SchemaBlocks(p, SiteUrl(siteEnv), all);
  }
}
