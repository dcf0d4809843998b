/**
 * Normalisation of Notion records (lib/notion.ts).
 *
 * The remote client is replaced by its answers: the page search is a
 * `SearchResponse`, the child-block listing a `ChildrenResponse`, the page
 * retrieval a `RetrieveResponse`. Each answer may be a failure (the call threw).
 * The configured database id is a parameter; `""` stands for an unset
 * environment variable, which JavaScript treats the same way (falsy).
 */
module Notion {
  import opened Wrappers
  import opened Text
  import opened Blocks

  // ---------------------------------------------------------------------------
  // Raw records, as the client returns them (only the paths the code reads)
  // ---------------------------------------------------------------------------

  /**
   * The page properties the code reads. Each text field is the `plain_text`
   * of the first rich-text item of that property, `None` when any step of the
   * optional chain is missing.
   */
  datatype Properties = Properties(
    title: Option<string>,           // title.title[0].plain_text
    slug: Option<string>,            // slug.rich_text[0].plain_text
    summary: Option<string>,         // summary.rich_text[0].plain_text
    coverImage: Option<string>,      // coverImage.url
    role: Option<string>,            // role.rich_text[0].plain_text
    year: Option<int>,               // year.number
    tags: Option<seq<string>>,       // Tags.multi_select[*].name
    articleType: Option<string>,     // ArticleType.select.name
    status: Option<string>,          // Status.status.name
    publishedDate: Option<string>,   // "Published Date".date.start
    sortOrder: Option<int>,          // "Sort Order".number
    externalLink: Option<string>,    // "External Link".url
    seoTitle: Option<string>,        // "SEO Title".rich_text[0].plain_text
    seoDescription: Option<string>,  // "SEO Description".rich_text[0].plain_text
    ogImageUrl: Option<string>)      // "OG Image URL".rich_text[0].plain_text

  /** The page cover: `cover.external.url` and `cover.file.url`. */
  datatype Cover = Cover(externalUrl: Option<string>, fileUrl: Option<string>)

  /** A search result; absent `properties` reads as every property absent. */
  datatype Page = Page(id: string, parentDatabaseId: Option<string>, properties: Properties, cover: Option<Cover>)

  /** `notion.search(...)`: a failure, or a response whose `results` may be missing. */
  datatype SearchResponse = SearchFailed | SearchOk(results: Option<seq<Page>>)

  /** The type-specific payload `child[child.type]` of a block. */
  datatype BlockData = BlockData(
    richText: Option<seq<Span>>,     // rich_text
    fileUrl: Option<string>,         // file.url
    externalUrl: Option<string>,     // external.url
    caption: Option<seq<Span>>)      // caption

  datatype Child = Child(kind: string, data: Option<BlockData>)

  /** `notion.blocks.children.list(...)`. */
  datatype ChildrenResponse = ChildrenFailed | ChildrenOk(children: seq<Child>)

  /** `notion.pages.retrieve(...)`: the home page's first title and subtitle texts. */
  datatype RetrieveResponse = RetrieveFailed | Retrieved(title: Option<string>, subtitle: Option<string>)

  // ---------------------------------------------------------------------------
  // Normalised records
  // ---------------------------------------------------------------------------

  datatype CaseStudy = CaseStudy(
    id: string,
    title: string,
    slug: string,
    summary: string,
    coverImage: Option<string>,
    role: string,
    year: string,
    tags: seq<string>,
    articleType: string,
    status: string,
    publishedDate: string,
    sortOrder: int,
    externalLink: string,
    seoTitle: string,
    seoDescription: string,
    ogImageUrl: string)

  datatype CaseStudyDetail = CaseStudyDetail(study: CaseStudy, blocks: seq<NotionBlock>)

  /** `a || b || c` on optional strings: the first truthy one, else the last as it is. */
  function FirstTruthy(a: Option<string>, b: Option<string>, c: Option<string>): (r: Option<string>)
    ensures Truthy(a) ==> r == a
    ensures !Truthy(a) && Truthy(b) ==> r == b
    ensures !Truthy(a) && !Truthy(b) ==> r == c
  {
    if Truthy(a) then a else if Truthy(b) then b else c
  }

  /** The cover rule: the `coverImage` property, then `cover.external.url`, then `cover.file.url`. */
  function CoverOf(p: Page): (r: Option<string>)
    ensures Truthy(p.properties.coverImage) ==> r == p.properties.coverImage
    ensures !Truthy(p.properties.coverImage) && p.cover.Some? && Truthy(p.cover.value.externalUrl) ==>
      r == p.cover.value.externalUrl
    ensures !Truthy(p.properties.coverImage) && p.cover.Some? && !Truthy(p.cover.value.externalUrl) ==>
      r == p.cover.value.fileUrl
    ensures !Truthy(p.properties.coverImage) && p.cover.None? ==> r.None?
  {
    var cover := p.cover.GetOr(Cover(None, None));
    FirstTruthy(p.properties.coverImage, cover.externalUrl, cover.fileUrl)
  }

  /** `props.year?.number?.toString() || ""`. */
  function YearText(year: Option<int>): (r: string)
    ensures r == "" <==> year.None?
  {
    match year
    case Some(n) => IntToString(n)
    case None => ""
  }

  /** The property-to-record mapping shared by the listing and the slug lookup. */
  function Describe(p: Page, slug: string): CaseStudy {
    var props := p.properties;
    CaseStudy(
      p.id,
      Or(props.title, "Untitled"),
      slug,
      Or(props.summary, ""),
      CoverOf(p),
      Or(props.role, ""),
      YearText(props.year),
      props.tags.GetOr([]),
      Or(props.articleType, ""),
      Or(props.status, ""),
      Or(props.publishedDate, ""),
      props.sortOrder.GetOr(0),
      Or(props.externalLink, ""),
      Or(props.seoTitle, ""),
      Or(props.seoDescription, ""),
      Or(props.ogImageUrl, ""))
  }

  /** The listing's record for a page: slug falls back to the page id. */
  function ToCaseStudy(p: Page): CaseStudy {
    Describe(p, Or(p.properties.slug, p.id))
  }

  /** Defaults of a page with no properties at all. */
  lemma EmptyPageDefaults(p: Page)
    requires p.properties == Properties(None, None, None, None, None, None, None, None, None, None, None, None, None, None, None)
    requires p.cover.None?
    ensures var c := ToCaseStudy(p);
      && c.title == "Untitled" && c.slug == p.id && c.sortOrder == 0 && c.tags == []
      && c.summary == "" && c.role == "" && c.year == "" && c.articleType == "" && c.status == ""
      && c.publishedDate == "" && c.externalLink == "" && c.seoTitle == "" && c.seoDescription == ""
      && c.ogImageUrl == "" && c.coverImage.None?
  {
  }

  // ---------------------------------------------------------------------------
  // Listing
  // ---------------------------------------------------------------------------

  /** `results.filter(page => page.parent?.database_id === databaseId)`. */
  function Kept(pages: seq<Page>, databaseId: string): (r: seq<Page>)
    ensures |r| <= |pages|
    ensures forall i :: 0 <= i < |r| ==> r[i].parentDatabaseId == Some(databaseId)
    decreases |pages|
  {
    if pages == [] then []
    else if pages[0].parentDatabaseId == Some(databaseId) then [pages[0]] + Kept(pages[1..], databaseId)
    else Kept(pages[1..], databaseId)
  }

  /** Filtering by database keeps order: it distributes over concatenation. */
  lemma {:induction false} KeptAppend(a: seq<Page>, b: seq<Page>, databaseId: string)
    ensures Kept(a + b, databaseId) == Kept(a, databaseId) + Kept(b, databaseId)
    decreases |a|
  {
    if a == [] {
      assert a + b == b;
    } else {
      assert (a + b)[1..] == a[1..] + b;
      KeptAppend(a[1..], b, databaseId);
    }
  }

  /** Filtering keeps exactly the pages of the database. */
  lemma {:induction false} KeptMembers(pages: seq<Page>, databaseId: string)
    ensures forall p :: p in Kept(pages, databaseId) <==> p in pages && p.parentDatabaseId == Some(databaseId)
    decreases |pages|
  {
    if pages != [] {
      KeptMembers(pages[1..], databaseId);
      assert pages == [pages[0]] + pages[1..];
    }
  }

  /** The pages of a successful search that belong to the database (`results ?? []`, filtered). */
  function DatabasePages(search: SearchResponse, databaseId: string): seq<Page>
    requires search.SearchOk?
  {
    Kept(search.results.GetOr([]), databaseId)
  }

  /** `fetchCaseStudies`: no database id or a failed search gives `[]`. */
  function FetchCaseStudies(databaseId: string, search: SearchResponse): (r: seq<CaseStudy>)
    ensures databaseId == "" || search.SearchFailed? ==> r == []
    ensures databaseId != "" && search.SearchOk? ==>
      var pages := DatabasePages(search, databaseId);
      |r| == |pages| && forall i :: 0 <= i < |pages| ==> r[i] == ToCaseStudy(pages[i])
  {
    if databaseId == "" then []
    else match search
      case SearchFailed => []
      case SearchOk(_) =>
        var pages := DatabasePages(search, databaseId);
        seq(|pages|, i requires 0 <= i < |pages| => ToCaseStudy(pages[i]))
  }

  // ---------------------------------------------------------------------------
  // Lookup by slug
  // ---------------------------------------------------------------------------

  /** `pages.find(p => p.properties?.slug?.rich_text?.[0]?.plain_text === slug)`. */
  function FindBySlug(pages: seq<Page>, slug: string): Option<Page>
    decreases |pages|
  {
    if pages == [] then None
    else if pages[0].properties.slug == Some(slug) then Some(pages[0])
    else FindBySlug(pages[1..], slug)
  }

  /** `FindBySlug` returns the first page whose slug property equals the argument, if any. */
  lemma {:induction false} FindBySlugIsFirst(pages: seq<Page>, slug: string)
    ensures FindBySlug(pages, slug).None? <==>
      forall i :: 0 <= i < |pages| ==> pages[i].properties.slug != Some(slug)
    ensures FindBySlug(pages, slug).Some? ==>
      exists i :: 0 <= i < |pages| && pages[i] == FindBySlug(pages, slug).value &&
        pages[i].properties.slug == Some(slug) &&
        forall j :: 0 <= j < i ==> pages[j].properties.slug != Some(slug)
    decreases |pages|
  {
    if pages != [] && pages[0].properties.slug != Some(slug) {
      FindBySlugIsFirst(pages[1..], slug);
      assert forall j :: 0 < j < |pages| ==> pages[j] == pages[1..][j - 1];
      if FindBySlug(pages, slug).Some? {
        var i :| 0 <= i < |pages| - 1 && pages[1..][i] == FindBySlug(pages, slug).value &&
          pages[1..][i].properties.slug == Some(slug) &&
          forall j :: 0 <= j < i ==> pages[1..][j].properties.slug != Some(slug);
        assert pages[i + 1] == FindBySlug(pages, slug).value;
      }
    } else if pages != [] {
      assert pages[0] == FindBySlug(pages, slug).value;
    }
  }

  // ---------------------------------------------------------------------------
  // Block normalisation
  // ---------------------------------------------------------------------------

  /** `richText.map(text => text.plain_text)`. */
  function PlainTexts(spans: seq<Span>): (r: seq<string>)
    ensures |r| == |spans|
    ensures forall i :: 0 <= i < |spans| ==> r[i] == spans[i].plainText
  {
    seq(|spans|, i requires 0 <= i < |spans| => spans[i].plainText)
  }

  /** `richText?.map(text => text.plain_text).join('') || ''`. */
  function PlainText(richText: Option<seq<Span>>): string {
    match richText
    case Some(spans) => Concat(PlainTexts(spans))
    case None => ""
  }

  /** The plain text of a span list is the plain texts of its parts, concatenated. */
  lemma PlainTextAppend(a: seq<Span>, b: seq<Span>)
    ensures PlainText(Some(a + b)) == PlainText(Some(a)) + PlainText(Some(b))
  {
    assert PlainTexts(a + b) == PlainTexts(a) + PlainTexts(b);
    ConcatAppend(PlainTexts(a), PlainTexts(b));
  }

  /** `blockData?.file?.url || blockData?.external?.url`. */
  function ImageUrl(data: Option<BlockData>): Option<string> {
    match data
    case None => None
    case Some(d) => if Truthy(d.fileUrl) then d.fileUrl else d.externalUrl
  }

  /** `blockData?.caption?.[0]?.plain_text`. */
  function FirstCaption(data: Option<BlockData>): Option<string> {
    match data
    case Some(BlockData(_, _, _, Some(caption))) => if caption != [] then Some(caption[0].plainText) else None
    case _ => None
  }

  /** One child block, normalised to `{ type, text, richText, url?, caption? }`. */
  function NormaliseChild(c: Child): NotionBlock {
    var richText := match c.data case Some(d) => d.richText case None => None;
    if c.kind == "image" then
      NotionBlock(c.kind, Some(PlainText(richText)), richText, ImageUrl(c.data), FirstCaption(c.data))
    else
      NotionBlock(c.kind, Some(PlainText(richText)), richText, None, None)
  }

  /**
   * Every normalised block has its child's type and the concatenated plain text
   * (`''` without rich text); only image blocks get `url` and `caption`, and the
   * url prefers the uploaded file over the external link.
   */
  lemma NormaliseChildShape(c: Child)
    ensures NormaliseChild(c).kind == c.kind
    ensures c.data.None? || c.data.value.richText.None? ==> NormaliseChild(c).text == Some("")
    ensures c.data.Some? && c.data.value.richText.Some? ==>
      NormaliseChild(c).text == Some(Concat(PlainTexts(c.data.value.richText.value)))
    ensures c.kind != "image" ==> NormaliseChild(c).url.None? && NormaliseChild(c).caption.None?
    ensures c.kind == "image" && c.data.Some? && Truthy(c.data.value.fileUrl) ==>
      NormaliseChild(c).url == c.data.value.fileUrl
    ensures c.kind == "image" && c.data.Some? && !Truthy(c.data.value.fileUrl) ==>
      NormaliseChild(c).url == c.data.value.externalUrl
    ensures c.kind == "image" && c.data.Some? && c.data.value.caption.Some? && c.data.value.caption.value != [] ==>
      NormaliseChild(c).caption == Some(c.data.value.caption.value[0].plainText)
    ensures c.kind == "image" && (c.data.None? || c.data.value.caption.None? || c.data.value.caption.value == []) ==>
      NormaliseChild(c).caption.None?
    ensures c.data.Some? ==> NormaliseChild(c).richText == c.data.value.richText
    ensures c.data.None? ==> NormaliseChild(c).richText.None?
  {
  }

  /** The fallback when listing the children fails: one paragraph holding the summary. */
  function FallbackBlocks(summary: string): seq<NotionBlock> {
    [NotionBlock("paragraph", Some(summary), None, None, None)]
  }

  /**
   * The `for (const child of children.results)` loop: push one normalised block
   * per child, or, when the listing failed, the single fallback paragraph.
   */
  method NormaliseBlocks(response: ChildrenResponse, summary: string) returns (blocks: seq<NotionBlock>)
    ensures response.ChildrenFailed? ==> blocks == FallbackBlocks(summary)
    ensures response.ChildrenOk? ==>
      |blocks| == |response.children| &&
      forall i :: 0 <= i < |blocks| ==> blocks[i] == NormaliseChild(response.children[i])
  {
    blocks := [];
    match response
    case ChildrenFailed =>
      blocks := blocks + FallbackBlocks(summary);
    case ChildrenOk(children) =>
      var k := 0;
      while k < |children|
        invariant 0 <= k <= |children|
        invariant |blocks| == k
        invariant forall i :: 0 <= i < k ==> blocks[i] == NormaliseChild(children[i])
      {
        blocks := blocks + [NormaliseChild(children[k])];
        k := k + 1;
      }
  }

  /**
   * `fetchCaseStudyBySlug`: `None` without a database id, on a failed search or
   * when no page of the database has the slug; otherwise the page's record with
   * the argument as its slug and the normalised blocks.
   */
  method FetchCaseStudyBySlug(databaseId: string, slug: string, search: SearchResponse, children: ChildrenResponse)
    returns (r: Option<CaseStudyDetail>)
    ensures r.Some? <==>
      databaseId != "" && search.SearchOk? && FindBySlug(DatabasePages(search, databaseId), slug).Some?
    ensures r.Some? ==>
      var page := FindBySlug(DatabasePages(search, databaseId), slug).value;
      && r.value.study == Describe(page, slug)
      && r.value.study.slug == slug
      && (children.ChildrenFailed? ==> r.value.blocks == FallbackBlocks(r.value.study.summary))
      && (children.ChildrenOk? ==>
            (|r.value.blocks| == |children.children| &&
             forall i :: 0 <= i < |children.children| ==> r.value.blocks[i] == NormaliseChild(children.children[i])))
  {
    if databaseId == "" {
      return None;
    }
    match search
    case SearchFailed =>
      r := None;
    case SearchOk(_) =>
      var found := FindBySlug(DatabasePages(search, databaseId), slug);
      match found
      case None =>
        r := None;
      case Some(page) =>
        var study := Describe(page, slug);
        var blocks := NormaliseBlocks(children, study.summary);
        r := Some(CaseStudyDetail(study, blocks));
  }

  /**
   * The looked-up record agrees with the listing's record for the same page,
   * except that its slug is the argument; the two slugs agree unless the
   * argument is empty, where the listing falls back to the page id.
   */
  lemma DetailMatchesListing(p: Page, slug: string)
    requires p.properties.slug == Some(slug)
    ensures Describe(p, slug) == ToCaseStudy(p).(slug := slug)
    ensures slug != "" ==> Describe(p, slug) == ToCaseStudy(p)
    ensures slug == "" ==> ToCaseStudy(p).slug == p.id
  {
  }

  // ---------------------------------------------------------------------------
  // Home content
  // ---------------------------------------------------------------------------

  const DefaultTitle := "Sophie — Product Designer"
  const DefaultSubtitle := "Selected work and experiments"

  datatype HomeContent = HomeContent(title: string, subtitle: string)

  /** The retrieval has no `try`: its failure propagates to the caller. */
  datatype HomeOutcome = HomeThrew | Home(content: HomeContent)

  /** `fetchHomeContent`: fixed defaults without a page id or for missing properties. */
  function FetchHomeContent(pageId: Option<string>, page: RetrieveResponse): (r: HomeOutcome)
    ensures !Truthy(pageId) ==> r == Home(HomeContent(DefaultTitle, DefaultSubtitle))
    ensures Truthy(pageId) && page.RetrieveFailed? ==> r == HomeThrew
    ensures Truthy(pageId) && page.Retrieved? ==>
      r.Home? &&
      r.content.title == (if Truthy(page.title) then page.title.value else DefaultTitle) &&
      r.content.subtitle == (if Truthy(page.subtitle) then page.subtitle.value else DefaultSubtitle)
  {
    if !Truthy(pageId) then Home(HomeContent(DefaultTitle, DefaultSubtitle))
    else match page
      case RetrieveFailed => HomeThrew
      case Retrieved(title, subtitle) => Home(HomeContent(Or(title, DefaultTitle), Or(subtitle, DefaultSubtitle)))
  }
}
