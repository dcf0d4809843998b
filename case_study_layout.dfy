/**
 * Structural layout choice (components/CaseStudyLayout.tsx).
 *
 * `Classify` compares comma-joined block types with fixed strings and counts
 * images; `Render` picks one of three templates or falls back (null). The
 * rich-text renderer wraps each span in bold, italic, code and link layers.
 */
module CaseStudyLayout {
  import opened Wrappers
  import opened Text
  import opened Blocks

  // ---------------------------------------------------------------------------
  // Classification
  // ---------------------------------------------------------------------------

  /** The four strings `detectLayoutPattern` can return. */
  datatype Pattern = HeroImage | ImageGallery | ImageWithText | Default

  /** `blocks.map(block => block.type)`. */
  function Kinds(blocks: seq<NotionBlock>): (r: seq<string>)
    ensures |r| == |blocks|
    ensures forall i :: 0 <= i < |blocks| ==> r[i] == blocks[i].kind
  {
    seq(|blocks|, i requires 0 <= i < |blocks| => blocks[i].kind)
  }

  /** `xs.slice(0, n)` for a non-negative `n`. */
  function Take<T>(xs: seq<T>, n: nat): (r: seq<T>)
    ensures |r| == if |xs| <= n then |xs| else n
    ensures forall i :: 0 <= i < |r| ==> r[i] == xs[i]
  {
    if |xs| <= n then xs else xs[..n]
  }

  const HeroSignature := "heading_2" + "," + ("paragraph" + "," + "image")
  const ImageWithTextSignature := "heading_2" + "," + ("paragraph" + "," + ("image" + "," + "paragraph"))

  /** `blocks.filter(block => block.type === 'image').length`. */
  function ImageCount(blocks: seq<NotionBlock>): nat {
    |OfKind(blocks, "image")|
  }

  /** `detectLayoutPattern`: first matching rule wins. */
  function Classify(blocks: seq<NotionBlock>): Pattern {
    var kinds := Kinds(blocks);
    if Join(Take(kinds, 3), ",") == HeroSignature then HeroImage
    else if ImageCount(blocks) >= 3 then ImageGallery
    else if Join(Take(kinds, 4), ",") == ImageWithTextSignature then ImageWithText
    else Default
  }

  /** Block types as Notion names them: no commas. */
  predicate PlainKinds(blocks: seq<NotionBlock>) {
    forall i :: 0 <= i < |blocks| ==> NoComma(blocks[i].kind)
  }

  /** Each element of a comma-free list is comma-free. */
  predicate AllNoComma(xs: seq<string>) {
    forall i :: 0 <= i < |xs| ==> NoComma(xs[i])
  }

  /** A comma-joined list of comma-free strings that equals `first,rest` starts with `first`. */
  lemma JoinSplit(xs: seq<string>, first: string, rest: string)
    requires AllNoComma(xs) && NoComma(first) && xs != []
    requires Join(xs, ",") == first + "," + rest
    ensures |xs| >= 2 && xs[0] == first && Join(xs[1..], ",") == rest
  {
    assert Join(xs, ",")[|first|] == ',';
    if |xs| >= 2 {
      SplitAtFirstComma(xs[0], Join(xs[1..], ","), first, rest);
    }
  }

  /** A comma-joined list of comma-free strings that equals a comma-free string is that string alone. */
  lemma JoinSingle(xs: seq<string>, s: string)
    requires AllNoComma(xs) && NoComma(s) && xs != []
    requires Join(xs, ",") == s
    ensures xs == [s]
  {
    JoinOfTwoHasComma(xs);
  }

  /** Joining two or more strings puts a comma right after the first. */
  lemma JoinOfTwoHasComma(xs: seq<string>)
    ensures |xs| >= 2 ==> |xs[0]| < |Join(xs, ",")| && Join(xs, ",")[|xs[0]|] == ','
  {
  }

  /**
   * Joining comma-free strings with `,` gives `heading_2,paragraph,image`
   * exactly for that list of three.
   */
  lemma JoinIsHeroSignature(xs: seq<string>)
    requires AllNoComma(xs)
    ensures Join(xs, ",") == HeroSignature <==> xs == ["heading_2", "paragraph", "image"]
  {
    if Join(xs, ",") == HeroSignature {
      assert xs != [] by { assert |HeroSignature| > 0; }
      JoinSplit(xs, "heading_2", "paragraph" + "," + "image");
      assert AllNoComma(xs[1..]);
      JoinSplit(xs[1..], "paragraph", "image");
      assert AllNoComma(xs[2..]);
      JoinSingle(xs[2..], "image");
      assert xs == [xs[0]] + [xs[1]] + xs[2..];
    }
  }

  /** The four-element signature likewise determines the list. */
  lemma JoinIsImageWithTextSignature(xs: seq<string>)
    requires AllNoComma(xs)
    ensures Join(xs, ",") == ImageWithTextSignature ==> xs == ["heading_2", "paragraph", "image", "paragraph"]
  {
    if Join(xs, ",") == ImageWithTextSignature {
      assert xs != [] by { assert |ImageWithTextSignature| > 0; }
      JoinSplit(xs, "heading_2", "paragraph" + "," + "image" + "," + "paragraph");
      assert AllNoComma(xs[1..]);
      JoinSplit(xs[1..], "paragraph", "image" + "," + "paragraph");
      assert AllNoComma(xs[2..]);
      JoinSplit(xs[2..], "image", "paragraph");
      assert AllNoComma(xs[3..]);
      JoinSingle(xs[3..], "paragraph");
      assert xs == [xs[0]] + [xs[1]] + [xs[2]] + xs[3..];
    }
  }

  /** `hero-image` exactly when the first three types are `heading_2, paragraph, image`. */
  lemma HeroImageIffSignature(blocks: seq<NotionBlock>)
    requires PlainKinds(blocks)
    ensures Classify(blocks) == HeroImage <==>
      |blocks| >= 3 && blocks[0].kind == "heading_2" && blocks[1].kind == "paragraph" && blocks[2].kind == "image"
  {
    var head := Take(Kinds(blocks), 3);
    JoinIsHeroSignature(head);
  }

  /**
   * Otherwise `image-gallery` exactly when three or more blocks anywhere are
   * images; the hero rule wins even then.
   */
  lemma GalleryIffThreeImages(blocks: seq<NotionBlock>)
    ensures Classify(blocks) == ImageGallery <==>
      Classify(blocks) != HeroImage && ImageCount(blocks) >= 3
  {
  }

  /**
   * With comma-free types, `image-with-text` is unreachable: every list whose
   * first four types are `heading_2, paragraph, image, paragraph` already
   * matched the hero rule, so the result is `hero-image`, `image-gallery` or
   * `default`.
   */
  lemma ImageWithTextIsDead(blocks: seq<NotionBlock>)
    requires PlainKinds(blocks)
    ensures Classify(blocks) in {HeroImage, ImageGallery, Default}
  {
    var kinds := Kinds(blocks);
    if Join(Take(kinds, 4), ",") == ImageWithTextSignature {
      JoinIsImageWithTextSignature(Take(kinds, 4));
      JoinIsHeroSignature(Take(kinds, 3));
    }
  }

  /**
   * The comma join is what makes the dead branch dead: a single block whose
   * type itself reads `heading_2,paragraph,image,paragraph` reaches it.
   */
  lemma CommaKindReachesImageWithText()
    ensures Classify([NotionBlock(ImageWithTextSignature, None, None, None, None)]) == ImageWithText
  {
    var b := NotionBlock(ImageWithTextSignature, None, None, None, None);
    assert Kinds([b]) == [ImageWithTextSignature];
    assert ImageWithTextSignature != HeroSignature by {
      assert |ImageWithTextSignature| != |HeroSignature|;
    }
  }

  // ---------------------------------------------------------------------------
  // Rich text
  // ---------------------------------------------------------------------------

  /** An inline element: the span's text wrapped in formatting layers. */
  datatype Inline =
    | Plain(text: string)
    | Strong(inner: Inline)
    | Em(inner: Inline)
    | CodeSpan(inner: Inline)
    | Anchor(href: string, inner: Inline)

  /** The formatting layers of an inline element, outermost first. */
  datatype Layer = BoldLayer | ItalicLayer | CodeLayer | LinkLayer(href: string)

  function Layers(e: Inline): seq<Layer> {
    match e
    case Plain(_) => []
    case Strong(i) => [BoldLayer] + Layers(i)
    case Em(i) => [ItalicLayer] + Layers(i)
    case CodeSpan(i) => [CodeLayer] + Layers(i)
    case Anchor(h, i) => [LinkLayer(h)] + Layers(i)
  }

  /** The text inside all layers. */
  function Content(e: Inline): string {
    match e
    case Plain(t) => t
    case Strong(i) => Content(i)
    case Em(i) => Content(i)
    case CodeSpan(i) => Content(i)
    case Anchor(_, i) => Content(i)
  }

  /** One span of `renderRichText`: bold, then italic, then code, then the link around it all. */
  function RenderSpan(s: Span): Inline {
    var e0 := Plain(s.content);
    var e1 := if s.bold then Strong(e0) else e0;
    var e2 := if s.italic then Em(e1) else e1;
    var e3 := if s.code then CodeSpan(e2) else e2;
    if s.link.Some? then Anchor(s.link.value, e3) else e3
  }

  /**
   * Each span keeps its own content, and its layers read, from the outside in:
   * link, code, italic, bold, each present exactly when the span asks for it.
   */
  lemma RenderSpanLayers(s: Span)
    ensures Content(RenderSpan(s)) == s.content
    ensures Layers(RenderSpan(s)) ==
      (if s.link.Some? then [LinkLayer(s.link.value)] else []) +
      (if s.code then [CodeLayer] else []) +
      (if s.italic then [ItalicLayer] else []) +
      (if s.bold then [BoldLayer] else [])
  {
    var e0 := Plain(s.content);
    var e1 := if s.bold then Strong(e0) else e0;
    var e2 := if s.italic then Em(e1) else e1;
    var e3 := if s.code then CodeSpan(e2) else e2;
    assert Content(e1) == s.content && Layers(e1) == (if s.bold then [BoldLayer] else []);
    assert Content(e2) == s.content &&
      Layers(e2) == (if s.italic then [ItalicLayer] else []) + Layers(e1);
    assert Content(e3) == s.content &&
      Layers(e3) == (if s.code then [CodeLayer] else []) + Layers(e2);
  }

  /** What `renderRichText` returns: `''` for a missing list, else one element per span. */
  datatype RichText = EmptyText | Elements(items: seq<Inline>)

  function RenderRichText(spans: Option<seq<Span>>): (r: RichText)
    ensures spans.None? <==> r == EmptyText
    ensures spans.Some? ==> |r.items| == |spans.value|
    ensures spans.Some? ==> forall i :: 0 <= i < |spans.value| ==>
      Content(r.items[i]) == spans.value[i].content
  {
    match spans
    case None => EmptyText
    case Some(ss) =>
      var items := seq(|ss|, i requires 0 <= i < |ss| => RenderSpan(ss[i]));
      assert forall i :: 0 <= i < |ss| ==> Content(items[i]) == ss[i].content by {
        forall i | 0 <= i < |ss| { RenderSpanLayers(ss[i]); }
      }
      Elements(items)
  }

  // ---------------------------------------------------------------------------
  // Templates
  // ---------------------------------------------------------------------------

  /** Heading and paragraph content: rich text when present, else the plain text. */
  datatype Body = Rich(rich: RichText) | PlainBody(text: string)

  function BodyOf(b: NotionBlock): (r: Body)
    ensures b.richText.Some? ==> r == Rich(RenderRichText(b.richText))
    ensures b.richText.None? ==> r == PlainBody(TextOf(b))
  {
    if b.richText.Some? then Rich(RenderRichText(b.richText)) else PlainBody(TextOf(b))
  }

  function Bodies(bs: seq<NotionBlock>): (r: seq<Body>)
    ensures |r| == |bs|
    ensures forall i :: 0 <= i < |bs| ==> r[i] == BodyOf(bs[i])
  {
    seq(|bs|, i requires 0 <= i < |bs| => BodyOf(bs[i]))
  }

  datatype View =
    | HeroImageView(heading: Option<Body>, paragraph: Option<Body>, image: Option<Figure>)
    | GalleryView(images: seq<Figure>)
    | TwoColumnView(heading: Option<Body>, left: seq<Body>, right: seq<Figure>)

  /** `HeroImageLayout`: blocks 0, 1 and 2 by position; the image only with a url. */
  function HeroImageOf(blocks: seq<NotionBlock>): View {
    HeroImageView(
      if |blocks| > 0 then Some(BodyOf(blocks[0])) else None,
      if |blocks| > 1 then Some(BodyOf(blocks[1])) else None,
      if |blocks| > 2 && Truthy(blocks[2].url) then Some(FigureOf(blocks[2])) else None)
  }

  /**
   * `HeroImageLayout` reads `blocks[0]`, `blocks[1]` and `blocks[2]`: the
   * heading and paragraph bodies by position, and the image exactly when
   * block 2 has a non-empty url; later blocks are never read.
   */
  lemma HeroImageSlots(blocks: seq<NotionBlock>, extra: seq<NotionBlock>)
    ensures HeroImageOf(blocks).heading == (if |blocks| > 0 then Some(BodyOf(blocks[0])) else None)
    ensures HeroImageOf(blocks).paragraph == (if |blocks| > 1 then Some(BodyOf(blocks[1])) else None)
    ensures HeroImageOf(blocks).image.Some? <==> |blocks| > 2 && Truthy(blocks[2].url)
    ensures HeroImageOf(blocks).image.Some? ==> HeroImageOf(blocks).image.value == FigureOf(blocks[2])
    ensures |blocks| >= 3 ==> HeroImageOf(blocks + extra) == HeroImageOf(blocks)
  {
    if |blocks| >= 3 {
      assert (blocks + extra)[..3] == blocks[..3];
    }
  }

  /** `ImageGalleryLayout`: exactly the image blocks, in order. */
  function GalleryOf(blocks: seq<NotionBlock>): View {
    GalleryView(Figures(OfKind(blocks, "image")))
  }

  /** `blocks.find(block => block.type.startsWith('heading'))`. */
  function FirstHeading(blocks: seq<NotionBlock>): (r: Option<NotionBlock>)
    decreases |blocks|
  {
    if blocks == [] then None
    else if IsPrefix("heading", blocks[0].kind) then Some(blocks[0])
    else FirstHeading(blocks[1..])
  }

  /** `FirstHeading` finds the first block whose type starts with `heading`, if any. */
  lemma {:induction false} FirstHeadingIsFirst(blocks: seq<NotionBlock>)
    ensures FirstHeading(blocks).None? <==>
      forall i :: 0 <= i < |blocks| ==> !IsPrefix("heading", blocks[i].kind)
    ensures FirstHeading(blocks).Some? ==>
      exists i :: 0 <= i < |blocks| && blocks[i] == FirstHeading(blocks).value &&
        IsPrefix("heading", blocks[i].kind) &&
        forall j :: 0 <= j < i ==> !IsPrefix("heading", blocks[j].kind)
    decreases |blocks|
  {
    if blocks != [] && !IsPrefix("heading", blocks[0].kind) {
      FirstHeadingIsFirst(blocks[1..]);
      assert forall j :: 0 < j < |blocks| ==> blocks[j] == blocks[1..][j - 1];
      if FirstHeading(blocks).Some? {
        var i :| 0 <= i < |blocks| - 1 && blocks[1..][i] == FirstHeading(blocks).value &&
          IsPrefix("heading", blocks[1..][i].kind) &&
          forall j :: 0 <= j < i ==> !IsPrefix("heading", blocks[1..][j].kind);
        assert blocks[i + 1] == FirstHeading(blocks).value;
      }
    } else if blocks != [] {
      assert blocks[0] == FirstHeading(blocks).value;
    }
  }

  /** `Math.ceil(n / 2)`. */
  function HalfUp(n: nat): (r: nat)
    ensures n <= 2 * r <= n + 1
  {
    (n + 1) / 2
  }

  /**
   * `TwoColumnLayout`: the first heading anywhere, the first half (rounded up)
   * of the paragraphs on the left, every image on the right.
   */
  function TwoColumnOf(blocks: seq<NotionBlock>): View {
    var paragraphs := OfKind(blocks, "paragraph");
    TwoColumnView(
      match FirstHeading(blocks) case Some(h) => Some(BodyOf(h)) case None => None,
      Bodies(paragraphs[..HalfUp(|paragraphs|)]),
      Figures(OfKind(blocks, "image")))
  }

  /** The left column holds the first ceil(p/2) of the p paragraphs, in their order. */
  lemma TwoColumnLeftHalf(blocks: seq<NotionBlock>)
    ensures var p := OfKind(blocks, "paragraph");
      && |TwoColumnOf(blocks).left| == (|p| + 1) / 2
      && forall i :: 0 <= i < |TwoColumnOf(blocks).left| ==> TwoColumnOf(blocks).left[i] == BodyOf(p[i])
    ensures |TwoColumnOf(blocks).right| == ImageCount(blocks)
    ensures TwoColumnOf(blocks).right == Figures(OfKind(blocks, "image"))
  {
  }

  /** The default export: a template view, or `None` for the fallback renderer. */
  function Render(blocks: seq<NotionBlock>): (r: Option<View>)
    ensures r.None? <==> Classify(blocks) == Default
  {
    match Classify(blocks)
    case HeroImage => Some(HeroImageOf(blocks))
    case ImageGallery => Some(GalleryOf(blocks))
    case ImageWithText => Some(TwoColumnOf(blocks))
    case Default => None
  }

  /** With comma-free types the two-column template is never rendered. */
  lemma TwoColumnNeverRendered(blocks: seq<NotionBlock>)
    requires PlainKinds(blocks)
    ensures Render(blocks).None? || !Render(blocks).value.TwoColumnView?
  {
    ImageWithTextIsDead(blocks);
  }

  /** The gallery renders exactly the image blocks, in their original order. */
  lemma GalleryKeepsOrder(a: seq<NotionBlock>, b: seq<NotionBlock>)
    ensures GalleryOf(a + b).images == GalleryOf(a).images + GalleryOf(b).images
  {
    OfKindAppend(a, b, "image");
  }
}
