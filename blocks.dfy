/**
 * The normalised content block that the page builder hands to every renderer,
 * `{ type, text?, richText?, url?, caption? }`, and the Notion rich-text span it
 * may carry.
 */
module Blocks {
  import opened Wrappers
  import opened Text

  /**
   * One Notion rich-text item: `text.content`, `text.link.url`, the `bold`,
   * `italic` and `code` annotations, and `plain_text`.
   */
  datatype Span = Span(
    content: string,
    link: Option<string>,
    bold: bool,
    italic: bool,
    code: bool,
    plainText: string)

  /** A normalised content block; `kind` is the Notion block type (`heading_2`, `image`, ...). */
  datatype NotionBlock = NotionBlock(
    kind: string,
    text: Option<string>,
    richText: Option<seq<Span>>,
    url: Option<string>,
    caption: Option<string>)

  /** What `{block.text}` renders: the text, or nothing when it is undefined. */
  function TextOf(b: NotionBlock): string {
    b.text.GetOr("")
  }

  /**
   * An image as the layout templates show it: its `src` and the caption
   * line, which shows only for a non-empty caption.
   */
  datatype Figure = Figure(src: Option<string>, caption: Option<string>)

  /** `<BlobImage src={image.url} .../>{image.caption && <p>...</p>}`. */
  function FigureOf(b: NotionBlock): (r: Figure)
    ensures r.src == b.url
    ensures r.caption.Some? <==> Truthy(b.caption)
    ensures r.caption.Some? ==> r.caption == b.caption
  {
    Figure(b.url, if Truthy(b.caption) then b.caption else None)
  }

  /** `images.map(image => <figure/>)`: one figure per image block, in order. */
  function Figures(images: seq<NotionBlock>): (r: seq<Figure>)
    ensures |r| == |images|
    ensures forall i :: 0 <= i < |images| ==> r[i] == FigureOf(images[i])
  {
    seq(|images|, i requires 0 <= i < |images| => FigureOf(images[i]))
  }

  /** `blocks.filter(block => block.type === kind)`. */
  function OfKind(blocks: seq<NotionBlock>, kind: string): (r: seq<NotionBlock>)
    ensures |r| <= |blocks|
    ensures forall i :: 0 <= i < |r| ==> r[i].kind == kind
    decreases |blocks|
  {
    if blocks == [] then []
    else if blocks[0].kind == kind then [blocks[0]] + OfKind(blocks[1..], kind)
    else OfKind(blocks[1..], kind)
  }

  /** Filtering keeps relative order: it distributes over concatenation. */
  lemma {:induction false} OfKindAppend(a: seq<NotionBlock>, b: seq<NotionBlock>, kind: string)
    ensures OfKind(a + b, kind) == OfKind(a, kind) + OfKind(b, kind)
    decreases |a|
  {
    if a == [] {
      assert a + b == b;
    } else {
      assert (a + b)[1..] == a[1..] + b;
      OfKindAppend(a[1..], b, kind);
    }
  }

  /** Filtering keeps every block of that kind and no other. */
  lemma {:induction false} OfKindMembers(blocks: seq<NotionBlock>, kind: string)
    ensures forall b :: b in OfKind(blocks, kind) <==> b in blocks && b.kind == kind
    decreases |blocks|
  {
    if blocks != [] {
      OfKindMembers(blocks[1..], kind);
      assert blocks == [blocks[0]] + blocks[1..];
    }
  }
}
