/**
 * The fallback block renderer (components/NotionRenderer.tsx): one element
 * per block, tagged by the block type, carrying the block's text.
 */
module NotionRenderer {
  import opened Wrappers
  import opened Blocks

  datatype Tag = H1 | H2 | H3 | P

  /** A rendered element: its tag and the block's `text` as given. */
  datatype Element = Element(tag: Tag, text: Option<string>)

  /** The `switch (block.type)`: three heading levels, everything else a paragraph. */
  function TagFor(kind: string): Tag {
    if kind == "heading_1" then H1
    else if kind == "heading_2" then H2
    else if kind == "heading_3" then H3
    else P
  }

  /** `blocks.map(...)`: one element per block, in order. */
  function Render(blocks: seq<NotionBlock>): (r: seq<Element>)
    ensures |r| == |blocks|
    ensures forall i :: 0 <= i < |blocks| ==> r[i].text == blocks[i].text
    ensures forall i :: 0 <= i < |blocks| ==> r[i].tag == TagFor(blocks[i].kind)
    decreases |blocks|
  {
    if blocks == [] then []
    else [Element(TagFor(blocks[0].kind), blocks[0].text)] + Render(blocks[1..])
  }

  /** Headings map to their level; every other type, known or not, to a paragraph. */
  lemma TagForCases(kind: string)
    ensures TagFor(kind) == H1 <==> kind == "heading_1"
    ensures TagFor(kind) == H2 <==> kind == "heading_2"
    ensures TagFor(kind) == H3 <==> kind == "heading_3"
    ensures TagFor(kind) == P <==> kind !in {"heading_1", "heading_2", "heading_3"}
  {
  }

  /** Rendering commutes with concatenation: order is kept block for block. */
  lemma {:induction false} RenderAppend(a: seq<NotionBlock>, b: seq<NotionBlock>)
    ensures Render(a + b) == Render(a) + Render(b)
    decreases |a|
  {
    if a != [] {
      assert (a + b)[1..] == a[1..] + b;
      RenderAppend(a[1..], b);
    } else {
      assert a + b == b;
    }
  }
}
