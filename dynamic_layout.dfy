/**
 * Directive-driven layout choice (components/DynamicLayout.tsx).
 *
 * `Detect` looks at the first three blocks only. Each block is lower-cased and
 * tested against the marker of its own type:
 *   callout            `layout:\s*([a-z-]+)`
 *   heading*           `\[layout:\s*([a-z-]+)\]`
 *   paragraph          `<!-- layout:\s*([a-z-]+) -->`
 * The first block whose marker matches gives the directive name, with `-`
 * replaced by `_` and upper-cased. `Render` switches that name to one of six
 * positional templates, each a function from the whole block list to slots.
 */
module DynamicLayout {
  import opened Wrappers
  import opened Text
  import opened Blocks

  // ---------------------------------------------------------------------------
  // Regular-expression matching, as a leftmost scanner and as a declarative spec
  // ---------------------------------------------------------------------------

  /** The character class `[a-z-]`. */
  predicate IsNameChar(c: char) {
    'a' <= c <= 'z' || c == '-'
  }

  /** The character class `\s` of JavaScript regular expressions. */
  predicate IsSpace(c: char) {
    var n := c as int;
    n == 0x09 || n == 0x0A || n == 0x0B || n == 0x0C || n == 0x0D || n == 0x20 ||
    n == 0xA0 || n == 0x1680 || (0x2000 <= n <= 0x200A) || n == 0x2028 || n == 0x2029 ||
    n == 0x202F || n == 0x205F || n == 0x3000 || n == 0xFEFF
  }

  /** Length of the longest run of `\s` characters starting at `k`. */
  function SpaceRun(t: string, k: nat): (n: nat)
    requires k <= |t|
    ensures k + n <= |t|
    ensures forall j {:trigger IsSpace(t[j])} :: k <= j < k + n ==> IsSpace(t[j])
    ensures k + n == |t| || !IsSpace(t[k + n])
    decreases |t| - k
  {
    if k < |t| && IsSpace(t[k]) then 1 + SpaceRun(t, k + 1) else 0
  }

  /** Length of the longest run of `[a-z-]` characters starting at `k`. */
  function NameRun(t: string, k: nat): (n: nat)
    requires k <= |t|
    ensures k + n <= |t|
    ensures forall j {:trigger IsNameChar(t[j])} :: k <= j < k + n ==> IsNameChar(t[j])
    ensures k + n == |t| || !IsNameChar(t[k + n])
    decreases |t| - k
  {
    if k < |t| && IsNameChar(t[k]) then 1 + NameRun(t, k + 1) else 0
  }

  /** Where a match starts and what its capture group holds. */
  datatype Capture = Capture(start: nat, name: string)

  /**
   * Try `open\s*([a-z-]+)close` at position `i`: skip the whitespace, take the
   * longest `[a-z-]` run, and require `close` right after it.
   */
  function MatchAt(t: string, i: nat, open: string, close: string): Option<string>
    requires i <= |t|
  {
    if !IsPrefixAt(open, t, i) then None
    else
      var k := i + |open|;
      var w := SpaceRun(t, k);
      var n := NameRun(t, k + w);
      if n > 0 && IsPrefixAt(close, t, k + w + n) then Some(t[k + w..k + w + n]) else None
  }

  /** `t.match(/open\s*([a-z-]+)close/)` searched from position `i` on. */
  function FindFrom(t: string, i: nat, open: string, close: string): Option<Capture>
    requires i <= |t|
    decreases |t| - i
  {
    match MatchAt(t, i, open, close)
    case Some(name) => Some(Capture(i, name))
    case None => if i == |t| then None else FindFrom(t, i + 1, open, close)
  }

  /** `t.match(/open\s*([a-z-]+)close/)`. */
  function Find(t: string, open: string, close: string): Option<Capture> {
    FindFrom(t, 0, open, close)
  }

  /**
   * Declarative reading of the pattern: at position `i` the text reads `open`,
   * then `w` whitespace characters, then the non-empty name over `[a-z-]`, then
   * `close`.
   */
  ghost predicate Occurs(t: string, i: nat, open: string, close: string, w: nat, name: string) {
    var k := i + |open|;
    var e := k + w + |name|;
    && e + |close| <= |t|
    && t[i..k] == open
    && (forall j {:trigger IsSpace(t[j])} :: k <= j < k + w ==> IsSpace(t[j]))
    && |name| > 0
    && t[k + w..e] == name
    && (forall j :: 0 <= j < |name| ==> IsNameChar(name[j]))
    && t[e..e + |close|] == close
  }

  /** The closing literal cannot extend a `[a-z-]+` run, so greedy matching never backtracks. */
  predicate ClosesCleanly(close: string) {
    close == [] || !IsNameChar(close[0])
  }

  /**
   * Any occurrence at `i` skips exactly the whitespace run and names a prefix of
   * the `[a-z-]` run after it; with a non-empty closing literal, the whole run.
   */
  lemma OccursShape(t: string, i: nat, open: string, close: string, w: nat, name: string)
    requires Occurs(t, i, open, close, w, name)
    ensures w == SpaceRun(t, i + |open|)
    ensures |name| <= NameRun(t, i + |open| + w)
    ensures close != [] && ClosesCleanly(close) ==> |name| == NameRun(t, i + |open| + w)
  {
    var k := i + |open|;
    var ws := SpaceRun(t, k);
    assert t[k + w] == name[0];
    assert IsNameChar(t[k + w]) && !IsSpace(t[k + w]);
    var n := NameRun(t, k + w);
    var e := k + w + |name|;
    if close != [] && |name| < n {
      assert t[e] == close[0];
    }
  }

  /** What `MatchAt` captures is an occurrence of the pattern at `i`. */
  lemma MatchAtSound(t: string, i: nat, open: string, close: string)
    requires i <= |t|
    requires MatchAt(t, i, open, close).Some?
    ensures i + |open| <= |t|
    ensures Occurs(t, i, open, close, SpaceRun(t, i + |open|), MatchAt(t, i, open, close).value)
  {
    var k := i + |open|;
    var ws := SpaceRun(t, k);
    var name := MatchAt(t, i, open, close).value;
    assert forall j :: 0 <= j < |name| ==> name[j] == t[k + ws + j];
  }

  /**
   * Wherever the pattern occurs, `MatchAt` succeeds, and its capture is at
   * least as long as the name of that occurrence (greedy capture).
   */
  lemma MatchAtComplete(t: string, i: nat, open: string, close: string, w: nat, name: string)
    requires i <= |t|
    requires ClosesCleanly(close)
    requires Occurs(t, i, open, close, w, name)
    ensures MatchAt(t, i, open, close).Some?
    ensures |name| <= |MatchAt(t, i, open, close).value|
  {
    OccursShape(t, i, open, close, w, name);
    var k := i + |open|;
    assert t[i..k] == open;
  }

  /** At one position: no match means no occurrence, and a match is the longest capture there. */
  lemma MatchAtCompleteAll(t: string, i: nat, open: string, close: string)
    requires i <= |t|
    requires ClosesCleanly(close)
    ensures MatchAt(t, i, open, close).None? ==>
      forall w: nat, name: string :: !Occurs(t, i, open, close, w, name)
    ensures MatchAt(t, i, open, close).Some? ==>
      forall w: nat, name: string :: Occurs(t, i, open, close, w, name) ==>
        |name| <= |MatchAt(t, i, open, close).value|
  {
    forall w: nat, name: string | Occurs(t, i, open, close, w, name)
      ensures MatchAt(t, i, open, close).Some? && |name| <= |MatchAt(t, i, open, close).value|
    {
      MatchAtComplete(t, i, open, close, w, name);
    }
  }

  /** A successful search reports a position at or after `from` where `MatchAt` succeeds, with its capture. */
  lemma {:induction false} FindFromHit(t: string, from: nat, open: string, close: string)
    requires from <= |t|
    ensures FindFrom(t, from, open, close).Some? ==>
      var c := FindFrom(t, from, open, close).value;
      from <= c.start <= |t| && MatchAt(t, c.start, open, close) == Some(c.name)
    decreases |t| - from
  {
    if MatchAt(t, from, open, close).None? && from < |t| {
      FindFromHit(t, from + 1, open, close);
    }
  }

  /** `MatchAt` fails at every position the search passes over. */
  lemma {:induction false} FindFromSkips(t: string, from: nat, j: nat, open: string, close: string)
    requires from <= j <= |t|
    requires FindFrom(t, from, open, close).None? || j < FindFrom(t, from, open, close).value.start
    ensures MatchAt(t, j, open, close).None?
    decreases j - from
  {
    if from < j {
      assert FindFrom(t, from, open, close) == FindFrom(t, from + 1, open, close);
      FindFromSkips(t, from + 1, j, open, close);
    }
  }

  /**
   * The scanner implements the leftmost, greedy match of the pattern: it
   * reports the first position at or after `from` where the pattern occurs and
   * the longest name captured there, and reports nothing exactly when the
   * pattern occurs nowhere at or after `from`.
   */
  lemma FindFromCorrect(t: string, from: nat, open: string, close: string)
    requires from <= |t|
    requires ClosesCleanly(close)
    ensures FindFrom(t, from, open, close).Some? ==>
      var c := FindFrom(t, from, open, close).value;
      && from <= c.start && c.start + |open| <= |t|
      && Occurs(t, c.start, open, close, SpaceRun(t, c.start + |open|), c.name)
      && (forall w: nat, name: string :: Occurs(t, c.start, open, close, w, name) ==> |name| <= |c.name|)
      && (forall j: nat, w: nat, name: string :: from <= j < c.start ==> !Occurs(t, j, open, close, w, name))
    ensures FindFrom(t, from, open, close).None? ==>
      forall j: nat, w: nat, name: string :: from <= j ==> !Occurs(t, j, open, close, w, name)
  {
    FindFromHit(t, from, open, close);
    if FindFrom(t, from, open, close).Some? {
      var c := FindFrom(t, from, open, close).value;
      MatchAtSound(t, c.start, open, close);
      MatchAtCompleteAll(t, c.start, open, close);
      forall j: nat, w: nat, name: string | from <= j < c.start
        ensures !Occurs(t, j, open, close, w, name)
      {
        FindFromSkips(t, from, j, open, close);
        MatchAtCompleteAll(t, j, open, close);
      }
    } else {
      forall j: nat, w: nat, name: string | from <= j
        ensures !Occurs(t, j, open, close, w, name)
      {
        if j <= |t| {
          FindFromSkips(t, from, j, open, close);
          MatchAtCompleteAll(t, j, open, close);
        }
      }
    }
  }

  /** `Find` is the leftmost, greedy match of `open\s*([a-z-]+)close`. */
  lemma FindCorrect(t: string, open: string, close: string)
    requires ClosesCleanly(close)
    ensures Find(t, open, close).Some? ==>
      var c := Find(t, open, close).value;
      && c.start + |open| <= |t|
      && Occurs(t, c.start, open, close, SpaceRun(t, c.start + |open|), c.name)
      && (forall w: nat, name: string :: Occurs(t, c.start, open, close, w, name) ==> |name| <= |c.name|)
      && (forall j: nat, w: nat, name: string :: j < c.start ==> !Occurs(t, j, open, close, w, name))
    ensures Find(t, open, close).None? ==>
      forall j: nat, w: nat, name: string :: !Occurs(t, j, open, close, w, name)
  {
    FindFromCorrect(t, 0, open, close);
  }

  /** Every name `Find` captures is a non-empty run of `[a-z-]`. */
  lemma {:induction false} FindFromCaptures(t: string, from: nat, open: string, close: string)
    requires from <= |t|
    requires FindFrom(t, from, open, close).Some?
    ensures |FindFrom(t, from, open, close).value.name| > 0
    ensures forall j :: 0 <= j < |FindFrom(t, from, open, close).value.name| ==>
      IsNameChar(FindFrom(t, from, open, close).value.name[j])
    decreases |t| - from
  {
    if MatchAt(t, from, open, close).None? {
      FindFromCaptures(t, from + 1, open, close);
    } else {
      MatchAtSound(t, from, open, close);
    }
  }

  /** Every name `Find` captures is a non-empty run of `[a-z-]`. */
  lemma FindCapturesName(t: string, open: string, close: string)
    requires Find(t, open, close).Some?
    ensures |Find(t, open, close).value.name| > 0
    ensures forall j :: 0 <= j < |Find(t, open, close).value.name| ==>
      IsNameChar(Find(t, open, close).value.name[j])
  {
    FindFromCaptures(t, 0, open, close);
  }

  /** A text without the first character of the closing literal never matches. */
  lemma {:induction false} NoCloseNoMatch(t: string, from: nat, open: string, close: string)
    requires from <= |t|
    requires close != []
    requires forall j :: 0 <= j < |t| ==> t[j] != close[0]
    ensures FindFrom(t, from, open, close).None?
    decreases |t| - from
  {
    if MatchAt(t, from, open, close).None? && from < |t| {
      NoCloseNoMatch(t, from + 1, open, close);
    }
  }

  // ---------------------------------------------------------------------------
  // Trigger detection
  // ---------------------------------------------------------------------------

  const CalloutOpen := "layout:"
  const HeadingOpen := "[layout:"
  const HeadingClose := "]"
  const ParagraphOpen := "<!-- layout:"
  const ParagraphClose := " -->"

  /**
   * `name.replace(/-/g, '_').toUpperCase()`: every hyphen becomes `_`, every
   * lower-case letter its upper-case form, and every other character stays.
   */
  function Normalize(name: string): (r: string)
    ensures |r| == |name|
    ensures forall i :: 0 <= i < |name| && name[i] == '-' ==> r[i] == '_'
    ensures forall i :: 0 <= i < |name| && 'a' <= name[i] <= 'z' ==> r[i] as int == name[i] as int - 32
    ensures forall i :: 0 <= i < |name| && name[i] != '-' && !('a' <= name[i] <= 'z') ==> r[i] == name[i]
  {
    seq(|name|, i requires 0 <= i < |name| => if name[i] == '-' then '_' else UpperChar(name[i]))
  }

  /** A normalised directive name is non-empty and spelt with `A`-`Z` and `_` only. */
  lemma NormalizeShape(name: string)
    requires |name| > 0
    requires forall j :: 0 <= j < |name| ==> IsNameChar(name[j])
    ensures |Normalize(name)| > 0
    ensures forall j :: 0 <= j < |name| ==> 'A' <= Normalize(name)[j] <= 'Z' || Normalize(name)[j] == '_'
  {
  }

  /**
   * On captured names, spelt with `a`-`z` and `-`, normalising loses nothing:
   * two directives select the same template name only if they are the same.
   */
  lemma NormalizeInjective(a: string, b: string)
    requires forall j :: 0 <= j < |a| ==> IsNameChar(a[j])
    requires forall j :: 0 <= j < |b| ==> IsNameChar(b[j])
    requires Normalize(a) == Normalize(b)
    ensures a == b
  {
    assert |a| == |b|;
    forall j | 0 <= j < |a|
      ensures a[j] == b[j]
    {
      assert IsNameChar(a[j]) && IsNameChar(b[j]);
      assert Normalize(a)[j] == Normalize(b)[j];
    }
  }

  /** The directive carried by a single block, judged by that block's own type. */
  function BlockTrigger(b: NotionBlock): Option<string> {
    var text := Lower(b.text.GetOr(""));
    if b.kind == "callout" && Find(text, CalloutOpen, "").Some? then
      Some(Normalize(Find(text, CalloutOpen, "").value.name))
    else if IsPrefix("heading", b.kind) && Find(text, HeadingOpen, HeadingClose).Some? then
      Some(Normalize(Find(text, HeadingOpen, HeadingClose).value.name))
    else if b.kind == "paragraph" && Find(text, ParagraphOpen, ParagraphClose).Some? then
      Some(Normalize(Find(text, ParagraphOpen, ParagraphClose).value.name))
    else None
  }

  /** First directive among `bs`, in position order. */
  function FirstTrigger(bs: seq<NotionBlock>): Option<string>
    decreases |bs|
  {
    if bs == [] then None
    else if BlockTrigger(bs[0]).Some? then BlockTrigger(bs[0])
    else FirstTrigger(bs[1..])
  }

  /** `detectLayoutTrigger`: only `blocks.slice(0, 3)` is examined. */
  function Detect(blocks: seq<NotionBlock>): Option<string> {
    FirstTrigger(if |blocks| <= 3 then blocks else blocks[..3])
  }

  /** `FirstTrigger` returns the directive of the first block that carries one. */
  lemma {:induction false} FirstTriggerIsFirst(bs: seq<NotionBlock>)
    ensures FirstTrigger(bs).None? <==> forall k :: 0 <= k < |bs| ==> BlockTrigger(bs[k]).None?
    ensures FirstTrigger(bs).Some? ==>
      exists k :: 0 <= k < |bs| && BlockTrigger(bs[k]) == FirstTrigger(bs) &&
        forall j :: 0 <= j < k ==> BlockTrigger(bs[j]).None?
    decreases |bs|
  {
    if bs != [] && BlockTrigger(bs[0]).None? {
      FirstTriggerIsFirst(bs[1..]);
      if FirstTrigger(bs).Some? {
        var k :| 0 <= k < |bs| - 1 && BlockTrigger(bs[1..][k]) == FirstTrigger(bs[1..]) &&
          forall j :: 0 <= j < k ==> BlockTrigger(bs[1..][j]).None?;
        assert BlockTrigger(bs[k + 1]) == FirstTrigger(bs);
        assert forall j :: 0 <= j < k + 1 ==> BlockTrigger(bs[j]).None? by {
          forall j | 0 <= j < k + 1 ensures BlockTrigger(bs[j]).None? {
            if j > 0 { assert bs[j] == bs[1..][j - 1]; }
          }
        }
      } else {
        forall k | 0 <= k < |bs| ensures BlockTrigger(bs[k]).None? {
          if k > 0 { assert bs[k] == bs[1..][k - 1]; }
        }
      }
    }
  }

  /**
   * The detected name is the directive of the first of blocks 0-2 that carries
   * one; no directive in those three blocks means no layout name.
   */
  lemma DetectIsFirstOfThree(blocks: seq<NotionBlock>)
    ensures Detect(blocks).None? <==>
      forall k :: 0 <= k < |blocks| && k < 3 ==> BlockTrigger(blocks[k]).None?
    ensures Detect(blocks).Some? ==>
      exists k :: 0 <= k < |blocks| && k < 3 && BlockTrigger(blocks[k]) == Detect(blocks) &&
        forall j :: 0 <= j < k ==> BlockTrigger(blocks[j]).None?
  {
    var head := if |blocks| <= 3 then blocks else blocks[..3];
    FirstTriggerIsFirst(head);
    assert forall k :: 0 <= k < |head| ==> head[k] == blocks[k];
  }

  /** Blocks after position 2 never influence the detected layout. */
  lemma DetectIgnoresLaterBlocks(blocks: seq<NotionBlock>, rest: seq<NotionBlock>)
    requires |blocks| >= 3
    ensures Detect(blocks + rest) == Detect(blocks)
  {
    var all := blocks + rest;
    assert (if |all| <= 3 then all else all[..3]) == (if |blocks| <= 3 then blocks else blocks[..3]);
  }

  /** A detected name is non-empty and consists of `A`-`Z` and `_` only. */
  lemma DetectedNameShape(blocks: seq<NotionBlock>)
    requires Detect(blocks).Some?
    ensures |Detect(blocks).value| > 0
    ensures forall j :: 0 <= j < |Detect(blocks).value| ==>
      'A' <= Detect(blocks).value[j] <= 'Z' || Detect(blocks).value[j] == '_'
  {
    DetectIsFirstOfThree(blocks);
    var k :| 0 <= k < |blocks| && k < 3 && BlockTrigger(blocks[k]) == Detect(blocks);
    var b := blocks[k];
    var text := Lower(b.text.GetOr(""));
    if b.kind == "callout" && Find(text, CalloutOpen, "").Some? {
      FindCapturesName(text, CalloutOpen, "");
    } else if IsPrefix("heading", b.kind) && Find(text, HeadingOpen, HeadingClose).Some? {
      FindCapturesName(text, HeadingOpen, HeadingClose);
    } else {
      FindCapturesName(text, ParagraphOpen, ParagraphClose);
    }
  }

  /** A block without text (or with empty text) never carries a directive. */
  lemma NoTextNoTrigger(b: NotionBlock)
    requires b.text.None? || b.text == Some("")
    ensures BlockTrigger(b).None?
  {
    assert Lower("") == "";
  }

  /** Types other than `callout`, `heading*` and `paragraph` never carry a directive. */
  lemma OtherKindsNeverTrigger(b: NotionBlock)
    requires b.kind != "callout" && b.kind != "paragraph" && !IsPrefix("heading", b.kind)
    ensures BlockTrigger(b).None?
  {
  }

  /**
   * Matching ignores letter case: a block whose text differs only in ASCII case
   * carries the same directive.
   */
  lemma TriggerIgnoresCase(b: NotionBlock, s: string)
    requires b.text.Some? && Lower(s) == Lower(b.text.value)
    ensures BlockTrigger(b.(text := Some(s))) == BlockTrigger(b)
  {
  }

  /**
   * Lower-casing the text first changes nothing: the detector sees the text
   * only through `toLowerCase`.
   */
  lemma TriggerOfLoweredText(b: NotionBlock)
    requires b.text.Some?
    ensures BlockTrigger(b.(text := Some(Lower(b.text.value)))) == BlockTrigger(b)
  {
    LowerIdempotent(b.text.value);
    TriggerIgnoresCase(b, Lower(b.text.value));
  }

  /** A heading directive needs the closing `]`: a heading without one never triggers. */
  lemma HeadingNeedsBracket(b: NotionBlock)
    requires IsPrefix("heading", b.kind)
    requires forall j :: 0 <= j < |b.text.GetOr("")| ==> b.text.GetOr("")[j] != ']'
    ensures BlockTrigger(b).None?
  {
    var text := Lower(b.text.GetOr(""));
    assert forall j :: 0 <= j < |text| ==> text[j] != ']';
    assert b.kind[0] == b.kind[..7][0] == 'h';
    NoCloseNoMatch(text, 0, HeadingOpen, HeadingClose);
  }

  // ---------------------------------------------------------------------------
  // Template dispatch
  // ---------------------------------------------------------------------------

  /** The six templates the switch can pick. */
  datatype Template = HeroOverlay | FullWidthDiagram | TwoColumn | ImageGallery | Centered | Comparison

  /** The `switch (layoutType)` of the default export. */
  function TemplateFor(name: Option<string>): (r: Option<Template>)
    ensures name == Some("HERO_OVERLAY") <==> r == Some(HeroOverlay)
    ensures name == Some("TWO_COLUMN") <==> r == Some(TwoColumn)
    ensures name == Some("IMAGE_GALLERY") <==> r == Some(ImageGallery)
    ensures name == Some("CENTERED") <==> r == Some(Centered)
    ensures name == Some("COMPARISON") <==> r == Some(Comparison)
    ensures r == Some(FullWidthDiagram) <==>
      name in {Some("FULLWIDTH_DIAGRAM"), Some("METRICS_CARDS"), Some("TIMELINE")}
  {
    match name
    case None => None
    case Some(n) =>
      if n == "HERO_OVERLAY" then Some(HeroOverlay)
      else if n == "FULLWIDTH_DIAGRAM" then Some(FullWidthDiagram)
      else if n == "TWO_COLUMN" then Some(TwoColumn)
      else if n == "IMAGE_GALLERY" then Some(ImageGallery)
      else if n == "METRICS_CARDS" then Some(FullWidthDiagram)
      else if n == "TIMELINE" then Some(FullWidthDiagram)
      else if n == "CENTERED" then Some(Centered)
      else if n == "COMPARISON" then Some(Comparison)
      else None
  }

  /** Names outside the eight listed ones, and no name at all, fall back (null). */
  lemma UnlistedNameFallsBack(name: Option<string>)
    requires name !in {Some("HERO_OVERLAY"), Some("FULLWIDTH_DIAGRAM"), Some("TWO_COLUMN"),
      Some("IMAGE_GALLERY"), Some("METRICS_CARDS"), Some("TIMELINE"), Some("CENTERED"), Some("COMPARISON")}
    ensures TemplateFor(name).None?
  {
  }

  // ---------------------------------------------------------------------------
  // Templates: which blocks fill which slots
  // ---------------------------------------------------------------------------

  /** One half of the comparison template. */
  datatype Panel = Panel(text: Option<string>, image: Option<string>)

  /** The overlaid hero: background image with optional title and subtitle. */
  datatype Hero = Hero(background: string, title: Option<string>, subtitle: Option<string>)

  /** What each template renders, slot by slot; `None` is a slot left empty. */
  datatype View =
    | HeroOverlayView(hero: Option<Hero>)
    | DiagramView(title: Option<string>, lead: Option<string>, diagram: Option<Figure>)
    | TwoColumnView(title: Option<string>, paragraphs: seq<string>, images: seq<Figure>)
    | GalleryView(title: Option<string>, images: seq<Figure>)
    | CenteredView(title: Option<string>, body: Option<string>)
    | ComparisonView(title: Option<string>, left: Panel, right: Panel)

  /** `{block && block.text}`: the text of the block at position `i`, if there is one. */
  function TextAt(blocks: seq<NotionBlock>, i: nat): Option<string> {
    if i < |blocks| then Some(TextOf(blocks[i])) else None
  }

  /** `block?.url`, truthy: the url of the block at position `i` when present and non-empty. */
  function UrlAt(blocks: seq<NotionBlock>, i: nat): Option<string> {
    if i < |blocks| && Truthy(blocks[i].url) then blocks[i].url else None
  }

  /** `{caption && ...}`: a caption line only for a non-empty caption. */
  function CaptionLine(caption: Option<string>): Option<string> {
    if Truthy(caption) then caption else None
  }

  function Texts(bs: seq<NotionBlock>): (r: seq<string>)
    ensures |r| == |bs|
    ensures forall i :: 0 <= i < |bs| ==> r[i] == TextOf(bs[i])
  {
    seq(|bs|, i requires 0 <= i < |bs| => TextOf(bs[i]))
  }

  /** `HeroOverlay`: `[heading, paragraph, image] = blocks`, shown only under an image url. */
  function HeroOverlayOf(blocks: seq<NotionBlock>): View {
    match UrlAt(blocks, 2)
    case Some(u) => HeroOverlayView(Some(Hero(u, TextAt(blocks, 0), TextAt(blocks, 1))))
    case None => HeroOverlayView(None)
  }

  /** `FullWidthDiagram`: heading, lead paragraph and the diagram image by position. */
  function DiagramOf(blocks: seq<NotionBlock>): View {
    DiagramView(
      TextAt(blocks, 0),
      TextAt(blocks, 1),
      match UrlAt(blocks, 2)
      case Some(u) => Some(Figure(Some(u), CaptionLine(blocks[2].caption)))
      case None => None)
  }

  /** `TwoColumn`: position 0 is the heading; later paragraphs left, later images right. */
  function TwoColumnOf(blocks: seq<NotionBlock>): View {
    var rest := if blocks == [] then [] else blocks[1..];
    TwoColumnView(TextAt(blocks, 0), Texts(OfKind(rest, "paragraph")), Figures(OfKind(rest, "image")))
  }

  /** `ImageGallery`: position 0 is the heading; every later image in order. */
  function GalleryOf(blocks: seq<NotionBlock>): View {
    var rest := if blocks == [] then [] else blocks[1..];
    GalleryView(TextAt(blocks, 0), Figures(OfKind(rest, "image")))
  }

  /** `Centered`: `[heading, paragraph] = blocks`. */
  function CenteredOf(blocks: seq<NotionBlock>): View {
    CenteredView(TextAt(blocks, 0), TextAt(blocks, 1))
  }

  /** `Comparison`: `[heading, paragraph1, image1, paragraph2, image2] = blocks`. */
  function ComparisonOf(blocks: seq<NotionBlock>): View {
    ComparisonView(
      TextAt(blocks, 0),
      Panel(TextAt(blocks, 1), UrlAt(blocks, 2)),
      Panel(TextAt(blocks, 3), UrlAt(blocks, 4)))
  }

  function RenderTemplate(t: Template, blocks: seq<NotionBlock>): View {
    match t
    case HeroOverlay => HeroOverlayOf(blocks)
    case FullWidthDiagram => DiagramOf(blocks)
    case TwoColumn => TwoColumnOf(blocks)
    case ImageGallery => GalleryOf(blocks)
    case Centered => CenteredOf(blocks)
    case Comparison => ComparisonOf(blocks)
  }

  /** The default export: a template view, or `None` for the fallback renderer. */
  function Render(blocks: seq<NotionBlock>): (r: Option<View>)
    ensures r.None? <==> TemplateFor(Detect(blocks)).None?
  {
    match TemplateFor(Detect(blocks))
    case Some(t) => Some(RenderTemplate(t, blocks))
    case None => None
  }

  // ---------------------------------------------------------------------------
  // Properties of the templates
  // ---------------------------------------------------------------------------

  /**
   * `FullWidthDiagram` destructures `[heading, paragraph, image]`: block 0's
   * text is the title, block 1's the lead, and block 2 is the diagram exactly
   * when it has a non-empty url, with its caption line; later blocks are never read.
   */
  lemma DiagramSlots(blocks: seq<NotionBlock>, extra: seq<NotionBlock>)
    ensures DiagramOf(blocks).title == (if |blocks| > 0 then Some(TextOf(blocks[0])) else None)
    ensures DiagramOf(blocks).lead == (if |blocks| > 1 then Some(TextOf(blocks[1])) else None)
    ensures DiagramOf(blocks).diagram.Some? <==> |blocks| > 2 && Truthy(blocks[2].url)
    ensures DiagramOf(blocks).diagram.Some? ==> DiagramOf(blocks).diagram.value == FigureOf(blocks[2])
    ensures |blocks| >= 3 ==> DiagramOf(blocks + extra) == DiagramOf(blocks)
  {
    if |blocks| >= 3 {
      assert (blocks + extra)[..3] == blocks[..3];
    }
  }

  /** `METRICS_CARDS` and `TIMELINE` render exactly what `FULLWIDTH_DIAGRAM` renders. */
  lemma AliasesRenderAsDiagram(blocks: seq<NotionBlock>)
    requires Detect(blocks) in {Some("METRICS_CARDS"), Some("TIMELINE"), Some("FULLWIDTH_DIAGRAM")}
    ensures Render(blocks) == Some(DiagramOf(blocks))
  {
  }

  /**
   * The template sees the list unchanged, directive block included: when the
   * directive sits in block 0 of a non-hero template, block 0's own text is the
   * title.
   */
  lemma TriggerBlockBecomesTitle(blocks: seq<NotionBlock>)
    requires |blocks| > 0 && BlockTrigger(blocks[0]).Some?
    requires TemplateFor(BlockTrigger(blocks[0])).Some?
    requires TemplateFor(BlockTrigger(blocks[0])) != Some(HeroOverlay)
    ensures Render(blocks).Some? && Render(blocks).value.title == Some(TextOf(blocks[0]))
  {
    var head := if |blocks| <= 3 then blocks else blocks[..3];
    assert head[0] == blocks[0];
  }

  /** `Centered` reads positions 0-1 only. */
  lemma CenteredIgnoresExtraBlocks(blocks: seq<NotionBlock>, extra: seq<NotionBlock>)
    requires |blocks| >= 2
    ensures CenteredOf(blocks + extra) == CenteredOf(blocks)
  {
  }

  /** `Comparison` reads positions 0-4 only. */
  lemma ComparisonIgnoresExtraBlocks(blocks: seq<NotionBlock>, extra: seq<NotionBlock>)
    requires |blocks| >= 5
    ensures ComparisonOf(blocks + extra) == ComparisonOf(blocks)
  {
  }

  /** The overlay shows heading and paragraph exactly when position 2 has a non-empty url. */
  lemma HeroNeedsImageUrl(blocks: seq<NotionBlock>)
    ensures HeroOverlayOf(blocks).hero.Some? <==> |blocks| > 2 && Truthy(blocks[2].url)
    ensures HeroOverlayOf(blocks).hero.Some? ==>
      HeroOverlayOf(blocks).hero.value.title == Some(TextOf(blocks[0])) &&
      HeroOverlayOf(blocks).hero.value.subtitle == Some(TextOf(blocks[1])) &&
      HeroOverlayOf(blocks).hero.value.background == blocks[2].url.value
  {
  }

  /**
   * `TwoColumn` keeps the paragraphs and images after the heading in their
   * order: appending blocks appends their paragraphs and images.
   */
  lemma TwoColumnKeepsOrder(blocks: seq<NotionBlock>, more: seq<NotionBlock>)
    requires |blocks| > 0
    ensures TwoColumnOf(blocks + more).paragraphs ==
      TwoColumnOf(blocks).paragraphs + Texts(OfKind(more, "paragraph"))
    ensures TwoColumnOf(blocks + more).images ==
      TwoColumnOf(blocks).images + Figures(OfKind(more, "image"))
  {
    assert (blocks + more)[1..] == blocks[1..] + more;
    OfKindAppend(blocks[1..], more, "paragraph");
    OfKindAppend(blocks[1..], more, "image");
  }

  /** The gallery shows exactly the images after position 0, and each keeps its own caption. */
  lemma GalleryShowsLaterImages(blocks: seq<NotionBlock>)
    requires |blocks| > 0
    ensures forall f :: f in GalleryOf(blocks).images <==>
      exists b :: b in blocks[1..] && b.kind == "image" && f == FigureOf(b)
  {
    OfKindMembers(blocks[1..], "image");
    var imgs := OfKind(blocks[1..], "image");
    forall f ensures f in Figures(imgs) <==> exists b :: b in imgs && f == FigureOf(b) {
      if f in Figures(imgs) {
        var i :| 0 <= i < |imgs| && Figures(imgs)[i] == f;
        assert imgs[i] in imgs;
      }
      if exists b :: b in imgs && f == FigureOf(b) {
        var b :| b in imgs && f == FigureOf(b);
        var i :| 0 <= i < |imgs| && imgs[i] == b;
        assert Figures(imgs)[i] == f;
      }
    }
  }
}
