/**
 * The collapsible tag list (components/TagsWithOverflow.tsx): two flags,
 * `showAll` and `isExpanded`, flipped together by one toggle, and a render
 * rule that shows a prefix of the tags with a "+N" or a "Show less" button.
 */
module TagsWithOverflow {
  import opened Wrappers

  // ---------------------------------------------------------------------------
  // Render rule
  // ---------------------------------------------------------------------------

  /** `Array.prototype.slice(0, end)` on an integer `end`: negative ends count from the back. */
  function SliceTo<T>(xs: seq<T>, end: int): (r: seq<T>)
    ensures 0 <= end ==> r == xs[..if end < |xs| then end else |xs|]
    ensures end < 0 ==> r == xs[..if |xs| + end < 0 then 0 else |xs| + end]
  {
    var stop := if end < 0 then (if |xs| + end < 0 then 0 else |xs| + end)
                else if end < |xs| then end else |xs|;
    xs[..stop]
  }

  /** The rendered row: the visible tags and, at most, one of the two buttons. */
  datatype Row = Row(visible: seq<string>, moreButton: Option<int>, lessButton: bool)

  /** The component's output: nothing, or a row. */
  datatype Output = Nothing | Shown(row: Row)

  /** The remaining count, `tags.length - maxVisible`. */
  function Remaining(tags: seq<string>, maxVisible: int): int {
    |tags| - maxVisible
  }

  /** The render rule as a function of the props and the `showAll` flag. */
  function OutputOf(tags: Option<seq<string>>, maxVisible: int, showAll: bool): (r: Output)
    ensures r == Nothing <==> tags.None? || tags.value == []
    ensures r.Shown? && showAll ==> r.row.visible == tags.value
    ensures r.Shown? && !showAll ==> r.row.visible == SliceTo(tags.value, maxVisible)
    ensures r.Shown? ==>
      (r.row.moreButton.Some? <==> Remaining(tags.value, maxVisible) > 0 && !showAll)
    ensures r.Shown? && r.row.moreButton.Some? ==> r.row.moreButton.value == Remaining(tags.value, maxVisible)
    ensures r.Shown? ==> (r.row.lessButton <==> showAll && Remaining(tags.value, maxVisible) > 0)
  {
    match tags
    case None => Nothing
    case Some(ts) =>
      if ts == [] then Nothing
      else
        var remaining := Remaining(ts, maxVisible);
        Shown(Row(
          if showAll then ts else SliceTo(ts, maxVisible),
          if remaining > 0 && !showAll then Some(remaining) else None,
          showAll && remaining > 0))
  }

  /** The two buttons never show together. */
  lemma AtMostOneButton(tags: Option<seq<string>>, maxVisible: int, showAll: bool)
    ensures OutputOf(tags, maxVisible, showAll).Shown? ==>
      !(OutputOf(tags, maxVisible, showAll).row.moreButton.Some? && OutputOf(tags, maxVisible, showAll).row.lessButton)
  {
  }

  /**
   * Collapsed with a non-negative limit, the row shows the first `maxVisible`
   * tags in order, and the "+N" count is exactly the number left out.
   */
  lemma CollapsedAccountsForEveryTag(tags: seq<string>, maxVisible: int)
    requires tags != [] && 0 <= maxVisible
    ensures var row := OutputOf(Some(tags), maxVisible, false).row;
      && (maxVisible <= |tags| ==> row.visible == tags[..maxVisible])
      && (maxVisible >= |tags| ==> row.visible == tags && row.moreButton.None?)
      && (row.moreButton.Some? ==> |row.visible| + row.moreButton.value == |tags|)
  {
  }

  /** Without a button to press, the row already shows every tag. */
  lemma NoButtonMeansAllShown(tags: seq<string>, maxVisible: int, showAll: bool)
    requires tags != []
    ensures var row := OutputOf(Some(tags), maxVisible, showAll).row;
      row.moreButton.None? && !row.lessButton ==> row.visible == tags
  {
  }

  // ---------------------------------------------------------------------------
  // The component's state
  // ---------------------------------------------------------------------------

  class TagsWithOverflow {
    const tags: Option<seq<string>>
    const maxVisible: int
    var showAll: bool
    var isExpanded: bool

    /** The two flags move together. */
    predicate Valid()
      reads this
    {
      showAll == isExpanded
    }

    /** Props with `maxVisible = 2` by default; both flags start `false`. */
    constructor(tags: Option<seq<string>>, maxVisible: Option<int>)
      ensures this.tags == tags && this.maxVisible == maxVisible.GetOr(2)
      ensures !showAll && !isExpanded
      ensures Valid()
    {
      this.tags := tags;
      this.maxVisible := maxVisible.GetOr(2);
      showAll := false;
      isExpanded := false;
    }

    function Output(): Output
      reads this
    {
      OutputOf(tags, maxVisible, showAll)
    }

    /** `toggleExpanded`: flip `isExpanded`, and set `showAll` to its new value. */
    method Toggle()
      modifies this
      ensures isExpanded == !old(isExpanded)
      ensures showAll == isExpanded
      ensures Valid()
    {
      var wasExpanded := isExpanded;
      isExpanded := !wasExpanded;
      if !wasExpanded {
        showAll := true;
      } else {
        showAll := false;
      }
    }
  }

  /** From any reachable state, two toggles restore both flags and the output. */
  method ToggleTwice(c: TagsWithOverflow)
    requires c.Valid()
    modifies c
    ensures c.showAll == old(c.showAll) && c.isExpanded == old(c.isExpanded)
    ensures c.Output() == old(c.Output())
  {
    c.Toggle();
    c.Toggle();
  }

  /** Pressing "+N" on a fresh component expands it to every tag, with "Show less" offered. */
  method ExpandFresh(tags: seq<string>, maxVisible: Option<int>) returns (c: TagsWithOverflow)
    requires tags != [] && |tags| > maxVisible.GetOr(2)
    ensures fresh(c)
    ensures c.Output() == Shown(Row(tags, None, true))
  {
    c := new TagsWithOverflow(Some(tags), maxVisible);
    c.Toggle();
  }
}
