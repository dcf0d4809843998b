/**
 * The case-study card of the listing (components/CaseCard.tsx): the link
 * target, the optional cover, type badge and summary, the role/year meta
 * line, and the tag row truncated to three with a "+N more" note.
 */
module CaseCard {
  import opened Wrappers
  import opened Text

  const RoutePrefix := "/case/"

  /** `/case/${slug}`. */
  function Href(slug: string): (r: string)
    ensures IsPrefix(RoutePrefix, r)
    ensures |r| == |RoutePrefix| + |slug|
    ensures r[|RoutePrefix|..] == slug
  {
    RoutePrefix + slug
  }

  /** The slug a card's link leads to: the part after `/case/`. */
  function SlugOf(href: string): Option<string> {
    if IsPrefix(RoutePrefix, href) then Some(href[|RoutePrefix|..]) else None
  }

  /** The link target determines the slug, so distinct cards link to distinct pages. */
  lemma HrefRoundTrip(slug: string)
    ensures SlugOf(Href(slug)) == Some(slug)
  {
  }

  lemma HrefInjective(a: string, b: string)
    ensures Href(a) == Href(b) <==> a == b
  {
    if Href(a) == Href(b) {
      HrefRoundTrip(a);
      HrefRoundTrip(b);
    }
  }

  // ---------------------------------------------------------------------------
  // Meta line
  // ---------------------------------------------------------------------------

  const MetaSeparator := " · "

  /** `[role, year].filter(Boolean)`. */
  function MetaParts(role: Option<string>, year: Option<string>): (r: seq<string>)
    ensures |r| == (if Truthy(role) then 1 else 0) + (if Truthy(year) then 1 else 0)
    ensures Truthy(role) ==> r[0] == role.value
    ensures Truthy(year) ==> r[|r| - 1] == year.value
    ensures forall i :: 0 <= i < |r| ==> r[i] != ""
  {
    (if Truthy(role) then [role.value] else []) + (if Truthy(year) then [year.value] else [])
  }

  /** `(role || year) ? parts.join(" · ") : null`. */
  function MetaLine(role: Option<string>, year: Option<string>): (r: Option<string>)
    ensures r.None? <==> !Truthy(role) && !Truthy(year)
    ensures Truthy(role) && !Truthy(year) ==> r == role
    ensures !Truthy(role) && Truthy(year) ==> r == year
    ensures Truthy(role) && Truthy(year) ==> r == Some(role.value + MetaSeparator + year.value)
  {
    if Truthy(role) && Truthy(year) then
      JoinPair(role.value, year.value, MetaSeparator);
      Some(Join(MetaParts(role, year), MetaSeparator))
    else if Truthy(role) || Truthy(year) then Some(Join(MetaParts(role, year), MetaSeparator))
    else None
  }

  /** A shown meta line is never empty. */
  lemma MetaLineNonEmpty(role: Option<string>, year: Option<string>)
    ensures MetaLine(role, year).Some? ==> MetaLine(role, year).value != ""
  {
  }

  // ---------------------------------------------------------------------------
  // Tags
  // ---------------------------------------------------------------------------

  const MaxTags := 3

  /** The tag row: the shown tags and the "+N more" count, when there is one. */
  datatype TagRow = TagRow(shown: seq<string>, more: Option<nat>)

  /** `tags && tags.length > 0 ? <row/> : null`. */
  function TagRowOf(tags: Option<seq<string>>): (r: Option<TagRow>)
    ensures r.None? <==> tags.None? || tags.value == []
    ensures r.Some? ==> |r.value.shown| <= MaxTags && |r.value.shown| <= |tags.value|
    ensures r.Some? ==> forall i :: 0 <= i < |r.value.shown| ==> r.value.shown[i] == tags.value[i]
    ensures r.Some? ==> (r.value.more.Some? <==> |tags.value| > MaxTags)
    ensures r.Some? && r.value.more.Some? ==> r.value.more.value == |tags.value| - MaxTags
  {
    match tags
    case None => None
    case Some(ts) =>
      if ts == [] then None
      else
        var shown := if |ts| <= MaxTags then ts else ts[..MaxTags];
        Some(TagRow(shown, if |ts| > MaxTags then Some(|ts| - MaxTags) else None))
  }

  /** Every tag is accounted for: shown, or counted in "+N more". */
  lemma TagsAccountedFor(tags: seq<string>)
    requires tags != []
    ensures var row := TagRowOf(Some(tags)).value;
      |row.shown| + (if row.more.Some? then row.more.value else 0) == |tags|
  {
  }

  // ---------------------------------------------------------------------------
  // The card
  // ---------------------------------------------------------------------------

  /** The card's content; every optional slot is `None` when its prop is falsy. */
  datatype Card = Card(
    href: string,
    cover: Option<string>,
    title: string,
    badge: Option<string>,
    meta: Option<string>,
    summary: Option<string>,
    tags: Option<TagRow>)

  function Keep(o: Option<string>): (r: Option<string>)
    ensures r.Some? <==> Truthy(o)
    ensures r.Some? ==> r == o
  {
    if Truthy(o) then o else None
  }

  function CardOf(slug: string, title: string, summary: Option<string>, coverImage: Option<string>,
                  role: Option<string>, year: Option<string>, tags: Option<seq<string>>,
                  articleType: Option<string>): (r: Card)
    ensures SlugOf(r.href) == Some(slug)
    ensures r.title == title
    ensures r.cover.Some? <==> Truthy(coverImage)
    ensures r.cover.Some? ==> r.cover == coverImage
    ensures r.badge.Some? <==> Truthy(articleType)
    ensures r.badge.Some? ==> r.badge == articleType
    ensures r.summary.Some? <==> Truthy(summary)
    ensures r.summary.Some? ==> r.summary == summary
    ensures r.meta == MetaLine(role, year)
    ensures r.tags == TagRowOf(tags)
  {
    HrefRoundTrip(slug);
    Card(Href(slug), Keep(coverImage), title, Keep(articleType), MetaLine(role, year), Keep(summary), TagRowOf(tags))
  }
}
