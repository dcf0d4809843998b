# Portfolio content rules, modelled in Dafny

This project models the rules by which a Next.js portfolio turns Notion
content into pages. The rules are deterministic once the network is taken out:

- **Layout directives** (`DynamicLayout`). A directive may sit in one of the
  first three blocks: `layout:<name>` in a callout, `[layout:<name>]` in a
  heading, or `<!-- layout:<name> -->` in a paragraph. The directive's name
  picks one of six positional templates.
- **Structural layout** (`CaseStudyLayout`). A template is chosen from the
  sequence of block types; rich text is rendered as nested formatting layers.
- **Fallback renderer** (`NotionRenderer`). Each block becomes one element,
  tagged by the block's type.
- **Record normalisation** (`Notion`). Pages become `CaseStudy` records with
  defaults. The slug lookup and the child-block normalisation loop live here,
  along with their fallbacks.
- **Image URL policy** (`Blob`). Covers the extension table, the blob-URL
  test, the upload's null-on-failure contract, and the pass-through rule of
  `processImageUrl`.
- **Image component** (`BlobImageComponent`). A class with three state
  fields, driven by URL classification and the upload's answer.
- **Tag list** (`TagsWithOverflow`). A class with two flags toggled together,
  plus the rule for which tags and buttons show.
- **Card** (`CaseCard`). Three-tag truncation, the "+N more" count, the
  role/year meta line and the link target.

Shared modules: `Wrappers` (`Option`), `Text` (the JavaScript string
operations the code uses), and `Blocks` (the normalised block record, a
type filter and the image figure the templates share).

Remote calls are replaced by their answers, passed in as parameters:

- the Notion search, child listing and page retrieval;
- `fetch`;
- the blob store's `put`;
- the upload endpoint.

`Date.now()` becomes a `timestamp` parameter.

Some facts about the code that shape the model:

- The code does not split blocks into sections.
- Directive markers stay in the text; nothing strips them.
- All three directive kinds are looked for only in blocks 0-2, callouts
  included.
- `DynamicLayout` has no structural fallback of its own, and
  `LAYOUT_PATTERNS` is never read.
- The image gallery is a grid, not a carousel.
- `fetchHomeContent` has no `try`, so a failed page retrieval reaches its
  caller (`Notion.HomeThrew`).

## Model

| member | source | states |
|---|---|---|
| DynamicLayout.SpaceRun | components/DynamicLayout.tsx:287 | the `\s*` part of the directive patterns: the length of the maximal run of JavaScript whitespace at a position |
| DynamicLayout.NameRun | components/DynamicLayout.tsx:287 | the `[a-z-]+` part: the length of the maximal run of lower-case letters and hyphens at a position |
| DynamicLayout.OccursShape | components/DynamicLayout.tsx:285-311 | any occurrence of `open\s*([a-z-]+)close` skips exactly the whitespace run; with a closing literal that cannot extend the name, it captures the whole `[a-z-]` run, so greedy matching never backtracks |
| DynamicLayout.MatchAtSound | components/DynamicLayout.tsx:285-311 | what the scanner captures at a position is an occurrence of the pattern there |
| DynamicLayout.MatchAtComplete | components/DynamicLayout.tsx:285-311 | wherever the pattern occurs, the scanner succeeds there with a capture at least as long |
| DynamicLayout.FindFromCorrect | components/DynamicLayout.tsx:285-311 | `String.prototype.match` semantics: the reported match is the leftmost occurrence with the longest capture; no match means no occurrence at all |
| DynamicLayout.FindCorrect | components/DynamicLayout.tsx:285-311 | the same for a whole text, from position 0 |
| DynamicLayout.FindCapturesName | components/DynamicLayout.tsx:285-311 | every captured name is a non-empty run of `[a-z-]` |
| DynamicLayout.NoCloseNoMatch | components/DynamicLayout.tsx:295-311 | a text without the first character of the closing literal never matches |
| DynamicLayout.Normalize | components/DynamicLayout.tsx:285-311 | keeps the length; every `-` becomes `_`, every `a`-`z` its upper-case letter, every other character stays |
| DynamicLayout.NormalizeInjective | components/DynamicLayout.tsx:285-311 | two captured `[a-z-]` names normalise to the same template name only if they are equal |
| DynamicLayout.NormalizeShape | components/DynamicLayout.tsx:285-311 | a normalised name is non-empty and spelt with `A`-`Z` and `_` only |
| DynamicLayout.FirstTriggerIsFirst | components/DynamicLayout.tsx:281-314 | the loop returns the directive of the first block carrying one; none carries one exactly when the result is null |
| DynamicLayout.DetectIsFirstOfThree | components/DynamicLayout.tsx:277-315 | the detected name is the directive of the first of blocks 0-2 that carries one; null exactly when none of them does |
| DynamicLayout.DetectIgnoresLaterBlocks | components/DynamicLayout.tsx:279 | appending blocks after position 2 never changes the detected name |
| DynamicLayout.DetectedNameShape | components/DynamicLayout.tsx:285-311 | a detected name is non-empty and consists of `A`-`Z` and `_` |
| DynamicLayout.NoTextNoTrigger | components/DynamicLayout.tsx:282 | a block with no text, or empty text, never triggers |
| DynamicLayout.OtherKindsNeverTrigger | components/DynamicLayout.tsx:284-312 | types other than `callout`, `heading*` and `paragraph` never trigger |
| DynamicLayout.TriggerIgnoresCase | components/DynamicLayout.tsx:282 | texts equal up to ASCII case carry the same directive |
| DynamicLayout.TriggerOfLoweredText | components/DynamicLayout.tsx:282 | lower-casing a block's text beforehand never changes its directive |
| DynamicLayout.HeadingNeedsBracket | components/DynamicLayout.tsx:295-302 | a heading of any level whose text has no `]` never triggers |
| DynamicLayout.TemplateFor | components/DynamicLayout.tsx:321-341 | each listed name selects its template, in both directions; `METRICS_CARDS` and `TIMELINE` select the diagram template |
| DynamicLayout.UnlistedNameFallsBack | components/DynamicLayout.tsx:339-340 | null and every unlisted name fall back (no template) |
| DynamicLayout.Render | components/DynamicLayout.tsx:318-341 | a template view is rendered exactly when the detected name selects a template |
| DynamicLayout.AliasesRenderAsDiagram | components/DynamicLayout.tsx:325-334 | the two alias names render what `FULLWIDTH_DIAGRAM` renders |
| DynamicLayout.TriggerBlockBecomesTitle | components/DynamicLayout.tsx:318-341 | the template receives the list unchanged, so a directive in block 0 becomes the title slot |
| DynamicLayout.CenteredIgnoresExtraBlocks | components/DynamicLayout.tsx:215-228 | `Centered` reads positions 0-1 only |
| DynamicLayout.ComparisonIgnoresExtraBlocks | components/DynamicLayout.tsx:230-274 | `Comparison` reads positions 0-4 only |
| DynamicLayout.DiagramSlots | components/DynamicLayout.tsx:102-135 | the diagram template's title and lead are blocks 0 and 1's texts, the diagram is block 2's figure exactly when its url is non-empty, and later blocks are never read |
| DynamicLayout.HeroNeedsImageUrl | components/DynamicLayout.tsx:64-100 | the overlay shows heading and paragraph exactly when position 2 has a non-empty url, with blocks 0, 1 and 2 in the three slots |
| DynamicLayout.TwoColumnKeepsOrder | components/DynamicLayout.tsx:138-180 | after the heading, paragraphs and images keep their order: appending blocks appends their paragraphs and images |
| DynamicLayout.GalleryShowsLaterImages | components/DynamicLayout.tsx:182-213 | the gallery shows exactly the images after position 0, each with its own caption |
| Blocks.OfKind | components/CaseStudyLayout.tsx:17 | the type filter keeps only blocks of that type and never grows the list |
| Blocks.FigureOf | components/CaseStudyLayout.tsx:76-89 | an image is shown from its own url, with a caption line exactly when its caption is non-empty |
| Blocks.OfKindAppend | components/CaseStudyLayout.tsx:71-76 | the type filter keeps relative order (it distributes over concatenation) |
| Blocks.OfKindMembers | components/CaseStudyLayout.tsx:71-76 | the type filter keeps every block of that type and no other |
| CaseStudyLayout.Kinds | components/CaseStudyLayout.tsx:9 | one type per block, in order |
| CaseStudyLayout.Take | components/CaseStudyLayout.tsx:12-23 | `slice(0, n)`: the first n elements, or all of them when there are fewer |
| CaseStudyLayout.JoinIsHeroSignature | components/CaseStudyLayout.tsx:12 | for comma-free types, the joined prefix equals `heading_2,paragraph,image` exactly for that list |
| CaseStudyLayout.JoinIsImageWithTextSignature | components/CaseStudyLayout.tsx:23 | for comma-free types, the four-type string determines the list |
| CaseStudyLayout.HeroImageIffSignature | components/CaseStudyLayout.tsx:12-14 | for comma-free types, `hero-image` exactly when the first three types are `heading_2, paragraph, image` |
| CaseStudyLayout.GalleryIffThreeImages | components/CaseStudyLayout.tsx:17-20 | `image-gallery` exactly when the hero rule fails and three or more blocks anywhere are images |
| CaseStudyLayout.ImageWithTextIsDead | components/CaseStudyLayout.tsx:12-28 | with comma-free types the result is always `hero-image`, `image-gallery` or `default` |
| CaseStudyLayout.CommaKindReachesImageWithText | components/CaseStudyLayout.tsx:23-25 | the branch is dead only because of the join: one block whose type is the four-type string reaches it |
| CaseStudyLayout.RenderSpanLayers | components/CaseStudyLayout.tsx:145-165 | each span keeps its content; its layers, from the outside in, are link, code, italic, bold, each present exactly when the span asks for it |
| CaseStudyLayout.RenderRichText | components/CaseStudyLayout.tsx:141-168 | null gives `''`; otherwise one element per span, in order, with the span's content |
| CaseStudyLayout.BodyOf | components/CaseStudyLayout.tsx:41-47 | rich text when present, plain text otherwise |
| CaseStudyLayout.FirstHeadingIsFirst | components/CaseStudyLayout.tsx:97 | the two-column heading is the first block whose type starts with `heading` |
| CaseStudyLayout.HalfUp | components/CaseStudyLayout.tsx:111 | `Math.ceil(n / 2)`: the smallest r with n <= 2r |
| CaseStudyLayout.TwoColumnLeftHalf | components/CaseStudyLayout.tsx:96-138 | the left column holds the first ceil(p/2) paragraphs in order; the right column is the figure of every image block, in order |
| CaseStudyLayout.HeroImageSlots | components/CaseStudyLayout.tsx:32-68 | the hero-image template's heading and paragraph are the bodies of blocks 0 and 1, the image is block 2's figure exactly when its url is non-empty, and later blocks are never read |
| CaseStudyLayout.Render | components/CaseStudyLayout.tsx:171-185 | a template is rendered exactly when the pattern is not `default` |
| CaseStudyLayout.TwoColumnNeverRendered | components/CaseStudyLayout.tsx:179-180 | with comma-free types the two-column template never renders |
| CaseStudyLayout.GalleryKeepsOrder | components/CaseStudyLayout.tsx:70-94 | the gallery renders exactly the image blocks, in their original order |
| NotionRenderer.Render | components/NotionRenderer.tsx:11-23 | one element per block, in order, carrying the block's text and tagged by its type |
| NotionRenderer.TagForCases | components/NotionRenderer.tsx:13-21 | `heading_1`-`heading_3` map to h1-h3, in both directions; every other type is a paragraph |
| NotionRenderer.RenderAppend | components/NotionRenderer.tsx:11 | rendering commutes with concatenation of block lists |
| Text.ContainsIffOccurs | lib/blob.ts:55 | the `includes` scanner decides exactly whether the substring occurs somewhere |
| Notion.FirstTruthy | lib/notion.ts:58 | the or-chain of three optional strings: the first truthy one, else the last as it is |
| Notion.CoverOf | lib/notion.ts:58 | the cover prefers the `coverImage` property, then `cover.external.url`, then `cover.file.url` |
| Notion.YearText | lib/notion.ts:60 | the year text is empty exactly when the year is absent |
| Notion.EmptyPageDefaults | lib/notion.ts:55-71 | a page without properties gets title `Untitled`, its id as slug, sort order 0, no tags and empty strings |
| Notion.Kept | lib/notion.ts:49-51 | only pages whose parent database is the configured one are kept |
| Notion.KeptAppend | lib/notion.ts:49-51 | the database filter keeps the search order |
| Notion.KeptMembers | lib/notion.ts:49-51 | the filter keeps exactly the database's pages |
| Notion.FetchCaseStudies | lib/notion.ts:36-96 | no database id or a failed search gives `[]`; otherwise one record per kept page, in order |
| Notion.FindBySlugIsFirst | lib/notion.ts:116-120 | the lookup returns the first kept page whose slug property equals the argument; none when no page has it |
| Notion.PlainTexts | lib/notion.ts:157 | one plain text per span, in order |
| Notion.PlainTextAppend | lib/notion.ts:157 | the block text of concatenated spans is the concatenation of their texts |
| Notion.NormaliseChildShape | lib/notion.ts:151-172 | each block keeps its type, its text is the joined plain text (`''` without rich text), `richText` passes through unchanged, and only images get `url` (file before external) and `caption` (the first caption span's plain text, absent without caption spans) |
| Notion.NormaliseBlocks | lib/notion.ts:141-178 | the loop pushes one normalised block per child in order; a failed listing leaves the single summary paragraph |
| Notion.FetchCaseStudyBySlug | lib/notion.ts:98-203 | null exactly without a database id, on a failed search or with no matching page; otherwise the page's record with the argument as slug and the normalised blocks |
| Notion.DetailMatchesListing | lib/notion.ts:180-198 | the lookup's record is the listing's record with the argument as slug; they differ only for an empty slug, where the listing uses the page id |
| Notion.FetchHomeContent | lib/notion.ts:206-215 | no page id gives the fixed defaults; a failed retrieval throws; missing properties fall back one by one |
| Blob.FileExtension | lib/blob.ts:38-49 | the table's extension for the six listed types, `jpg` otherwise; always one of `jpg`, `png`, `gif`, `webp`, `svg` |
| Blob.FileExtensionTable | lib/blob.ts:39-46 | the six entries; both JPEG spellings give `jpg` |
| Blob.AsWrittenAgreesOffPrototype | lib/blob.ts:48 | the lookup as written agrees with the table for every type that is not an inherited member name |
| Blob.AsWrittenLeavesTable | lib/blob.ts:48 | the lookup as written turns `constructor` or `toString` into an extension outside the table |
| Blob.IsBlobUrl | lib/blob.ts:54-56 | a blob URL is exactly one in which `blob.vercel-storage.com` occurs |
| Blob.HostMakesBlobUrl | lib/blob.ts:54-56 | the host anywhere in a URL makes it a blob URL |
| Blob.ContentType | lib/blob.ts:17 | a missing or empty header reads as `image/jpeg` |
| Blob.GeneratedFilename | lib/blob.ts:20 | the generated name starts with `image-` and ends with `.` and the extension of the content type |
| Blob.GeneratedFilenameOffPrototype | lib/blob.ts:20 | for every content type that is not an `Object.prototype` member name, the generated name equals the one built from the lookup as written |
| Blob.FinalFilename | lib/blob.ts:20 | a given non-empty name wins; otherwise the generated one |
| Blob.DefaultFilenameIsJpeg | lib/blob.ts:17-20 | no name and no header give `image-<timestamp>.jpg` |
| Blob.UploadImageToBlob | lib/blob.ts:7-33 | a url exactly when the fetch is ok and the store accepts; null when the response is not ok or any step throws |
| Blob.UploadFilename | lib/blob.ts:17-23 | the name used for `put` once the fetch succeeded |
| Blob.ProcessImageUrl | lib/blob.ts:61-70 | a blob URL passes unchanged; otherwise the upload's url when truthy, else the original |
| Blob.ProcessedIsOneOfTwo | lib/blob.ts:63-69 | the result is always the original URL or the upload's answer |
| Blob.BlobUrlIgnoresUpload | lib/blob.ts:63-65 | a blob URL is never uploaded, whatever the upload would answer |
| Blob.ProcessIdempotent | lib/blob.ts:63-69 | when the upload answers with a blob URL, processing the result again changes nothing and uploads nothing |
| Blob.FailedUploadFallsBack | lib/blob.ts:61-70 | a failed upload returns the original URL |
| BlobImageComponent.RouteOf | components/BlobImage.tsx:31-46 | blob and `data:` sources are used as they are; otherwise an upload happens exactly for `notion.so` or `amazonaws.com` sources; everything else is used directly |
| BlobImageComponent.HostedWinsOverNotion | components/BlobImage.tsx:33-37 | the hosted check comes first: a blob URL naming a Notion host is not uploaded |
| BlobImageComponent.DataUrlsAreNotUploaded | components/BlobImage.tsx:33 | `data:` sources are never uploaded |
| BlobImageComponent.ScreenOf | components/BlobImage.tsx:77-121 | error beats loading, which beats the image; the caption shows exactly when non-empty |
| BlobImageComponent.SettledSource | components/BlobImage.tsx:61-71 | a successful upload shows its url; a rejected or failed one shows the original source |
| BlobImageComponent.ShownSource | components/BlobImage.tsx:31-75 | the settled source is the original, or the upload's url exactly when an upload ran and succeeded; the original after a rejected or failed upload or when no upload ran |
| BlobImageComponent.BlobImage.constructor | components/BlobImage.tsx:27-29 | initial state: the source, loading, no error |
| BlobImageComponent.BlobImage.RunEffect | components/BlobImage.tsx:31-46 | it starts an upload exactly for the upload route; otherwise it shows the source and stops loading |
| BlobImageComponent.BlobImage.FinishUpload | components/BlobImage.tsx:48-75 | the settled source is shown and loading stops on every path |
| BlobImageComponent.BlobImage.OnImageError | components/BlobImage.tsx:77-110 | a load error sets the message, after which only the error placeholder renders |
| BlobImageComponent.Mount | components/BlobImage.tsx:27-75 | after mounting and settling, loading has ended on every path and the picture shows the settled source |
| BlobImageComponent.SettleThenFail | components/BlobImage.tsx:77-109 | the image is rendered only after loading ends; its load error then replaces the settled picture with the error placeholder and leaves the source as it was |
| TagsWithOverflow.SliceTo | components/TagsWithOverflow.tsx:16 | `slice(0, end)` with JavaScript's clamping and negative ends |
| TagsWithOverflow.OutputOf | components/TagsWithOverflow.tsx:14-55 | nothing for absent or empty tags; all tags when expanded, the first `maxVisible` when collapsed; `+N` exactly when collapsed with N > 0; "Show less" exactly when expanded with N > 0 |
| TagsWithOverflow.AtMostOneButton | components/TagsWithOverflow.tsx:39-55 | the two buttons never show together |
| TagsWithOverflow.CollapsedAccountsForEveryTag | components/TagsWithOverflow.tsx:16-45 | collapsed, the first `maxVisible` tags show in order and `+N` counts exactly the rest |
| TagsWithOverflow.NoButtonMeansAllShown | components/TagsWithOverflow.tsx:16-55 | with no button offered, every tag is already shown, whatever the limit |
| TagsWithOverflow.TagsWithOverflow.constructor | components/TagsWithOverflow.tsx:10-12 | `maxVisible` defaults to 2 and both flags start false |
| TagsWithOverflow.TagsWithOverflow.Toggle | components/TagsWithOverflow.tsx:19-26 | flips `isExpanded` and sets `showAll` to its new value, keeping the two equal |
| TagsWithOverflow.ToggleTwice | components/TagsWithOverflow.tsx:19-26 | two toggles restore both flags and the output |
| TagsWithOverflow.ExpandFresh | components/TagsWithOverflow.tsx:11-55 | pressing `+N` on a fresh list shows every tag and offers "Show less" |
| CaseCard.Href | components/CaseCard.tsx:35 | the link is `/case/` followed by the slug |
| CaseCard.HrefRoundTrip | components/CaseCard.tsx:35 | the slug can be read back from the link |
| CaseCard.HrefInjective | components/CaseCard.tsx:35 | distinct slugs give distinct links |
| CaseCard.MetaParts | components/CaseCard.tsx:53 | `filter(Boolean)` keeps exactly the truthy values among role and year, role first |
| CaseCard.MetaLine | components/CaseCard.tsx:51-55 | omitted when role and year are both empty; a single value alone; both joined by ` · ` |
| CaseCard.MetaLineNonEmpty | components/CaseCard.tsx:51-55 | a shown meta line is never empty |
| CaseCard.TagRowOf | components/CaseCard.tsx:59-75 | no row for absent or empty tags; at most the first three tags in order; "+N more" exactly when there are more than three, with N = length − 3 |
| CaseCard.TagsAccountedFor | components/CaseCard.tsx:59-75 | every tag is shown or counted in "+N more" |
| CaseCard.CardOf | components/CaseCard.tsx:19-82 | the card links to its own slug, keeps the title, shows cover, badge and summary exactly when truthy, and carries the meta line and tag row |
| CaseCard.Keep | components/CaseCard.tsx:36-57 | the cover, badge and summary slots render exactly when their prop is truthy |

## Left out

- `toLowerCase` and `toUpperCase` are modelled for ASCII only. Non-ASCII
  letters whose JavaScript lower case is ASCII, such as U+212A KELVIN SIGN
  (`k`) and U+0130 (`i` with a combining dot), can create or change a
  directive in the code but not in the model. For example, a callout
  `layout:\u212A` before a heading `[layout:centered]` gives the unknown name
  `K` and the fallback in the code, and `CENTERED` in the model.
- Markup details are not modelled: alt texts, CSS classes, aspect ratios,
  `fill`/`width`/`height`, framer-motion animation and `key` props.
- The Notion client, `fetch`, the blob store's `put`, `next/image` and the
  upload endpoint are not modelled; only their answers enter the model.
  `app/api/upload-image/route.ts` is not part of this model.
- `Date.now()` is a parameter. The `notion-image-<timestamp>` name that
  `BlobImage` sends to the endpoint is not modelled, because it never reaches
  the component's state.
- Async races in `BlobImage` are not modelled: an upload still in flight when
  `src` changes, and React's effect scheduling.
- JavaScript numbers are modelled as integers. A non-integer year or sort
  order, and `NaN`, are not represented.
- Blob.GeneratedFilename, Blob.FinalFilename and Blob.UploadFilename use the
  corrected extension table (`Blob.FileExtension`), so for a content type
  that names an `Object.prototype` member (`constructor`, `toString`, ...)
  they give `.jpg` where the code writes the member's text;
  Blob.GeneratedFilenameOffPrototype states that they agree with the code
  everywhere else.
- An image block without a url is assumed not to reach the layout templates.
  The code passes `image.url!` to `BlobImage`, whose effect would then throw
  on `src.includes`; the model renders a figure with no source instead
  (`Blocks.FigureOf`).
- Notion.NormaliseBlocks: a child listing either succeeds or fails as a whole.
  A throw partway through the loop is not modelled; the code would keep the
  blocks already pushed and then add the fallback paragraph.
- Rich-text spans that are not of type `text` (mentions, equations) are not
  modelled. `renderRichText` reads `text.text.content` and would throw on
  them; every modelled span has content.
- The `children` field of the fallback renderer's block type is never read,
  so it is not modelled.
- CaseStudyLayout.ImageWithTextIsDead: stated only for block types without a
  comma, as Notion's block type names are.
  CaseStudyLayout.CommaKindReachesImageWithText shows that the branch is
  reachable otherwise.
- TagsWithOverflow.CollapsedAccountsForEveryTag: stated for a non-negative
  `maxVisible`. `OutputOf` and `SliceTo` also cover negative limits, using
  JavaScript's `slice` semantics.
- DynamicLayout.FindFromCorrect: states that the capture is the longest one at
  the leftmost match. For callouts (an empty closing literal) several
  captures exist at that position; `match` picks the longest, which is the
  one stated.

## Findings

| source | as written | input that shows it | evidently intended | confidence | as-written member | corrected member |
|---|---|---|---|---|---|---|
| lib/blob.ts:48 | the extension is looked up on a plain object literal, so names inherited from `Object.prototype` are found too, and they are truthy | content type `constructor` (or `toString`) gives the extension `function Object() { [native code] }` | only the six listed types map to their extensions; every other type gives `jpg` | not executed | Blob.AsWrittenLeavesTable | Blob.FileExtension |
