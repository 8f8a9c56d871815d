# Stacking sticky headers for a vertical scroll view

This project models the core of a SwiftUI sticky-header mechanism. Headers in a
vertically scrolling list pin to the top edge of the scroll container. When the
next header reaches the bottom of the pinned one, it pushes the pinned header
up and out.

The model has four modules:

- `Geometry` holds `Rect`, a header's frame in the container's coordinate
  space (`CGFloat` becomes `real`), `Zero` (`CGRect.zero`) and `Option`.
- `FramePreference` is the frame registry. `Merged` is the right-biased merge.
  `Reduce` is `FramePreference.reduce`: `value.merge(nextValue()) { $1 }`,
  written as the entry-by-entry insertion loop that `merge` performs.
  `Collect` folds a sequence of published batches from the empty default
  value.
- `StickyModifier` is the `Sticky` modifier.
  - `IsSticking` is `frame.minY < 0`. `PaintOrder` is the `zIndex` choice.
  - `Incoming` is the search condition of `first(where:)`.
  - `FirstWhere` is `Dictionary.first(where:)`. It visits the entries in an
    unspecified order.
  - `Allowed` is the relation between a header's inputs and the offsets it may
    apply.
  - The class `Sticky` holds the `frame` state and the header's identity. Its
    method `Offset` follows the source's `offset` property step by step.
- `UseStickyHeaders` is the provider. It holds the `frames` state and replaces
  it wholesale with each reduced preference value. `HandOff` runs one layout
  pass through measurement, reduction, the provider and the offset.

Header identities (`Namespace.ID`) are a type parameter `K` with equality. The
caller supplies a header's identity when it constructs the header.

When several entries qualify as the incoming header, no tie-break is applied.
A deterministic rule, such as the smallest `minY`, would be a natural choice.
The code instead takes the first match in the dictionary's iteration order,
which is unspecified. So `Allowed` admits the push of ANY qualifying entry.
`OrderDependentWhenTwoIncoming` shows that the choice can change the result.
`AllowedDeterminedByWindowEdge` shows when it cannot.

## Model

| member | source | states |
|---|---|---|
| `FramePreference.Merged` | ScrollingStickyHeaders/ContentView.swift:6-8 | the merged key set is the union of both key sets; every key of the new batch carries the new rectangle (last writer wins); every key only in the old value keeps its old rectangle |
| `FramePreference.Reduce` | ScrollingStickyHeaders/ContentView.swift:6-8 | inserting the next batch's entries one by one, with `{ $1 }` resolving clashes, yields exactly the right-biased merge of the two dictionaries, whatever order the entries are visited in |
| `FramePreference.Collect` | ScrollingStickyHeaders/ContentView.swift:4-8 | folding batches with `reduce` from the empty `defaultValue` gives a registry whose keys are exactly the keys some batch reported, and the last batch's rectangles win |
| `FramePreference.CollectLastWriter` | ScrollingStickyHeaders/ContentView.swift:4-8 | folding batches from the empty default value registers a key exactly when some batch reported it, with the rectangle of the last batch that reported it |
| `FramePreference.MergeSingleReport` | ScrollingStickyHeaders/ContentView.swift:6-8 | merging one header's report `[id: frame]` sets that key and leaves every other entry of the registry untouched |
| `FramePreference.MergedIdempotent` | ScrollingStickyHeaders/ContentView.swift:6-8 | merging the same batch twice equals merging it once |
| `StickyModifier.IsSticking` | ScrollingStickyHeaders/ContentView.swift:27-29 | a header sticks exactly when its measured top edge is above the container's top edge (`minY < 0`) |
| `StickyModifier.Incoming` | ScrollingStickyHeaders/ContentView.swift:38-40 | an entry can push the header exactly when its key is not the header's own and its `minY` lies strictly between the header's `minY` and its `height` |
| `StickyModifier.Allowed` | ScrollingStickyHeaders/ContentView.swift:31-45 | the offsets a header may apply: 0 when not sticking or without a registry, the plain pin `-minY` when no entry qualifies, otherwise `-minY - (height - v.minY)` for some qualifying entry `v` |
| `StickyModifier.PaintOrder` | ScrollingStickyHeaders/ContentView.swift:50 | the paint order is `.infinity` exactly when the header sticks (`minY < 0`), and level 0 otherwise |
| `StickyModifier.StickingPaintsInFront` | ScrollingStickyHeaders/ContentView.swift:50 | a sticking header is drawn in front of a non-sticking header and of default-level content; a non-sticking header is not drawn in front of default-level content |
| `StickyModifier.FirstWhere` | ScrollingStickyHeaders/ContentView.swift:38-41 | a returned entry is in the dictionary with its own value and satisfies the predicate; nothing is returned exactly when no entry satisfies the predicate |
| `StickyModifier.Sticky.constructor` | ScrollingStickyHeaders/ContentView.swift:24-25 | a new header holds its given identity and the frame `.zero` |
| `StickyModifier.Sticky.UpdateFrame` | ScrollingStickyHeaders/ContentView.swift:54-55 | on appearance and on every change of the measured frame, the frame state becomes the measured frame |
| `StickyModifier.Sticky.Preference` | ScrollingStickyHeaders/ContentView.swift:56 | the header publishes a one-entry dictionary mapping its own identity to its frame state |
| `StickyModifier.Sticky.Offset` | ScrollingStickyHeaders/ContentView.swift:31-45 | the offset is 0 when the header does not stick; it is 0 when it sticks but no registry exists; it is `-minY` when no other entry has `minY < v.minY < height`; otherwise it is `-minY - (height - v.minY)` for some such entry `v` |
| `OffsetProperties.WindowIsStrict` | ScrollingStickyHeaders/ContentView.swift:39 | the header's own key never qualifies, and neither does an entry whose `minY` equals the header's `height` or the header's `minY` |
| `OffsetProperties.OnlyWindowMatters` | ScrollingStickyHeaders/ContentView.swift:37-44 | the allowed offsets for a registry are the same as for its window alone, so entries outside the window never change the result |
| `OffsetProperties.OwnEntryIgnored` | ScrollingStickyHeaders/ContentView.swift:39 | removing the header's own entry from the registry does not change its allowed offsets |
| `OffsetProperties.PushedPlacement` | ScrollingStickyHeaders/ContentView.swift:37-42 | a pinned header is drawn flush with the top edge; a pushed one gets an offset strictly below the plain pin, is drawn above the top edge, and its bottom edge lands exactly on the incoming header's measured top edge (`minY`) |
| `OffsetProperties.OffsetMonotone` | ScrollingStickyHeaders/ContentView.swift:37-44 | with the own frame fixed and a single entry able to push, moving that entry up (lower `minY`) inside the window never raises the allowed offset; moving it to exactly `height` gives the plain pin, which is no lower |
| `OffsetProperties.AllowedBounds` | ScrollingStickyHeaders/ContentView.swift:31-45 | for a frame of non-negative height, a non-sticking header or one without a registry gets offset 0; otherwise the offset lies in `(-height, -minY]` and the header is never drawn below the top edge |
| `OffsetProperties.AllowedDeterminedByWindowEdge` | ScrollingStickyHeaders/ContentView.swift:38-42 | when all qualifying entries share one `minY`, every allowed offset is the same |
| `OffsetProperties.OrderDependentWhenTwoIncoming` | ScrollingStickyHeaders/ContentView.swift:38-42 | for any sticking header and any two qualifying entries with different `minY`, the push of each is an allowed offset and the two pushes differ, so the result depends on iteration order |
| `OffsetProperties.OrderDependentExample` | ScrollingStickyHeaders/ContentView.swift:38-42 | a header at `minY -100`, height 50, with qualifying entries at `minY -20` and `30`, may get offset 30 or offset 80 |
| `OffsetProperties.ScenarioPinned` | ScrollingStickyHeaders/ContentView.swift:37-44 | a header at `minY -40`, height 50, with only its own entry, gets offset 40 |
| `OffsetProperties.ScenarioPushed` | ScrollingStickyHeaders/ContentView.swift:37-44 | the same header with another header at `minY 20` gets offset 10 |
| `OffsetProperties.ScenarioJustInside` | ScrollingStickyHeaders/ContentView.swift:37-44 | with the other header at `minY 49` it gets offset 39 |
| `OffsetProperties.ScenarioOnEdge` | ScrollingStickyHeaders/ContentView.swift:39 | with the other header at `minY 50`, exactly the height, it gets offset 40 (no push) |
| `OffsetProperties.ScenarioUnrelated` | ScrollingStickyHeaders/ContentView.swift:37-44 | its own entry plus three entries outside the window leave offset 40 |
| `OffsetProperties.ScenarioNoProvider` | ScrollingStickyHeaders/ContentView.swift:33-36 | a sticking header without a registry gets offset 0 |
| `UseStickyHeaders.Provider.constructor` | ScrollingStickyHeaders/ContentView.swift:68 | the provider starts with an empty registry |
| `UseStickyHeaders.Provider.OnPreferenceChange` | ScrollingStickyHeaders/ContentView.swift:72-74 | the registry is replaced wholesale by the reduced preference value |
| `UseStickyHeaders.HandOff` | ScrollingStickyHeaders/ContentView.swift:22-76 | two headers are measured, publish, are reduced into the provider's registry, and the upper one, 40 points past the top, reads offset 10 and paint order `.infinity` |

## Left out

- The view and preference machinery: `GeometryReader`, measuring in the named coordinate space, `.coordinateSpace`, `PreferenceKey` propagation, `EnvironmentKey` and `.environment`, `.onPreferenceChange` invocation, `.offset` and `.overlay`. It is framework rendering and propagation. The registry that the environment delivers to a header is an explicit `Option` parameter of `Offset`: `None` stands for the environment's default with no provider, and `Some(frames)` stands for a provider's registry.
- The warning printed when a header has no provider. It is console output; only the returned 0 is modelled.
- Minting `@Namespace` identities. The caller supplies each header's identity.
- Floating-point behaviour of `CGFloat` (NaN, infinities, rounding). Coordinates are exact reals.
- `CGRect` standardisation of negative sizes. `Rect` stores `minY` and `height` as layout reports them, in standard form.
- Eviction of registry entries of removed headers. The source never removes a key, so the model has no removal path either.
- `ContentView` and its preview. They are demo content.
- The order in which the framework calls `reduce` over sibling views. `Collect` models one sequential fold of the published batches.

- StickyModifier.Sticky.Offset: the source picks the first match in dictionary iteration order. The model does not fix that order, so its contract admits the push of any qualifying entry.
