# HComp control-flow helpers in Dafny

This project models the five control-flow helpers of the HComp React library
and proves their decision rules:

- `Show`: picks `children`, a truthy `fallback`, or nothing.
- `Case`: shows `children` only when `when` is true.
- `Switch`: shows the first `Case` child whose `when` is true. Otherwise it
  shows a truthy fallback, and otherwise nothing.
- `For`: shows the fallback when `items` is absent or empty. Otherwise it maps
  every item, together with its index, through the `children` function.
- `ScrollTo`: a button that computes scroll options from `to`, `scrollWidth`
  and `behavior`. A click asks the window to scroll and then runs the optional
  `onClick` callback, unless the button is not clickable.

Renderable content (a `ReactNode`) is an opaque type parameter `N`. JavaScript
truthiness of a node is a parameter `truthy: N -> bool`, because `0`, `""` and
`false` are nodes that a `&& fallback` test rejects.

Files and modules:

- `shared_types.dfy` (`SharedTypes`): the props interfaces of
  `src/shared/index.types.ts` as datatypes.
  - `Direction` is exactly `Up | Down | Left | Right`.
  - `ScrollWidth` is `Max | Offset(n)`.
  - `Behavior` is `Smooth | Auto`.
  - Every `?:` property is an `Option`. So Show's `when` is a plain `bool`,
    and Case's `when` is an `Option<bool>`.
  - The For mapper is `(T, nat) -> N`: it gets the item and its index.
  - The ScrollTo `onClick` is the identity `C` of the callback.
- `fragments.dfy` (`Fragments`): the result `Children(n) | Fallback(n) | Null`,
  and the truthiness of an optional node.
- `case.dfy`, `switch.dfy`, `show.dfy`, `for.dfy`, `scroll_to.dfy`: one
  module per component.
- `wrappers.dfy`: `Option`.

All the components except the ScrollTo click are pure functions. The click
handler is a method of `ScrollToButton`; the constructor plays the part of
rendering. The handler appends events to the `trace` of a `Window` object,
which stands in for the browser's `window`: one `ScrollRequested(options)`
for `window.scrollTo`, and one `CallbackInvoked(c)` when the callback runs.

Assumptions and places where the code decides:

- `Switch.tsx` imports `Case` from `src/components/SwitchGroup/Case/Case.tsx`.
  That file is not part of this model. It is taken to be the component
  defined in `src/components/Switch/Case.tsx`. The two props files disagree
  about this too: `src/shared/index.types.ts:2` takes `Case` from
  `SwitchGroup/Case/Case`, while `src/components/index.types.ts:2` takes it
  from `./Switch/Case`.
- `ScrollTo.tsx` imports `IScrollToProps` from `src/components/index.types.ts`,
  which does not declare it. Its shape is taken from
  `src/shared/index.types.ts:99-139`.
- Show and Switch render the fallback only when it is truthy, not merely when
  it is supplied. `For` renders its fallback as given, with no truthiness test.
  The model follows the code in both cases.
- The non-smooth scroll behavior is `"auto"`, as the code says.
- `scrollWidth="max"` means a fixed offset of 200, not the page's extent.
  `"up"` and `"down"` (and likewise `"left"` and `"right"`) give identical
  options. Both are kept as written.

## Model

| member | source | states |
|---|---|---|
| `CaseComponent.Case` | src/components/Switch/Case.tsx:21-24 | The result shows children iff `when` is exactly true; it is always either the children or null, never a fallback |
| `CaseComponent.OmittedWhenIsFalse` | src/components/Switch/Case.tsx:22 | An omitted `when` behaves as `when={false}`: both render null |
| `SwitchComponent.FindActive` | src/components/SwitchGroup/Switch/Switch.tsx:27 | The search finds nothing iff no child is a Case with a true `when`; what it finds is the props of the first such Case, with no active Case before it |
| `SwitchComponent.Switch` | src/components/SwitchGroup/Switch/Switch.tsx:26-33 | A match exists iff some child is an active Case; the match is the first active Case element (never a non-Case node), and the fallback is then ignored; with no match, a truthy fallback is shown, and an absent or falsy fallback gives null |
| `SwitchComponent.MatchedShowsItsChildren` | src/components/SwitchGroup/Switch/Switch.tsx:29 | The matched Case element, once rendered by Case, shows exactly that Case's children |
| `SwitchComponent.FindIgnoresOtherNodes` | src/components/SwitchGroup/Switch/Switch.tsx:27 | Dropping every non-Case child leaves the search result unchanged, whatever those children hold |
| `SwitchComponent.SwitchIgnoresOtherNodes` | src/components/SwitchGroup/Switch/Switch.tsx:27-32 | Switch gives the same result once its non-Case children are dropped |
| `SwitchComponent.FindAppendAfterMatch` | src/components/SwitchGroup/Switch/Switch.tsx:27 | Once the list has an active Case, appending children does not change what the search finds |
| `SwitchComponent.SwitchAppendAfterMatch` | src/components/SwitchGroup/Switch/Switch.tsx:27-29 | Appending children after an existing match leaves the Switch result unchanged |
| `SwitchComponent.SwitchNoMatchIsEmptyList` | src/components/SwitchGroup/Switch/Switch.tsx:27-32 | With no active Case, the result equals that of an empty child list: the fallback if truthy, else null |
| `ShowComponent.Show` | src/components/Show.tsx:23-28 | When `when` holds the result is the children whatever the fallback; otherwise a truthy fallback is shown and an absent or falsy one gives null; children are shown iff `when` holds |
| `ShowComponent.FallbackIgnoredWhenShown` | src/components/Show.tsx:24-25 | With `when` true, changing the fallback does not change the result |
| `ShowComponent.ShowWithoutFallbackIsCase` | src/components/Show.tsx:23-28 | Without a fallback, Show renders as Case does with the same `when` |
| `ShowComponent.ShowIsOneCaseSwitch` | src/components/Show.tsx:23-28 | Show equals a Switch with the same fallback over the single child `<Case when={when}>children</Case>` |
| `ForComponent.MapIndexed` | src/components/For/For.tsx:28 | The mapped sequence has one element per item, and element `i` is `children(items[i], i)` |
| `ForComponent.For` | src/components/For/For.tsx:26-29 | The fallback is rendered exactly as given iff items are absent or empty; otherwise the output has as many nodes as items (at least one), and node `i` is `children(items[i], i)` |
| `ForComponent.FallbackNeverCallsMapper` | src/components/For/For.tsx:27 | With absent or empty items the output is the fallback and does not depend on the mapper |
| `ForComponent.MapperOnlySeesItemsAndIndices` | src/components/For/For.tsx:28 | Two mappers that agree on every pair `(items[i], i)` give the same output |
| `ForComponent.FallbackNotInItems` | src/components/For/For.tsx:27-28 | For non-empty items the output is the mapped items and does not depend on the fallback |
| `ForComponent.MapIndexedAppend` | src/components/For/For.tsx:28 | Mapping `items + [x]` gives the mapping of `items`, then `children(x, n)`, `n` being the number of items |
| `ForComponent.ForAppend` | src/components/For/For.tsx:27-28 | For over `items + [x]` renders the nodes of `items` followed by `children(x, n)`, `n` being the number of items |
| `ScrollToComponent.WithDefaults` | src/components/ScrollTo.tsx:31 | Omitted props take their defaults: `to` up, `scrollWidth` max, `isClickable` true, `behavior` smooth; `onClick` is kept as given |
| `ScrollToComponent.OptionsFor` | src/components/ScrollTo.tsx:32-36 | For up or down, `top` is 200 for max or the given number otherwise, and `left` is 0; for left or right the axes swap; `behavior` is passed through |
| `ScrollToComponent.NeverDiagonal` | src/components/ScrollTo.tsx:33-34 | At least one of `top` and `left` is 0 |
| `ScrollToComponent.OppositeDirectionsAgree` | src/components/ScrollTo.tsx:33-34 | Up and down give identical options, and so do left and right |
| `ScrollToComponent.AllDefaults` | src/components/ScrollTo.tsx:31-35 | With every prop omitted the options are `{top: 200, left: 0, behavior: smooth}` and the button is clickable |
| `ScrollToComponent.ClickEvents` | src/components/ScrollTo.tsx:40-44 | A click on a non-clickable button produces no event; a click on a clickable one produces one scroll request for the computed options first, then a callback event iff `onClick` is given, carrying that callback |
| `ScrollToComponent.OneScrollPerClick` | src/components/ScrollTo.tsx:41-42 | A click requests exactly one scroll if the button is clickable and none otherwise |
| `ScrollToComponent.Window.ScrollTo` | src/components/ScrollTo.tsx:42 | `window.scrollTo` appends exactly one scroll request with the given options to the trace |
| `ScrollToComponent.Window.RunCallback` | src/components/ScrollTo.tsx:43 | Running the callback appends exactly one callback event to the trace |
| `ScrollToComponent.ScrollToButton.constructor` | src/components/ScrollTo.tsx:31-36 | A rendered button holds the props with their defaults applied and the options computed from them |
| `ScrollToComponent.ScrollToButton.OnClick` | src/components/ScrollTo.tsx:40-44 | The click appends exactly the click's events to the window trace and nothing else |

## Left out

- JSX, fragments, `React.isValidElement` and element-type identity. A Switch child is tagged `CaseElement` or `OtherNode` instead, and a found Case element is always truthy.
- Switch receiving a single child that is not an array, or no children at all (`children` undefined): `children.find` then throws a TypeError. The model takes `children` to be an array, as the declared type `ReactNode[]` says.
- `items` is taken to be a dense array. JavaScript's `map` skips the holes of a sparse array: it does not call `children` there and leaves the hole in the output. The model calls the mapper at every index.
- The `<button>` markup and the `title` (default `"ScrollTo"`), `className` and `style` props: presentation only.
- `window.scrollTo` is a browser API. It appears only as an event in the trace; the smooth-scroll animation and its asynchrony are not modelled.
- The effects of the `onClick` callback and of the For mapper, beyond the callback being recorded and the mapper's results. The model does not record the order in which `map` calls the mapper.
- `scrollWidth` is a JavaScript number. It is modelled as an `int`, so fractions, `NaN` and infinities are not covered.
- Values of `to` or `behavior` outside their declared unions, which an untyped caller could pass.
- `src/components/index.types.ts` repeats lines 3-94 of `src/shared/index.types.ts`. Only its imports differ: it takes `Case` from `./Switch/Case`.
- React's render scheduling and reconciliation, which belong to the host framework.
