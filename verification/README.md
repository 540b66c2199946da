# ComposedDataDecorator, modelled in Dafny

recharts' `ComposedDataDecorator` is a higher-order component. It wraps a chart,
derives expensive data from the chart's props (`axisTicks` and one composed
record per graphical item), caches that data in component state and passes it
on to the wrapped chart. This project models the decision and ordering logic
underneath the React plumbing and proves properties of it:

- **The derivation pipeline** (`calculateExpensiveState`), in module `ExpensiveState`.
  It selects the item list. It resolves each item's axes, ticks, axis roles,
  stacked data, effective `maxBarSize` and bar position. It calls the injected
  composer, falls back to `{}`, collects the entries in item order and picks
  the single layout-global `axisTicks`.
- **The two change gates**, in module `UpdateGates`:
  - the recompute gate of `componentWillReceiveProps`;
  - the render gate of `shouldComponentUpdate`.
- **The wrapper as a state machine** (mount, then updates), in module `ComposedDataDecorator`.
- **The one-level comparator `shallowEqual`** both gates are built from, in module `PureRender`.
- **The JavaScript values and operators the code relies on**, in module `Js`:
  - truthiness, `||`, `===` and `_.isNil`;
  - property keys and property reads, including the TypeError raised by reading a property of `null` or `undefined`.

Modelling choices:

- **Values.** Objects, arrays and functions carry a heap address (`ref`), and
  `===` compares only that address. A prop bag is a map from key to value.
- **External routines.** `getTicksOfAxis`, `getBarSizeList`,
  `getBandSizeOfAxis`, `getBarPosition`, `getStackedDataOfItem`,
  `findAllByType(children, ChildComponent)` and the optional `getComposedData`
  are uninterpreted. They are passed in as the function-valued fields of
  `ExpensiveState.Externals`.
- **Allocation.** The objects the pipeline creates each take a fresh address
  from a counter: the `allComposedData` array, every `{}` fallback and the state
  object. This makes "a recomputed state is a new object" provable.
- **Errors.** A TypeError the decorator's own code can raise is an `Err`
  outcome rather than a precondition. This covers five cases:
  - `items.forEach` when `graphicalItems` is truthy but not an array;
  - `item.props` on a null or undefined item;
  - destructuring a null or undefined `item.props`;
  - reading `xAxisMap[id]` when only `yAxisMap` is given, or the reverse;
  - reading `sizeList[cateAxisId]` when `getBarSizeList` returned null or undefined.

Two behaviours of the code are easy to misread, and the model states them as written:

- **Composer without axis maps.** `getComposedData` is called even when neither
  axis map is truthy, with its axes, ticks, band size, bar position and stacked
  data all undefined (`ComposerCalledWithoutAxisMaps`). The composed data is
  `{}` only when the composer is missing or returns a falsy value.
- **`axisTicks` with no truthy candidate.** The code computes
  `axisTicks || candidate` for every item, so `axisTicks` is the first truthy
  candidate, and when no candidate is truthy it is the last item's falsy
  candidate rather than `undefined` (`AxisTicksNoneTruthy`).

## Model

| member | source | states |
|---|---|---|
| `PureRender.ShallowEqualReflexive` | src/util/ComposedDataDecorator.js:107-109 | every value is shallow-equal to itself, so an unchanged prop never counts as a change |
| `PureRender.ShallowEqualSymmetric` | src/util/ComposedDataDecorator.js:121-123 | swapping the arguments (the gates pass the new value first) does not change the verdict |
| `PureRender.FreshObjectsCompareByContents` | src/util/ComposedDataDecorator.js:99-109 | two distinct objects, like the `...rest` objects the destructuring builds, are shallow-equal exactly when their property bags have the same keys and `===` values |
| `PureRender.ShallowEqualBagsIff` | src/util/ComposedDataDecorator.js:107-109 | two prop bags are shallow-equal exactly when no key is present in only one of them or holds values that are not `===` |
| `PureRender.ArraysShallowEqualIff` | src/util/ComposedDataDecorator.js:118-121 | a freshly built `graphicalItems` array counts as unchanged exactly when it has the same length and `===` items in the same order (or is the same array) |
| `ExpensiveState.RolesFor` | src/util/ComposedDataDecorator.js:68-71 | under 'horizontal' the category axis, its ticks and its id are x and the numeric axis id is `yAxisId`; under any other layout they are y and `xAxisId` |
| `ExpensiveState.RolesSwapOutsideHorizontal` | src/util/ComposedDataDecorator.js:68-71 | the roles under a non-horizontal layout are the horizontal roles with x and y exchanged |
| `ExpensiveState.StackedData` | src/util/ComposedDataDecorator.js:73-75 | when `stackGroups` is truthy, has a truthy entry for the numeric axis id and that entry's `hasStack` is truthy, the result is `getStackedDataOfItem(item, entry.stackGroups)`; otherwise it is falsy |
| `ExpensiveState.StackedDataSkipsRoutine` | src/util/ComposedDataDecorator.js:73-75 | when stacking is not active the result does not depend on `getStackedDataOfItem` at all, so the routine is not consulted |
| `ExpensiveState.EffectiveMaxBarSize` | src/util/ComposedDataDecorator.js:78 | the effective size is the item's value when it is not null or undefined, otherwise the global value; it is nil only when both are nil |
| `ExpensiveState.ZeroOverrideWins` | src/util/ComposedDataDecorator.js:78 | an item override of 0 is kept, where `child \|\| global` would have dropped it |
| `ExpensiveState.ComposerOutput` | src/util/ComposedDataDecorator.js:85-87 | without a composer there is no result; with one, its result is kept, unchanged, exactly when it is truthy, and otherwise the `{}` fallback applies |
| `ExpensiveState.ComposedEntry` | src/util/ComposedDataDecorator.js:85-88 | the pushed entry is always truthy: the composer's truthy result, or a new empty object at a fresh address when the composer is missing or returns a falsy value |
| `ExpensiveState.ComposeFrom` | src/util/ComposedDataDecorator.js:52-53 | a successful loop yields exactly one entry per item and never reuses addresses below its start |
| `ExpensiveState.ComposeFromFaults` | src/util/ComposedDataDecorator.js:53-89 | the loop succeeds exactly when every item does; otherwise it raises the error of the first item that fails |
| `ExpensiveState.ComposeFromEntries` | src/util/ComposedDataDecorator.js:85-88 | entry i comes from item i: it is that item's truthy composer result, or an empty record allocated during this loop |
| `ExpensiveState.FallbackRecordsDistinct` | src/util/ComposedDataDecorator.js:85-88 | every `{}` fallback is its own new object: of two fallback entries, the later item's has the higher address |
| `ExpensiveState.AxisTicksKept` | src/util/ComposedDataDecorator.js:65-66 | once `axisTicks` is truthy, no later item overwrites it |
| `ExpensiveState.AxisTicksWithoutMaps` | src/util/ComposedDataDecorator.js:51-57 | when neither axis map is truthy, `axisTicks` is never assigned |
| `ExpensiveState.AxisTicksFirstTruthy` | src/util/ComposedDataDecorator.js:62-66 | with axis maps, `axisTicks` is the first truthy tick sequence the items offer (x ticks under 'horizontal', y ticks otherwise) |
| `ExpensiveState.AxisTicksNoneTruthy` | src/util/ComposedDataDecorator.js:66 | with axis maps and no truthy offer, `axisTicks` is the last item's offer (the starting value when there are no items) |
| `ExpensiveState.ComposerCalledWithoutAxisMaps` | src/util/ComposedDataDecorator.js:55-57 | without axis maps nothing axis-dependent is resolved, yet the composer is still called with undefined axes, ticks, band size, bar position and stacked data |
| `ExpensiveState.OneSidedAxisMapFaults` | src/util/ComposedDataDecorator.js:57-60 | when exactly one axis map is null or undefined and the other is truthy, processing the item raises a TypeError reading the missing map |
| `ExpensiveState.ItemUsesLayoutRoles` | src/util/ComposedDataDecorator.js:57-81 | with axis maps, the axes come from the maps by id and their ticks from `getTicksOfAxis`; the band size uses the category axis; stacking is keyed by the numeric axis id; the bar position uses the category entry of the size list and the effective `maxBarSize` |
| `ExpensiveState.CalculateExpensiveState` | src/util/ComposedDataDecorator.js:40-91 | a successful derivation returns a `{ axisTicks, allComposedData }` object whose array is a separate object, both at addresses at or above the counter passed in, so distinct from every object the instance allocated earlier |
| `ExpensiveState.OrderAndLength` | src/util/ComposedDataDecorator.js:47-53 | the items are `graphicalItems` when that is truthy (which must then be an array), else `findAllByType(children)`; `allComposedData` has one entry per item, entry i coming from item i |
| `ExpensiveState.DerivationSucceedsIff` | src/util/ComposedDataDecorator.js:47-89 | the derivation succeeds exactly when the item list can be iterated and every item can be processed |
| `ExpensiveState.StateAxisTicks` | src/util/ComposedDataDecorator.js:51-91 | the state's `axisTicks` is undefined without axis maps; otherwise it is the first truthy offer, or the last offer when none is truthy |
| `ExpensiveState.DerivationDeterministic` | src/util/ComposedDataDecorator.js:40-91 | two derivations from the same props agree on success, error, `axisTicks` and length, and entry i is the same value in both unless both are `{}` fallbacks |
| `UpdateGates.RecomputeIff` | src/util/ComposedDataDecorator.js:97-111 | recomputation happens exactly when `graphicalItems` or `children` are not shallow-equal, or some prop outside those two and the four interaction props differs |
| `UpdateGates.InteractionOnlyNeverRecomputes` | src/util/ComposedDataDecorator.js:99-109 | props that differ only in `chartX`, `chartY`, `activeTooltipIndex` or `isTooltipActive` never trigger recomputation |
| `UpdateGates.RenderSkippedIff` | src/util/ComposedDataDecorator.js:117-124 | a render is skipped exactly when `graphicalItems` is shallow-equal, no other prop differs (interaction props included) and the states are shallow-equal |
| `UpdateGates.RecomputeImpliesRender` | src/util/ComposedDataDecorator.js:97-124 | whenever the recompute gate fires, the render gate fires too, whatever the states |
| `UpdateGates.IdenticalSkipsUpdate` | src/util/ComposedDataDecorator.js:107-123 | identical props and identical state neither recompute nor render |
| `UpdateGates.ChartXAloneRenders` | src/util/ComposedDataDecorator.js:99-123 | a new `chartX` value alone does not recompute but does render |
| `ComposedDataDecorator.Mount` | src/util/ComposedDataDecorator.js:29 | mounting succeeds exactly when the initial derivation does; the held state is that derivation's state object, allocated below the instance's next free address, and the props are the initial ones |
| `ComposedDataDecorator.Update` | src/util/ComposedDataDecorator.js:97-124 | an update keeps the instance well-formed and adopts the new props; when the recompute gate fires, the state is replaced by the derivation from the new props (and the update fails exactly when that derivation does); when it does not fire, the update cannot fail and keeps the very same state; the render flag is the render gate's verdict on the old and new props and states |
| `ComposedDataDecorator.InteractionUpdateKeepsState` | src/util/ComposedDataDecorator.js:97-123 | an interaction-only change keeps the state object and renders exactly when some interaction prop differs |
| `ComposedDataDecorator.RecomputeAlwaysRenders` | src/util/ComposedDataDecorator.js:107-123 | after a recomputation the state is a different object that is not shallow-equal to the old one, so the host renders |
| `ComposedDataDecorator.SamePropsNoUpdate` | src/util/ComposedDataDecorator.js:97-124 | receiving the same props again leaves the instance unchanged and skips the render |
| `ComposedDataDecorator.NewItemListRecomputes` | src/util/ComposedDataDecorator.js:47-53 | a `graphicalItems` list that is not shallow-equal to the old one triggers a recomputation and a render; the new `allComposedData` has one entry per new item, in order |

## Left out

- React lifecycle mechanics are left out: `setState`, `render`, `propTypes`, `defaultProps`, `displayName` and JSX. They are framework plumbing. The state after `setState` is taken to be the derived object itself. React's merge would copy the same two keys into another new object, which the gates cannot tell apart from it.
- `src/util/PureRender.js` is not part of this model. `shallowEqual` is modelled as: identical values, or two objects or arrays with the same own keys and `===` values at each key.
- `src/util/ReactUtils.js`, `src/util/CartesianUtils.js` and `src/util/DataUtils.js` are not part of this model. `findAllByType`, `getTicksOfAxis`, `getBarSizeList`, `getBarPosition`, `getBandSizeOfAxis` and `getStackedDataOfItem` are uninterpreted total functions. The model assumes they do not raise. Whether stacked data is non-empty is up to `getStackedDataOfItem`.
- Argument objects passed to external routines (`{ barSize, stackGroups }`, the `getBarPosition` options, the composer's argument) are passed as positional values. They are not heap objects with an identity of their own, so a composer that returns its own argument object is not modelled.
- Numbers are integers. Floating point, NaN, -0 and non-integer property keys are not modelled.
- Property reads cover own properties of objects and index and `length` reads of arrays. The prototype chain and properties of primitive wrappers (`"abc".length`) read as undefined.
- A truthy non-function `getComposedData` (calling it would raise) is not modelled: the composer is present or absent.
- A change to a nested axis-map or stack-group entry triggers recomputation only when it gives the prop a new reference. The gates compare one level deep, and the model states exactly that.
- ExpensiveState.DerivationDeterministic: the external routines (`getTicksOfAxis`, `getComposedData` and the others) are modelled as functions of their arguments. A routine that builds a new object on every call is therefore modelled as returning the same reference each time, so the equality of composer entries and `axisTicks` across two derivations does not hold for such a routine in JavaScript, where they would not be `===`.
- ExpensiveState.CalculateExpensiveState: the addresses of objects reachable from the props, or returned by the external routines, are not tied to the address counter. A `{}` fallback can therefore share an address with such an object in the model, which never happens in JavaScript. Distinctness is promised only against objects allocated from the counter.
