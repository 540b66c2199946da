/**
 `calculateExpensiveState`: the derivation pipeline that maps every graphical
 item of a chart, in order, to its composed data, and picks the layout-global
 `axisTicks`.

 The numeric and geometric routines it calls live outside this model and are
 passed in as uninterpreted functions (`Externals`). Objects the pipeline
 allocates (the `allComposedData` array, each `{}` fallback record and the
 state object itself) take their addresses from a counter `avail`, the first unused
 address; the counter after the call is returned alongside the result.
 */
module ExpensiveState {
  import opened Results
  import opened Js

  /** The single object argument passed to the injected `getComposedData`. */
  datatype ComposeArgs = ComposeArgs(
    props: Bag,
    xAxis: Value, yAxis: Value, xTicks: Value, yTicks: Value,
    dataKey: Value, item: Value, bandSize: Value, barPosition: Value,
    offset: Value, stackedData: Value)

  /** The collaborators the decorator consumes without seeing their code. */
  datatype Externals = Externals(
    findItems: Value -> seq<Value>,                               // findAllByType(children, ChildComponent)
    ticksOfAxis: Value -> Value,                                  // getTicksOfAxis(axis)
    barSizeList: (Value, Value) -> Value,                         // getBarSizeList({ barSize, stackGroups })
    bandSizeOfAxis: (Value, Value) -> Value,                      // getBandSizeOfAxis(axis, ticks)
    barPosition: (Value, Value, Value, Value, Value) -> Value,    // getBarPosition({ barGap, barCategoryGap, bandSize, sizeList, maxBarSize })
    stackedDataOfItem: (Value, Value) -> Value,                   // getStackedDataOfItem(item, stackGroups)
    getComposedData: Option<ComposeArgs -> Value>)                // the decorator's optional composer

  /** Which of an item's two axes plays the category role and which the numeric one. */
  datatype AxisRoles = AxisRoles(numericAxisId: Value, cateAxisId: Value, cateAxis: Value, cateTicks: Value)

  /** The fields of `item.props` the pipeline reads. */
  datatype ItemProps = ItemProps(xAxisId: Value, yAxisId: Value, dataKey: Value, maxBarSize: Value)

  /** The axis-dependent values resolved for one item; all undefined without axis maps. */
  datatype Resolved = Resolved(
    xAxis: Value, yAxis: Value, xTicks: Value, yTicks: Value,
    bandSize: Value, barPosition: Value, stackedData: Value)

  const Unresolved: Resolved :=
    Resolved(Undefined, Undefined, Undefined, Undefined, Undefined, Undefined, Undefined)

  /**
   What one item contributes: its resolved axis values, and the composer's
   result when that is truthy (None when the `|| {}` fallback applies).
   */
  datatype ItemOutcome = ItemOutcome(resolved: Resolved, composed: Option<Value>)

  /** The inputs shared by every item of one derivation. */
  datatype Pass = Pass(ext: Externals, props: Bag, sizeList: Value)

  /** The loop's state after a prefix of the items. */
  datatype Acc = Acc(axisTicks: Value, entries: seq<Value>, next: Ref)

  /** A derived state object, with the first address still unused after building it. */
  datatype Derived = Derived(state: Value, next: Ref)

  predicate IsHorizontal(props: Bag) {
    StrictEquals(Prop(props, "layout"), Str("horizontal"))
  }

  /** `xAxisMap || yAxisMap` is truthy. */
  predicate AxisMapsPresent(props: Bag) {
    Truthy(Prop(props, "xAxisMap")) || Truthy(Prop(props, "yAxisMap"))
  }

  /** `graphicalItems || findAllByType(children, ChildComponent)`, then iterated with `forEach`. */
  function ItemList(ext: Externals, props: Bag): Result<seq<Value>, Fault> {
    var graphicalItems := Prop(props, "graphicalItems");
    if Truthy(graphicalItems) then
      if graphicalItems.Array? then Ok(graphicalItems.elems) else Err(NotAnArray)
    else
      Ok(ext.findItems(Prop(props, "children")))
  }

  /** `const { xAxisId, yAxisId, dataKey, maxBarSize } = item.props`. */
  function ReadItemProps(item: Value): Result<ItemProps, Fault> {
    var p :- Get(item, "props");
    if IsNil(p) then Err(CannotDestructure)
    else Ok(ItemProps(Member(p, "xAxisId"), Member(p, "yAxisId"), Member(p, "dataKey"), Member(p, "maxBarSize")))
  }

  /** Category and numeric roles of the two axes under a layout. */
  function RolesFor(horizontal: bool, xAxisId: Value, yAxisId: Value,
                    xAxis: Value, yAxis: Value, xTicks: Value, yTicks: Value): (r: AxisRoles)
    ensures horizontal ==> r.cateAxisId == xAxisId && r.cateAxis == xAxis && r.cateTicks == xTicks && r.numericAxisId == yAxisId
    ensures !horizontal ==> r.cateAxisId == yAxisId && r.cateAxis == yAxis && r.cateTicks == yTicks && r.numericAxisId == xAxisId
  {
    if horizontal then AxisRoles(yAxisId, xAxisId, xAxis, xTicks)
    else AxisRoles(xAxisId, yAxisId, yAxis, yTicks)
  }

  /** Any layout other than 'horizontal' is the horizontal assignment with x and y exchanged. */
  lemma RolesSwapOutsideHorizontal(xAxisId: Value, yAxisId: Value, xAxis: Value, yAxis: Value, xTicks: Value, yTicks: Value)
    ensures RolesFor(false, xAxisId, yAxisId, xAxis, yAxis, xTicks, yTicks)
         == RolesFor(true, yAxisId, xAxisId, yAxis, xAxis, yTicks, xTicks)
  {
  }

  /** The stack-group entry for an axis exists and its `hasStack` is truthy. */
  predicate StackingActive(stackGroups: Value, numericAxisId: Value) {
    && Truthy(stackGroups)
    && Truthy(Member(stackGroups, PropertyKey(numericAxisId)))
    && Truthy(Member(Member(stackGroups, PropertyKey(numericAxisId)), "hasStack"))
  }

  /**
   `stackGroups && stackGroups[id] && stackGroups[id].hasStack &&
   getStackedDataOfItem(item, stackGroups[id].stackGroups)`.
   */
  function StackedData(stackedDataOfItem: (Value, Value) -> Value,
                       stackGroups: Value, numericAxisId: Value, item: Value): (r: Value)
    ensures StackingActive(stackGroups, numericAxisId) ==>
              r == stackedDataOfItem(item, Member(Member(stackGroups, PropertyKey(numericAxisId)), "stackGroups"))
    ensures !StackingActive(stackGroups, numericAxisId) ==> !Truthy(r)
  {
    if !Truthy(stackGroups) then stackGroups
    else
      var group := Member(stackGroups, PropertyKey(numericAxisId));
      if !Truthy(group) then group
      else
        var hasStack := Member(group, "hasStack");
        if !Truthy(hasStack) then hasStack
        else stackedDataOfItem(item, Member(group, "stackGroups"))
  }

  /** When stacking is not active the stacking routine is never consulted. */
  lemma StackedDataSkipsRoutine(f: (Value, Value) -> Value, g: (Value, Value) -> Value,
                                stackGroups: Value, numericAxisId: Value, item: Value)
    requires !StackingActive(stackGroups, numericAxisId)
    ensures StackedData(f, stackGroups, numericAxisId, item) == StackedData(g, stackGroups, numericAxisId, item)
  {
  }

  /** `_.isNil(childMaxBarSize) ? globalMaxBarSize : childMaxBarSize`. */
  function EffectiveMaxBarSize(childMaxBarSize: Value, globalMaxBarSize: Value): (r: Value)
    ensures r == childMaxBarSize || r == globalMaxBarSize
    ensures !IsNil(childMaxBarSize) ==> r == childMaxBarSize
    ensures IsNil(childMaxBarSize) ==> r == globalMaxBarSize
    ensures IsNil(r) ==> IsNil(childMaxBarSize) && IsNil(globalMaxBarSize)
  {
    if IsNil(childMaxBarSize) then globalMaxBarSize else childMaxBarSize
  }

  /** Falsy overrides other than null and undefined (0, false, '') still win over the global value. */
  lemma ZeroOverrideWins(globalMaxBarSize: Value)
    ensures EffectiveMaxBarSize(Num(0), globalMaxBarSize) == Num(0)
    ensures Or(Num(0), globalMaxBarSize) == globalMaxBarSize
  {
  }

  /** The `if (xAxisMap || yAxisMap)` block: the axis-dependent values of one item. */
  function Resolve(pass: Pass, item: Value, ip: ItemProps): Result<Resolved, Fault> {
    var props := pass.props;
    var ext := pass.ext;
    if !AxisMapsPresent(props) then Ok(Unresolved)
    else
      var xAxis :- Get(Prop(props, "xAxisMap"), PropertyKey(ip.xAxisId));
      var yAxis :- Get(Prop(props, "yAxisMap"), PropertyKey(ip.yAxisId));
      var xTicks := ext.ticksOfAxis(xAxis);
      var yTicks := ext.ticksOfAxis(yAxis);
      var roles := RolesFor(IsHorizontal(props), ip.xAxisId, ip.yAxisId, xAxis, yAxis, xTicks, yTicks);
      var stackedData := StackedData(ext.stackedDataOfItem, Prop(props, "stackGroups"), roles.numericAxisId, item);
      var bandSize := ext.bandSizeOfAxis(roles.cateAxis, roles.cateTicks);
      var maxBarSize := EffectiveMaxBarSize(ip.maxBarSize, Prop(props, "maxBarSize"));
      var sizes :- Get(pass.sizeList, PropertyKey(roles.cateAxisId));
      var barPosition := ext.barPosition(Prop(props, "barGap"), Prop(props, "barCategoryGap"), bandSize, sizes, maxBarSize);
      Ok(Resolved(xAxis, yAxis, xTicks, yTicks, bandSize, barPosition, stackedData))
  }

  /** `getComposedData && getComposedData(args)`, kept only when truthy. */
  function ComposerOutput(getComposedData: Option<ComposeArgs -> Value>, args: ComposeArgs): (r: Option<Value>)
    ensures r.Some? ==> Truthy(r.value)
    ensures getComposedData.None? ==> r.None?
    ensures getComposedData.Some? ==>
              && (r.Some? <==> Truthy(getComposedData.value(args)))
              && (r.Some? ==> r.value == getComposedData.value(args))
  {
    match getComposedData
    case None => None
    case Some(f) => if Truthy(f(args)) then Some(f(args)) else None
  }

  /** One iteration of the `forEach` body, apart from `axisTicks` and the push. */
  function ComposeItem(pass: Pass, item: Value): Result<ItemOutcome, Fault> {
    var ip :- ReadItemProps(item);
    var r :- Resolve(pass, item, ip);
    var args := ComposeArgs(pass.props, r.xAxis, r.yAxis, r.xTicks, r.yTicks, ip.dataKey, item,
                            r.bandSize, r.barPosition, Prop(pass.props, "offset"), r.stackedData);
    Ok(ItemOutcome(r, ComposerOutput(pass.ext.getComposedData, args)))
  }

  /** The tick sequence an item offers for `axisTicks`: its x ticks under 'horizontal', else its y ticks. */
  function TicksCandidate(props: Bag, r: Resolved): Value {
    if IsHorizontal(props) then r.xTicks else r.yTicks
  }

  /** The tick sequence an accepted item offers for `axisTicks`; undefined for an item the pipeline rejects. */
  function ItemTicks(pass: Pass, item: Value): Value {
    match ComposeItem(pass, item)
    case Ok(o) => TicksCandidate(pass.props, o.resolved)
    case Err(_) => Undefined
  }

  predicate IsEmptyRecord(v: Value) {
    v.Object? && v.fields == map[]
  }

  /**
   The entry pushed for an item: the composer's truthy result, or a new `{}`
   allocated at `avail`.
   */
  function ComposedEntry(composed: Option<Value>, avail: Ref): (r: (Value, Ref))
    requires composed.Some? ==> Truthy(composed.value)
    ensures Truthy(r.0)
    ensures composed.Some? && Truthy(composed.value) ==> r == (composed.value, avail)
    ensures composed.None? ==> IsEmptyRecord(r.0) && r.0.ref == avail && r.1 == avail + 1
  {
    match composed
    case Some(v) => (v, avail)
    case None => (Object(avail, map[]), avail + 1)
  }

  /** How an item's entry in `allComposedData` relates to its outcome. */
  predicate EntryFrom(composed: Option<Value>, entry: Value, avail: Ref, next: Ref) {
    match composed
    case Some(v) => entry == v
    case None => IsEmptyRecord(entry) && avail <= entry.ref < next
  }

  /** The `forEach` loop over `items`, from the given `axisTicks` and first unused address. */
  function ComposeFrom(pass: Pass, items: seq<Value>, ticks: Value, avail: Ref): (r: Result<Acc, Fault>)
    ensures r.Ok? ==> |r.value.entries| == |items| && avail <= r.value.next
    decreases |items|
  {
    if |items| == 0 then Ok(Acc(ticks, [], avail))
    else
      var o :- ComposeItem(pass, items[0]);
      var ticks' := if AxisMapsPresent(pass.props) then Or(ticks, TicksCandidate(pass.props, o.resolved)) else ticks;
      var (entry, avail') := ComposedEntry(o.composed, avail);
      var rest :- ComposeFrom(pass, items[1..], ticks', avail');
      Ok(Acc(rest.axisTicks, [entry] + rest.entries, rest.next))
  }

  predicate IsDerivedState(s: Value) {
    && s.Object?
    && s.fields.Keys == {"axisTicks", "allComposedData"}
    && s.fields["allComposedData"].Array?
  }

  function AxisTicks(s: Value): Value
    requires IsDerivedState(s)
  {
    s.fields["axisTicks"]
  }

  function AllComposedData(s: Value): seq<Value>
    requires IsDerivedState(s)
  {
    s.fields["allComposedData"].elems
  }

  /** The address of a derived state's `allComposedData` array. */
  function ComposedDataRef(s: Value): Ref
    requires IsDerivedState(s)
  {
    s.fields["allComposedData"].ref
  }

  /** The pass shared by all items of one derivation over `props`. */
  function PassOf(ext: Externals, props: Bag): Pass {
    Pass(ext, props, ext.barSizeList(Prop(props, "barSize"), Prop(props, "stackGroups")))
  }

  /**
   `calculateExpensiveState({ props })`: `{ axisTicks, allComposedData }`, or the
   TypeError the loop raised. The state object and its array are new objects.
   */
  function CalculateExpensiveState(ext: Externals, props: Bag, avail: Ref): (r: Result<Derived, Fault>)
    ensures r.Ok? ==> && IsDerivedState(r.value.state)
                      && avail <= r.value.state.ref < r.value.next
                      && avail <= ComposedDataRef(r.value.state) < r.value.next
                      && r.value.state.ref != ComposedDataRef(r.value.state)
  {
    var items :- ItemList(ext, props);
    var acc :- ComposeFrom(PassOf(ext, props), items, Undefined, avail + 1);
    var state := Object(acc.next, map["axisTicks" := acc.axisTicks, "allComposedData" := Array(avail, acc.entries)]);
    Ok(Derived(state, acc.next + 1))
  }

  /* ---------------------------------------------------------------------
     The item loop
     --------------------------------------------------------------------- */

  /**
   The loop succeeds exactly when every item does; otherwise it raises the
   error of the first item that fails.
   */
  lemma {:induction false} ComposeFromFaults(pass: Pass, items: seq<Value>, ticks: Value, avail: Ref)
    ensures ComposeFrom(pass, items, ticks, avail).Ok? <==>
              forall i :: 0 <= i < |items| ==> ComposeItem(pass, items[i]).Ok?
    ensures ComposeFrom(pass, items, ticks, avail).Err? ==>
              exists i :: && 0 <= i < |items|
                          && ComposeItem(pass, items[i]).Err?
                          && (forall j :: 0 <= j < i ==> ComposeItem(pass, items[j]).Ok?)
                          && ComposeFrom(pass, items, ticks, avail).error == ComposeItem(pass, items[i]).error
    decreases |items|
  {
    if |items| > 0 {
      match ComposeItem(pass, items[0])
      case Err(e) =>
      case Ok(o) =>
        var ticks' := if AxisMapsPresent(pass.props) then Or(ticks, TicksCandidate(pass.props, o.resolved)) else ticks;
        var (entry, avail') := ComposedEntry(o.composed, avail);
        ComposeFromFaults(pass, items[1..], ticks', avail');
        assert forall i :: 1 <= i < |items| ==> items[i] == items[1..][i - 1];
        if ComposeFrom(pass, items[1..], ticks', avail').Err? {
          var i :| && 0 <= i < |items[1..]|
                   && ComposeItem(pass, items[1..][i]).Err?
                   && (forall j :: 0 <= j < i ==> ComposeItem(pass, items[1..][j]).Ok?)
                   && ComposeFrom(pass, items[1..], ticks', avail').error == ComposeItem(pass, items[1..][i]).error;
          assert forall j :: 1 <= j < i + 1 ==> ComposeItem(pass, items[j]).Ok? by {
            forall j | 1 <= j < i + 1 ensures ComposeItem(pass, items[j]).Ok? {
              assert items[j] == items[1..][j - 1];
            }
          }
        } else {
          forall i | 0 <= i < |items| ensures ComposeItem(pass, items[i]).Ok? {
            if i > 0 { assert items[i] == items[1..][i - 1]; }
          }
        }
    }
  }

  /**
   Entry i of a successful loop comes from item i: the composer's truthy
   result for it, or an empty record allocated during this loop.
   */
  lemma {:induction false} ComposeFromEntries(pass: Pass, items: seq<Value>, ticks: Value, avail: Ref)
    requires ComposeFrom(pass, items, ticks, avail).Ok?
    ensures var acc := ComposeFrom(pass, items, ticks, avail).value;
            forall i :: 0 <= i < |items| ==>
              && ComposeItem(pass, items[i]).Ok?
              && EntryFrom(ComposeItem(pass, items[i]).value.composed, acc.entries[i], avail, acc.next)
    decreases |items|
  {
    if |items| > 0 {
      var acc := ComposeFrom(pass, items, ticks, avail).value;
      var o := ComposeItem(pass, items[0]).value;
      var ticks' := if AxisMapsPresent(pass.props) then Or(ticks, TicksCandidate(pass.props, o.resolved)) else ticks;
      var (entry, avail') := ComposedEntry(o.composed, avail);
      var rest := ComposeFrom(pass, items[1..], ticks', avail').value;
      ComposeFromEntries(pass, items[1..], ticks', avail');
      assert acc.entries == [entry] + rest.entries && acc.next == rest.next;
      forall i | 0 <= i < |items|
        ensures && ComposeItem(pass, items[i]).Ok?
                && EntryFrom(ComposeItem(pass, items[i]).value.composed, acc.entries[i], avail, acc.next)
      {
        if i > 0 {
          assert items[i] == items[1..][i - 1];
          assert acc.entries[i] == rest.entries[i - 1];
        }
      }
    }
  }

  /** An item whose entry is the `{}` fallback. */
  predicate FallsBack(pass: Pass, item: Value) {
    ComposeItem(pass, item).Ok? && ComposeItem(pass, item).value.composed.None?
  }

  /** Every `{}` fallback is a separate new object: later items get higher addresses. */
  lemma {:induction false} FallbackRecordsDistinct(pass: Pass, items: seq<Value>, ticks: Value, avail: Ref)
    requires ComposeFrom(pass, items, ticks, avail).Ok?
    ensures var acc := ComposeFrom(pass, items, ticks, avail).value;
            forall i, j :: 0 <= i < j < |items| && FallsBack(pass, items[i]) && FallsBack(pass, items[j]) ==>
              && IsEmptyRecord(acc.entries[i]) && IsEmptyRecord(acc.entries[j])
              && acc.entries[i].ref < acc.entries[j].ref
    decreases |items|
  {
    if |items| > 0 {
      var acc := ComposeFrom(pass, items, ticks, avail).value;
      var o := ComposeItem(pass, items[0]).value;
      var ticks' := if AxisMapsPresent(pass.props) then Or(ticks, TicksCandidate(pass.props, o.resolved)) else ticks;
      var (entry, avail') := ComposedEntry(o.composed, avail);
      var rest := ComposeFrom(pass, items[1..], ticks', avail').value;
      FallbackRecordsDistinct(pass, items[1..], ticks', avail');
      ComposeFromEntries(pass, items[1..], ticks', avail');
      assert acc.entries == [entry] + rest.entries;
      forall i, j | 0 <= i < j < |items| && FallsBack(pass, items[i]) && FallsBack(pass, items[j])
        ensures && IsEmptyRecord(acc.entries[i]) && IsEmptyRecord(acc.entries[j])
                && acc.entries[i].ref < acc.entries[j].ref
      {
        var tail := items[1..];
        assert tail[j - 1] == items[j];
        assert acc.entries[j] == rest.entries[j - 1];
        if i > 0 {
          assert tail[i - 1] == items[i];
          assert acc.entries[i] == rest.entries[i - 1];
          assert 0 <= i - 1 < j - 1 < |tail| && FallsBack(pass, tail[i - 1]) && FallsBack(pass, tail[j - 1]);
        } else {
          assert EntryFrom(ComposeItem(pass, tail[j - 1]).value.composed, rest.entries[j - 1], avail', rest.next);
          assert acc.entries[0] == entry && entry.ref == avail && avail' == avail + 1;
        }
      }
    }
  }

  /** Once `axisTicks` is truthy, no later item overwrites it. */
  lemma {:induction false} AxisTicksKept(pass: Pass, items: seq<Value>, ticks: Value, avail: Ref)
    requires ComposeFrom(pass, items, ticks, avail).Ok?
    requires Truthy(ticks)
    ensures ComposeFrom(pass, items, ticks, avail).value.axisTicks == ticks
    decreases |items|
  {
    if |items| > 0 {
      var o := ComposeItem(pass, items[0]).value;
      var (entry, avail') := ComposedEntry(o.composed, avail);
      AxisTicksKept(pass, items[1..], ticks, avail');
    }
  }

  /** Without axis maps `axisTicks` is never assigned. */
  lemma {:induction false} AxisTicksWithoutMaps(pass: Pass, items: seq<Value>, ticks: Value, avail: Ref)
    requires ComposeFrom(pass, items, ticks, avail).Ok?
    requires !AxisMapsPresent(pass.props)
    ensures ComposeFrom(pass, items, ticks, avail).value.axisTicks == ticks
    decreases |items|
  {
    if |items| > 0 {
      var o := ComposeItem(pass, items[0]).value;
      var (entry, avail') := ComposedEntry(o.composed, avail);
      AxisTicksWithoutMaps(pass, items[1..], ticks, avail');
    }
  }

  /** With axis maps, `axisTicks` is the first truthy tick sequence the items offer. */
  lemma {:induction false} AxisTicksFirstTruthy(pass: Pass, items: seq<Value>, ticks: Value, avail: Ref, i: nat)
    requires ComposeFrom(pass, items, ticks, avail).Ok?
    requires AxisMapsPresent(pass.props) && !Truthy(ticks)
    requires i < |items| && Truthy(ItemTicks(pass, items[i]))
    requires forall j :: 0 <= j < i ==> !Truthy(ItemTicks(pass, items[j]))
    ensures ComposeFrom(pass, items, ticks, avail).value.axisTicks == ItemTicks(pass, items[i])
    decreases |items|
  {
    var o := ComposeItem(pass, items[0]).value;
    var ticks' := Or(ticks, TicksCandidate(pass.props, o.resolved));
    var (entry, avail') := ComposedEntry(o.composed, avail);
    assert ticks' == ItemTicks(pass, items[0]);
    if i == 0 {
      AxisTicksKept(pass, items[1..], ticks', avail');
    } else {
      assert items[1..][i - 1] == items[i];
      forall j | 0 <= j < i - 1 ensures !Truthy(ItemTicks(pass, items[1..][j])) {
        assert items[1..][j] == items[j + 1];
      }
      AxisTicksFirstTruthy(pass, items[1..], ticks', avail', i - 1);
    }
  }

  /**
   With axis maps and no truthy tick sequence, `axisTicks` is the last item's
   (falsy) offer, as `a || b` yields `b` when `a` is falsy.
   */
  lemma {:induction false} AxisTicksNoneTruthy(pass: Pass, items: seq<Value>, ticks: Value, avail: Ref)
    requires ComposeFrom(pass, items, ticks, avail).Ok?
    requires AxisMapsPresent(pass.props) && !Truthy(ticks)
    requires forall j :: 0 <= j < |items| ==> !Truthy(ItemTicks(pass, items[j]))
    ensures ComposeFrom(pass, items, ticks, avail).value.axisTicks ==
              if |items| == 0 then ticks else ItemTicks(pass, items[|items| - 1])
    decreases |items|
  {
    if |items| > 0 {
      var o := ComposeItem(pass, items[0]).value;
      var ticks' := Or(ticks, TicksCandidate(pass.props, o.resolved));
      var (entry, avail') := ComposedEntry(o.composed, avail);
      assert ticks' == ItemTicks(pass, items[0]);
      forall j | 0 <= j < |items[1..]| ensures !Truthy(ItemTicks(pass, items[1..][j])) {
        assert items[1..][j] == items[j + 1];
      }
      AxisTicksNoneTruthy(pass, items[1..], ticks', avail');
      if |items| > 1 {
        assert items[1..][|items[1..]| - 1] == items[|items| - 1];
      }
    }
  }

  /* ---------------------------------------------------------------------
     One item
     --------------------------------------------------------------------- */

  /**
   Without axis maps nothing axis-dependent is resolved, yet the composer is
   still called, with its axis fields undefined.
   */
  lemma ComposerCalledWithoutAxisMaps(pass: Pass, item: Value)
    requires !AxisMapsPresent(pass.props) && ReadItemProps(item).Ok?
    ensures var ip := ReadItemProps(item).value;
            ComposeItem(pass, item) == Ok(ItemOutcome(Unresolved, ComposerOutput(pass.ext.getComposedData,
              ComposeArgs(pass.props, Undefined, Undefined, Undefined, Undefined, ip.dataKey, item,
                          Undefined, Undefined, Prop(pass.props, "offset"), Undefined))))
  {
  }

  /**
   When only the y-axis map is present, reading the x-axis map raises, and
   when only the x-axis map is present, reading the y-axis map raises.
   */
  lemma OneSidedAxisMapFaults(pass: Pass, item: Value)
    requires ReadItemProps(item).Ok?
    requires IsNil(Prop(pass.props, "xAxisMap")) != IsNil(Prop(pass.props, "yAxisMap"))
    requires Truthy(Prop(pass.props, "xAxisMap")) || Truthy(Prop(pass.props, "yAxisMap"))
    ensures var ip := ReadItemProps(item).value;
            ComposeItem(pass, item) ==
              if IsNil(Prop(pass.props, "xAxisMap")) then Err(CannotReadProperty(PropertyKey(ip.xAxisId)))
              else Err(CannotReadProperty(PropertyKey(ip.yAxisId)))
  {
  }

  /**
   With axis maps, an item's band size is taken from the category axis and its
   ticks, its stacking is keyed by the numeric axis id, and its bar position
   uses the effective maxBarSize; x is the category axis exactly under
   'horizontal'.
   */
  lemma ItemUsesLayoutRoles(pass: Pass, item: Value)
    requires AxisMapsPresent(pass.props) && ComposeItem(pass, item).Ok?
    ensures var ip := ReadItemProps(item).value;
            var r := ComposeItem(pass, item).value.resolved;
            var props := pass.props;
            var ext := pass.ext;
            var cateAxis := if IsHorizontal(props) then r.xAxis else r.yAxis;
            var cateTicks := if IsHorizontal(props) then r.xTicks else r.yTicks;
            var cateAxisId := if IsHorizontal(props) then ip.xAxisId else ip.yAxisId;
            var numericAxisId := if IsHorizontal(props) then ip.yAxisId else ip.xAxisId;
            && r.xAxis == Member(Prop(props, "xAxisMap"), PropertyKey(ip.xAxisId))
            && r.yAxis == Member(Prop(props, "yAxisMap"), PropertyKey(ip.yAxisId))
            && r.xTicks == ext.ticksOfAxis(r.xAxis)
            && r.yTicks == ext.ticksOfAxis(r.yAxis)
            && r.bandSize == ext.bandSizeOfAxis(cateAxis, cateTicks)
            && r.stackedData == StackedData(ext.stackedDataOfItem, Prop(props, "stackGroups"), numericAxisId, item)
            && r.barPosition == ext.barPosition(Prop(props, "barGap"), Prop(props, "barCategoryGap"), r.bandSize,
                                                Member(pass.sizeList, PropertyKey(cateAxisId)),
                                                EffectiveMaxBarSize(ip.maxBarSize, Prop(props, "maxBarSize")))
  {
  }

  /* ---------------------------------------------------------------------
     The whole derivation
     --------------------------------------------------------------------- */

  /**
   `allComposedData` has one entry per item, in item order, where the items
   are `graphicalItems` when that is truthy and otherwise what
   `findAllByType(children, ChildComponent)` returns.
   */
  lemma OrderAndLength(ext: Externals, props: Bag, avail: Ref)
    requires CalculateExpensiveState(ext, props, avail).Ok?
    ensures ItemList(ext, props).Ok?
    ensures var graphicalItems := Prop(props, "graphicalItems");
            var items := ItemList(ext, props).value;
            && (Truthy(graphicalItems) ==> graphicalItems.Array? && items == graphicalItems.elems)
            && (!Truthy(graphicalItems) ==> items == ext.findItems(Prop(props, "children")))
    ensures var d := CalculateExpensiveState(ext, props, avail).value;
            var items := ItemList(ext, props).value;
            && |AllComposedData(d.state)| == |items|
            && forall i :: 0 <= i < |items| ==>
                 && ComposeItem(PassOf(ext, props), items[i]).Ok?
                 && EntryFrom(ComposeItem(PassOf(ext, props), items[i]).value.composed,
                              AllComposedData(d.state)[i], avail, d.next)
  {
    var items := ItemList(ext, props).value;
    ComposeFromEntries(PassOf(ext, props), items, Undefined, avail + 1);
  }

  /**
   The derivation succeeds exactly when the item list can be iterated and
   every item can be processed.
   */
  lemma DerivationSucceedsIff(ext: Externals, props: Bag, avail: Ref)
    ensures CalculateExpensiveState(ext, props, avail).Ok? <==>
              && ItemList(ext, props).Ok?
              && forall i :: 0 <= i < |ItemList(ext, props).value| ==>
                   ComposeItem(PassOf(ext, props), ItemList(ext, props).value[i]).Ok?
  {
    if ItemList(ext, props).Ok? {
      ComposeFromFaults(PassOf(ext, props), ItemList(ext, props).value, Undefined, avail + 1);
    }
  }

  /**
   The state's `axisTicks`: undefined without axis maps; otherwise the first
   truthy tick sequence offered, or the last offer when none is truthy.
   */
  lemma StateAxisTicks(ext: Externals, props: Bag, avail: Ref)
    requires CalculateExpensiveState(ext, props, avail).Ok?
    ensures ItemList(ext, props).Ok?
    ensures var s := CalculateExpensiveState(ext, props, avail).value.state;
            var items := ItemList(ext, props).value;
            var pass := PassOf(ext, props);
            && (!AxisMapsPresent(props) ==> AxisTicks(s) == Undefined)
            && (AxisMapsPresent(props) ==>
                  forall i :: 0 <= i < |items| && Truthy(ItemTicks(pass, items[i])) &&
                              (forall j :: 0 <= j < i ==> !Truthy(ItemTicks(pass, items[j]))) ==>
                    AxisTicks(s) == ItemTicks(pass, items[i]))
            && (AxisMapsPresent(props) && (forall j :: 0 <= j < |items| ==> !Truthy(ItemTicks(pass, items[j]))) ==>
                  AxisTicks(s) == if |items| == 0 then Undefined else ItemTicks(pass, items[|items| - 1]))
  {
    var items := ItemList(ext, props).value;
    var pass := PassOf(ext, props);
    if !AxisMapsPresent(props) {
      AxisTicksWithoutMaps(pass, items, Undefined, avail + 1);
    } else {
      forall i | 0 <= i < |items| && Truthy(ItemTicks(pass, items[i])) &&
                 (forall j :: 0 <= j < i ==> !Truthy(ItemTicks(pass, items[j])))
        ensures ComposeFrom(pass, items, Undefined, avail + 1).value.axisTicks == ItemTicks(pass, items[i])
      {
        AxisTicksFirstTruthy(pass, items, Undefined, avail + 1, i);
      }
      if forall j :: 0 <= j < |items| ==> !Truthy(ItemTicks(pass, items[j])) {
        AxisTicksNoneTruthy(pass, items, Undefined, avail + 1);
      }
    }
  }

  /**
   Two derivations from the same props agree on everything but the addresses
   of the objects they allocate: same outcome, same `axisTicks`, and entries
   that are equal or both `{}` fallbacks.
   */
  lemma DerivationDeterministic(ext: Externals, props: Bag, a1: Ref, a2: Ref)
    ensures CalculateExpensiveState(ext, props, a1).Ok? <==> CalculateExpensiveState(ext, props, a2).Ok?
    ensures CalculateExpensiveState(ext, props, a1).Err? ==>
              CalculateExpensiveState(ext, props, a1) == CalculateExpensiveState(ext, props, a2)
    ensures CalculateExpensiveState(ext, props, a1).Ok? ==>
              var s1 := CalculateExpensiveState(ext, props, a1).value.state;
              var s2 := CalculateExpensiveState(ext, props, a2).value.state;
              && AxisTicks(s1) == AxisTicks(s2)
              && |AllComposedData(s1)| == |AllComposedData(s2)|
              && forall i :: 0 <= i < |AllComposedData(s1)| ==>
                   || AllComposedData(s1)[i] == AllComposedData(s2)[i]
                   || (IsEmptyRecord(AllComposedData(s1)[i]) && IsEmptyRecord(AllComposedData(s2)[i]))
  {
    DerivationSucceedsIff(ext, props, a1);
    DerivationSucceedsIff(ext, props, a2);
    if ItemList(ext, props).Ok? {
      var items := ItemList(ext, props).value;
      var pass := PassOf(ext, props);
      ComposeFromFaults(pass, items, Undefined, a1 + 1);
      ComposeFromFaults(pass, items, Undefined, a2 + 1);
      if CalculateExpensiveState(ext, props, a1).Ok? {
        OrderAndLength(ext, props, a1);
        OrderAndLength(ext, props, a2);
        StateAxisTicks(ext, props, a1);
        StateAxisTicks(ext, props, a2);
        AxisTicksFromAnyStart(pass, items, Undefined, a1 + 1, a2 + 1);
      } else {
        FirstFaultUnique(pass, items, Undefined, a1 + 1, Undefined, a2 + 1);
      }
    }
  }

  /** The loop's `axisTicks` does not depend on where allocation starts. */
  lemma {:induction false} AxisTicksFromAnyStart(pass: Pass, items: seq<Value>, ticks: Value, a1: Ref, a2: Ref)
    requires ComposeFrom(pass, items, ticks, a1).Ok? && ComposeFrom(pass, items, ticks, a2).Ok?
    ensures ComposeFrom(pass, items, ticks, a1).value.axisTicks == ComposeFrom(pass, items, ticks, a2).value.axisTicks
    decreases |items|
  {
    if |items| > 0 {
      var o := ComposeItem(pass, items[0]).value;
      var ticks' := if AxisMapsPresent(pass.props) then Or(ticks, TicksCandidate(pass.props, o.resolved)) else ticks;
      var (e1, a1') := ComposedEntry(o.composed, a1);
      var (e2, a2') := ComposedEntry(o.composed, a2);
      AxisTicksFromAnyStart(pass, items[1..], ticks', a1', a2');
    }
  }

  /** A failing loop raises the same error whatever `axisTicks` and allocation it starts from. */
  lemma FirstFaultUnique(pass: Pass, items: seq<Value>, t1: Value, a1: Ref, t2: Value, a2: Ref)
    requires ComposeFrom(pass, items, t1, a1).Err?
    ensures ComposeFrom(pass, items, t1, a1) == ComposeFrom(pass, items, t2, a2)
  {
  }
}
