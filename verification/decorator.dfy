/**
 The wrapper component as a state machine: an instance holds its current
 props, its derived state and the first unused heap address. Mounting
 derives the state from the initial props; each update runs the recompute
 gate, replaces the state wholesale when it fires, and reports the render
 gate's verdict. Props always move to the new ones, as React assigns
 `this.props` even when a render is skipped.
 */
module ComposedDataDecorator {
  import opened Results
  import opened Js
  import opened PureRender
  import opened ExpensiveState
  import opened UpdateGates

  datatype Instance = Instance(props: Bag, state: Value, avail: Ref)

  /** The instance after an update, and whether the host must render. */
  datatype Step = Step(instance: Instance, render: bool)

  /** The state is a derived-state object allocated before `avail`. */
  predicate Valid(inst: Instance) {
    && IsDerivedState(inst.state)
    && inst.state.ref < inst.avail
    && ComposedDataRef(inst.state) < inst.avail
  }

  /** `state = this.calculateExpensiveState({ props: this.props })` at construction. */
  function Mount(ext: Externals, props: Bag, avail: Ref): (r: Result<Instance, Fault>)
    ensures r.Ok? ==> Valid(r.value) && r.value.props == props && avail <= r.value.avail
    ensures r.Ok? <==> CalculateExpensiveState(ext, props, avail).Ok?
    ensures r.Ok? ==> r.value.state == CalculateExpensiveState(ext, props, avail).value.state
  {
    var d :- CalculateExpensiveState(ext, props, avail);
    Ok(Instance(props, d.state, d.next))
  }

  /** `componentWillReceiveProps(next)` followed by `shouldComponentUpdate(next, nextState)`. */
  function Update(ext: Externals, inst: Instance, next: Bag): (r: Result<Step, Fault>)
    ensures Valid(inst) && r.Ok? ==> Valid(r.value.instance)
    ensures r.Ok? ==> r.value.instance.props == next
    ensures !ShouldRecompute(inst.props, next) ==> r.Ok? && r.value.instance.state == inst.state
    ensures ShouldRecompute(inst.props, next) ==>
              && (r.Ok? <==> CalculateExpensiveState(ext, next, inst.avail).Ok?)
              && (r.Ok? ==> r.value.instance.state == CalculateExpensiveState(ext, next, inst.avail).value.state)
    ensures r.Ok? ==> r.value.render == ShouldRender(inst.props, next, inst.state, r.value.instance.state)
  {
    var d :-
      if ShouldRecompute(inst.props, next) then CalculateExpensiveState(ext, next, inst.avail)
      else Ok(Derived(inst.state, inst.avail));
    Ok(Step(Instance(next, d.state, d.next), ShouldRender(inst.props, next, inst.state, d.state)))
  }

  /**
   A change confined to the interaction props keeps the derived state (the
   very same object) and renders exactly when some interaction prop differs.
   */
  lemma InteractionUpdateKeepsState(ext: Externals, inst: Instance, next: Bag)
    requires inst.props - InteractionProps == next - InteractionProps
    ensures Update(ext, inst, next) == Ok(Step(Instance(next, inst.state, inst.avail),
                                              ShouldRender(inst.props, next, inst.state, inst.state)))
    ensures ShouldRender(inst.props, next, inst.state, inst.state) <==>
              exists k :: k in InteractionProps && KeyDiffers(next, inst.props, k)
  {
    InteractionOnlyNeverRecomputes(inst.props, next);
    RenderSkippedIff(inst.props, next, inst.state, inst.state);
    var a, b := inst.props, next;
    forall k | k !in InteractionProps
      ensures !KeyDiffers(b, a, k)
    {
      assert k in a <==> k in a - InteractionProps;
      assert k in b <==> k in b - InteractionProps;
      if k in a { assert a[k] == (a - InteractionProps)[k]; }
    }
  }

  /**
   A recomputation always yields a state object distinct from the previous
   one, which the render gate cannot find shallow-equal: the host renders.
   */
  lemma RecomputeAlwaysRenders(ext: Externals, inst: Instance, next: Bag)
    requires Valid(inst)
    requires ShouldRecompute(inst.props, next)
    requires Update(ext, inst, next).Ok?
    ensures Update(ext, inst, next).value.render
    ensures Update(ext, inst, next).value.instance.state.ref != inst.state.ref
    ensures !ShallowEqual(Update(ext, inst, next).value.instance.state, inst.state)
  {
  }

  /** Receiving the very same props again neither recomputes nor renders. */
  lemma SamePropsNoUpdate(ext: Externals, inst: Instance)
    ensures Update(ext, inst, inst.props) == Ok(Step(inst, false))
  {
  }

  /**
   A new `graphicalItems` list that is not shallow-equal to the old one
   triggers a recomputation, and the new `allComposedData` has one entry per
   new item, in order.
   */
  lemma NewItemListRecomputes(ext: Externals, inst: Instance, next: Bag)
    requires Valid(inst)
    requires !ShallowEqual(Prop(next, "graphicalItems"), Prop(inst.props, "graphicalItems"))
    requires Update(ext, inst, next).Ok?
    ensures ShouldRecompute(inst.props, next)
    ensures Update(ext, inst, next).value.render
    ensures ItemList(ext, next).Ok?
    ensures var s := Update(ext, inst, next).value.instance.state;
            var items := ItemList(ext, next).value;
            && |AllComposedData(s)| == |items|
            && forall i :: 0 <= i < |items| ==>
                 && ComposeItem(PassOf(ext, next), items[i]).Ok?
                 && EntryFrom(ComposeItem(PassOf(ext, next), items[i]).value.composed,
                              AllComposedData(s)[i], inst.avail, Update(ext, inst, next).value.instance.avail)
  {
    OrderAndLength(ext, next, inst.avail);
  }
}
