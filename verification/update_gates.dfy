/**
 The decorator's two change gates, as pure predicates over the current and
 next prop bags.

 - The recompute gate (`componentWillReceiveProps`) reruns the derivation
   unless `graphicalItems`, `children` and every other prop except the four
   interaction props are shallow-equal.
 - The render gate (`shouldComponentUpdate`) lets a render be skipped only when
   `graphicalItems`, every other prop (the interaction props included) and the
   derived state are all shallow-equal.
 */
module UpdateGates {
  import opened Js
  import opened PureRender

  /** Props that track the pointer and tooltip and never affect the derived data. */
  const InteractionProps: set<string> := {"chartX", "chartY", "activeTooltipIndex", "isTooltipActive"}

  /** The keys the recompute gate takes out of its `...rest` objects. */
  const RecomputeIgnored: set<string> := {"graphicalItems", "children"} + InteractionProps

  /** `componentWillReceiveProps(next)` with `this.props == current`: whether the state is recomputed. */
  predicate ShouldRecompute(current: Bag, next: Bag) {
    || !ShallowEqual(Prop(next, "graphicalItems"), Prop(current, "graphicalItems"))
    || !ShallowEqual(Prop(next, "children"), Prop(current, "children"))
    || !ShallowEqualBags(next - RecomputeIgnored, current - RecomputeIgnored)
  }

  /** `shouldComponentUpdate(next, nextState)` with `this.props == current` and `this.state == currentState`. */
  predicate ShouldRender(current: Bag, next: Bag, currentState: Value, nextState: Value) {
    || !ShallowEqual(Prop(next, "graphicalItems"), Prop(current, "graphicalItems"))
    || !ShallowEqualBags(next - {"graphicalItems"}, current - {"graphicalItems"})
    || !ShallowEqual(nextState, currentState)
  }

  /** Two `...rest` objects without the keys `ks` are shallow-equal exactly when no other key differs. */
  lemma RestEqualIff(a: Bag, b: Bag, ks: set<string>)
    ensures ShallowEqualBags(a - ks, b - ks) <==> forall k :: k !in ks ==> !KeyDiffers(a, b, k)
  {
    ShallowEqualBagsIff(a - ks, b - ks);
    assert forall k :: KeyDiffers(a - ks, b - ks, k) <==> k !in ks && KeyDiffers(a, b, k);
  }

  /** A prop whose key differs between two bags is not shallow-equal, read as a prop. */
  lemma DifferingPropNotShallowEqual(a: Bag, b: Bag, k: string)
    requires !ShallowEqual(Prop(b, k), Prop(a, k))
    ensures KeyDiffers(a, b, k)
  {
  }

  /**
   The recompute gate fires exactly when `graphicalItems` or `children` are not
   shallow-equal, or some prop outside the ignored keys differs.
   */
  lemma RecomputeIff(current: Bag, next: Bag)
    ensures ShouldRecompute(current, next) <==>
              || !ShallowEqual(Prop(next, "graphicalItems"), Prop(current, "graphicalItems"))
              || !ShallowEqual(Prop(next, "children"), Prop(current, "children"))
              || exists k :: k !in RecomputeIgnored && KeyDiffers(next, current, k)
  {
    RestEqualIff(next, current, RecomputeIgnored);
  }

  /** Props that differ only in interaction fields never cause a recomputation. */
  lemma InteractionOnlyNeverRecomputes(current: Bag, next: Bag)
    requires current - InteractionProps == next - InteractionProps
    ensures !ShouldRecompute(current, next)
  {
    assert forall k :: k !in InteractionProps ==> (k in current <==> k in next) by {
      forall k | k !in InteractionProps ensures k in current <==> k in next {
        assert k in current <==> k in current - InteractionProps;
        assert k in next <==> k in next - InteractionProps;
      }
    }
    assert forall k :: k !in InteractionProps && k in current ==> current[k] == next[k] by {
      forall k | k !in InteractionProps && k in current ensures current[k] == next[k] {
        assert current[k] == (current - InteractionProps)[k];
      }
    }
    RestEqualIff(next, current, RecomputeIgnored);
  }

  /**
   A render is skipped exactly when `graphicalItems` is shallow-equal, no other
   prop differs (interaction props included), and the states are shallow-equal.
   */
  lemma RenderSkippedIff(current: Bag, next: Bag, currentState: Value, nextState: Value)
    ensures !ShouldRender(current, next, currentState, nextState) <==>
              && ShallowEqual(Prop(next, "graphicalItems"), Prop(current, "graphicalItems"))
              && (forall k :: k != "graphicalItems" ==> !KeyDiffers(next, current, k))
              && ShallowEqual(nextState, currentState)
  {
    RestEqualIff(next, current, {"graphicalItems"});
  }

  /** Whenever the recompute gate fires, the render gate fires too, whatever the states. */
  lemma RecomputeImpliesRender(current: Bag, next: Bag, currentState: Value, nextState: Value)
    requires ShouldRecompute(current, next)
    ensures ShouldRender(current, next, currentState, nextState)
  {
    RecomputeIff(current, next);
    RenderSkippedIff(current, next, currentState, nextState);
    if !ShallowEqual(Prop(next, "children"), Prop(current, "children")) {
      DifferingPropNotShallowEqual(next, current, "children");
      assert KeyDiffers(next, current, "children");
    }
  }

  /** The same props and the same state never cause a recomputation or a render. */
  lemma IdenticalSkipsUpdate(props: Bag, state: Value)
    ensures !ShouldRecompute(props, props)
    ensures !ShouldRender(props, props, state, state)
  {
  }

  /** A new `chartX` alone does not recompute, but does render. */
  lemma ChartXAloneRenders(props: Bag, x: Value, state: Value)
    requires !("chartX" in props && StrictEquals(props["chartX"], x))
    ensures !ShouldRecompute(props, props["chartX" := x])
    ensures ShouldRender(props, props["chartX" := x], state, state)
  {
    var next := props["chartX" := x];
    assert props - InteractionProps == next - InteractionProps;
    InteractionOnlyNeverRecomputes(props, next);
    RenderSkippedIff(props, next, state, state);
    assert KeyDiffers(next, props, "chartX");
  }
}
