/**
 The one-level comparator `shallowEqual` that both update gates are built from.
 Two values are shallow-equal when they are the same value (`===`), or when both
 are objects or arrays with the same own keys holding `===` values.
 */
module PureRender {
  import opened Js

  /** The own enumerable keys of an object or array: an array's are its index strings. */
  function OwnKeys(v: Value): set<string>
    requires IsObjectLike(v)
  {
    if v.Object? then v.fields.Keys else IndexKeys(|v.elems|)
  }

  function IndexKeys(n: nat): set<string> {
    set i | 0 <= i < n :: NatToString(i)
  }

  predicate SameOwnProperties(a: Value, b: Value)
    requires IsObjectLike(a) && IsObjectLike(b)
  {
    && OwnKeys(a) == OwnKeys(b)
    && forall k :: k in OwnKeys(a) ==> StrictEquals(Member(a, k), Member(b, k))
  }

  /** `shallowEqual(a, b)`. */
  predicate ShallowEqual(a: Value, b: Value) {
    || StrictEquals(a, b)
    || (IsObjectLike(a) && IsObjectLike(b) && SameOwnProperties(a, b))
  }

  /** `shallowEqual` applied to two distinct plain objects whose own properties are `a` and `b`. */
  predicate ShallowEqualBags(a: Bag, b: Bag) {
    && a.Keys == b.Keys
    && forall k :: k in a ==> StrictEquals(a[k], b[k])
  }

  /** A key on which two bags disagree: present in one only, or holding values that are not `===`. */
  predicate KeyDiffers(a: Bag, b: Bag, k: string) {
    || (k in a) != (k in b)
    || (k in a && k in b && !StrictEquals(a[k], b[k]))
  }

  lemma ShallowEqualReflexive(v: Value)
    ensures ShallowEqual(v, v)
  {
  }

  lemma ShallowEqualSymmetric(a: Value, b: Value)
    ensures ShallowEqual(a, b) <==> ShallowEqual(b, a)
  {
  }

  /**
   Two freshly built objects (distinct addresses) are shallow-equal exactly when
   their property bags are: this is how the gates compare the `...rest` objects
   that destructuring creates.
   */
  lemma FreshObjectsCompareByContents(r1: Ref, r2: Ref, a: Bag, b: Bag)
    requires r1 != r2
    ensures ShallowEqual(Object(r1, a), Object(r2, b)) <==> ShallowEqualBags(a, b)
  {
  }

  /** Shallow equality of bags holds exactly when no key differs. */
  lemma ShallowEqualBagsIff(a: Bag, b: Bag)
    ensures ShallowEqualBags(a, b) <==> forall k :: !KeyDiffers(a, b, k)
  {
    if forall k :: !KeyDiffers(a, b, k) {
      forall k
        ensures k in a.Keys <==> k in b.Keys
      {
        assert !KeyDiffers(a, b, k);
      }
      assert a.Keys == b.Keys;
      forall k | k in a
        ensures StrictEquals(a[k], b[k])
      {
        assert !KeyDiffers(a, b, k);
      }
    }
    if ShallowEqualBags(a, b) {
      forall k
        ensures !KeyDiffers(a, b, k)
      {
        assert k in a.Keys <==> k in b.Keys;
      }
    }
  }

  lemma IndexKeysDetermineLength(n: nat, m: nat)
    requires IndexKeys(n) == IndexKeys(m)
    ensures n == m
  {
    if n < m {
      assert NatToString(n) in IndexKeys(m);
      var i :| 0 <= i < n && NatToString(i) == NatToString(n);
      NatToStringInjective(i, n);
      assert false;
    } else if m < n {
      assert NatToString(m) in IndexKeys(n);
      var i :| 0 <= i < m && NatToString(i) == NatToString(m);
      NatToStringInjective(i, m);
      assert false;
    }
  }

  /**
   Two arrays are shallow-equal exactly when they are the same array, or have
   the same length and `===` elements position by position.
   */
  lemma ArraysShallowEqualIff(a: Value, b: Value)
    requires a.Array? && b.Array?
    ensures ShallowEqual(a, b) <==>
              || a.ref == b.ref
              || (&& |a.elems| == |b.elems|
                  && forall i :: 0 <= i < |a.elems| ==> StrictEquals(a.elems[i], b.elems[i]))
  {
    if a.ref != b.ref {
      if ShallowEqual(a, b) {
        IndexKeysDetermineLength(|a.elems|, |b.elems|);
        forall i | 0 <= i < |a.elems|
          ensures StrictEquals(a.elems[i], b.elems[i])
        {
          assert NatToString(i) in OwnKeys(a);
          MemberAtIndex(a, i);
          MemberAtIndex(b, i);
        }
      }
      if && |a.elems| == |b.elems|
         && forall i :: 0 <= i < |a.elems| ==> StrictEquals(a.elems[i], b.elems[i])
      {
        forall k | k in OwnKeys(a)
          ensures StrictEquals(Member(a, k), Member(b, k))
        {
          var i :| 0 <= i < |a.elems| && k == NatToString(i);
          MemberAtIndex(a, i);
          MemberAtIndex(b, i);
        }
      }
    }
  }
}
