/**
 * Deep equality of impls/dlisp/isEqual.js and the host's strict equality `===`.
 *
 * The value model has no heap, so it cannot always tell whether two
 * equal-looking objects are one object or two. Comparisons therefore answer
 * Yes, No, or Unknown; Unknown arises only when two objects without a tracked
 * identity have identical contents.
 */
module JsEquality {
  import opened Types

  datatype Tri = Yes | No | Unknown

  /** Values that carry no object identity in the model: host-level objects and Mal instances other than MalFunction. */
  predicate Anonymous(v: Value) {
    v.JsArray? || (v.IsMal() && !v.Fn?)
  }

  /**
   * `x === y`. Primitives compare by value; a primitive host function is one
   * shared object per operation; MalFunction and step-4 closures carry their
   * allocation id. Other objects are identical only if they are one object,
   * which the model cannot decide when their contents agree.
   */
  function StrictEquals(x: Value, y: Value): (r: Tri)
    ensures r == No <==> x != y
    ensures r == Unknown <==> x == y && Anonymous(x)
  {
    if x != y then No
    else if Anonymous(x) then Unknown
    else Yes
  }

  /** Three-valued conjunction in the order the index loop of isEqual.js visits pairs. */
  function And(a: Tri, b: Tri): Tri {
    if a == No || b == No then No
    else if a == Yes && b == Yes then Yes
    else Unknown
  }

  /** isEqual(lhs, rhs) of isEqual.js. */
  function IsEqual(lhs: Value, rhs: Value): (r: Tri)
    ensures !(lhs.JsArray? && rhs.JsArray?) ==> r == StrictEquals(lhs, rhs)
    ensures lhs.JsArray? != rhs.JsArray? ==> r == No
    ensures lhs.JsArray? && rhs.JsArray? && |lhs.elems| != |rhs.elems| ==> r == No
    decreases lhs, 1
  {
    if !(lhs.JsArray? && rhs.JsArray?) then StrictEquals(lhs, rhs)
    else if |lhs.elems| != |rhs.elems| then No
    else AllEqual(lhs.elems, rhs.elems)
  }

  /** The index loop: every same-index pair, early exit on the first inequality. */
  function AllEqual(xs: seq<Value>, ys: seq<Value>): Tri
    requires |xs| == |ys|
    decreases xs, 0
  {
    if xs == [] then Yes else And(IsEqual(xs[0], ys[0]), AllEqual(xs[1..], ys[1..]))
  }

  lemma {:induction false} AllEqualYes(xs: seq<Value>, ys: seq<Value>)
    requires |xs| == |ys|
    ensures AllEqual(xs, ys) == Yes <==> forall i :: 0 <= i < |xs| ==> IsEqual(xs[i], ys[i]) == Yes
  {
    if xs != [] {
      AllEqualYes(xs[1..], ys[1..]);
      assert forall i :: 1 <= i < |xs| ==> xs[1..][i - 1] == xs[i] && ys[1..][i - 1] == ys[i];
    }
  }

  lemma {:induction false} AllEqualNo(xs: seq<Value>, ys: seq<Value>)
    requires |xs| == |ys|
    ensures AllEqual(xs, ys) == No <==> exists i :: 0 <= i < |xs| && IsEqual(xs[i], ys[i]) == No
  {
    if xs != [] {
      AllEqualNo(xs[1..], ys[1..]);
      if exists i :: 0 <= i < |xs| && IsEqual(xs[i], ys[i]) == No {
        var i :| 0 <= i < |xs| && IsEqual(xs[i], ys[i]) == No;
        if i > 0 {
          assert xs[1..][i - 1] == xs[i] && ys[1..][i - 1] == ys[i];
        }
      }
      if exists j :: 0 <= j < |xs[1..]| && IsEqual(xs[1..][j], ys[1..][j]) == No {
        var j :| 0 <= j < |xs[1..]| && IsEqual(xs[1..][j], ys[1..][j]) == No;
        assert IsEqual(xs[j + 1], ys[j + 1]) == No;
      }
    }
  }

  /** Same-length arrays are equal exactly when every same-index pair is equal. */
  lemma ArraysEqualIffPairwise(a: seq<Value>, b: seq<Value>)
    ensures IsEqual(JsArray(a), JsArray(b)) == Yes <==>
              |a| == |b| && forall i :: 0 <= i < |a| ==> IsEqual(a[i], b[i]) == Yes
    ensures IsEqual(JsArray(a), JsArray(b)) == No <==>
              |a| != |b| || exists i :: 0 <= i < |a| && IsEqual(a[i], b[i]) == No
  {
    if |a| == |b| {
      AllEqualYes(a, b);
      AllEqualNo(a, b);
    }
  }

  /**
   * Deep equality refutes exactly the structurally different pairs: it says No
   * precisely when the two values differ, so it never calls a value unequal to
   * a structural copy of itself.
   */
  lemma {:induction false} IsEqualNoIffDifferent(x: Value, y: Value)
    ensures IsEqual(x, y) == No <==> x != y
    decreases x, 1
  {
    if x.JsArray? && y.JsArray? && |x.elems| == |y.elems| {
      AllEqualNoIffDifferent(x.elems, y.elems);
    }
  }

  lemma {:induction false} AllEqualNoIffDifferent(xs: seq<Value>, ys: seq<Value>)
    requires |xs| == |ys|
    ensures AllEqual(xs, ys) == No <==> xs != ys
    decreases xs, 0
  {
    if xs != [] {
      IsEqualNoIffDifferent(xs[0], ys[0]);
      AllEqualNoIffDifferent(xs[1..], ys[1..]);
      assert xs == [xs[0]] + xs[1..] && ys == [ys[0]] + ys[1..];
    }
  }

  /** Equality is symmetric. */
  lemma {:induction false} IsEqualSymmetric(x: Value, y: Value)
    ensures IsEqual(x, y) == IsEqual(y, x)
    decreases x, 1
  {
    if x.JsArray? && y.JsArray? && |x.elems| == |y.elems| {
      AllEqualSymmetric(x.elems, y.elems);
    }
  }

  lemma {:induction false} AllEqualSymmetric(xs: seq<Value>, ys: seq<Value>)
    requires |xs| == |ys|
    ensures AllEqual(xs, ys) == AllEqual(ys, xs)
    decreases xs, 0
  {
    if xs != [] {
      IsEqualSymmetric(xs[0], ys[0]);
      AllEqualSymmetric(xs[1..], ys[1..]);
    }
  }

  /** Nested arrays whose leaves are numbers, strings, booleans, null or undefined. */
  predicate PlainData(v: Value) {
    match v
    case Num(_) => true
    case Text(_) => true
    case Flag(_) => true
    case Null => true
    case Undefined => true
    case JsArray(xs) => forall i :: 0 <= i < |xs| ==> PlainData(xs[i])
    case _ => false
  }

  /** Such a nested array is equal to a structural copy of itself, with no identity question left open. */
  lemma {:induction false} PlainDataEqualsCopy(x: Value, copy: Value)
    requires PlainData(x) && copy == x
    ensures IsEqual(x, copy) == Yes
    decreases x, 1
  {
    if x.JsArray? {
      PlainElemsEqual(x.elems);
    }
  }

  lemma {:induction false} PlainElemsEqual(xs: seq<Value>)
    requires forall i :: 0 <= i < |xs| ==> PlainData(xs[i])
    ensures AllEqual(xs, xs) == Yes
    decreases xs, 0
  {
    if xs != [] {
      PlainDataEqualsCopy(xs[0], xs[0]);
      PlainElemsEqual(xs[1..]);
    }
  }
}
