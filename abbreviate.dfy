/** `abbreviate_array` (_common/implementations.py and
    xarray/common/implementations.py; the two bodies are the same): every
    dimension whose slices all equal the first slice is cut down to that
    slice, and an array cut down to a single element becomes a Python
    scalar. */
module Abbreviate {
  import opened PyErrors

  /** An n-dimensional array as nested rows: a 0-d array holds one element,
      an array of rank n + 1 holds its slices along axis 0. */
  datatype NdArray<T> = Scalar(value: T) | Dim(items: seq<NdArray<T>>)

  /** `array.shape`, read along the first slice at every level. */
  function ShapeOf<T>(a: NdArray<T>): seq<nat>
  {
    match a
    case Scalar(_) => []
    case Dim(items) => if |items| == 0 then [0] else [|items|] + ShapeOf(items[0])
  }

  /** `a` is rectangular with shape `s`. */
  ghost predicate HasShape<T>(a: NdArray<T>, s: seq<nat>)
  {
    match a
    case Scalar(_) => s == []
    case Dim(items) =>
      |s| > 0 && s[0] == |items| && forall i :: 0 <= i < |items| ==> HasShape(items[i], s[1..])
  }

  /** No dimension of `a` is empty. */
  ghost predicate Positive<T>(a: NdArray<T>)
  {
    match a
    case Scalar(_) => true
    case Dim(items) => |items| > 0 && forall i :: 0 <= i < |items| ==> Positive(items[i])
  }

  /** Every element of `a` is `v`. */
  ghost predicate AllEqual<T>(a: NdArray<T>, v: T)
  {
    match a
    case Scalar(x) => x == v
    case Dim(items) => forall i :: 0 <= i < |items| ==> AllEqual(items[i], v)
  }

  /** `a[(0,) * a.ndim]`: the element at index 0 along every axis. */
  function FirstElement<T>(a: NdArray<T>): T
    requires Positive(a)
  {
    match a
    case Scalar(x) => x
    case Dim(items) => FirstElement(items[0])
  }

  /** `take(a, zeros(1), axis=d)`: the first slice along axis `d`, keeping
      the axis with length 1. Below the array's rank there is no axis and
      the array is returned as it is. */
  function TakeFirst<T>(a: NdArray<T>, d: nat): NdArray<T>
  {
    match a
    case Scalar(_) => a
    case Dim(items) =>
      if d == 0 then Dim(items[..if |items| == 0 then 0 else 1])
      else Dim(seq(|items|, i requires 0 <= i < |items| => TakeFirst(items[i], d - 1)))
  }

  /** `all(a == take(a, zeros(1), axis=d))`, the comparison broadcasting
      the slice along axis `d`: every slice along `d` equals the first. */
  function EqualsFirstSlice<T(==)>(a: NdArray<T>, d: nat): bool
  {
    match a
    case Scalar(_) => true
    case Dim(items) =>
      if d == 0 then forall i :: 0 <= i < |items| ==> items[i] == items[0]
      else forall i :: 0 <= i < |items| ==> EqualsFirstSlice(items[i], d - 1)
  }

  /** The loop of `abbreviate_array` after its first `n` iterations: axis
      `n - 1` is cut to its first slice exactly when every slice along it
      equals that slice. */
  function CollapseUpTo<T(==)>(a: NdArray<T>, n: nat): NdArray<T>
  {
    if n == 0 then a
    else
      var b := CollapseUpTo(a, n - 1);
      if EqualsFirstSlice(b, n - 1) then TakeFirst(b, n - 1) else b
  }

  /** For a rectangular array without empty dimensions, `.shape` is its
      shape. */
  lemma {:induction false} ShapeOfRectangular<T>(a: NdArray<T>, s: seq<nat>)
    requires HasShape(a, s) && Positive(a)
    ensures ShapeOf(a) == s
  {
    match a
    case Scalar(_) =>
    case Dim(items) =>
      ShapeOfRectangular(items[0], s[1..]);
  }

  /** Taking the first slice along `d` sets that axis to 1 and keeps the
      others. */
  lemma {:induction false} TakeFirstShape<T>(a: NdArray<T>, s: seq<nat>, d: nat)
    requires HasShape(a, s) && Positive(a) && d < |s|
    ensures HasShape(TakeFirst(a, d), s[d := 1]) && Positive(TakeFirst(a, d))
    ensures FirstElement(TakeFirst(a, d)) == FirstElement(a)
  {
    match a
    case Dim(items) =>
      if d == 0 {
        assert s[d := 1][1..] == s[1..];
      } else {
        assert s[d := 1][1..] == s[1..][d - 1 := 1];
        forall i | 0 <= i < |items| {
          TakeFirstShape(items[i], s[1..], d - 1);
        }
      }
  }

  /** Two arrays of the same shape whose elements are all `v` are equal. */
  lemma {:induction false} ConstantArraysEqual<T>(x: NdArray<T>, y: NdArray<T>, s: seq<nat>, v: T)
    requires HasShape(x, s) && HasShape(y, s) && AllEqual(x, v) && AllEqual(y, v)
    ensures x == y
    decreases x
  {
    match x
    case Scalar(_) =>
    case Dim(items) =>
      forall i | 0 <= i < |items| {
        ConstantArraysEqual(items[i], y.items[i], s[1..], v);
      }
      assert items == y.items;
  }

  /** In an array whose elements are all `v`, every axis passes the test
      and its first slice is again all `v`. */
  lemma {:induction false} ConstantSlices<T>(a: NdArray<T>, s: seq<nat>, d: nat, v: T)
    requires HasShape(a, s) && Positive(a) && d < |s| && AllEqual(a, v)
    ensures EqualsFirstSlice(a, d) && AllEqual(TakeFirst(a, d), v)
  {
    match a
    case Dim(items) =>
      if d == 0 {
        forall i | 0 <= i < |items| ensures items[i] == items[0] {
          ConstantArraysEqual(items[i], items[0], s[1..], v);
        }
      } else {
        forall i | 0 <= i < |items| {
          ConstantSlices(items[i], s[1..], d - 1, v);
        }
      }
  }

  /** Cutting an axis that passes the test loses no element: if the first
      slice is all `v`, so was the array. */
  lemma {:induction false} CollapseLossless<T>(a: NdArray<T>, s: seq<nat>, d: nat, v: T)
    requires HasShape(a, s) && Positive(a) && d < |s|
    requires EqualsFirstSlice(a, d) && AllEqual(TakeFirst(a, d), v)
    ensures AllEqual(a, v)
  {
    match a
    case Dim(items) =>
      if d == 0 {
        assert TakeFirst(a, d).items[0] == items[0];
      } else {
        forall i | 0 <= i < |items| ensures AllEqual(items[i], v) {
          assert TakeFirst(a, d).items[i] == TakeFirst(items[i], d - 1);
          CollapseLossless(items[i], s[1..], d - 1, v);
        }
      }
  }

  /** An array whose every axis has length 1 holds a single element. */
  lemma {:induction false} OnesShapeConstant<T>(a: NdArray<T>, s: seq<nat>)
    requires HasShape(a, s) && forall i :: 0 <= i < |s| ==> s[i] == 1
    ensures Positive(a) && AllEqual(a, FirstElement(a))
  {
    match a
    case Scalar(_) =>
    case Dim(items) =>
      OnesShapeConstant(items[0], s[1..]);
  }

  /** The shape after the first `n` iterations of the loop. */
  ghost function CollapsedShape<T>(a: NdArray<T>, s: seq<nat>, n: nat): (r: seq<nat>)
    requires n <= |s|
    ensures |r| == |s|
  {
    if n == 0 then s
    else
      var t := CollapsedShape(a, s, n - 1);
      if EqualsFirstSlice(CollapseUpTo(a, n - 1), n - 1) then t[n - 1 := 1] else t
  }

  /** Each iteration keeps the array rectangular and non-empty, keeps its
      first element, and neither adds nor loses an element value: the
      array is all `v` before the loop exactly when it is all `v` after. */
  lemma {:induction false} CollapseInvariant<T>(a: NdArray<T>, s: seq<nat>, n: nat, v: T)
    requires HasShape(a, s) && Positive(a) && n <= |s|
    ensures HasShape(CollapseUpTo(a, n), CollapsedShape(a, s, n)) && Positive(CollapseUpTo(a, n))
    ensures FirstElement(CollapseUpTo(a, n)) == FirstElement(a)
    ensures AllEqual(CollapseUpTo(a, n), v) <==> AllEqual(a, v)
  {
    if n > 0 {
      CollapseInvariant(a, s, n - 1, v);
      var b := CollapseUpTo(a, n - 1);
      var t := CollapsedShape(a, s, n - 1);
      if EqualsFirstSlice(b, n - 1) {
        TakeFirstShape(b, t, n - 1);
        if AllEqual(b, v) {
          ConstantSlices(b, t, n - 1, v);
        }
        if AllEqual(TakeFirst(b, n - 1), v) {
          CollapseLossless(b, t, n - 1, v);
        }
      }
    }
  }

  /** An array all of whose elements are equal is cut to length 1 along
      every axis the loop has visited. */
  lemma {:induction false} ConstantCollapses<T>(a: NdArray<T>, s: seq<nat>, n: nat)
    requires HasShape(a, s) && Positive(a) && n <= |s| && AllEqual(a, FirstElement(a))
    ensures forall i :: 0 <= i < n ==> CollapsedShape(a, s, n)[i] == 1
  {
    if n > 0 {
      ConstantCollapses(a, s, n - 1);
      CollapseInvariant(a, s, n - 1, FirstElement(a));
      ConstantSlices(CollapseUpTo(a, n - 1), CollapsedShape(a, s, n - 1), n - 1, FirstElement(a));
    }
  }

  /** The loop leaves a single element exactly when all elements of the
      array are equal, and that element is the array's first. */
  lemma {:induction false} CollapsesToOneIffConstant<T>(a: NdArray<T>)
    requires HasShape(a, ShapeOf(a)) && Positive(a)
    ensures var r := CollapseUpTo(a, |ShapeOf(a)|);
      Positive(r) && FirstElement(r) == FirstElement(a)
      && ((forall i :: 0 <= i < |ShapeOf(r)| ==> ShapeOf(r)[i] == 1) <==> AllEqual(a, FirstElement(a)))
  {
    var s := ShapeOf(a);
    var r := CollapseUpTo(a, |s|);
    var t := CollapsedShape(a, s, |s|);
    CollapseInvariant(a, s, |s|, FirstElement(a));
    ShapeOfRectangular(r, t);
    if forall i :: 0 <= i < |t| ==> t[i] == 1 {
      OnesShapeConstant(r, t);
    }
    if AllEqual(a, FirstElement(a)) {
      ConstantCollapses(a, s, |s|);
    }
  }

  /** One iteration: axis `d` becomes 1 when it passes the test, and every
      other axis keeps its length. */
  lemma {:induction false} CollapseStepShape<T>(b: NdArray<T>, t: seq<nat>, d: nat)
    requires HasShape(b, t) && Positive(b) && d < |t|
    ensures var next := if EqualsFirstSlice(b, d) then TakeFirst(b, d) else b;
      ShapeOf(next) == if EqualsFirstSlice(b, d) then t[d := 1] else t
  {
    ShapeOfRectangular(b, t);
    TakeFirstShape(b, t, d);
    ShapeOfRectangular(TakeFirst(b, d), t[d := 1]);
  }

  /** The element dtype, as the three predicates of the backend classify
      it: real floating, real integer, boolean, or none of these. */
  datatype DType = RealFloating | RealInteger | Boolean | OtherDType

  /** What `abbreviate_array` returns: `float(elem)`, `int(elem)` or
      `bool(elem)` (the element with the Python type it is converted to),
      the original array, or `None`. */
  datatype Abbreviated<T> =
    | FloatScalar(elem: T)
    | IntScalar(elem: T)
    | BoolScalar(elem: T)
    | ArrayValue(original: NdArray<T>)
    | NoneValue

  const DTypeMessage: string :=
    "Abbreviated array element dtype must be a real floating or integer or boolean type"

  /** The conversion chain: the dtype predicates are asked in the order
      floating, integer, boolean, and any other dtype raises ValueError. */
  function CastScalar<T>(elem: T, dtype: DType): (r: Result<Abbreviated<T>>)
    ensures r.Err? <==> dtype.OtherDType?
    ensures r.Err? ==> r.error == ValueError(DTypeMessage)
    ensures r.Ok? ==> !r.value.ArrayValue? && !r.value.NoneValue? && r.value.elem == elem
    ensures dtype.RealFloating? ==> r == Ok(FloatScalar(elem))
    ensures dtype.RealInteger? ==> r == Ok(IntScalar(elem))
    ensures dtype.Boolean? ==> r == Ok(BoolScalar(elem))
  {
    if dtype.RealFloating? then Ok(FloatScalar(elem))
    else if dtype.RealInteger? then Ok(IntScalar(elem))
    else if dtype.Boolean? then Ok(BoolScalar(elem))
    else Err(ValueError(DTypeMessage))
  }

  /** `abbreviate_array(array, try_cast_scalar)`. With `try_cast_scalar`
      false it hands back the original array, whatever the loop did. With
      it true, an array all of whose elements are equal becomes that
      element converted by its dtype, and any other array falls off the
      end of the function, which returns `None`. */
  method AbbreviateArray<T(==)>(arr: NdArray<T>, dtype: DType, tryCastScalar: bool) returns (r: Result<Abbreviated<T>>)
    requires HasShape(arr, ShapeOf(arr)) && Positive(arr)
    ensures !tryCastScalar ==> r == Ok(ArrayValue(arr))
    ensures tryCastScalar && AllEqual(arr, FirstElement(arr)) ==> r == CastScalar(FirstElement(arr), dtype)
    ensures tryCastScalar && !AllEqual(arr, FirstElement(arr)) ==> r == Ok(NoneValue)
  {
    var abbr := arr;
    for dimI := 0 to |ShapeOf(arr)|
      invariant abbr == CollapseUpTo(arr, dimI)
    {
      var firstElem := TakeFirst(abbr, dimI);
      if EqualsFirstSlice(abbr, dimI) {
        abbr := firstElem;
      }
    }
    CollapsesToOneIffConstant(arr);
    if tryCastScalar {
      var shape := ShapeOf(abbr);
      if forall i :: 0 <= i < |shape| ==> shape[i] == 1 {
        var elem := FirstElement(abbr);
        r := CastScalar(elem, dtype);
      } else {
        r := Ok(NoneValue);
      }
    } else {
      r := Ok(ArrayValue(arr));
    }
  }
}
