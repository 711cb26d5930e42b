/** `map_fn_over_arrays` (_common/implementations.py): a function applied
    to every backend array inside nested dicts, tuples and lists. */
module NestedMap {

  /** A value `map_fn_over_arrays` can be given: a backend array, a dict
      (its items in insertion order), a tuple, a list, or anything else. */
  datatype Data<A, K, O> =
    | Array(array: A)
    | Dict(entries: seq<(K, Data<A, K, O>)>)
    | Tuple(items: seq<Data<A, K, O>>)
    | List(items: seq<Data<A, K, O>>)
    | Other(value: O)

  /** `map_fn_over_arrays(data, func)`: `func` at each array, the same
      container rebuilt around the mapped children, and any other value
      returned unchanged. */
  function MapFnOverArrays<A, B, K, O>(data: Data<A, K, O>, func: A -> B): Data<B, K, O>
    decreases data
  {
    match data
    case Array(a) => Array(func(a))
    case Dict(entries) =>
      Dict(seq(|entries|, i requires 0 <= i < |entries| => (entries[i].0, MapFnOverArrays(entries[i].1, func))))
    case Tuple(items) => Tuple(seq(|items|, i requires 0 <= i < |items| => MapFnOverArrays(items[i], func)))
    case List(items) => List(seq(|items|, i requires 0 <= i < |items| => MapFnOverArrays(items[i], func)))
    case Other(v) => Other(v)
  }

  /** The concatenation of a sequence of sequences. */
  function Flatten<T>(parts: seq<seq<T>>): (r: seq<T>)
    ensures |parts| == 1 ==> r == parts[0]
  {
    if |parts| == 0 then [] else parts[0] + Flatten(parts[1..])
  }

  /** `f` applied to each element. */
  function MapSeq<T, U>(s: seq<T>, f: T -> U): (r: seq<U>)
    ensures |r| == |s| && forall i :: 0 <= i < |s| ==> r[i] == f(s[i])
  {
    seq(|s|, i requires 0 <= i < |s| => f(s[i]))
  }

  /** The arrays of a value, left to right. */
  function Arrays<A, K, O>(data: Data<A, K, O>): seq<A>
    decreases data
  {
    match data
    case Array(a) => [a]
    case Dict(entries) => Flatten(seq(|entries|, i requires 0 <= i < |entries| => Arrays(entries[i].1)))
    case Tuple(items) => Flatten(seq(|items|, i requires 0 <= i < |items| => Arrays(items[i])))
    case List(items) => Flatten(seq(|items|, i requires 0 <= i < |items| => Arrays(items[i])))
    case Other(_) => []
  }

  /** Same container kinds, dict keys and lengths at every level, and the
      same non-array leaves; arrays may differ. */
  ghost predicate SameStructure<A, B, K, O>(d: Data<A, K, O>, e: Data<B, K, O>)
    decreases d
  {
    match d
    case Array(_) => e.Array?
    case Dict(entries) =>
      e.Dict? && |e.entries| == |entries|
      && forall i :: 0 <= i < |entries| ==>
           e.entries[i].0 == entries[i].0 && SameStructure(entries[i].1, e.entries[i].1)
    case Tuple(items) =>
      e.Tuple? && |e.items| == |items| && forall i :: 0 <= i < |items| ==> SameStructure(items[i], e.items[i])
    case List(items) =>
      e.List? && |e.items| == |items| && forall i :: 0 <= i < |items| ==> SameStructure(items[i], e.items[i])
    case Other(v) => e == Other(v)
  }

  lemma {:induction false} FlattenMap<T, U>(parts: seq<seq<T>>, mapped: seq<seq<U>>, f: T -> U)
    requires |mapped| == |parts| && forall i :: 0 <= i < |parts| ==> mapped[i] == MapSeq(parts[i], f)
    ensures Flatten(mapped) == MapSeq(Flatten(parts), f)
    decreases |parts|
  {
    if |parts| > 0 {
      FlattenMap(parts[1..], mapped[1..], f);
    }
  }

  /** `func` is applied to the arrays, and only to them, in order. */
  lemma {:induction false} MapFnOverArraysLeaves<A, B, K, O>(data: Data<A, K, O>, func: A -> B)
    ensures Arrays(MapFnOverArrays(data, func)) == MapSeq(Arrays(data), func)
    decreases data
  {
    match data
    case Array(_) =>
    case Dict(entries) =>
      forall i | 0 <= i < |entries| {
        MapFnOverArraysLeaves(entries[i].1, func);
      }
      var m := MapFnOverArrays(data, func).entries;
      FlattenMap(seq(|entries|, i requires 0 <= i < |entries| => Arrays(entries[i].1)),
                 seq(|m|, i requires 0 <= i < |m| => Arrays(m[i].1)), func);
    case Tuple(items) =>
      forall i | 0 <= i < |items| {
        MapFnOverArraysLeaves(items[i], func);
      }
      var m := MapFnOverArrays(data, func).items;
      FlattenMap(seq(|items|, i requires 0 <= i < |items| => Arrays(items[i])),
                 seq(|m|, i requires 0 <= i < |m| => Arrays(m[i])), func);
    case List(items) =>
      forall i | 0 <= i < |items| {
        MapFnOverArraysLeaves(items[i], func);
      }
      var m := MapFnOverArrays(data, func).items;
      FlattenMap(seq(|items|, i requires 0 <= i < |items| => Arrays(items[i])),
                 seq(|m|, i requires 0 <= i < |m| => Arrays(m[i])), func);
    case Other(_) =>
  }

  /** The containers, their keys and lengths, and every non-array leaf are
      kept. */
  lemma {:induction false} MapFnOverArraysStructure<A, B, K, O>(data: Data<A, K, O>, func: A -> B)
    ensures SameStructure(data, MapFnOverArrays(data, func))
    decreases data
  {
    match data
    case Array(_) =>
    case Dict(entries) =>
      forall i | 0 <= i < |entries| {
        MapFnOverArraysStructure(entries[i].1, func);
      }
    case Tuple(items) =>
      forall i | 0 <= i < |items| {
        MapFnOverArraysStructure(items[i], func);
      }
    case List(items) =>
      forall i | 0 <= i < |items| {
        MapFnOverArraysStructure(items[i], func);
      }
    case Other(_) =>
  }

  /** With the identity the input comes back. */
  lemma {:induction false} MapFnOverArraysIdentity<A, K, O>(data: Data<A, K, O>)
    ensures MapFnOverArrays(data, (a: A) => a) == data
    decreases data
  {
    match data
    case Array(_) =>
    case Dict(entries) =>
      forall i | 0 <= i < |entries| {
        MapFnOverArraysIdentity(entries[i].1);
      }
      assert MapFnOverArrays(data, (a: A) => a).entries == entries;
    case Tuple(items) =>
      forall i | 0 <= i < |items| {
        MapFnOverArraysIdentity(items[i]);
      }
      assert MapFnOverArrays(data, (a: A) => a).items == items;
    case List(items) =>
      forall i | 0 <= i < |items| {
        MapFnOverArraysIdentity(items[i]);
      }
      assert MapFnOverArrays(data, (a: A) => a).items == items;
    case Other(_) =>
  }

  /** Two passes are one pass with the composed function. */
  lemma {:induction false} MapFnOverArraysCompose<A, B, C, K, O>(data: Data<A, K, O>, f: A -> B, g: B -> C)
    ensures MapFnOverArrays(MapFnOverArrays(data, f), g) == MapFnOverArrays(data, (a: A) => g(f(a)))
    decreases data
  {
    var h := (a: A) => g(f(a));
    match data
    case Array(_) =>
    case Dict(entries) =>
      forall i | 0 <= i < |entries| {
        MapFnOverArraysCompose(entries[i].1, f, g);
      }
      assert MapFnOverArrays(MapFnOverArrays(data, f), g).entries == MapFnOverArrays(data, h).entries;
    case Tuple(items) =>
      forall i | 0 <= i < |items| {
        MapFnOverArraysCompose(items[i], f, g);
      }
      assert MapFnOverArrays(MapFnOverArrays(data, f), g).items == MapFnOverArrays(data, h).items;
    case List(items) =>
      forall i | 0 <= i < |items| {
        MapFnOverArraysCompose(items[i], f, g);
      }
      assert MapFnOverArrays(MapFnOverArrays(data, f), g).items == MapFnOverArrays(data, h).items;
    case Other(_) =>
  }
}
