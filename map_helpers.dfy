/**
  Generic helpers over maps: Map, Every, Some, Filter and Reduce
  (pkg/validator/validator.go:35-77). Each one visits the keys in an arbitrary
  order, as a range loop over a map does, so every contract below holds for every
  visiting order.
 */
module MapHelpers {

  /** Map: a fresh map with the same keys, each value transformed by fn.
      (pkg/validator/validator.go:35-41) */
  method Map<K, V>(dataMap: map<K, V>, fn: V -> V) returns (result: map<K, V>)
    ensures result.Keys == dataMap.Keys
    ensures forall k | k in result :: result[k] == fn(dataMap[k])
  {
    result := map[];
    var pending := dataMap.Keys;
    while pending != {}
      invariant pending <= dataMap.Keys
      invariant result.Keys == dataMap.Keys - pending
      invariant forall k | k in result :: result[k] == fn(dataMap[k])
      decreases pending
    {
      var key :| key in pending;
      result := result[key := fn(dataMap[key])];
      pending := pending - {key};
    }
  }

  /** Every value satisfies fn. */
  ghost predicate AllMatch<K, V>(dataMap: map<K, V>, fn: V -> bool)
  {
    forall k | k in dataMap :: fn(dataMap[k])
  }

  /** Some value satisfies fn. */
  ghost predicate AnyMatch<K, V>(dataMap: map<K, V>, fn: V -> bool)
  {
    exists k | k in dataMap :: fn(dataMap[k])
  }

  /** Every: stops at the first value that fails fn. (pkg/validator/validator.go:43-50) */
  method Every<K, V>(dataMap: map<K, V>, fn: V -> bool) returns (all: bool)
    ensures all <==> AllMatch(dataMap, fn)
    ensures dataMap == map[] ==> all
  {
    var pending := dataMap.Keys;
    while pending != {}
      invariant pending <= dataMap.Keys
      invariant forall k | k in dataMap.Keys - pending :: fn(dataMap[k])
      decreases pending
    {
      var key :| key in pending;
      if !fn(dataMap[key]) {
        return false;
      }
      pending := pending - {key};
    }
    return true;
  }

  /** Some: stops at the first value that satisfies fn. (pkg/validator/validator.go:52-59) */
  method Some<K, V>(dataMap: map<K, V>, fn: V -> bool) returns (any: bool)
    ensures any <==> AnyMatch(dataMap, fn)
    ensures dataMap == map[] ==> !any
  {
    var pending := dataMap.Keys;
    while pending != {}
      invariant pending <= dataMap.Keys
      invariant forall k | k in dataMap.Keys - pending :: !fn(dataMap[k])
      decreases pending
    {
      var key :| key in pending;
      if fn(dataMap[key]) {
        return true;
      }
      pending := pending - {key};
    }
    return false;
  }

  /** Filter: the sub-map of the entries whose value satisfies fn, keys and values
      unchanged. (pkg/validator/validator.go:61-69) */
  method Filter<K, V>(dataMap: map<K, V>, fn: V -> bool) returns (result: map<K, V>)
    ensures result.Keys == set k | k in dataMap && fn(dataMap[k])
    ensures forall k | k in result :: result[k] == dataMap[k]
    ensures AllMatch(result, fn)
    ensures |result| == |set k | k in dataMap && fn(dataMap[k])|
  {
    result := map[];
    var pending := dataMap.Keys;
    while pending != {}
      invariant pending <= dataMap.Keys
      invariant result.Keys == set k | k in dataMap.Keys - pending && fn(dataMap[k])
      invariant forall k | k in result :: result[k] == dataMap[k]
      decreases pending
    {
      var key :| key in pending;
      if fn(dataMap[key]) {
        result := result[key := dataMap[key]];
      }
      pending := pending - {key};
    }
  }

  /** order lists each key of keys exactly once. */
  ghost predicate Enumerates<K>(order: seq<K>, keys: set<K>)
  {
    multiset(order) == multiset(keys)
  }

  /** The keys an enumeration lists are the keys of the set. */
  lemma EnumeratesMembers<K>(order: seq<K>, keys: set<K>)
    requires Enumerates(order, keys)
    ensures forall i | 0 <= i < |order| :: order[i] in keys
    ensures forall k | k in keys :: k in order
    ensures |order| == |keys|
  {
    forall i | 0 <= i < |order| ensures order[i] in keys {
      assert order[i] in multiset(order);
    }
    forall k | k in keys ensures k in order {
      assert k in multiset(keys);
    }
    assert |multiset(order)| == |order|;
    assert |multiset(keys)| == |keys|;
  }

  /** The accumulator after folding fn over the values of the keys in order, from the
      first key to the last. */
  ghost function FoldInOrder<K, V, R>(dataMap: map<K, V>, order: seq<K>, fn: (R, V) -> R, init: R): (acc: R)
    requires forall i | 0 <= i < |order| :: order[i] in dataMap
  {
    if order == [] then init
    else
      var n := |order| - 1;
      fn(FoldInOrder(dataMap, order[..n], fn, init), dataMap[order[n]])
  }

  /** Reduce: folds fn over every value exactly once, in whatever order the keys are
      visited; that order is returned as a ghost enumeration of the keys.
      (pkg/validator/validator.go:71-77) */
  method Reduce<K, V, R>(dataMap: map<K, V>, fn: (R, V) -> R, init: R) returns (acc: R, ghost order: seq<K>)
    ensures Enumerates(order, dataMap.Keys)
    ensures forall i | 0 <= i < |order| :: order[i] in dataMap
    ensures acc == FoldInOrder(dataMap, order, fn, init)
    ensures dataMap == map[] ==> acc == init
  {
    acc := init;
    order := [];
    var pending := dataMap.Keys;
    while pending != {}
      invariant pending <= dataMap.Keys
      invariant multiset(order) == multiset(dataMap.Keys - pending)
      invariant forall i | 0 <= i < |order| :: order[i] in dataMap.Keys - pending
      invariant acc == FoldInOrder(dataMap, order, fn, init)
      decreases pending
    {
      var key :| key in pending;
      ghost var visited := dataMap.Keys - pending;
      assert (order + [key])[..|order|] == order;
      acc := fn(acc, dataMap[key]);
      order := order + [key];
      pending := pending - {key};
      assert dataMap.Keys - pending == visited + {key};
      assert multiset(visited + {key}) == multiset(visited) + multiset{key};
    }
    assert dataMap.Keys - pending == dataMap.Keys;
    if dataMap == map[] {
      assert |order| == 0;
    }
  }

  /** The reducer gives the same accumulator whichever of two values it sees first. */
  ghost predicate RightCommutative<V(!new), R(!new)>(fn: (R, V) -> R)
  {
    forall acc: R, x: V, y: V :: fn(fn(acc, x), y) == fn(fn(acc, y), x)
  }

  /** With such a reducer, one visited key can be moved to the end without changing
      the fold. */
  lemma {:induction false} FoldMoveToEnd<K, V(!new), R(!new)>(dataMap: map<K, V>, a: seq<K>, key: K, b: seq<K>, fn: (R, V) -> R, init: R)
    requires RightCommutative(fn)
    requires key in dataMap
    requires forall i | 0 <= i < |a| :: a[i] in dataMap
    requires forall i | 0 <= i < |b| :: b[i] in dataMap
    ensures FoldInOrder(dataMap, a + [key] + b, fn, init) == FoldInOrder(dataMap, a + b + [key], fn, init)
    decreases |b|
  {
    if b == [] {
      assert a + [key] + b == a + b + [key];
    } else {
      var n := |b| - 1;
      var y := b[n];
      var front := a + [key] + b[..n];
      var moved := a + b[..n];
      assert (a + [key] + b)[..|a + [key] + b| - 1] == front;
      assert (a + [key] + b)[|a + [key] + b| - 1] == y;
      FoldMoveToEnd(dataMap, a, key, b[..n], fn, init);
      assert front == a + [key] + b[..n];
      assert FoldInOrder(dataMap, front, fn, init) == FoldInOrder(dataMap, moved + [key], fn, init);
      assert (moved + [key])[..|moved|] == moved;
      assert FoldInOrder(dataMap, moved + [key], fn, init) == fn(FoldInOrder(dataMap, moved, fn, init), dataMap[key]);
      var lhs := fn(fn(FoldInOrder(dataMap, moved, fn, init), dataMap[key]), dataMap[y]);
      assert lhs == fn(fn(FoldInOrder(dataMap, moved, fn, init), dataMap[y]), dataMap[key]);
      assert a + b == moved + [y];
      assert (moved + [y])[..|moved|] == moved;
      assert (a + b + [key])[..|a + b|] == a + b;
    }
  }

  /** Removing the last element of o1 and one occurrence of it from o2 keeps two
      permutations of each other permutations of each other. */
  lemma RemoveMatching<K>(o1: seq<K>, o2: seq<K>, i: nat)
    requires o1 != [] && multiset(o1) == multiset(o2)
    requires i < |o2| && o2[i] == o1[|o1| - 1]
    ensures multiset(o1[..|o1| - 1]) == multiset(o2[..i] + o2[i + 1..])
  {
    var n := |o1| - 1;
    assert o1 == o1[..n] + [o1[n]];
    assert o2 == o2[..i] + [o2[i]] + o2[i + 1..];
    var x := o1[n];
    assert multiset(o1) == multiset(o1[..n]) + multiset{x};
    assert multiset(o2) == multiset(o2[..i]) + multiset{x} + multiset(o2[i + 1..]);
    assert multiset(o2[..i] + o2[i + 1..]) == multiset(o2[..i]) + multiset(o2[i + 1..]);
    var left, right := multiset(o1[..n]), multiset(o2[..i] + o2[i + 1..]);
    assert left + multiset{x} == right + multiset{x};
    forall y ensures left[y] == right[y] {
      assert (left + multiset{x})[y] == (right + multiset{x})[y];
    }
    assert left == right;
  }

  /** With a right-commutative reducer the fold does not depend on the order: any two
      orders with the same keys give the same accumulator. */
  lemma {:induction false} FoldOrderIndependent<K, V(!new), R(!new)>(dataMap: map<K, V>, o1: seq<K>, o2: seq<K>, fn: (R, V) -> R, init: R)
    requires RightCommutative(fn)
    requires multiset(o1) == multiset(o2)
    requires forall i | 0 <= i < |o1| :: o1[i] in dataMap
    requires forall i | 0 <= i < |o2| :: o2[i] in dataMap
    ensures FoldInOrder(dataMap, o1, fn, init) == FoldInOrder(dataMap, o2, fn, init)
    decreases |o1|
  {
    if o1 == [] {
      assert |multiset(o2)| == 0;
    } else {
      var n := |o1| - 1;
      var key := o1[n];
      assert o1 == o1[..n] + [key];
      assert key in multiset(o2);
      var i :| 0 <= i < |o2| && o2[i] == key;
      var a, b := o2[..i], o2[i + 1..];
      assert o2 == a + [key] + b;
      FoldMoveToEnd(dataMap, a, key, b, fn, init);
      var rest := a + b;
      RemoveMatching(o1, o2, i);
      FoldOrderIndependent(dataMap, o1[..n], rest, fn, init);
      assert (rest + [key])[..|rest|] == rest;
    }
  }

  /** Reduce with a right-commutative reducer is deterministic: whichever orders two
      runs visit the keys in, they give the same accumulator. */
  lemma ReduceDeterministic<K, V(!new), R(!new)>(dataMap: map<K, V>, o1: seq<K>, o2: seq<K>, fn: (R, V) -> R, init: R)
    requires RightCommutative(fn)
    requires Enumerates(o1, dataMap.Keys) && Enumerates(o2, dataMap.Keys)
    ensures (forall i | 0 <= i < |o1| :: o1[i] in dataMap) && (forall i | 0 <= i < |o2| :: o2[i] in dataMap)
    ensures FoldInOrder(dataMap, o1, fn, init) == FoldInOrder(dataMap, o2, fn, init)
  {
    EnumeratesMembers(o1, dataMap.Keys);
    EnumeratesMembers(o2, dataMap.Keys);
    FoldOrderIndependent(dataMap, o1, o2, fn, init);
  }
}
