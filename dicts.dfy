/** Filling a dict in a loop, `for x in xs: d[key(x)] = val(x)`, as both the
    API statistics fold and the analysis lookup do. */
module Dicts {

  function InsertAll<T, V>(m: map<string, V>, xs: seq<T>, key: T -> string, val: T -> V): map<string, V>
    decreases |xs|
  {
    if xs == [] then m else InsertAll(m[key(xs[0]) := val(xs[0])], xs[1..], key, val)
  }

  /** `i` is the last position of `xs` whose key is `id`. */
  ghost predicate IsLastWithKey<T>(xs: seq<T>, key: T -> string, id: string, i: int)
  {
    0 <= i < |xs| && key(xs[i]) == id && forall j :: i < j < |xs| ==> key(xs[j]) != id
  }

  /** After the loop a key is present exactly when it was before or some
      element carries it; its value comes from the LAST element carrying
      it, and keys no element carries keep their old value. */
  lemma {:induction false} InsertAllSpec<T, V>(m: map<string, V>, xs: seq<T>, key: T -> string, val: T -> V, id: string)
    ensures id in InsertAll(m, xs, key, val) <==> id in m || exists i :: 0 <= i < |xs| && key(xs[i]) == id
    ensures forall i :: IsLastWithKey(xs, key, id, i) ==> InsertAll(m, xs, key, val)[id] == val(xs[i])
    ensures (forall i :: 0 <= i < |xs| ==> key(xs[i]) != id) && id in m ==> InsertAll(m, xs, key, val)[id] == m[id]
    decreases |xs|
  {
    if xs != [] {
      var x, rest := xs[0], xs[1..];
      InsertAllSpec(m[key(x) := val(x)], rest, key, val, id);
      forall i | 0 <= i < |rest| ensures rest[i] == xs[i + 1] { }
      if exists i :: 0 <= i < |xs| && key(xs[i]) == id {
        var i :| 0 <= i < |xs| && key(xs[i]) == id;
        if i > 0 { assert key(rest[i - 1]) == id; }
      }
      forall i | IsLastWithKey(xs, key, id, i) ensures InsertAll(m, xs, key, val)[id] == val(xs[i]) {
        if i > 0 {
          assert IsLastWithKey(rest, key, id, i - 1);
        } else {
          assert forall j :: 0 <= j < |rest| ==> key(rest[j]) != id;
        }
      }
    }
  }

  /** Running the loop over two lists one after the other is running it
      over their concatenation. */
  lemma {:induction false} InsertAllConcat<T, V>(m: map<string, V>, xs: seq<T>, ys: seq<T>, key: T -> string, val: T -> V)
    ensures InsertAll(m, xs + ys, key, val) == InsertAll(InsertAll(m, xs, key, val), ys, key, val)
    decreases |xs|
  {
    if xs != [] {
      assert (xs + ys)[0] == xs[0];
      assert (xs + ys)[1..] == xs[1..] + ys;
      InsertAllConcat(m[key(xs[0]) := val(xs[0])], xs[1..], ys, key, val);
    } else {
      assert xs + ys == ys;
    }
  }
}
