/** Python's filtering comprehension `[g(x) for x in xs if p(x)]`, written
    as one function `f` that yields `Some(g(x))` when `p(x)` holds. */
module Lists {
  import opened Wrappers

  function FilterMap<A, B>(xs: seq<A>, f: A -> Option<B>): seq<B>
  {
    if xs == [] then []
    else FilterMap(xs[..|xs| - 1], f) + (match f(xs[|xs| - 1]) case Some(y) => [y] case None => [])
  }

  /** The comprehension of a concatenation is the concatenation of the
      comprehensions: elements are kept or dropped one by one, in order. */
  lemma {:induction false} FilterMapConcat<A, B>(xs: seq<A>, ys: seq<A>, f: A -> Option<B>)
    ensures FilterMap(xs + ys, f) == FilterMap(xs, f) + FilterMap(ys, f)
    decreases |ys|
  {
    if ys == [] {
      assert xs + ys == xs;
    } else {
      assert (xs + ys)[..|xs + ys| - 1] == xs + ys[..|ys| - 1];
      FilterMapConcat(xs, ys[..|ys| - 1], f);
    }
  }

  /** Each element `x` contributes `[g(x)]` when kept and nothing when dropped. */
  lemma FilterMapSingle<A, B>(x: A, f: A -> Option<B>)
    ensures FilterMap([x], f) == if f(x).Some? then [f(x).value] else []
  {
    assert [x][..0] == [];
  }

  /** Every kept element is produced by some input element, no more elements
      come out than go in, and all of them come out when all are kept. */
  lemma {:induction false} FilterMapSource<A, B>(xs: seq<A>, f: A -> Option<B>)
    ensures |FilterMap(xs, f)| <= |xs|
    ensures forall k :: 0 <= k < |FilterMap(xs, f)| ==>
      exists i :: 0 <= i < |xs| && f(xs[i]) == Some(FilterMap(xs, f)[k])
    ensures (forall i :: 0 <= i < |xs| ==> f(xs[i]).Some?) ==> |FilterMap(xs, f)| == |xs|
    ensures (forall i :: 0 <= i < |xs| ==> f(xs[i]).None?) ==> FilterMap(xs, f) == []
  {
    if xs != [] {
      var init := xs[..|xs| - 1];
      FilterMapSource(init, f);
      var r, r0 := FilterMap(xs, f), FilterMap(init, f);
      forall k | 0 <= k < |r| ensures exists i :: 0 <= i < |xs| && f(xs[i]) == Some(r[k]) {
        if k < |r0| {
          var i :| 0 <= i < |init| && f(init[i]) == Some(r0[k]);
          assert xs[i] == init[i];
        } else {
          assert f(xs[|xs| - 1]) == Some(r[k]);
        }
      }
      if forall i :: 0 <= i < |xs| ==> f(xs[i]).Some? {
        assert forall i :: 0 <= i < |init| ==> init[i] == xs[i];
      }
      if forall i :: 0 <= i < |xs| ==> f(xs[i]).None? {
        assert forall i :: 0 <= i < |init| ==> init[i] == xs[i];
      }
    }
  }

  /** Every input element that is kept shows up in the output. */
  lemma {:induction false} FilterMapKeeps<A, B>(xs: seq<A>, f: A -> Option<B>, i: nat)
    requires i < |xs| && f(xs[i]).Some?
    ensures f(xs[i]).value in FilterMap(xs, f)
  {
    if i < |xs| - 1 {
      FilterMapKeeps(xs[..|xs| - 1], f, i);
    }
  }
}
