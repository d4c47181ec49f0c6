/** Splitting a list into the consecutive slices `s[i:i + size]` for
    `i in range(0, len(s), size)`, as the API and LLM batch loops do. */
module Chunking {

  function Min(a: int, b: int): int { if a <= b then a else b }

  /** The slices the loop `for i in range(0, len(s), size)` visits. */
  function Chunks<T>(s: seq<T>, size: nat): seq<seq<T>>
    requires size > 0
    decreases |s|
  {
    if s == [] then []
    else if |s| <= size then [s]
    else [s[..size]] + Chunks(s[size..], size)
  }

  function Flatten<T>(ss: seq<seq<T>>): seq<T>
  {
    if ss == [] then [] else ss[0] + Flatten(ss[1..])
  }

  /** The chunks, concatenated in order, give back the list. */
  lemma {:induction false} ChunksFlatten<T>(s: seq<T>, size: nat)
    requires size > 0
    ensures Flatten(Chunks(s, size)) == s
    decreases |s|
  {
    if |s| > size {
      var c := Chunks(s, size);
      assert c[1..] == Chunks(s[size..], size);
      ChunksFlatten(s[size..], size);
      assert s == s[..size] + s[size..];
    } else if s != [] {
      assert Chunks(s, size)[1..] == [];
    }
  }

  /** Every chunk is non-empty and holds at most `size` elements; all but
      the last hold exactly `size`. */
  lemma {:induction false} ChunksSizes<T>(s: seq<T>, size: nat)
    requires size > 0
    ensures forall k :: 0 <= k < |Chunks(s, size)| ==>
      0 < |Chunks(s, size)[k]| <= size
      && (k < |Chunks(s, size)| - 1 ==> |Chunks(s, size)[k]| == size)
    decreases |s|
  {
    if |s| > size {
      ChunksSizes(s[size..], size);
      var c := Chunks(s, size);
      forall k | 1 <= k < |c| ensures c[k] == Chunks(s[size..], size)[k - 1] { }
    }
  }

  /** There are `ceil(len(s) / size)` chunks: enough to hold `s`, and one
      fewer would not be. */
  lemma {:induction false} ChunksCount<T>(s: seq<T>, size: nat)
    requires size > 0
    ensures |Chunks(s, size)| == 0 <==> s == []
    ensures |s| <= |Chunks(s, size)| * size
    ensures |Chunks(s, size)| > 0 ==> (|Chunks(s, size)| - 1) * size < |s|
    decreases |s|
  {
    if |s| > size {
      var c := |Chunks(s[size..], size)|;
      ChunksCount(s[size..], size);
      assert |Chunks(s, size)| == c + 1;
      assert (c + 1) * size == c * size + size;
      assert (c + 1 - 1) * size == c * size;
      if c > 0 {
        assert c * size == (c - 1) * size + size;
      }
    }
  }

  /** The `k`-th chunk is the slice `s[k * size:(k + 1) * size]`. */
  lemma {:induction false} ChunkAt<T>(s: seq<T>, size: nat, k: nat)
    requires size > 0 && k < |Chunks(s, size)|
    ensures k * size < |s|
    ensures Chunks(s, size)[k] == s[k * size..Min((k + 1) * size, |s|)]
    decreases |s|
  {
    if k > 0 {
      var t := s[size..];
      assert Chunks(s, size)[k] == Chunks(t, size)[k - 1];
      ChunkAt(t, size, k - 1);
      assert (k - 1) * size + size == k * size;
      assert k * size + size == (k + 1) * size;
      assert t[(k - 1) * size..Min(k * size, |t|)] == s[k * size..Min((k + 1) * size, |s|)];
    }
  }

  /** One step of the batch loop: the chunks of a suffix start with the
      slice the loop takes next. */
  lemma ChunksUnfold<T>(s: seq<T>, size: nat, i: nat)
    requires size > 0 && i < |s|
    ensures Chunks(s[i..], size)
      == [s[i..Min(i + size, |s|)]] + Chunks(s[Min(i + size, |s|)..], size)
  {
    var t := s[i..];
    if |t| > size {
      assert t[..size] == s[i..i + size];
      assert t[size..] == s[i + size..];
    } else {
      assert t == s[i..|s|];
      assert s[|s|..] == [];
    }
  }
}
