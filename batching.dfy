/**
 * `chunk(arr, size)` from functions/index.js, and the slice arithmetic the
 * announcement handler repeats inline with `tokens.slice(i, i + 500)`.
 */
module Batching {

  function Min(a: int, b: int): int {
    if a <= b then a else b
  }

  /** The pieces `chunk` returns: consecutive slices of `size` elements, the
      last one possibly shorter; none for an empty input. */
  function Chunks<T>(s: seq<T>, size: nat): seq<seq<T>>
    requires size > 0
    decreases |s|
  {
    if |s| == 0 then []
    else if |s| <= size then [s]
    else [s[..size]] + Chunks(s[size..], size)
  }

  /** Concatenation regroups freely. */
  lemma AppendAssoc<T>(a: seq<T>, b: seq<T>, c: seq<T>)
    ensures (a + b) + c == a + (b + c)
  {
  }

  /** A sequence is its prefix up to `k` followed by the rest, which starts
      with the element at `k`. */
  lemma SplitAt<T>(s: seq<T>, k: nat)
    requires k < |s|
    ensures s[..k] + s[k..] == s && s[k..][0] == s[k]
  {
  }

  /** The pieces laid end to end. */
  function Concat<T>(pieces: seq<seq<T>>): seq<T> {
    if pieces == [] then [] else pieces[0] + Concat(pieces[1..])
  }

  /** The number of `size`-long steps needed to cover `n` elements. */
  function CeilDiv(n: nat, size: nat): nat
    requires size > 0
    decreases n
  {
    if n == 0 then 0 else if n <= size then 1 else 1 + CeilDiv(n - size, size)
  }

  /** For the provider's batch limit, the step count is ceil(n / 500). */
  lemma {:induction false} CeilDiv500(n: nat)
    ensures CeilDiv(n, 500) == (n + 499) / 500
    decreases n
  {
    if n > 500 {
      CeilDiv500(n - 500);
    }
  }

  /** One step of the loop `for (i = 0; i < n; i += size) out.push(s.slice(i, i + size))`:
      the pieces of `s[i..]` are the slice at `i` (clamped to the end, as
      `slice` clamps), then the pieces after it. */
  lemma ChunksStep<T>(s: seq<T>, i: nat, size: nat)
    requires size > 0 && i < |s|
    ensures Chunks(s[i..], size) == [s[i..Min(i + size, |s|)]] + Chunks(s[Min(i + size, |s|)..], size)
  {
    var t := s[i..];
    if |t| <= size {
      assert s[i..Min(i + size, |s|)] == t;
      assert s[Min(i + size, |s|)..] == [];
    } else {
      assert t[..size] == s[i..i + size];
      assert t[size..] == s[i + size..];
    }
  }

  /** `chunk(arr, size)` partitions `arr`: the pieces concatenate back to `arr`
      in order, there are ceil(|arr| / size) of them, each is non-empty and at
      most `size` long, and all but the last are exactly `size` long. */
  lemma {:induction false} ChunksPartition<T>(s: seq<T>, size: nat)
    requires size > 0
    ensures Concat(Chunks(s, size)) == s
    ensures |Chunks(s, size)| == CeilDiv(|s|, size)
    ensures forall j :: 0 <= j < |Chunks(s, size)| ==> 0 < |Chunks(s, size)[j]| <= size
    ensures forall j :: 0 <= j < |Chunks(s, size)| - 1 ==> |Chunks(s, size)[j]| == size
    decreases |s|
  {
    if |s| == 0 {
    } else if |s| <= size {
      assert Concat([s]) == s + Concat([]);
    } else {
      ChunksPartition(s[size..], size);
      var rest := Chunks(s[size..], size);
      assert Chunks(s, size) == [s[..size]] + rest;
      assert ([s[..size]] + rest)[1..] == rest;
      assert s[..size] + s[size..] == s;
    }
  }

  /** The batch sizes for 1200 registrations are 500, 500 and 200, in that
      order. */
  lemma Chunks1200<T>(s: seq<T>)
    requires |s| == 1200
    ensures |Chunks(s, 500)| == 3
    ensures |Chunks(s, 500)[0]| == 500 && |Chunks(s, 500)[1]| == 500 && |Chunks(s, 500)[2]| == 200
  {
    assert Chunks(s, 500) == [s[..500]] + Chunks(s[500..], 500);
    assert Chunks(s[500..], 500) == [s[500..][..500]] + Chunks(s[500..][500..], 500);
    assert Chunks(s[500..][500..], 500) == [s[500..][500..]];
  }

  /** `chunk(arr, size)`. A `size` of 0 would never end the source's loop, so
      it is excluded. */
  method Chunk<T>(arr: seq<T>, size: nat) returns (out: seq<seq<T>>)
    requires size > 0
    ensures out == Chunks(arr, size)
    ensures Concat(out) == arr
    ensures |out| == CeilDiv(|arr|, size)
    ensures forall j :: 0 <= j < |out| ==> 0 < |out[j]| <= size
    ensures forall j :: 0 <= j < |out| - 1 ==> |out[j]| == size
  {
    out := [];
    var i := 0;
    while i < |arr|
      invariant out + Chunks(arr[Min(i, |arr|)..], size) == Chunks(arr, size)
      decreases |arr| - i
    {
      ChunksStep(arr, i, size);
      out := out + [arr[i..Min(i + size, |arr|)]];
      i := i + size;
    }
    assert arr[Min(i, |arr|)..] == [];
    ChunksPartition(arr, size);
  }
}
