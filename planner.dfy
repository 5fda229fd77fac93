/** The batch planner: the comprehension
    `[ops[i:i + BATCH_SIZE] for i in range(0, len(ops), BATCH_SIZE)]`. */
module Planner {

  function Min(a: int, b: int): int {
    if a <= b then a else b
  }

  /** Python's slice `s[i:j]` for non-negative bounds: bounds past the end
      are clamped, and an empty range gives an empty list. */
  function PySlice<T>(s: seq<T>, i: nat, j: nat): seq<T> {
    if i >= |s| || j <= i then [] else s[i..Min(j, |s|)]
  }

  /** The number of values `range(0, n, size)` yields: 0, size, 2 * size, ...
      below n. */
  function BatchCount(n: nat, size: nat): nat
    requires size > 0
    decreases n
  {
    if n == 0 then 0 else if n <= size then 1 else 1 + BatchCount(n - size, size)
  }

  /** Batch k is the slice starting at k * size. */
  function Batches<T>(ops: seq<T>, size: nat): seq<seq<T>>
    requires size > 0
  {
    seq(BatchCount(|ops|, size), k requires 0 <= k < BatchCount(|ops|, size) => PySlice(ops, k * size, k * size + size))
  }

  function Concat<T>(bs: seq<seq<T>>): seq<T>
    decreases |bs|
  {
    if bs == [] then [] else bs[0] + Concat(bs[1..])
  }

  /** A list longer than one batch splits into a full first batch and the
      batches of the rest. */
  lemma BatchesUnfold<T>(ops: seq<T>, size: nat)
    requires size > 0 && |ops| > size
    ensures Batches(ops, size) == [ops[..size]] + Batches(ops[size..], size)
  {
    var lhs := Batches(ops, size);
    var rhs := [ops[..size]] + Batches(ops[size..], size);
    assert |lhs| == |rhs|;
    forall k | 0 <= k < |lhs|
      ensures lhs[k] == rhs[k]
    {
      if k > 0 {
        var j := (k - 1) * size;
        assert k * size == j + size;
        SliceAfterFirstBatch(ops, size, j);
      }
    }
  }

  /** Slicing after the first batch is slicing the rest, shifted by size. */
  lemma SliceAfterFirstBatch<T>(ops: seq<T>, size: nat, j: nat)
    requires |ops| > size
    ensures PySlice(ops, j + size, j + size + size) == PySlice(ops[size..], j, j + size)
  {
    if j + size < |ops| {
      var a := ops[j + size..Min(j + size + size, |ops|)];
      var b := ops[size..][j..Min(j + size, |ops| - size)];
      assert |a| == |b|;
      forall t | 0 <= t < |a|
        ensures a[t] == b[t]
      {
        assert a[t] == ops[j + size + t];
      }
    }
  }

  /** Joining the batches gives back the flattened list, in order. */
  lemma {:induction false} BatchesConcat<T>(ops: seq<T>, size: nat)
    requires size > 0
    ensures Concat(Batches(ops, size)) == ops
    decreases |ops|
  {
    if |ops| == 0 {
      assert Batches(ops, size) == [];
    } else if |ops| <= size {
      assert PySlice(ops, 0, size) == ops;
      assert Batches(ops, size) == [ops];
    } else {
      BatchesUnfold(ops, size);
      BatchesConcat(ops[size..], size);
      assert ops == ops[..size] + ops[size..];
    }
  }

  /** Every batch holds between 1 and size pairs, and only the last may be
      short. */
  lemma {:induction false} BatchesSizes<T>(ops: seq<T>, size: nat)
    requires size > 0
    ensures forall k :: 0 <= k < |Batches(ops, size)| ==> 1 <= |Batches(ops, size)[k]| <= size
    ensures forall k :: 0 <= k < |Batches(ops, size)| - 1 ==> |Batches(ops, size)[k]| == size
    decreases |ops|
  {
    if |ops| == 0 {
      assert Batches(ops, size) == [];
    } else if |ops| <= size {
      assert PySlice(ops, 0, size) == ops;
      assert Batches(ops, size) == [ops];
    } else {
      BatchesUnfold(ops, size);
      BatchesSizes(ops[size..], size);
    }
  }

  /** The number of batches is the least count whose full batches cover the
      list: ceil(len(ops) / size). */
  lemma {:induction false} BatchesCount<T>(ops: seq<T>, size: nat)
    requires size > 0
    ensures |Batches(ops, size)| * size >= |ops|
    ensures |ops| > 0 ==> (|Batches(ops, size)| - 1) * size < |ops|
    ensures |ops| == 0 <==> Batches(ops, size) == []
    decreases |ops|
  {
    if |ops| > size {
      BatchesUnfold(ops, size);
      BatchesCount(ops[size..], size);
      var c := |Batches(ops[size..], size)|;
      assert (c + 1) * size == c * size + size;
      assert c * size == (c - 1) * size + size;
    }
  }
}
