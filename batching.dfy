/**
  Batched generation: the fact-table builders walk `range(0, N, B)` and, for
  each `batch_start`, emit the rows `batch_start .. min(batch_start + B, N)`,
  numbering row `i` of the batch `batch_start + i + 1`.

  This module states that walk once, as functions, and proves that it numbers
  the rows exactly 1..N. Each batched builder's loop reports, as a ghost
  out-parameter, the batch starts it visited, and proves they are exactly
  `BatchStarts(0, N, B)`; it also proves directly that row k gets id k + 1.
 */
module Batching {

  /** Rows per batch in the batched builders. */
  const BatchSize: nat := 10000

  function Min(a: int, b: int): (r: int)
    ensures r <= a && r <= b && (r == a || r == b)
  {
    if a <= b then a else b
  }

  /** `min(batch_start + size, n)`: one past the last row of a batch. */
  function BatchEnd(start: nat, n: nat, size: nat): nat
  {
    Min(start + size, n)
  }

  /** The values of `range(from, n, size)`: the start of every batch. */
  function BatchStarts(from: nat, n: nat, size: nat): (starts: seq<nat>)
    requires size > 0
    decreases n - from
  {
    if from >= n then [] else [from] + BatchStarts(from + size, n, size)
  }

  /** The ids of the batches from `from` on, concatenated: batch `s` holds
      `s + i + 1` for `i` in `range(BatchEnd(s) - s)`. */
  function BatchedIds(from: nat, n: nat, size: nat): seq<int>
    requires size > 0
    decreases n - from
  {
    if from >= n then []
    else
      seq(BatchEnd(from, n, size) - from, i => from + i + 1)
      + BatchedIds(from + size, n, size)
  }

  /** One step of the walk: visiting the batch at `start` moves it from the
      batches still ahead to the batches already visited. */
  lemma NextBatch(visited: seq<nat>, start: nat, n: nat, size: nat)
    requires size > 0 && start < n
    requires visited + BatchStarts(start, n, size) == BatchStarts(0, n, size)
    ensures (visited + [start]) + BatchStarts(start + size, n, size) == BatchStarts(0, n, size)
  {
    assert BatchStarts(start, n, size) == [start] + BatchStarts(start + size, n, size);
    assert (visited + [start]) + BatchStarts(start + size, n, size)
        == visited + ([start] + BatchStarts(start + size, n, size));
  }

  /** The batches tile `from .. n`: they start at `from`, each ends where the
      next starts, the last ends at `n`, and each holds 1..size rows. */
  lemma {:induction false} BatchesTile(from: nat, n: nat, size: nat)
    requires size > 0 && from < n
    decreases n - from
    ensures var s := BatchStarts(from, n, size);
      && |s| > 0 && s[0] == from
      && BatchEnd(s[|s| - 1], n, size) == n
      && (forall k :: 0 <= k < |s| - 1 ==> s[k + 1] == BatchEnd(s[k], n, size))
      && (forall k :: 0 <= k < |s| ==> 0 < BatchEnd(s[k], n, size) - s[k] <= size)
  {
    var s := BatchStarts(from, n, size);
    if from + size < n {
      BatchesTile(from + size, n, size);
      var t := BatchStarts(from + size, n, size);
      assert s == [from] + t;
      forall k | 0 <= k < |s| - 1
        ensures s[k + 1] == BatchEnd(s[k], n, size)
      {
        if k > 0 {
          assert s[k] == t[k - 1] && s[k + 1] == t[k];
        }
      }
    } else {
      assert BatchStarts(from + size, n, size) == [];
      assert s == [from];
    }
  }

  /** `range(0, n, size)` has ceil(n / size) elements. */
  lemma {:induction false} BatchCount(from: nat, n: nat, size: nat)
    requires size > 0 && from <= n
    ensures |BatchStarts(from, n, size)| == (n - from + size - 1) / size
    decreases n - from
  {
    if from < n {
      if from + size <= n {
        BatchCount(from + size, n, size);
        DivStep(n - (from + size) + size - 1, size);
      } else {
        assert BatchStarts(from + size, n, size) == [];
        DivUnique(n - from + size - 1, size, 1, n - from - 1);
      }
    }
  }

  /** Quotient and remainder determine each other (d > 0). */
  lemma DivUnique(x: int, d: int, q: int, r: int)
    requires d > 0 && 0 <= r < d && x == q * d + r
    ensures x / d == q
  {
    var q', r' := x / d, x % d;
    assert x == q' * d + r';
    if q' > q {
      assert (q' - q) * d == r - r';
      MulAtLeast(q' - q, d);
    } else if q' < q {
      assert (q - q') * d == r' - r;
      MulAtLeast(q - q', d);
    }
  }

  lemma {:induction false} MulAtLeast(k: int, d: int)
    requires k >= 1 && d > 0
    ensures k * d >= d
  {
    if k > 1 {
      MulAtLeast(k - 1, d);
      assert k * d == (k - 1) * d + d;
    }
  }

  lemma DivStep(x: nat, d: nat)
    requires d > 0
    ensures (x + d) / d == x / d + 1
  {
    var q, r := x / d, x % d;
    assert x == q * d + r;
    DivUnique(x + d, d, q + 1, r);
  }

  /** Batched numbering yields ids exactly `from + 1 .. n`, in order, with no
      gap and no repeat. */
  lemma {:induction false} BatchedIdsAreConsecutive(from: nat, n: nat, size: nat)
    requires size > 0 && from <= n
    ensures BatchedIds(from, n, size) == seq(n - from, k => from + k + 1)
    decreases n - from
  {
    if from < n {
      var e := BatchEnd(from, n, size);
      if e < n {
        BatchedIdsAreConsecutive(from + size, n, size);
      } else {
        assert BatchedIds(from + size, n, size) == [];
      }
    }
  }
}
