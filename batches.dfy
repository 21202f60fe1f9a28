/** Cutting job ids `0..n-1` into the windows `[s, min(s + b, n))` for
    `s` in `range(0, n, b)`, as the pipelined runner and the batch
    endpoint runner both do, and slicing a list along those windows. */
module Batches {
  import opened Runtime

  /** The number of values `range(0, n, b)` yields: `ceil(n / b)`. */
  function NumBatches(n: nat, b: nat): (k: nat)
    requires b >= 1
    ensures k * b >= n
    ensures k >= 1 ==> (k - 1) * b < n
    ensures k == 0 <==> n == 0
  {
    (n + b - 1) / b
  }

  /** The first job of batch `i`: `batch_start`, also recomputed as `i * batch_size`. */
  function Start(i: nat, b: nat): nat {
    i * b
  }

  /** One past the last job of batch `i`: `min(batch_start + batch_size, jobs_count)`. */
  function End(i: nat, b: nat, n: nat): nat {
    Min(i * b + b, n)
  }

  /** Every window is non-empty and holds at most `b` jobs. */
  lemma WindowShape(i: nat, b: nat, n: nat)
    requires b >= 1 && i < NumBatches(n, b)
    ensures Start(i, b) < End(i, b, n) <= n
    ensures End(i, b, n) - Start(i, b) <= b
  {
    assert i <= NumBatches(n, b) - 1;
    assert i * b <= (NumBatches(n, b) - 1) * b;
  }

  /** The number of jobs in batch `i`, `batch_end - batch_start`. */
  function Size(i: nat, b: nat, n: nat): (m: nat)
    requires b >= 1 && i < NumBatches(n, b)
    ensures 1 <= m <= b
    ensures Start(i, b) + m == End(i, b, n)
  {
    WindowShape(i, b, n);
    End(i, b, n) - Start(i, b)
  }

  /** `batch_start` advances by `b`: the next window starts `b` further on. */
  lemma StartStep(k: nat, b: nat)
    ensures (k + 1) * b == k * b + b
  {
  }

  /** Windows are consecutive: each one starts where the previous ends,
      the first starts at 0 and the last ends at `n`. */
  lemma WindowsChain(i: nat, b: nat, n: nat)
    requires b >= 1 && i + 1 < NumBatches(n, b)
    ensures End(i, b, n) == Start(i + 1, b)
  {
    WindowShape(i + 1, b, n);
  }

  lemma LastWindowEnds(b: nat, n: nat)
    requires b >= 1 && n >= 1
    ensures End(NumBatches(n, b) - 1, b, n) == n
  {
  }

  lemma MulStep(a: nat, c: nat, b: nat)
    requires a < c
    ensures a * b + b <= c * b
  {
    var d := c - a;
    assert c * b == a * b + d * b;
    MulAtLeast(d, b);
  }

  /** Multiplying by a positive `b` keeps the order of the factors. */
  lemma MulOrder(a: nat, c: nat, b: nat)
    requires b >= 1
    ensures a * b < c * b <==> a < c
  {
    if a < c {
      MulStep(a, c, b);
    } else if c < a {
      MulStep(c, a, b);
    }
  }

  lemma {:induction false} MulAtLeast(d: nat, b: nat)
    requires d >= 1
    ensures d * b >= b
  {
    if d > 1 {
      MulAtLeast(d - 1, b);
      assert d * b == (d - 1) * b + b;
    }
  }

  /** Every job lies in exactly one window, the one numbered `j / b`. */
  lemma WindowOf(j: nat, i: nat, b: nat, n: nat)
    requires b >= 1 && j < n
    ensures j / b < NumBatches(n, b)
    ensures Start(j / b, b) <= j < End(j / b, b, n)
    ensures Start(i, b) <= j < End(i, b, n) ==> i == j / b
  {
    var q, k := j / b, NumBatches(n, b);
    assert q * b <= j < q * b + b;
    if q >= k {
      if q > k { MulStep(k, q, b); }
      assert false;
    }
    if Start(i, b) <= j < End(i, b, n) {
      assert i * b <= j < i * b + b;
      if i < q {
        MulStep(i, q, b);
      } else if i > q {
        MulStep(q, i, b);
      }
    }
  }

  /** `batch_start = k * b` is still below `n` exactly while `k` is below
      the number of batches: the loop over `range(0, n, b)` runs `NumBatches` times. */
  lemma RangeCount(k: nat, b: nat, n: nat)
    requires b >= 1
    ensures k * b < n <==> k < NumBatches(n, b)
  {
    var m := NumBatches(n, b);
    if k < m {
      if k < m - 1 { MulStep(k, m - 1, b); }
    } else if k > m {
      MulStep(m, k, b);
    }
  }

  /** The batch `s[i:i + b]` of a list, i.e. window `i` of its indices. */
  function Window<T>(s: seq<T>, i: nat, b: nat): (w: seq<T>)
    requires b >= 1 && i < NumBatches(|s|, b)
    ensures 1 <= |w| <= b
  {
    WindowShape(i, b, |s|);
    s[Start(i, b)..End(i, b, |s|)]
  }

  /** The first `k` batches of `s`, concatenated. */
  function Joined<T>(s: seq<T>, b: nat, k: nat): seq<T>
    requires b >= 1 && k <= NumBatches(|s|, b)
  {
    if k == 0 then [] else Joined(s, b, k - 1) + Window(s, k - 1, b)
  }

  /** The first `k` batches are exactly the first `min(k * b, n)` elements;
      so all batches together give back the list, in order. */
  lemma {:induction false} JoinedIsPrefix<T>(s: seq<T>, b: nat, k: nat)
    requires b >= 1 && k <= NumBatches(|s|, b)
    ensures Joined(s, b, k) == s[..Min(k * b, |s|)]
  {
    if k > 0 {
      JoinedIsPrefix(s, b, k - 1);
      WindowShape(k - 1, b, |s|);
      assert (k - 1) * b + b == k * b;
      assert s[..Min(k * b, |s|)] == s[..(k - 1) * b] + s[(k - 1) * b..Min(k * b, |s|)];
    }
  }

  lemma JoinedIsAll<T>(s: seq<T>, b: nat)
    requires b >= 1
    ensures Joined(s, b, NumBatches(|s|, b)) == s
  {
    JoinedIsPrefix(s, b, NumBatches(|s|, b));
    assert s[..|s|] == s;
  }
}
