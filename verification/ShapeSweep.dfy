/** The shapes a warmup sends so that no request compiles a kernel later: one prompt per
    compile bucket, found by an exact-length search, and a ladder of batch sizes. */
module ShapeSweep {

  function Pow2(e: nat): (p: nat)
    ensures p >= 1
  {
    if e == 0 then 1 else 2 * Pow2(e - 1)
  }

  function BitLength(n: nat): nat {
    if n == 0 then 0 else 1 + BitLength(n / 2)
  }

  /** The bit length says between which powers of two a number lies. */
  lemma {:induction false} BitLengthBounds(n: nat)
    ensures n < Pow2(BitLength(n))
    ensures n > 0 ==> Pow2(BitLength(n) - 1) <= n
  {
    if n > 1 {
      BitLengthBounds(n / 2);
    }
  }

  lemma {:induction false} Pow2Monotone(a: nat, b: nat)
    requires a <= b
    ensures Pow2(a) <= Pow2(b)
    ensures a < b ==> 2 * Pow2(a) <= Pow2(b)
  {
    if a < b {
      Pow2Monotone(a, b - 1);
    }
  }

  function NextPowerOfTwo(value: int): int
    requires value >= 1
  {
    Pow2(BitLength(value - 1))
  }

  /** The least power of two that is not below the value. */
  lemma NextPowerIsLeast(value: int, e: nat)
    requires value >= 1
    ensures value <= NextPowerOfTwo(value)
    ensures value <= Pow2(e) ==> NextPowerOfTwo(value) <= Pow2(e)
    ensures NextPowerOfTwo(value) < 2 * value
  {
    BitLengthBounds(value - 1);
    if value > 1 {
      var f := BitLength(value - 1) - 1;
      if e <= f {
        Pow2Monotone(e, f);
      } else {
        Pow2Monotone(f + 1, e);
      }
    } else {
      Pow2Monotone(0, e);
    }
  }

  lemma NextPowerFixed(e: nat)
    ensures NextPowerOfTwo(Pow2(e)) == Pow2(e)
  {
    NextPowerIsLeast(Pow2(e), e);
  }

  function Min(a: int, b: int): int {
    if a <= b then a else b
  }

  /** The bucket a prompt of `tokens` compiles, for a block size and speculative depth. */
  function CompileBucket(tokens: int, block: int, depth: nat): int
    requires tokens >= 1
  {
    Min(block, NextPowerOfTwo(tokens + depth + 1))
  }

  // ---- the ladder of powers of two ----

  ghost predicate IsPow2(b: int) {
    exists e: nat :: b == Pow2(e)
  }

  lemma NoPowerBetween(e: nat, b: int)
    requires IsPow2(b) && Pow2(e) <= b < 2 * Pow2(e)
    ensures b == Pow2(e)
  {
    var f: nat :| b == Pow2(f);
    if f < e {
      Pow2Monotone(f, e);
    } else {
      Pow2Monotone(e, f);
    }
  }

  /** Every power of two below the limit, and the limit. */
  ghost predicate IsRung(b: int, limit: int) {
    b == limit || (b < limit && IsPow2(b))
  }

  /** Powers of two below the limit, then the limit, in order. */
  method ConcurrencyLadder(limit: int) returns (rungs: seq<int>)
    ensures forall r :: r in rungs <==> IsRung(r, limit)
    ensures forall i, j | 0 <= i < j < |rungs| :: rungs[i] < rungs[j]
  {
    rungs := [];
    var rung := 1;
    ghost var e: nat := 0;
    while rung < limit
      invariant rung == Pow2(e)
      invariant forall i | 0 <= i < |rungs| :: rungs[i] < rung && rungs[i] < limit && IsPow2(rungs[i])
      invariant forall b | IsPow2(b) && b < rung :: b in rungs
      invariant forall i, j | 0 <= i < j < |rungs| :: rungs[i] < rungs[j]
      decreases limit - rung
    {
      ghost var before := rungs;
      rungs := rungs + [rung];
      assert forall b :: b in rungs <==> b in before || b == rung;
      assert IsPow2(rung);
      forall b | IsPow2(b) && b < 2 * rung ensures b in rungs {
        if b >= rung {
          NoPowerBetween(e, b);
        }
      }
      rung := 2 * rung;
      e := e + 1;
    }
    assert forall b :: b in rungs + [limit] <==> b in rungs || b == limit;
    rungs := rungs + [limit];
  }

  /** Whatever number of requests runs at once, a rung within a factor of two covers it. */
  lemma LadderCovers(limit: int, batch: int)
    requires 1 <= batch <= limit
    ensures exists r :: IsRung(r, limit) && batch <= r < 2 * batch
  {
    NextPowerIsLeast(batch, 0);
    var r := Min(limit, NextPowerOfTwo(batch));
    assert IsPow2(NextPowerOfTwo(batch));
    assert IsRung(r, limit);
  }

  // ---- bucket targets ----

  /** No bucket with room for a prompt is filtered out: its target compiles it. */
  lemma FilterNeverRejects(b: int, block: int, depth: nat)
    requires IsRung(b, block) && b - (depth + 1) >= 1
    ensures CompileBucket(b - (depth + 1), block, depth) == b
  {
    NextPowerIsLeast(b, 0);
    if b != block {
      var e: nat :| b == Pow2(e);
      NextPowerFixed(e);
    }
  }

  /** Which pairs of a bucket and a prompt length the sweep aims for. */
  ghost predicate IsTarget(b: int, tokens: int, block: int, depth: nat) {
    IsRung(b, block) && tokens == b - (depth + 1) && tokens >= 1
  }

  method BucketTargets(block: int, depth: nat) returns (targets: seq<(int, int)>)
    ensures forall b, n :: (b, n) in targets <==> IsTarget(b, n, block, depth)
    ensures forall i, j | 0 <= i < j < |targets| :: targets[i].0 < targets[j].0
  {
    var buckets := ConcurrencyLadder(block);
    hide IsRung, CompileBucket;
    targets := [];
    for i := 0 to |buckets|
      invariant forall b, n :: (b, n) in targets <==> b in buckets[..i] && IsTarget(b, n, block, depth)
      invariant forall j, k | 0 <= j < k < |targets| :: targets[j].0 < targets[k].0
      invariant forall k | 0 <= k < |targets| :: targets[k].0 in buckets[..i]
    {
      var bucket := buckets[i];
      assert buckets[..i + 1] == buckets[..i] + [bucket];
      forall k | 0 <= k < |targets| ensures targets[k].0 < bucket {
        assert targets[k].0 in buckets[..i];
      }
      assert bucket in buckets;
      var tokens := bucket - (depth + 1);
      if tokens >= 1 {
        FilterNeverRejects(bucket, block, depth);
        if CompileBucket(tokens, block, depth) == bucket {
          targets := targets + [(bucket, tokens)];
        }
      }
    }
    assert buckets[..|buckets|] == buckets;
  }

  ghost predicate Targeted(b: int, block: int, depth: nat) {
    exists n :: IsTarget(b, n, block, depth)
  }

  ghost predicate Compiled(b: int, block: int, depth: nat) {
    exists p :: p >= 1 && CompileBucket(p, block, depth) == b
  }

  /** Exact coverage: there is a target exactly when the block holds the speculative tokens,
      the sampled one and one prompt token, and then the targeted buckets are exactly those
      that some prompt compiles. */
  lemma ExactCoverage(block: int, depth: nat)
    ensures (exists b :: Targeted(b, block, depth)) <==> block >= depth + 2
    ensures block >= depth + 2 ==> forall b :: Targeted(b, block, depth) <==> Compiled(b, block, depth)
  {
    if exists b :: Targeted(b, block, depth) {
      var b :| Targeted(b, block, depth);
      var n :| IsTarget(b, n, block, depth);
    }
    if block >= depth + 2 {
      assert IsTarget(block, block - (depth + 1), block, depth);
      assert Targeted(block, block, depth);
      forall b | Targeted(b, block, depth) ensures Compiled(b, block, depth) {
        var n :| IsTarget(b, n, block, depth);
        FilterNeverRejects(b, block, depth);
      }
      forall b | Compiled(b, block, depth) ensures Targeted(b, block, depth) {
        var p :| p >= 1 && CompileBucket(p, block, depth) == b;
        NextPowerIsLeast(p + depth + 1, 0);
        assert IsPow2(NextPowerOfTwo(p + depth + 1));
        assert IsTarget(b, b - (depth + 1), block, depth);
      }
    }
  }

  /** Below the block size a bucket's target is the longest prompt in it. */
  lemma TargetIsLongest(b: int, t: int, block: int, depth: nat, p: int)
    requires IsTarget(b, t, block, depth) && p >= 1 && CompileBucket(p, block, depth) == b
    ensures b < block ==> p <= t
    ensures b == block ==> CompileBucket(t + p, block, depth) == b
  {
    NextPowerIsLeast(p + depth + 1, 0);
    if b == block {
      NextPowerIsLeast(t + p + depth + 1, 0);
    }
  }

  /** Prompts up to the model's limit can need a bucket whose target is beyond that limit,
      so that the sweep skips the bucket's own arm; that is at most one bucket. */
  lemma AtMostOneBucketLeftOut(block: int, depth: nat, limit: int, p: int, q: int)
    requires 1 <= p <= limit && 1 <= q <= limit
    requires CompileBucket(p, block, depth) - (depth + 1) > limit
    requires CompileBucket(q, block, depth) - (depth + 1) > limit
    ensures CompileBucket(p, block, depth) == CompileBucket(q, block, depth)
  {
    var x, y := p + depth + 1, q + depth + 1;
    BitLengthBounds(x - 1);
    BitLengthBounds(y - 1);
    var e, f := BitLength(x - 1), BitLength(y - 1);
    if e < f {
      Pow2Monotone(e, f - 1);
    } else if f < e {
      Pow2Monotone(f, e - 1);
    }
  }

  lemma CompileBucketMonotone(p: int, q: int, block: int, depth: nat)
    requires 1 <= p <= q
    ensures CompileBucket(p, block, depth) <= CompileBucket(q, block, depth)
  {
    NextPowerIsLeast(q + depth + 1, 0);
    NextPowerIsLeast(p + depth + 1, BitLength(q + depth));
  }

  /** No prompt up to the limit has its bucket's arm skipped exactly when the limit itself has
      not. */
  lemma LeftOutExactly(block: int, depth: nat, limit: int)
    requires limit >= 1
    ensures (forall p | 1 <= p <= limit :: CompileBucket(p, block, depth) - (depth + 1) <= limit)
       <==> CompileBucket(limit, block, depth) - (depth + 1) <= limit
  {
    forall p | 1 <= p <= limit ensures CompileBucket(p, block, depth) <= CompileBucket(limit, block, depth) {
      CompileBucketMonotone(p, limit, block, depth);
    }
  }

  /** A bucket whose arm is skipped: with blocks of 16 and no speculation, prompts of 5 tokens
      compile bucket 8, whose target of 7 exceeds a limit of 5. */
  lemma BucketLeftOut()
    ensures CompileBucket(5, 16, 0) == 8 && IsTarget(8, 7, 16, 0) && 7 > 5
  {
    NextPowerIsLeast(6, 3);
    assert Pow2(3) == 8 && BitLength(5) == 3;
    assert IsPow2(8);
  }

  // ---- the exact-length search ----

  function Max(a: nat, b: nat): nat {
    if a >= b then a else b
  }

  datatype Search = Found(repeats: nat) | Unreachable | NoLength

  /** Every filler repeat adds at least one token, and the prompt without any has one. */
  ghost predicate Grows(measure: nat -> nat) {
    measure(0) >= 1 && forall k: nat :: measure(k) < measure(k + 1)
  }

  lemma {:induction false} GrowsApart(measure: nat -> nat, a: nat, b: nat)
    requires Grows(measure) && a <= b
    ensures measure(b) >= measure(a) + (b - a)
  {
    if a < b {
      GrowsApart(measure, a, b - 1);
    }
  }

  lemma {:induction false} HalfBits(n: nat, m: nat)
    requires m <= n / 2 && n > 0
    ensures BitLength(m) < BitLength(n)
    decreases n
  {
    if m > 0 {
      HalfBits(n / 2, m / 2);
    }
  }

  /** Find how many fillers make the prompt exactly `target` tokens long. What is found is
      always exact; if fillers only ever add tokens, a number that exists is found, and
      at most one measurement per bit of the target is made besides the first. */
  method ResolveCompletionPrompt(target: nat, measure: nat -> nat) returns (r: Search, calls: nat)
    ensures r.Found? ==> measure(r.repeats) == target
    ensures r.Unreachable? <==> measure(0) > target
    ensures Grows(measure) ==> (r.Found? <==> exists k: nat :: measure(k) == target)
    ensures Grows(measure) && r.Found? ==> forall k: nat | measure(k) == target :: k == r.repeats
    ensures calls <= 1 + BitLength(Max(target, 1))
  {
    hide Pow2, Grows;
    calls := 1;
    if Grows(measure) {
      Injective(measure, target);
    }
    if measure(0) == target {
      return Found(0), calls;
    }
    if measure(0) > target {
      if Grows(measure) {
        forall k: nat ensures measure(k) != target {
          GrowsApart(measure, 0, k);
        }
      }
      return Unreachable, calls;
    }
    var low, high := 1, Max(target, 1);
    if Grows(measure) {
      forall k: nat | measure(k) == target ensures low <= k <= high {
        GrowsApart(measure, 0, k);
      }
    }
    while low <= high
      invariant low >= 1
      invariant Grows(measure) ==> forall k: nat | measure(k) == target :: low <= k <= high
      invariant calls + (if low <= high then BitLength(high - low + 1) else 0) <= 1 + BitLength(Max(target, 1))
      decreases high - low + 1
    {
      var middle := (low + high) / 2;
      var tokens := measure(middle);
      ghost var size := high - low + 1;
      calls := calls + 1;
      if tokens == target {
        HalfBits(size, 0);
        return Found(middle), calls;
      }
      if tokens < target {
        if Grows(measure) {
          forall k: nat | measure(k) == target && k <= middle ensures false {
            GrowsApart(measure, k, middle);
          }
        }
        HalfBits(size, high - middle);
        low := middle + 1;
      } else {
        if Grows(measure) {
          forall k: nat | measure(k) == target && k >= middle ensures false {
            GrowsApart(measure, middle, k);
          }
        }
        HalfBits(size, middle - low);
        high := middle - 1;
      }
    }
    return NoLength, calls;
  }

  lemma Injective(measure: nat -> nat, target: nat)
    requires Grows(measure)
    ensures forall a: nat, b: nat | measure(a) == target == measure(b) :: a == b
  {
    forall a: nat, b: nat | measure(a) == target == measure(b) ensures a == b {
      GrowsApart(measure, if a <= b then a else b, if a <= b then b else a);
    }
  }
}
