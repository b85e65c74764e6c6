/** Download pacing: a token bucket of one second's worth of bytes, shared by all threads. */
module Pacing {

  /** One paced read: when its thread asked, what the clock said once it held the lock, how
      many bytes it had read, and when its wait ended. */
  datatype Take = Take(called: real, now: real, count: real, returned: real)

  function Min(a: real, b: real): real {
    if a <= b then a else b
  }

  /** The bytes that `seconds` allow. */
  function Allowed(rate: real, seconds: real): real {
    seconds * rate
  }

  lemma AllowedAdds(rate: real, x: real, y: real)
    ensures Allowed(rate, x) + Allowed(rate, y) == Allowed(rate, x + y)
  {
  }

  lemma AllowedSign(rate: real, x: real)
    requires rate > 0.0 && x >= 0.0
    ensures Allowed(rate, x) >= 0.0 && Allowed(rate, 0.0) == 0.0 && Allowed(rate, 1.0) == rate
  {
  }

  class Bucket {
    const rate: real
    var tokens: real
    var at: real

    ghost predicate Valid()
      reads this
    {
      rate > 0.0 && tokens <= rate
    }

    constructor (rate: real, now: real)
      requires rate > 0.0
      ensures Valid() && this.rate == rate && tokens == rate && at == now
    {
      this.rate := rate;
      tokens := rate;
      at := now;
    }

    /** Account for `count` bytes; the caller sleeps for `wait` afterwards, if positive. */
    method Pay(now: real, count: real) returns (wait: real)
      requires Valid() && now >= at && count >= 0.0
      modifies this
      ensures Valid() && at == now
      ensures tokens == Balance(rate, old(tokens), now - old(at), count)
      ensures Allowed(rate, wait) == -tokens
    {
      tokens := Min(rate, tokens + (now - at) * rate) - count;
      at := now;
      wait := -tokens / rate;
    }
  }

  /** The bucket's content after `elapsed` seconds and one payment. */
  function Balance(rate: real, tokens: real, elapsed: real, count: real): real {
    Min(rate, tokens + Allowed(rate, elapsed)) - count
  }

  /** The bucket's content after the first `n` takes. */
  function TokensAfter(rate: real, start: real, takes: seq<Take>, n: nat): real
    requires n <= |takes|
  {
    if n == 0 then rate
    else Balance(rate, TokensAfter(rate, start, takes, n - 1), takes[n - 1].now - Previous(start, takes, n - 1), takes[n - 1].count)
  }

  /** When the clock was last read before take `k`. */
  function Previous(start: real, takes: seq<Take>, k: nat): real
    requires k <= |takes|
  {
    if k == 0 then start else takes[k - 1].now
  }

  /** The clock does not go back, the thread asked before it got the lock, and it sleeps at
      least as long as it was told to. */
  ghost predicate TakeOk(rate: real, start: real, takes: seq<Take>, k: nat)
    requires k < |takes|
  {
    && takes[k].count >= 0.0
    && takes[k].called <= takes[k].now <= takes[k].returned
    && Previous(start, takes, k) <= takes[k].now
    && Allowed(rate, takes[k].returned - takes[k].now) >= -TokensAfter(rate, start, takes, k + 1)
  }

  /** A run of takes, in lock order. */
  ghost predicate Paced(rate: real, start: real, takes: seq<Take>) {
    rate > 0.0 && forall k | 0 <= k < |takes| :: TakeOk(rate, start, takes, k)
  }

  function Bytes(takes: seq<Take>): real {
    if takes == [] then 0.0 else Bytes(takes[..|takes| - 1]) + takes[|takes| - 1].count
  }

  lemma {:induction false} Spent(rate: real, start: real, takes: seq<Take>, a: nat, b: nat)
    requires Paced(rate, start, takes) && a <= b < |takes|
    ensures Bytes(takes[a..b + 1]) + TokensAfter(rate, start, takes, b + 1) <= rate + Allowed(rate, takes[b].now - takes[a].now)
  {
    var part := takes[a..b + 1];
    assert part[..b - a] == takes[a..b];
    hide Allowed;
    assert TakeOk(rate, start, takes, b);
    if a < b {
      Spent(rate, start, takes, a, b - 1);
      AllowedAdds(rate, takes[b - 1].now - takes[a].now, takes[b].now - takes[b - 1].now);
    } else {
      AllowedSign(rate, 0.0);
      assert Bytes(part[..0]) == 0.0;
    }
  }

  /** Any number of threads, any read sizes: the bytes of consecutive takes, in lock order,
      never exceed the rate over the time from the first call to the last return, plus one
      second's worth. */
  lemma PacingBound(rate: real, start: real, takes: seq<Take>, a: nat, b: nat)
    requires Paced(rate, start, takes) && a <= b < |takes|
    ensures Bytes(takes[a..b + 1]) <= Allowed(rate, 1.0 + takes[b].returned - takes[a].called)
  {
    hide Allowed, Bytes, TokensAfter;
    Spent(rate, start, takes, a, b);
    var first, last := takes[a], takes[b];
    assert TakeOk(rate, start, takes, a) && TakeOk(rate, start, takes, b);
    AllowedAdds(rate, 1.0, last.now - first.now);
    AllowedAdds(rate, 1.0 + last.now - first.now, last.returned - last.now);
    AllowedAdds(rate, 1.0 + last.returned - first.now, first.now - first.called);
    AllowedSign(rate, first.now - first.called);
  }

  /** The last take at which the bucket had filled up: since then the bytes read, the second's
      worth it held and the time that has passed account for what it holds now. */
  lemma {:induction false} SinceFull(rate: real, start: real, takes: seq<Take>, b: nat) returns (j: nat)
    requires Paced(rate, start, takes) && b < |takes|
    ensures j <= b
    ensures Bytes(takes[j..b + 1]) + TokensAfter(rate, start, takes, b + 1) == rate + Allowed(rate, takes[b].now - takes[j].now)
  {
    assert TakeOk(rate, start, takes, b);
    var elapsed := takes[b].now - Previous(start, takes, b);
    hide Allowed;
    AllowedSign(rate, elapsed);
    if TokensAfter(rate, start, takes, b) + Allowed(rate, elapsed) >= rate {
      j := b;
      assert takes[b..b + 1][..0] == [] && Bytes(takes[b..b + 1]) == Bytes([]) + takes[b].count;
      assert takes[b].now - takes[b].now == 0.0;
    } else {
      j := SinceFull(rate, start, takes, b - 1);
      var part := takes[j..b + 1];
      assert part[..b - j] == takes[j..b];
      AllowedAdds(rate, takes[b - 1].now - takes[j].now, elapsed);
    }
  }

  /** No wait is longer than the bound asks for: when a wait is over, the bytes since some
      earlier take are exactly what the rate allows for the time since, plus one second's worth. */
  lemma WaitIsNeeded(rate: real, start: real, takes: seq<Take>, b: nat, wait: real) returns (j: nat)
    requires Paced(rate, start, takes) && b < |takes| && Allowed(rate, wait) == -TokensAfter(rate, start, takes, b + 1)
    ensures j <= b
    ensures Bytes(takes[j..b + 1]) == Allowed(rate, 1.0 + takes[b].now + wait - takes[j].now)
  {
    j := SinceFull(rate, start, takes, b);
    hide Allowed, Bytes, TokensAfter;
    AllowedSign(rate, 0.0);
    AllowedAdds(rate, 1.0, takes[b].now - takes[j].now);
    AllowedAdds(rate, 1.0 + takes[b].now - takes[j].now, wait);
    assert 1.0 + takes[b].now - takes[j].now + wait == 1.0 + takes[b].now + wait - takes[j].now;
  }

  /** The bound is reached: a full bucket emptied at once and overdrawn by any amount. */
  lemma BoundIsTight(rate: real, start: real, over: real)
    requires rate > 0.0 && over >= 0.0
    ensures var takes := [Take(start, start, Allowed(rate, 1.0 + over), start + over)];
            && Paced(rate, start, takes)
            && Bytes(takes[0..1]) == Allowed(rate, 1.0 + takes[0].returned - takes[0].called)
  {
    var t := Take(start, start, Allowed(rate, 1.0 + over), start + over);
    var takes := [t];
    hide Allowed;
    AllowedSign(rate, over);
    AllowedAdds(rate, 1.0, over);
    AllowedSign(rate, 1.0 + over);
    assert t.returned - t.now == over && t.now - Previous(start, takes, 0) == 0.0;
    assert TokensAfter(rate, start, takes, 1) == Balance(rate, rate, 0.0, t.count);
    assert takes[0..1] == takes && takes[..0] == [];
    assert Bytes(takes) == t.count;
  }

  /** Pace a sequence of reads, given by clock and size, through one bucket; each returns
      exactly when its wait is over. */
  method PaceAll(rate: real, start: real, chunks: seq<(real, real)>) returns (takes: seq<Take>)
    requires rate > 0.0 && InOrder(start, chunks)
    ensures |takes| == |chunks| && Paced(rate, start, takes)
    ensures forall k | 0 <= k < |chunks| :: takes[k].now == chunks[k].0 && takes[k].count == chunks[k].1
  {
    hide Allowed, Min;
    var bucket := new Bucket(rate, start);
    takes := [];
    for k := 0 to |chunks|
      invariant fresh(bucket) && bucket.Valid() && bucket.rate == rate && |takes| == k
      invariant bucket.at == Previous(start, takes, k)
      invariant bucket.tokens == TokensAfter(rate, start, takes, k)
      invariant forall j | 0 <= j < k :: takes[j].now == chunks[j].0 && takes[j].count == chunks[j].1
      invariant Paced(rate, start, takes)
    {
      var now, count := chunks[k].0, chunks[k].1;
      assert k > 0 ==> chunks[k - 1].0 <= chunks[k].0;
      var wait := bucket.Pay(now, count);
      var t := Take(now, now, count, if wait > 0.0 then now + wait else now);
      WaitIsEnough(rate, now, wait);
      PacedSnoc(rate, start, takes, t);
      takes := takes + [t];
    }
  }

  predicate InOrder(start: real, chunks: seq<(real, real)>) {
    && (forall k | 0 <= k < |chunks| :: chunks[k].1 >= 0.0)
    && (chunks != [] ==> start <= chunks[0].0)
    && (forall k | 0 <= k < |chunks| - 1 :: chunks[k].0 <= chunks[k + 1].0)
  }

  lemma PacedSnoc(rate: real, start: real, takes: seq<Take>, t: Take)
    requires Paced(rate, start, takes)
    requires t.count >= 0.0 && t.called <= t.now <= t.returned && Previous(start, takes, |takes|) <= t.now
    requires Allowed(rate, t.returned - t.now)
          >= -Balance(rate, TokensAfter(rate, start, takes, |takes|), t.now - Previous(start, takes, |takes|), t.count)
    ensures Paced(rate, start, takes + [t])
    ensures TokensAfter(rate, start, takes + [t], |takes| + 1)
         == Balance(rate, TokensAfter(rate, start, takes, |takes|), t.now - Previous(start, takes, |takes|), t.count)
  {
    hide Allowed, Balance;
    TokensAfterPrefix(rate, start, takes, [t], |takes|);
    forall k | 0 <= k < |takes| ensures TakeOk(rate, start, takes + [t], k) {
      assert TakeOk(rate, start, takes, k);
      TokensAfterPrefix(rate, start, takes, [t], k + 1);
    }
  }

  lemma WaitIsEnough(rate: real, now: real, wait: real)
    requires rate > 0.0
    ensures Allowed(rate, (if wait > 0.0 then now + wait else now) - now) >= Allowed(rate, wait)
  {
    if wait <= 0.0 {
      assert wait * rate <= 0.0;
    }
  }

  lemma {:induction false} TokensAfterPrefix(rate: real, start: real, a: seq<Take>, b: seq<Take>, n: nat)
    requires n <= |a|
    ensures TokensAfter(rate, start, a + b, n) == TokensAfter(rate, start, a, n)
  {
    hide Balance;
    if n > 0 {
      TokensAfterPrefix(rate, start, a, b, n - 1);
    }
  }
}
