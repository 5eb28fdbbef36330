/** The reconnect worker's back-off, which publisher and subscriber compute alike. */
module Backoff {
  import opened Prelude

  /** Milliseconds are whole and not negative; the multiplier is the configured factor, without
      the rounding of `double`. */
  datatype Policy = Policy(
    enabled: bool, maxRetries: u32, initialDelay: nat, maxDelay: nat, multiplier: real, jitter: bool)
  {
    predicate Valid() { multiplier >= 0.0 }
  }

  /** Scaling, then capping at the maximum. */
  function Scale(p: Policy, delay: nat): nat
    requires p.Valid()
  {
    var scaled := (delay as real * p.multiplier).Floor;
    ScaleNotNegative(delay, p.multiplier);
    if scaled > p.maxDelay then p.maxDelay else scaled
  }

  lemma ScaleNotNegative(delay: nat, m: real)
    requires m >= 0.0
    ensures (delay as real * m).Floor >= 0
  {
    assert delay as real * m >= 0.0;
  }

  function NextDelay(p: Policy, delay: nat, draw: nat): nat
    requires p.Valid()
  {
    var capped := Scale(p, delay);
    if p.jitter then capped + draw % (capped / 4 + 1) else capped
  }

  /** One sleep can follow another, for some random draw. */
  ghost predicate CanFollow(p: Policy, delay: nat, next: nat)
    requires p.Valid()
  {
    exists draw: nat :: next == NextDelay(p, delay, draw)
  }

  /** Successive sleeps of one worker. */
  ghost predicate IsBackoff(p: Policy, sleeps: seq<nat>)
    requires p.Valid()
  {
    && (sleeps != [] ==> sleeps[0] == p.initialDelay)
    && forall k, l :: 0 <= k < l < |sleeps| && l == k + 1 ==> CanFollow(p, sleeps[k], sleeps[l])
  }

  /** A delay is scaled to the product rounded down to whole milliseconds, or to the maximum if that is
      less, for any multiplier. */
  lemma ScaleIsFloor(p: Policy, delay: nat)
    requires p.Valid()
    ensures var scaled := Scale(p, delay);
      if delay as real * p.multiplier >= (p.maxDelay + 1) as real then scaled == p.maxDelay
      else scaled <= p.maxDelay && scaled as real <= delay as real * p.multiplier < scaled as real + 1.0
  {
  }

  /** The next sleep can be each value from the scaled delay to a quarter above it, both included, and no
      other; without jitter it is the scaled delay. */
  lemma DrawsReach(p: Policy, delay: nat, next: nat)
    requires p.Valid()
    ensures CanFollow(p, delay, next)
       <==> if p.jitter then Scale(p, delay) <= next <= Scale(p, delay) + Scale(p, delay) / 4 else next == Scale(p, delay)
  {
    hide Scale;
    var capped := Scale(p, delay);
    if p.jitter && capped <= next <= capped + capped / 4 {
      assert (next - capped) % (capped / 4 + 1) == next - capped;
      assert next == NextDelay(p, delay, next - capped);
    } else if !p.jitter && next == capped {
      assert next == NextDelay(p, delay, 0);
    }
  }

  // ---- The back-off sandwich ----

  /** The k-th sleep without jitter. */
  function Bare(p: Policy, k: nat): nat
    requires p.Valid()
  {
    if k == 0 then p.initialDelay else Scale(p, Bare(p, k - 1))
  }

  lemma ScaleMonotone(p: Policy, d: nat, e: nat)
    requires p.Valid() && d <= e
    ensures Scale(p, d) <= Scale(p, e) <= p.maxDelay
  {
    ProductMonotone(d as real, e as real, p.multiplier);
  }

  lemma ProductMonotone(a: real, b: real, m: real)
    requires 0.0 <= a <= b && m >= 0.0
    ensures (a * m).Floor <= (b * m).Floor
  {
    assert (b - a) * m >= 0.0;
    assert b * m == a * m + (b - a) * m;
  }

  /** For any multiplier and any draws: no sleep is shorter than without jitter, and from the
      second on none is longer than the maximum and a quarter. */
  lemma {:induction false} BackoffBounds(p: Policy, sleeps: seq<nat>, k: nat)
    requires p.Valid() && IsBackoff(p, sleeps) && k < |sleeps|
    ensures Bare(p, k) <= sleeps[k]
    ensures k > 0 ==> sleeps[k] <= p.maxDelay + p.maxDelay / 4
    ensures !p.jitter ==> sleeps[k] == Bare(p, k)
  {
    if k > 0 {
      BackoffBounds(p, sleeps, k - 1);
      var j := k - 1;
      assert CanFollow(p, sleeps[j], sleeps[k]);
      var draw: nat :| sleeps[k] == NextDelay(p, sleeps[j], draw);
      ScaleMonotone(p, Bare(p, j), sleeps[j]);
      var capped := Scale(p, sleeps[j]);
      assert capped / 4 <= p.maxDelay / 4;
    }
  }

  function Power(m: nat, k: nat): nat { if k == 0 then 1 else Power(m, k - 1) * m }

  function Min(a: nat, b: nat): nat { if a <= b then a else b }

  lemma ScaleWhole(p: Policy, m: nat, delay: nat)
    requires p.Valid() && p.multiplier == m as real
    ensures Scale(p, delay) == Min(delay * m, p.maxDelay)
  {
    assert delay as real * m as real == (delay * m) as real;
  }

  /** With a whole multiplier the bare sleeps are the capped geometric sequence. */
  lemma {:induction false} BareIsGeometric(p: Policy, m: nat, k: nat)
    requires p.Valid() && m >= 1 && p.multiplier == m as real
    ensures Min(p.initialDelay * Power(m, k), p.maxDelay) <= Bare(p, k)
    ensures k > 0 || p.initialDelay <= p.maxDelay ==> Bare(p, k) == Min(p.initialDelay * Power(m, k), p.maxDelay)
  {
    if k > 0 {
      BareIsGeometric(p, m, k - 1);
      ScaleWhole(p, m, Bare(p, k - 1));
      CappedProduct(p.initialDelay * Power(m, k - 1), m, p.maxDelay, Bare(p, k - 1), p.initialDelay);
      assert p.initialDelay * Power(m, k - 1) * m == p.initialDelay * Power(m, k) by {
        MulAssociative(p.initialDelay, Power(m, k - 1), m);
      }
    }
  }

  lemma MulAssociative(a: nat, b: nat, c: nat)
    ensures a * b * c == a * (b * c)
  {
  }

  /** Capping before and after a multiplication, or after it only, is the same. */
  lemma CappedProduct(x: nat, m: nat, cap: nat, y: nat, initial: nat)
    requires m >= 1 && Min(x, cap) <= y && (y == Min(x, cap) || y == x)
    ensures Min(y * m, cap) == Min(x * m, cap)
  {
    assert x * m >= x && y * m >= y;
    if y != x {
      assert y == cap <= x;
      assert x * m >= cap && y * m >= cap;
    }
  }

  /** The sandwich: for every whole multiplier and every jitter choice the k-th sleep lies between
      the capped geometric sequence and the maximum plus a quarter, and without jitter it is that
      sequence. */
  lemma BackoffSandwich(p: Policy, m: nat, sleeps: seq<nat>, k: nat)
    requires p.Valid() && m >= 1 && p.multiplier == m as real && p.initialDelay <= p.maxDelay
    requires IsBackoff(p, sleeps) && k < |sleeps|
    ensures Min(p.initialDelay * Power(m, k), p.maxDelay) <= sleeps[k] <= p.maxDelay + p.maxDelay / 4
    ensures !p.jitter ==> sleeps[k] == Min(p.initialDelay * Power(m, k), p.maxDelay)
  {
    BackoffBounds(p, sleeps, k);
    BareIsGeometric(p, m, k);
  }

  /** The first sleep is not capped: the upper bound holds for all sleeps of a worker if and only
      if the initial delay itself keeps it. */
  lemma UpperBoundIff(p: Policy, sleeps: seq<nat>)
    requires p.Valid() && IsBackoff(p, sleeps) && sleeps != []
    ensures (forall k :: 0 <= k < |sleeps| ==> sleeps[k] <= p.maxDelay + p.maxDelay / 4)
       <==> p.initialDelay <= p.maxDelay + p.maxDelay / 4
  {
    forall k: nat | k < |sleeps| && k > 0 ensures sleeps[k] <= p.maxDelay + p.maxDelay / 4 {
      BackoffBounds(p, sleeps, k);
    }
    assert sleeps[0] == p.initialDelay;
  }
}
