/** Retries of the merchant webhook. */
module Backoff {
  function Pow2(n: nat): (p: nat)
    ensures p >= 1
  {
    if n == 0 then 1 else 2 * Pow2(n - 1)
  }

  const CAP: real := 3600.0

  function Times(base: real, n: nat): real {
    base * (n as real)
  }

  function Capped(delay: real): real {
    if delay < CAP then delay else CAP
  }

  /** `min(3600, base * 2^(attempt - 1) + jitter)`. */
  function Delay(base: real, attempt: nat, jitter: real): real
    requires attempt >= 1
  {
    Capped(Times(base, Pow2(attempt - 1)) + jitter)
  }

  lemma TimesSum(base: real, m: nat, n: nat)
    ensures Times(base, m + n) == Times(base, m) + Times(base, n)
  { }

  lemma TimesOne(base: real)
    ensures Times(base, 1) == base && Times(base, 0) == 0.0
  { }

  lemma {:induction false} TimesPositive(base: real, n: nat)
    requires base >= 0.0
    ensures Times(base, n) >= 0.0
  { }

  /** The first delay is the base and its jitter; from one attempt to the next all but the jitter doubles, until the cap
      of an hour is reached and kept. */
  lemma DelayDoubles(base: real, attempt: nat, j: real, k: real)
    requires attempt >= 1 && 0.0 <= j <= base && 0.0 <= k <= base
    ensures Delay(base, 1, j) == if base + j < 3600.0 then base + j else 3600.0
    ensures var now, next := Delay(base, attempt, j), Delay(base, attempt + 1, k);
      && (now < 3600.0 ==> next == if 2.0 * (now - j) + k < 3600.0 then 2.0 * (now - j) + k else 3600.0)
      && (now >= 3600.0 ==> next == 3600.0 == now)
  {
    DelaysNeverShrink(base, attempt, j, k);
    hide Times;
    var p := Pow2(attempt - 1);
    TimesOne(base);
    TimesSum(base, p, p);
  }

  /** Jitter never undoes the exponential growth: later delays are never shorter. */
  lemma DelaysNeverShrink(base: real, attempt: nat, j: real, k: real)
    requires attempt >= 1 && 0.0 <= j <= base && 0.0 <= k <= base
    ensures 0.0 <= Delay(base, attempt, j) <= Delay(base, attempt + 1, k) <= 3600.0
  {
    hide Times;
    var p := Pow2(attempt - 1);
    assert Pow2(attempt) == p + 1 + (p - 1);
    TimesSum(base, p, 1 + (p - 1));
    TimesSum(base, 1, p - 1);
    TimesOne(base);
    TimesPositive(base, p);
    TimesPositive(base, p - 1);
  }

  /** The total of the first `|jitters|` delays. */
  function TotalDelay(base: real, jitters: seq<real>): real {
    if jitters == [] then 0.0
    else TotalDelay(base, jitters[..|jitters| - 1]) + Delay(base, |jitters|, jitters[|jitters| - 1])
  }

  ghost predicate Jitters(base: real, jitters: seq<real>) {
    forall i :: 0 <= i < |jitters| ==> 0.0 <= jitters[i] <= base
  }

  /** `n` delays total at most `base (2^n - 1 + n)` ... */
  lemma {:induction false} TotalGrowsGeometrically(base: real, jitters: seq<real>)
    requires base >= 0.0 && Jitters(base, jitters)
    ensures TotalDelay(base, jitters) <= Times(base, Pow2(|jitters|) - 1 + |jitters|)
  {
    hide Times;
    TimesOne(base);
    if jitters != [] {
      var n, front := |jitters|, jitters[..|jitters| - 1];
      TotalGrowsGeometrically(base, front);
      var p := Pow2(n - 1);
      assert Pow2(n) - 1 + n == (p - 1 + (n - 1)) + (p + 1);
      TimesSum(base, p - 1 + (n - 1), p + 1);
      TimesSum(base, p, 1);
    }
  }

  /** ... and at most `3600 n`. */
  lemma {:induction false} TotalIsCapped(base: real, jitters: seq<real>)
    requires base >= 0.0 && Jitters(base, jitters)
    ensures 0.0 <= TotalDelay(base, jitters) <= Times(CAP, |jitters|)
  {
    hide Times;
    TimesOne(CAP);
    if jitters != [] {
      var n := |jitters|;
      TotalIsCapped(base, jitters[..n - 1]);
      TimesSum(CAP, n - 1, 1);
      TimesPositive(base, Pow2(n - 1));
    }
  }

  ghost predicate Waited(base: real, jitter: nat -> real, waits: seq<real>) {
    forall i :: 0 <= i < |waits| ==> waits[i] == Delay(base, i + 1, jitter(i + 1))
  }

  lemma {:induction false} WaitsNeverShrink(base: real, jitter: nat -> real, waits: seq<real>, i: nat, j: nat)
    requires Waited(base, jitter, waits) && forall n: nat :: 0.0 <= jitter(n) <= base
    requires i <= j < |waits|
    ensures waits[i] <= waits[j] <= CAP
    decreases j
  {
    if i < j {
      WaitsNeverShrink(base, jitter, waits, i, j - 1);
      DelaysNeverShrink(base, j, jitter(j), jitter(j + 1));
    }
  }

  /** The task re-enters itself through `self.retry` until a delivery succeeds or the retries are used up: `maxRetries`
      retries are `maxRetries + 1` attempts. Attempt `i` succeeds when `ok(i)`; before attempt `i + 1` it waits. */
  method Deliver(base: real, maxRetries: nat, ok: nat -> bool, jitter: nat -> real)
    returns (delivered: bool, attempts: nat, waits: seq<real>)
    ensures 1 <= attempts <= maxRetries + 1 && |waits| == attempts - 1
    ensures delivered <==> exists i: nat :: 1 <= i <= maxRetries + 1 && ok(i)
    ensures delivered ==> ok(attempts)
    ensures forall i: nat :: 1 <= i < attempts ==> !ok(i)
    ensures !delivered ==> attempts == maxRetries + 1
    ensures Waited(base, jitter, waits)
  {
    hide Delay;
    var retries: nat := 0;
    waits := [];
    attempts := 1;
    while !ok(attempts) && retries < maxRetries
      invariant attempts == retries + 1 <= maxRetries + 1 && |waits| == retries
      invariant forall i: nat :: 1 <= i <= retries ==> !ok(i)
      invariant Waited(base, jitter, waits)
    {
      waits := waits + [Delay(base, attempts, jitter(attempts))];
      retries := retries + 1;
      attempts := retries + 1;
    }
    delivered := ok(attempts);
  }
}
