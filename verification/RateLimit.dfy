/** The fixed-window limiter. Times are milliseconds of the Redis clock. */
module RateLimit {
  const LIMIT: nat := 120
  const WINDOW: int := 60_000
  /** `window * 2` seconds, refreshed by every increment. */
  const TTL: int := 120_000

  /** A request: the clock it read, and when its increment ran. */
  datatype Hit = Hit(identity: string, clock: nat, at: nat)

  datatype Key = Key(identity: string, bucket: int)

  datatype Counter = Counter(count: nat, expires: int)

  type Store = map<Key, Counter>

  function NowMs(seconds: nat, micros: nat): nat {
    seconds * 1000 + micros / 1000
  }

  function Bucket(clock: nat): int {
    clock / WINDOW
  }

  function KeyOf(h: Hit): Key {
    Key(h.identity, Bucket(h.clock))
  }

  /** The clock in milliseconds, cut off below, of a time given in seconds and microseconds. */
  lemma NowMsTells(seconds: nat, micros: nat)
    ensures NowMs(seconds, micros) * 1000 <= seconds * 1_000_000 + micros < NowMs(seconds, micros) * 1000 + 1000
  { }

  /** Two requests share a counter exactly when one identity makes them in the same minute. */
  lemma SameCounterExactlyWhen(i: string, s: nat, u: nat, at: nat, j: string, r: nat, v: nat, later: nat)
    requires u < 1_000_000 && v < 1_000_000
    ensures KeyOf(Hit(i, NowMs(s, u), at)) == KeyOf(Hit(j, NowMs(r, v), later)) <==> i == j && s / 60 == r / 60
  {
    MinuteOf(s, u);
    MinuteOf(r, v);
  }

  lemma MinuteOf(seconds: nat, micros: nat)
    requires micros < 1_000_000
    ensures Bucket(NowMs(seconds, micros)) == seconds / 60
  {
    var ms, minute := NowMs(seconds, micros), seconds / 60;
    assert minute * 60 <= seconds < minute * 60 + 60;
    assert minute * 60_000 <= ms < (minute + 1) * 60_000;
  }

  /** `INCR` then `EXPIRE`: an expired counter starts again at one. */
  function Increment(store: Store, key: Key, at: int): (counter: Counter) {
    Counter(if key in store && at < store[key].expires then store[key].count + 1 else 1, at + TTL)
  }

  function After(hits: seq<Hit>): Store {
    if hits == [] then map[]
    else
      var h, before := hits[|hits| - 1], After(hits[..|hits| - 1]);
      before[KeyOf(h) := Increment(before, KeyOf(h), h.at)]
  }

  /** The count that hit `i` is answered with. */
  function CountAt(hits: seq<Hit>, i: nat): nat
    requires i < |hits|
  {
    After(hits[..i + 1])[KeyOf(hits[i])].count
  }

  predicate AdmittedAt(hits: seq<Hit>, i: nat)
    requires i < |hits|
  {
    CountAt(hits, i) <= LIMIT
  }

  /** How many of the hits fall under a key. */
  function Occurrences(hits: seq<Hit>, key: Key): nat {
    if hits == [] then 0 else Occurrences(hits[..|hits| - 1], key) + if KeyOf(hits[|hits| - 1]) == key then 1 else 0
  }

  /** Every increment runs within a window of its clock read. */
  ghost predicate Prompt(hits: seq<Hit>) {
    forall i :: 0 <= i < |hits| ==> hits[i].clock <= hits[i].at <= hits[i].clock + 60_000
  }

  // ---- The counter is exact --------------------------------------------------

  /** The refreshed expiry never drops a bucket that can still be counted. */
  lemma {:induction false} StoreIsExact(hits: seq<Hit>, key: Key)
    requires Prompt(hits)
    ensures key in After(hits) <==> Occurrences(hits, key) > 0
    ensures key in After(hits) ==>
      After(hits)[key].count == Occurrences(hits, key) && After(hits)[key].expires >= key.bucket * WINDOW + TTL
  {
    if hits != [] {
      var front, h := hits[..|hits| - 1], hits[|hits| - 1];
      StoreIsExact(front, key);
      if KeyOf(h) == key {
        assert h == hits[|hits| - 1];
        assert key.bucket * WINDOW <= h.clock < (key.bucket + 1) * WINDOW;
      }
    }
  }

  /** A request is answered with the number of requests of its identity in its bucket so far, itself included. */
  lemma CountIsExact(hits: seq<Hit>, i: nat)
    requires Prompt(hits) && i < |hits|
    ensures CountAt(hits, i) == Occurrences(hits[..i + 1], KeyOf(hits[i]))
  {
    var upTo := hits[..i + 1];
    assert upTo[|upTo| - 1] == hits[i];
    StoreIsExact(upTo, KeyOf(hits[i]));
  }

  /** The assumption is tight: an increment one millisecond later than a window can find its bucket forgotten. */
  lemma SlowIncrementForgets(identity: string)
    ensures var hits := [Hit(identity, 0, 0), Hit(identity, 59_999, 120_000)];
      && hits[1].at == hits[1].clock + 60_001
      && Occurrences(hits, KeyOf(hits[1])) == 2 && CountAt(hits, 1) == 1
  {
    var hits := [Hit(identity, 0, 0), Hit(identity, WINDOW - 1, 2 * WINDOW)];
    assert hits[..2] == hits && hits[..1] == [hits[0]] && hits[..0] == [];
    assert Bucket(hits[0].clock) == 0 == Bucket(hits[1].clock);
    var one := [hits[0]];
    assert one[..|one| - 1] == [];
    assert After(one) == map[KeyOf(hits[0]) := Counter(1, TTL)];
    assert hits[..|hits| - 1] == one;
    assert Occurrences(one, KeyOf(hits[1])) == 1;
  }

  // ---- How many are admitted -------------------------------------------------

  /** Admitted requests of an identity whose bucket lies in `[first, end)`. */
  function AdmittedInBuckets(hits: seq<Hit>, identity: string, first: int, end: int): nat {
    if hits == [] then 0
    else
      var n := |hits| - 1;
      AdmittedInBuckets(hits[..n], identity, first, end)
      + if hits[n].identity == identity && first <= Bucket(hits[n].clock) < end && AdmittedAt(hits, n) then 1 else 0
  }

  /** Admitted requests of an identity whose clock read lies in `[lo, hi)`. */
  function AdmittedBetween(hits: seq<Hit>, identity: string, lo: int, hi: int): nat {
    if hits == [] then 0
    else
      var n := |hits| - 1;
      AdmittedBetween(hits[..n], identity, lo, hi)
      + if hits[n].identity == identity && lo <= hits[n].clock < hi && AdmittedAt(hits, n) then 1 else 0
  }

  function Min(a: nat, b: nat): nat { if a < b then a else b }

  /** Of `n` requests of one identity in one bucket, exactly `min(n, 120)` are admitted. */
  lemma {:induction false} AdmittedPerBucket(hits: seq<Hit>, identity: string, bucket: int)
    requires Prompt(hits)
    ensures AdmittedInBuckets(hits, identity, bucket, bucket + 1)
         == Min(Occurrences(hits, Key(identity, bucket)), 120)
  {
    if hits != [] {
      var n := |hits| - 1;
      AdmittedPerBucket(hits[..n], identity, bucket);
      CountIsExact(hits, n);
      assert hits[..n + 1] == hits;
    }
  }

  lemma {:induction false} BucketsAddUp(hits: seq<Hit>, identity: string, first: int, mid: int, end: int)
    requires first <= mid <= end
    ensures AdmittedInBuckets(hits, identity, first, end)
         == AdmittedInBuckets(hits, identity, first, mid) + AdmittedInBuckets(hits, identity, mid, end)
  {
    if hits != [] { BucketsAddUp(hits[..|hits| - 1], identity, first, mid, end); }
  }

  lemma {:induction false} AdmittedPerBuckets(hits: seq<Hit>, identity: string, first: int, end: int)
    requires Prompt(hits) && first <= end
    ensures AdmittedInBuckets(hits, identity, first, end) <= LIMIT * (end - first)
    decreases end - first
  {
    BucketsAddUp(hits, identity, first, first, first);
    if first < end {
      AdmittedPerBuckets(hits, identity, first, end - 1);
      AdmittedPerBucket(hits, identity, end - 1);
      BucketsAddUp(hits, identity, first, end - 1, end);
    }
  }

  lemma {:induction false} IntervalWithinBuckets(hits: seq<Hit>, identity: string, lo: nat, hi: nat, first: int,
                                                 end: int)
    requires first * WINDOW <= lo && hi <= end * WINDOW
    ensures AdmittedBetween(hits, identity, lo, hi) <= AdmittedInBuckets(hits, identity, first, end)
  {
    if hits != [] {
      IntervalWithinBuckets(hits[..|hits| - 1], identity, lo, hi, first, end);
      var clock := hits[|hits| - 1].clock;
      if lo <= clock < hi { assert first <= Bucket(clock) < end; }
    }
  }

  /** Any `k` minutes, wherever they start, admit at most `120 * (k + 1)` requests of one identity. */
  lemma AnyIntervalIsBounded(hits: seq<Hit>, identity: string, lo: nat, k: nat)
    requires Prompt(hits)
    ensures AdmittedBetween(hits, identity, lo, lo + k * 60_000) <= 120 * (k + 1)
  {
    var first := Bucket(lo);
    IntervalWithinBuckets(hits, identity, lo, lo + k * WINDOW, first, first + k + 1);
    AdmittedPerBuckets(hits, identity, first, first + k + 1);
  }

  // ---- The bound is reached --------------------------------------------------

  function Burst(identity: string, clock: nat, n: nat): seq<Hit> {
    if n == 0 then [] else Burst(identity, clock, n - 1) + [Hit(identity, clock, clock)]
  }

  lemma PromptAppend(hits: seq<Hit>, h: Hit)
    requires Prompt(hits) && h.clock <= h.at <= h.clock + WINDOW
    ensures Prompt(hits + [h])
    ensures forall key :: Occurrences(hits + [h], key) == Occurrences(hits, key) + if KeyOf(h) == key then 1 else 0
  { }

  lemma {:induction false} BurstOccurs(prefix: seq<Hit>, identity: string, clock: nat, n: nat, key: Key)
    requires Prompt(prefix)
    ensures Prompt(prefix + Burst(identity, clock, n))
    ensures Occurrences(prefix + Burst(identity, clock, n), key)
         == Occurrences(prefix, key) + if key == Key(identity, Bucket(clock)) then n else 0
  {
    if n == 0 {
      assert prefix + Burst(identity, clock, 0) == prefix;
    } else {
      BurstOccurs(prefix, identity, clock, n - 1, key);
      var fewer := prefix + Burst(identity, clock, n - 1);
      PromptAppend(fewer, Hit(identity, clock, clock));
      assert prefix + Burst(identity, clock, n) == fewer + [Hit(identity, clock, clock)];
    }
  }

  lemma {:induction false} AllWithin(hits: seq<Hit>, identity: string, lo: nat, hi: nat, first: int, end: int)
    requires forall h :: h in hits ==> lo <= h.clock < hi && first <= Bucket(h.clock) < end
    ensures AdmittedBetween(hits, identity, lo, hi) == AdmittedInBuckets(hits, identity, first, end)
  {
    if hits != [] {
      AllWithin(hits[..|hits| - 1], identity, lo, hi, first, end);
      assert hits[|hits| - 1] in hits;
    }
  }

  lemma {:induction false} FullBuckets(hits: seq<Hit>, identity: string, first: int, end: int)
    requires Prompt(hits) && first <= end
    requires forall b :: first <= b < end ==> Occurrences(hits, Key(identity, b)) == LIMIT
    ensures AdmittedInBuckets(hits, identity, first, end) == LIMIT * (end - first)
    decreases end - first
  {
    BucketsAddUp(hits, identity, first, first, first);
    if first < end {
      FullBuckets(hits, identity, first, end - 1);
      AdmittedPerBucket(hits, identity, end - 1);
      BucketsAddUp(hits, identity, first, end - 1, end);
    }
  }

  lemma {:induction false} BurstClocks(identity: string, clock: nat, n: nat)
    ensures forall h :: h in Burst(identity, clock, n) ==> h.clock == clock
  {
    if n > 0 { BurstClocks(identity, clock, n - 1); }
  }

  /** When the `j`-th bucket after that of `lo` begins; `lo` itself for none. */
  function Opening(lo: nat, j: nat): nat {
    if j == 0 then lo else (lo / WINDOW + j) * WINDOW
  }

  /** The whole limit at `lo`, and again at the start of each of the next `k` buckets. */
  function Crowd(identity: string, lo: nat, k: nat): seq<Hit> {
    (if k == 0 then [] else Crowd(identity, lo, k - 1)) + Burst(identity, Opening(lo, k), LIMIT)
  }

  lemma {:induction false} CrowdOccurs(identity: string, lo: nat, k: nat, b: int)
    ensures Prompt(Crowd(identity, lo, k))
    ensures Occurrences(Crowd(identity, lo, k), Key(identity, b))
         == if Bucket(lo) <= b <= Bucket(lo) + k then LIMIT else 0
  {
    hide Burst, Prompt, Occurrences;
    Nothing(Key(identity, b));
    if k > 0 { CrowdOccurs(identity, lo, k - 1, b); }
    BurstOccurs(if k == 0 then [] else Crowd(identity, lo, k - 1), identity, Opening(lo, k), LIMIT, Key(identity, b));
    assert Bucket(Opening(lo, k)) == Bucket(lo) + k;
  }

  lemma {:induction false} CrowdClocks(identity: string, lo: nat, k: nat)
    ensures forall h :: h in Crowd(identity, lo, k) ==>
      lo <= h.clock <= Opening(lo, k) && Bucket(lo) <= Bucket(h.clock) <= Bucket(lo) + k
  {
    hide Burst;
    if k > 0 { CrowdClocks(identity, lo, k - 1); }
    BurstClocks(identity, Opening(lo, k), LIMIT);
    assert Bucket(Opening(lo, k)) == Bucket(lo) + k;
  }

  lemma Nothing(key: Key)
    ensures Prompt([]) && Occurrences([], key) == 0
  { }

  /** The crowd is admitted as a whole, `120 * (k + 1)` requests, from `lo` to the start of the last bucket. */
  lemma CrowdIsAdmitted(identity: string, lo: nat, k: nat, hi: nat)
    requires Opening(lo, k) < hi
    ensures Prompt(Crowd(identity, lo, k))
    ensures AdmittedBetween(Crowd(identity, lo, k), identity, lo, hi) == LIMIT * (k + 1)
  {
    hide Burst, Prompt, Occurrences, AdmittedInBuckets, AdmittedBetween, Crowd;
    var hits, first := Crowd(identity, lo, k), Bucket(lo);
    CrowdClocks(identity, lo, k);
    AllWithin(hits, identity, lo, hi, first, first + k + 1);
    forall b | first <= b < first + k + 1 ensures Occurrences(hits, Key(identity, b)) == LIMIT {
      CrowdOccurs(identity, lo, k, b);
    }
    CrowdOccurs(identity, lo, k, first);
    FullBuckets(hits, identity, first, first + k + 1);
  }

  /** `k` minutes that start at `lo` admit at most `120 * k` requests exactly when they start with a bucket; from any
      other start one whole limit more can get through. */
  lemma SlidingExactlyWhen(identity: string, lo: nat, k: nat)
    requires k > 0
    ensures lo % 60_000 == 0 ==>
      forall hits :: Prompt(hits) ==> AdmittedBetween(hits, identity, lo, lo + k * 60_000) <= 120 * k
    ensures lo % 60_000 != 0 ==>
      exists hits :: Prompt(hits) && AdmittedBetween(hits, identity, lo, lo + k * 60_000) == 120 * (k + 1)
  {
    hide Prompt, AdmittedBetween, AdmittedInBuckets, Crowd;
    var first := Bucket(lo);
    if lo % WINDOW == 0 {
      forall hits | Prompt(hits) ensures AdmittedBetween(hits, identity, lo, lo + k * WINDOW) <= LIMIT * k {
        IntervalWithinBuckets(hits, identity, lo, lo + k * WINDOW, first, first + k);
        AdmittedPerBuckets(hits, identity, first, first + k);
      }
    } else {
      CrowdIsAdmitted(identity, lo, k, lo + k * WINDOW);
    }
  }

  /** Twice the limit gets through in two milliseconds, around the turn of a minute. */
  lemma DoubleLimitAtTheTurn(identity: string)
    ensures Prompt(Crowd(identity, 59_999, 1))
    ensures AdmittedBetween(Crowd(identity, 59_999, 1), identity, 59_999, 60_001) == 240
  {
    CrowdIsAdmitted(identity, WINDOW - 1, 1, WINDOW + 1);
  }

  // ---- The middleware --------------------------------------------------------

  class Limiter {
    var store: Store
    ghost var hits: seq<Hit>

    ghost predicate Valid()
      reads this
    {
      store == After(hits)
    }

    constructor ()
      ensures Valid() && hits == []
    {
      store, hits := map[], [];
    }

    /** `at` is when Redis ran the pipelined increment. */
    method Dispatch(identity: string, seconds: nat, micros: nat, at: nat)
      returns (admitted: bool, remaining: nat, reset: int)
      requires Valid()
      modifies this
      ensures Valid() && hits == old(hits) + [Hit(identity, NowMs(seconds, micros), at)]
      ensures admitted <==> AdmittedAt(hits, |old(hits)|)
      ensures Prompt(hits) ==>
        var seen := Occurrences(hits, Key(identity, Bucket(NowMs(seconds, micros))));
        (admitted <==> seen <= 120) && remaining == (if admitted then 120 - seen else 0)
      ensures reset * 1000 <= NowMs(seconds, micros) < reset * 1000 + 60_000
      ensures micros < 1_000_000 ==> reset <= seconds < reset + 60 && reset % 60 == 0
    {
      var nowMs := NowMs(seconds, micros);
      var bucket := Bucket(nowMs);
      var key := Key(identity, bucket);
      var counter := Increment(store, key, at);
      store := store[key := counter];
      hits := hits + [Hit(identity, nowMs, at)];
      assert hits[..|hits| - 1] == old(hits) && hits[..|hits|] == hits;
      if Prompt(hits) { CountIsExact(hits, |hits| - 1); }
      if micros < 1_000_000 { MinuteOf(seconds, micros); }
      reset := bucket * 60;
      admitted := counter.count <= LIMIT;
      remaining := if counter.count > LIMIT then 0 else LIMIT - counter.count;
    }
  }
}
