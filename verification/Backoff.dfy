/** Exponential backoff (lib/backoff.go) and the retry loops that it ends (gcp/http.go). Durations are in nanoseconds. */
module Backoff {
  import opened Collections

  const INITIAL := 500_000_000
  const MAX_INTERVAL := 60_000_000_000
  const MAX_ELAPSED := 900_000_000_000

  /** The interval before randomisation, after n pauses. */
  function Interval(n: nat): nat {
    if n == 0 then INITIAL
    else Grown(Interval(n - 1))
  }

  function Grown(interval: nat): nat {
    if interval * 3 / 2 > MAX_INTERVAL then MAX_INTERVAL else interval * 3 / 2
  }

  /** The least and the most that n pauses can take. */
  function LeastSum(n: nat): nat { if n == 0 then 0 else LeastSum(n - 1) + Interval(n - 1) / 2 }

  function MostSum(n: nat): nat { if n == 0 then 0 else MostSum(n - 1) + Interval(n - 1) * 3 / 2 }

  lemma {:induction false} IntervalIsPositive(n: nat)
    ensures INITIAL <= Interval(n) <= MAX_INTERVAL
  {
    if n > 0 { IntervalIsPositive(n - 1); }
  }

  lemma {:induction false} SumsGrow(m: nat, n: nat)
    requires m <= n
    ensures LeastSum(m) <= LeastSum(n) && MostSum(m) <= MostSum(n)
  {
    if m < n { SumsGrow(m, n - 1); }
  }

  /** The random factor lies in [0.5, 1.5); the product is truncated. */
  function Randomized(factor: real, interval: nat): (d: int) {
    (factor * (interval as real)).Floor
  }

  lemma ScaledInRange(factor: real, x: real)
    requires 0.5 <= factor < 1.5 && x >= 0.0
    ensures 0.5 * x <= factor * x <= 1.5 * x
  {
    assert (factor - 0.5) * x >= 0.0 && (1.5 - factor) * x >= 0.0;
  }

  lemma RandomizedInRange(factor: real, interval: nat)
    requires 0.5 <= factor < 1.5
    ensures interval / 2 <= Randomized(factor, interval) <= interval * 3 / 2
  {
    ScaledInRange(factor, interval as real);
    FloorInRange(factor * (interval as real), interval);
  }

  lemma FloorInRange(y: real, interval: nat)
    requires 0.5 * (interval as real) <= y <= 1.5 * (interval as real)
    ensures interval / 2 <= y.Floor <= interval * 3 / 2
  {
    assert 2 * y.Floor <= 3 * interval;
    assert 2 * (y.Floor + 1) > interval;
  }

  lemma Tally(n: nat, v: nat, least: nat, most: nat)
    requires Interval(n) == v && LeastSum(n) == least && MostSum(n) == most
    ensures Interval(n + 1) == Grown(v)
    ensures LeastSum(n + 1) == least + v / 2 && MostSum(n + 1) == most + v * 3 / 2
  {
  }

  /** From the thirteenth pause on the interval is at its cap. */
  lemma {:induction false} AtTheCap(k: nat)
    ensures Interval(12 + k) == MAX_INTERVAL
    ensures LeastSum(12 + k) == 64_373_168_942 + 30_000_000_000 * k
    ensures MostSum(12 + k) == 193_119_506_829 + 90_000_000_000 * k
  {
    hide Interval, LeastSum, MostSum;
    FirstTwelve();
    if k > 0 {
      AtTheCap(k - 1);
      Tally(12 + (k - 1), MAX_INTERVAL, 64_373_168_942 + 30_000_000_000 * (k - 1), 193_119_506_829 + 90_000_000_000 * (k - 1));
    }
  }

  lemma FirstTwelve()
    ensures Interval(12) == MAX_INTERVAL && LeastSum(12) == 64_373_168_942 && MostSum(12) == 193_119_506_829
  {
    assert Interval(0) == INITIAL && LeastSum(0) == 0 && MostSum(0) == 0;
    hide Interval, LeastSum, MostSum;
    Tally(0, 500_000_000, 0, 0);
    Tally(1, 750_000_000, 250_000_000, 750_000_000);
    Tally(2, 1_125_000_000, 625_000_000, 1_875_000_000);
    Tally(3, 1_687_500_000, 1_187_500_000, 3_562_500_000);
    Tally(4, 2_531_250_000, 2_031_250_000, 6_093_750_000);
    Tally(5, 3_796_875_000, 3_296_875_000, 9_890_625_000);
    Tally(6, 5_695_312_500, 5_195_312_500, 15_585_937_500);
    Tally(7, 8_542_968_750, 8_042_968_750, 24_128_906_250);
    Tally(8, 12_814_453_125, 12_314_453_125, 36_943_359_375);
    Tally(9, 19_221_679_687, 18_721_679_687, 56_165_039_062);
    Tally(10, 28_832_519_530, 28_332_519_530, 84_997_558_592);
    Tally(11, 43_248_779_295, 42_748_779_295, 128_246_337_887);
  }

  /** Nineteen pauses always fit into the limit, and forty never do. */
  lemma NineteenFit()
    ensures MostSum(19) <= MAX_ELAPSED
  {
    hide MostSum;
    AtTheCap(7);
  }

  lemma FortyDoNotFit()
    ensures LeastSum(40) > MAX_ELAPSED
  {
    hide LeastSum;
    AtTheCap(28);
  }

  /** What the first n pauses add up to, if they are granted. */
  function TotalPause(factors: nat -> real, n: nat): int {
    if n == 0 then 0 else TotalPause(factors, n - 1) + Randomized(factors(n - 1), Interval(n - 1))
  }

  lemma {:induction false} ShortPauses(factors: nat -> real, n: nat)
    requires forall i: nat :: factors(i) == 0.5
    ensures TotalPause(factors, n) == LeastSum(n)
  {
    if n > 0 {
      ShortPauses(factors, n - 1);
      Halves(Interval(n - 1));
    }
  }

  lemma Halves(x: nat)
    ensures Randomized(0.5, x) == x / 2
  {
    var y := 0.5 * (x as real);
    assert 2.0 * y == x as real;
    assert 2 * y.Floor <= x < 2 * y.Floor + 2;
  }

  lemma {:induction false} LongPauses(factors: nat -> real, n: nat)
    requires forall i: nat :: factors(i) == 1.49
    ensures 300 * TotalPause(factors, n) >= 298 * MostSum(n) - 300 * n
  {
    if n > 0 {
      LongPauses(factors, n - 1);
      AlmostMost(Interval(n - 1));
    }
  }

  lemma AlmostMost(x: nat)
    ensures 300 * Randomized(1.49, x) >= 298 * (x * 3 / 2) - 300
  {
    var y := 1.49 * (x as real);
    assert 100.0 * y == 149.0 * (x as real);
    assert 100 * (y.Floor + 1) > 149 * x;
  }

  lemma {:induction false} TotalInRange(factors: nat -> real, n: nat)
    requires forall i: nat :: 0.5 <= factors(i) < 1.5
    ensures LeastSum(n) <= TotalPause(factors, n) <= MostSum(n)
  {
    if n > 0 {
      TotalInRange(factors, n - 1);
      RandomizedInRange(factors(n - 1), Interval(n - 1));
      hide Randomized;
    }
  }

  /** With the shortest pauses, thirty-nine are granted and no more. */
  lemma ThirtyNineIsReached(factors: nat -> real)
    requires forall i: nat :: factors(i) == 0.5
    ensures TotalPause(factors, 39) <= MAX_ELAPSED < TotalPause(factors, 40)
  {
    hide LeastSum, TotalPause;
    ShortPauses(factors, 39);
    ShortPauses(factors, 40);
    AtTheCap(27);
    AtTheCap(28);
  }

  /** With all but the longest pauses, nineteen are granted and no more. */
  lemma NineteenIsReached(factors: nat -> real)
    requires forall i: nat :: factors(i) == 1.49
    ensures TotalPause(factors, 19) <= MAX_ELAPSED < TotalPause(factors, 20)
  {
    hide LeastSum, MostSum, TotalPause;
    LongPauses(factors, 20);
    TotalInRange(factors, 19);
    AtTheCap(8);
    NineteenFit();
  }

  /** What one more pause d does to the total and to the interval. */
  lemma OnePause(n: nat, total: nat, d: nat)
    requires LeastSum(n) <= total <= MostSum(n) && Interval(n) / 2 <= d <= Interval(n) * 3 / 2
    ensures LeastSum(n + 1) <= total + d <= MostSum(n + 1) && Interval(n + 1) == Grown(Interval(n))
    ensures n < 19 ==> total + d <= MAX_ELAPSED
    ensures n >= 39 ==> total + d > MAX_ELAPSED
  {
    Tally(n, Interval(n), LeastSum(n), MostSum(n));
    hide Interval, LeastSum, MostSum;
    NineteenFit();
    FortyDoNotFit();
    if n < 19 { SumsGrow(n + 1, 19); }
    if n >= 39 { SumsGrow(40, n + 1); }
  }

  /** The interval up to its cap. */
  method Increased(interval: nat) returns (increased: nat)
    ensures increased == Grown(interval)
  {
    increased := interval * 3 / 2;
    if increased > MAX_INTERVAL {
      increased := MAX_INTERVAL;
    }
  }

  class Backoff {
    var interval: nat
    var elapsedTime: nat
    ghost var granted: nat  // the number of pauses so far
    ghost var total: nat    // what they add up to
    ghost var refused: bool

    ghost predicate Valid()
      reads this
    {
      && interval == (if granted == 0 && !refused then 0 else Interval(granted))
      && LeastSum(granted) <= total <= MostSum(granted)
      && total <= MAX_ELAPSED
      && (if refused then elapsedTime > MAX_ELAPSED else granted > 0 ==> elapsedTime == total)
      && granted <= 39
      && (refused ==> granted >= 19)
    }

    /** The zero value. */
    constructor ()
      ensures Valid() && granted == 0 && total == 0 && !refused
    {
      interval, elapsedTime := 0, 0;
      granted, total, refused := 0, 0, false;
    }

    /**
     * Pause. It is granted exactly if the pauses then still add up to fifteen minutes at most, and a refusal is
     * final; so the first nineteen pauses are granted, and at most thirty-nine ever are.
     */
    method Pause(factor: real) returns (pause: nat, ok: bool)
      requires Valid() && 0.5 <= factor < 1.5
      modifies this
      ensures Valid()
      ensures ok ==> !old(refused) && !refused && granted == old(granted) + 1 && total == old(total) + pause
      ensures ok ==> pause == Randomized(factor, Interval(old(granted)))
      ensures !old(refused) ==> (ok <==> old(total) + Randomized(factor, Interval(old(granted))) <= MAX_ELAPSED)
      ensures !ok ==> refused && granted == old(granted) && total == old(total) && pause == 0
      ensures granted <= 39 && (!old(refused) && old(granted) < 19 ==> ok)
    {
      IntervalIsPositive(granted);
      if interval == 0 {
        interval := INITIAL;
        elapsedTime := 0;
      }
      hide Interval, LeastSum, MostSum, Randomized, Grown;
      RandomizedInRange(factor, interval);
      var randomizedInterval := Randomized(factor, interval);
      elapsedTime := elapsedTime + randomizedInterval;
      OnePause(granted, total, randomizedInterval);
      if elapsedTime > MAX_ELAPSED {
        refused := true;
        return 0, false;
      }
      interval := Increased(interval);
      granted, total := granted + 1, total + randomizedInterval;
      return randomizedInterval, true;
    }
  }

  // ---- The retry loops ----

  /** The status of a response, or None without one. */
  type Response = Option<int>

  predicate IsSuccess(r: Response) { r == Some(200) }

  predicate IsTemporary(r: Response) { r.Some? && 500 <= r.value <= 599 }

  lemma TotalNext(factors: nat -> real, n: nat)
    ensures TotalPause(factors, n + 1) == TotalPause(factors, n) + Randomized(factors(n), Interval(n))
    ensures TotalPause(factors, 0) == 0
  {
  }

  /** One response: whether the request is to be repeated, after a pause. */
  method PauseAfter(r: Response, backoff: Backoff, n: nat, factors: nat -> real) returns (again: bool)
    requires backoff.Valid() && !backoff.refused && backoff.granted == n && backoff.total == TotalPause(factors, n)
    requires 0.5 <= factors(n) < 1.5
    modifies backoff
    ensures again ==> IsTemporary(r) && TotalPause(factors, n + 1) <= MAX_ELAPSED && n < 39
    ensures again ==>
              backoff.Valid() && !backoff.refused && backoff.granted == n + 1 && backoff.total == TotalPause(factors, n + 1)
    ensures !again && IsTemporary(r) ==> n >= 19 && TotalPause(factors, n + 1) > MAX_ELAPSED
  {
    again := false;
    if IsSuccess(r) {
      return;
    } else if IsTemporary(r) {
      TotalNext(factors, n);
      hide Interval, Randomized, TotalPause, Backoff.Valid;
      var pause, retryAgain := backoff.Pause(factors(n));
      again := retryAgain;
    }
    hide Interval, Randomized, TotalPause, Backoff.Valid;
  }

  /**
   * getWithRetry and postWithRetry, for any server and any random factors: the first response that is not
   * a temporary failure ends them, and so does the first pause too many, after 20 to 40 temporary failures.
   */
  method WithRetry(server: nat -> Response, factors: nat -> real) returns (r: Response, requests: nat)
    requires forall i: nat :: 0.5 <= factors(i) < 1.5
    ensures 1 <= requests <= 40 && r == server(requests - 1)
    ensures forall i: nat :: i < requests - 1 ==> server(i).Some? && 500 <= server(i).value <= 599
    ensures TotalPause(factors, requests - 1) <= MAX_ELAPSED
    ensures r.Some? && 500 <= r.value <= 599 ==> requests >= 20 && TotalPause(factors, requests) > MAX_ELAPSED
  {
    TotalNext(factors, 0);
    hide Interval, LeastSum, MostSum, Randomized, TotalPause, Backoff.Valid, IsTemporary, IsSuccess;
    var backoff := new Backoff();
    requests := 0;
    while true
      invariant fresh(backoff) && backoff.Valid() && !backoff.refused && backoff.granted == requests <= 39
      invariant backoff.total == TotalPause(factors, requests) <= MAX_ELAPSED
      invariant forall i: nat :: i < requests ==> IsTemporary(server(i))
      decreases 40 - requests
    {
      r := server(requests);
      var again := PauseAfter(r, backoff, requests, factors);
      requests := requests + 1;
      if !again { return; }
    }
  }
}
