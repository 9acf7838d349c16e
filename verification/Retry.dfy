/**
 Redelivery with patience: how often a failing handler is run again, and how long it waits in between.

 Durations are nanoseconds in a 64-bit signed integer, as the host language computes them, wrap-around included.
 */
module Retry {
  import opened Messages

  const GENERIC_RETRIES := 3
  const CONCURRENCY_RETRIES := 12
  const MILLISECOND := 1_000_000
  const BASE_INTERVAL := 50 * MILLISECOND
  const MAX_INTERVAL := 1000 * MILLISECOND
  const TWO_TO_64 := 0x1_0000_0000_0000_0000

  function Power2(n: nat): (p: nat)
    ensures p > 0
  {
    if n == 0 then 1 else 2 * Power2(n - 1)
  }

  /** The signed 64-bit integer with the same low 64 bits. */
  function Wrap64(x: int): int {
    var low := x % TWO_TO_64;
    if low < TWO_TO_64 / 2 then low else low - TWO_TO_64
  }

  /** A left shift of a 64-bit signed integer: high bits fall off, and shifting by 64 or more leaves 0. */
  function ShiftLeft(x: int, n: nat): int {
    if n >= 64 then 0 else Wrap64(x * Power2(n))
  }

  function Backoff(attempt: nat): int {
    var interval := ShiftLeft(BASE_INTERVAL, attempt);
    if interval > MAX_INTERVAL || interval <= 0 then MAX_INTERVAL else interval
  }

  lemma {:induction false} PowersGrow(m: nat, n: nat)
    requires m <= n
    ensures Power2(m) <= Power2(n)
  {
    if m < n {
      PowersGrow(m, n - 1);
    }
  }

  lemma {:induction false} PowersMultiply(m: nat, n: nat)
    ensures Power2(m + n) == Power2(m) * Power2(n)
  {
    if n > 0 {
      PowersMultiply(m, n - 1);
      assert Power2(m + n) == 2 * Power2(m + n - 1);
    }
  }

  lemma SomePowers()
    ensures Power2(5) == 32 && Power2(22) == 4_194_304 && Power2(23) == 8_388_608
  {
    assert Power2(5) == 32 && Power2(6) == 64;
    PowersMultiply(5, 6);
    PowersMultiply(11, 11);
    PowersMultiply(22, 1);
    assert Power2(1) == 2;
  }

  /** A large shift leaves a multiple of 2 to the 30, which is more than the longest interval or not positive. */
  lemma LargeShiftIsOutOfRange(attempt: nat)
    requires 23 <= attempt < 64
    ensures var v := ShiftLeft(BASE_INTERVAL, attempt); v > MAX_INTERVAL || v <= 0
  {
    hide Power2;
    SomePowers();
    PowersMultiply(23, attempt - 23);
    var c := 390_625 * Power2(attempt - 23);
    assert BASE_INTERVAL * Power2(attempt) == 0x4000_0000 * c;
    MultipleStaysMultiple(c);
  }

  lemma {:induction false} MultipleStaysMultiple(c: int)
    ensures var v := Wrap64(0x4000_0000 * c); v > MAX_INTERVAL || v <= 0
  {
    var t := c % 0x4_0000_0000;
    var q := c / 0x4_0000_0000;
    assert c == 0x4_0000_0000 * q + t;
    assert 0x4000_0000 * c == TWO_TO_64 * q + 0x4000_0000 * t;
    assert (0x4000_0000 * c) % TWO_TO_64 == 0x4000_0000 * t;
  }

  lemma SmallShiftIsExact(attempt: nat)
    requires attempt <= 22
    ensures ShiftLeft(BASE_INTERVAL, attempt) == BASE_INTERVAL * Power2(attempt) > 0
  {
    hide Power2;
    SomePowers();
    PowersGrow(attempt, 22);
  }

  lemma ShiftedOut(attempt: nat)
    ensures attempt >= 64 ==> ShiftLeft(BASE_INTERVAL, attempt) == 0
  {
  }

  /** What the backoff is meant to be: doubling from 50 milliseconds up to one second. */
  function Doubling(attempt: nat): int {
    var d := BASE_INTERVAL * Power2(attempt);
    if d < MAX_INTERVAL then d else MAX_INTERVAL
  }

  /** Although the shift overflows from the 38th attempt on, the backoff is the doubling it is meant to be, always. */
  lemma BackoffIsCappedDoubling(attempt: nat)
    ensures Backoff(attempt) == Doubling(attempt)
  {
    hide Power2, ShiftLeft;
    if attempt <= 22 {
      SmallShiftIsExact(attempt);
    } else {
      SomePowers();
      PowersGrow(5, attempt);
      ShiftedOut(attempt);
      if attempt < 64 {
        LargeShiftIsOutOfRange(attempt);
      }
    }
  }

  // ---- the retry loop ----

  /** One run of the handler; if it fails, its context may be done some time later, 0 meaning already by then. */
  datatype Try = Succeeds | Fails(concurrency: bool, doneAfter: Option<nat>)

  datatype Verdict = Handled | GivenUp

  function Budget(t: Try): nat
    requires t.Fails?
  {
    if t.concurrency then CONCURRENCY_RETRIES else GENERIC_RETRIES
  }

  /** The run with index `attempt` is the last one. */
  predicate Stops(t: Try, attempt: nat) {
    t.Succeeds? || attempt >= Budget(t) || Interrupts(t, attempt)
  }

  /** The context is done before the wait after this run is over. */
  predicate Interrupts(t: Try, attempt: nat) {
    t.Fails? && t.doneAfter.Some? && t.doneAfter.value < Backoff(attempt)
  }

  /** How long the loop waits after its last run: only an interruption comes during a wait. */
  function LastWait(t: Try, attempt: nat): nat {
    if t.Fails? && attempt < Budget(t) && Interrupts(t, attempt) then t.doneAfter.value else 0
  }

  /** The waits after the first `n` runs. */
  function TotalWait(n: nat): int {
    if n == 0 then 0 else TotalWait(n - 1) + Backoff(n - 1)
  }

  lemma {:induction false} WaitsGrow(m: nat, n: nat)
    requires m <= n
    ensures TotalWait(m) <= TotalWait(n)
  {
    if m < n {
      WaitsGrow(m, n - 1);
    }
  }

  lemma {:induction false} LongestWaits()
    ensures TotalWait(3) == 350 * MILLISECOND
    ensures TotalWait(12) == 8550 * MILLISECOND
  {
    assert Power2(0) == 1 && Power2(1) == 2 && Power2(2) == 4 && Power2(3) == 8 && Power2(4) == 16;
    FirstWaits();
    LaterWaits(5);
    LaterWaits(6);
    LaterWaits(7);
    LaterWaits(8);
    LaterWaits(9);
    LaterWaits(10);
    LaterWaits(11);
  }

  lemma FirstWaits()
    ensures Backoff(0) == 50 * MILLISECOND && Backoff(1) == 100 * MILLISECOND && Backoff(2) == 200 * MILLISECOND
    ensures Backoff(3) == 400 * MILLISECOND && Backoff(4) == 800 * MILLISECOND
  {
    hide Backoff;
    BackoffIsCappedDoubling(0);
    BackoffIsCappedDoubling(1);
    BackoffIsCappedDoubling(2);
    BackoffIsCappedDoubling(3);
    BackoffIsCappedDoubling(4);
  }

  lemma LaterWaits(attempt: nat)
    requires attempt >= 5
    ensures Backoff(attempt) == MAX_INTERVAL
  {
    hide Backoff, Power2;
    BackoffIsCappedDoubling(attempt);
    SomePowers();
    PowersGrow(5, attempt);
  }

  /**
   The first `k` runs all fail and are all run again: none of them is interrupted, a concurrency conflict is among the
   first 12 runs, and any other failure among the first 3.
   */
  ghost predicate Patient(world: nat -> Try, k: nat) {
    forall i | 0 <= i < k ::
      world(i).Fails? && i < (if world(i).concurrency then 12 else 3)
      && (world(i).doneAfter.Some? ==> world(i).doneAfter.value >= Backoff(i))
  }

  /** A handler is run again exactly as long as it is so. */
  lemma PatientIffNoneStops(world: nat -> Try, k: nat)
    ensures Patient(world, k) <==> forall i | 0 <= i < k :: !Stops(world(i), i)
  {
    hide Backoff;
  }

  /**
   Runs a handler until it succeeds, its budget is spent, or its context is done, be it during a wait.  `world` says how
   each run would go.  The run that ends it is the first that succeeds, is interrupted, or fails with its own kind of
   error out of patience; a handler runs at most 13 times and waits at most 8.55 seconds, or 4 times and 350 milliseconds
   if it never meets a concurrency conflict.
   */
  method RetryMiddleware(world: nat -> Try) returns (verdict: Verdict, runs: nat, waited: int)
    ensures runs >= 1 && Stops(world(runs - 1), runs - 1)
    ensures forall i | 0 <= i < runs - 1 :: !Stops(world(i), i)
    ensures verdict == if world(runs - 1).Succeeds? then Handled else GivenUp
    ensures waited == TotalWait(runs - 1) + LastWait(world(runs - 1), runs - 1)
    ensures verdict == Handled <==> exists k: nat :: Patient(world, k) && world(k).Succeeds?
    ensures runs <= 13 && waited <= 8550 * MILLISECOND
    ensures (forall i | 0 <= i < runs :: world(i).Fails? ==> !world(i).concurrency) ==>
              runs <= 4 && waited <= 350 * MILLISECOND
  {
    hide Backoff, TotalWait;
    NoWait();
    var attempt := 0;
    waited := 0;
    verdict := Handled;
    var stopped := false;
    while !stopped
      invariant attempt <= CONCURRENCY_RETRIES
      invariant forall i | 0 <= i < attempt :: !Stops(world(i), i)
      invariant stopped ==> Stops(world(attempt), attempt)
                            && verdict == (if world(attempt).Succeeds? then Handled else GivenUp)
      invariant waited == TotalWait(attempt) + if stopped then LastWait(world(attempt), attempt) else 0
      decreases CONCURRENCY_RETRIES - attempt, !stopped
    {
      var t := world(attempt);
      if t.Succeeds? {
        verdict, stopped := Handled, true;
      } else {
        var budget := GENERIC_RETRIES;
        if t.concurrency {
          budget := CONCURRENCY_RETRIES;
        }
        if attempt >= budget {
          verdict, stopped := GivenUp, true;
        } else if t.doneAfter.Some? && t.doneAfter.value < Backoff(attempt) {
          waited := waited + t.doneAfter.value;
          verdict, stopped := GivenUp, true;
        } else {
          OneMoreWait(attempt);
          waited := waited + Backoff(attempt);
          attempt := attempt + 1;
        }
      }
    }
    runs := attempt + 1;
    PatientIffNoneStops(world, attempt);
    forall k: nat | Patient(world, k) && world(k).Succeeds? ensures k == attempt {
      PatientIffNoneStops(world, k);
    }
    WaitIsBounded(world(attempt), attempt);
    if forall i | 0 <= i < runs :: world(i).Fails? ==> !world(i).concurrency {
      assert attempt > 3 ==> !Stops(world(3), 3);
    }
  }

  /** An interrupted wait is shorter than a whole one. */
  lemma WaitIsBounded(t: Try, attempt: nat)
    requires attempt <= CONCURRENCY_RETRIES
    ensures TotalWait(attempt) + LastWait(t, attempt) <= 8550 * MILLISECOND
    ensures attempt <= 3 && (t.Fails? ==> !t.concurrency) ==>
              TotalWait(attempt) + LastWait(t, attempt) <= 350 * MILLISECOND
  {
    hide Backoff, TotalWait;
    LongestWaits();
    OneMoreWait(attempt);
    WaitsGrow(attempt, 12);
    if attempt < 12 {
      WaitsGrow(attempt + 1, 12);
    }
    if attempt <= 3 {
      WaitsGrow(attempt, 3);
    }
    if attempt < 3 {
      WaitsGrow(attempt + 1, 3);
    }
  }

  lemma NoWait()
    ensures TotalWait(0) == 0
  {
  }

  lemma OneMoreWait(n: nat)
    ensures TotalWait(n + 1) == TotalWait(n) + Backoff(n)
  {
    hide Backoff;
  }
}
