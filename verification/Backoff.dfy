/** How the agent paces its reconnects (internal/agent/agent.go). Durations are whole
    nanoseconds. */
module Backoff {
  const MIN_BACKOFF: nat := 500_000_000

  const MAX_BACKOFF: nat := 30_000_000_000

  function Pow2(n: nat): (p: nat)
    ensures p >= 1
  {
    if n == 0 then 1 else 2 * Pow2(n - 1)
  }

  function Capped(d: nat): nat {
    if d > MAX_BACKOFF then MAX_BACKOFF else d
  }

  /** The nominal delay n failures after the last healthy session, or after the first attempt. */
  function Nominal(n: nat): nat {
    Capped(MIN_BACKOFF * Pow2(n))
  }

  /** healthy[i] says whether attempt i got as far as a session. How many attempts lie
      between attempt i and the last one that did, or the first attempt of all. */
  function Since(healthy: seq<bool>, i: nat): nat
    requires i < |healthy|
  {
    if i == 0 || healthy[i] then 0 else 1 + Since(healthy, i - 1)
  }

  predicate Between(nominal: nat, wait: nat) {
    nominal / 2 <= wait <= nominal
  }

  /** roll stands for the random number the generator draws below its bound. */
  method Jitter(d: nat, roll: nat) returns (wait: nat)
    ensures Between(d, wait)
    ensures d % 2 == 0 && roll <= d / 2 ==> wait == d / 2 + roll
  {
    return d / 2 + roll % (d / 2 + 1);
  }

  lemma DoublingTheCapped(n: nat)
    ensures Capped(2 * Nominal(n)) == Nominal(n + 1) && Nominal(0) == MIN_BACKOFF
  {
  }

  predicate WaitsFit(healthy: seq<bool>, waits: seq<nat>)
    requires |waits| <= |healthy|
  {
    forall i :: 0 <= i < |waits| ==> Between(Nominal(Since(healthy, i)), waits[i])
  }

  /** The delay the loop holds before attempt i. */
  function Held(healthy: seq<bool>, i: nat): nat
    requires i <= |healthy|
  {
    if i == 0 then MIN_BACKOFF else Nominal(Since(healthy, i - 1) + 1)
  }

  lemma HeldAtWait(healthy: seq<bool>, i: nat)
    requires i < |healthy|
    ensures Nominal(Since(healthy, i)) == if healthy[i] then MIN_BACKOFF else Held(healthy, i)
    ensures Held(healthy, i + 1) == Capped(2 * Nominal(Since(healthy, i)))
  {
    DoublingTheCapped(Since(healthy, i));
  }

  /** Connects and waits until the context is cancelled, here after the given attempts. The
      i-th wait is the timer armed after the i-th attempt. */
  method Run(healthy: seq<bool>, rolls: seq<nat>) returns (waits: seq<nat>)
    requires |rolls| == |healthy|
    ensures |waits| == |healthy| && WaitsFit(healthy, waits)
  {
    waits := [];
    var backoff := MIN_BACKOFF;
    for i := 0 to |healthy|
      invariant |waits| == i && WaitsFit(healthy, waits)
      invariant backoff == Held(healthy, i)
    {
      HeldAtWait(healthy, i);
      if healthy[i] {
        backoff := MIN_BACKOFF;
      }
      var wait := Jitter(backoff, rolls[i]);
      waits := waits + [wait];
      backoff := backoff * 2;
      if backoff > MAX_BACKOFF {
        backoff := MAX_BACKOFF;
      }
    }
  }

  predicate FailuresOnly(healthy: seq<bool>, from: nat, to: nat)
    requires to < |healthy|
  {
    forall j :: from < j <= to ==> !healthy[j]
  }

  lemma {:induction false} SinceMeaning(healthy: seq<bool>, h: nat, i: nat)
    requires h <= i < |healthy| && (h == 0 || healthy[h]) && FailuresOnly(healthy, h, i)
    ensures Since(healthy, i) == i - h
    decreases i
  {
    if h < i { SinceMeaning(healthy, h, i - 1); }
  }

  lemma {:induction false} PowersGrow(n: nat, m: nat)
    requires n <= m
    ensures Pow2(n) <= Pow2(m)
  {
    if n < m { PowersGrow(n, m - 1); }
  }

  lemma NominalRange(n: nat)
    ensures MIN_BACKOFF <= Nominal(n) <= MAX_BACKOFF
    ensures n >= 6 ==> Nominal(n) == MAX_BACKOFF
  {
    PowersGrow(0, n);
    if n >= 6 {
      PowersGrow(6, n);
    }
  }

  /** n failures in a row after a healthy session put the nominal delay at 500 ms doubled n
      times, up to 30 s, and every wait between half of it and all of it. So no wait is
      shorter than 250 ms or longer than 30 s, and from the sixth failure on every wait is
      at least 15 s. */
  lemma WaitsAfterFailures(healthy: seq<bool>, waits: seq<nat>, h: nat, n: nat)
    requires |waits| == |healthy| && WaitsFit(healthy, waits)
    requires h + n < |healthy| && (h == 0 || healthy[h]) && FailuresOnly(healthy, h, h + n)
    ensures Between(Capped(500_000_000 * Pow2(n)), waits[h + n])
    ensures 250_000_000 <= waits[h + n] <= 30_000_000_000
    ensures n >= 6 ==> 15_000_000_000 <= waits[h + n]
  {
    SinceMeaning(healthy, h, h + n);
    NominalRange(n);
  }

  /** Some healthy session, or the first attempt, lies behind every attempt. */
  lemma {:induction false} LastHealthy(healthy: seq<bool>, i: nat) returns (h: nat)
    requires i < |healthy|
    ensures h <= i && (h == 0 || healthy[h]) && FailuresOnly(healthy, h, i)
    decreases i
  {
    if i == 0 || healthy[i] {
      h := i;
    } else {
      h := LastHealthy(healthy, i - 1);
    }
  }

  /** So that holds of every wait of every run. */
  lemma EveryWaitIsBounded(healthy: seq<bool>, waits: seq<nat>, i: nat)
    requires |waits| == |healthy| && WaitsFit(healthy, waits)
    requires i < |waits|
    ensures 250_000_000 <= waits[i] <= 30_000_000_000
  {
    var h := LastHealthy(healthy, i);
    WaitsAfterFailures(healthy, waits, h, i - h);
  }
}
