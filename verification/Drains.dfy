/** What one drain does to the table and to the queue, and how far a series of
    drains gets. */
module Drains {
  import opened Options
  import opened Events
  import opened Replay

  // ----- The exact effect of one drain -----

  /** What a drain does to one row. */
  lemma DrainAt(rows: Table, ids: set<nat>, q: seq<nat>, answers: seq<Outcome>, id: nat)
    requires IsOrdering(rows, ids, q) && id in rows
    ensures var t, k := DrainedBy(rows, q, answers), Reached(|q|, answers);
      && t.Keys == rows.Keys
      && (forall i :: 0 <= i < k && q[i] == id ==> t[id] == ReplayedRow(rows[id], Answer(answers, i)))
      && (k < |q| && q[k] == id ==> t[id] == ReplayedRow(rows[id], Answer(answers, k)))
      && (id !in q[..k] && (k < |q| ==> id != q[k]) ==> t[id] == rows[id])
  {
    var k, n := Reached(|q|, answers), Tried(|q|, answers);
    OrderingDistinct(rows, ids, q);
    assert k < |q| ==> q[..n] == q[..k] + [q[k]];
    if id in q[..n] {
      var i :| 0 <= i < n && q[i] == id;
      AppliedHit(rows, q, answers, n, i);
    }
    AppliedKeys(rows, q, answers, n);
    if id !in q[..n] {
      AppliedMiss(rows, q, answers, n, id);
    }
  }

  lemma PrefixDelivered(rows: Table, ids: set<nat>, q: seq<nat>, answers: seq<Outcome>, i: nat)
    requires IsOrdering(rows, ids, q) && i < Reached(|q|, answers)
    ensures var t, a := DrainedBy(rows, q, answers), Answer(answers, i);
      a.Response? && a.status < 500 && q[i] in t && t[q[i]] == DeliveredRow(rows[q[i]], a.status, a.at)
  {
    assert Accepted(Answer(answers, i));
    DrainAt(rows, ids, q, answers, q[i]);
  }

  /** A drain delivers a prefix of the queue, fails or requeues at most the next
      event, and leaves every other row as it was. */
  lemma DrainExact(rows: Table, tunnel: nat, answers: seq<Outcome>)
    requires tunnel != 0
    ensures var q, t := Queue(rows, tunnel), Drained(rows, tunnel, answers);
      var k := Reached(|q|, answers);
      && t.Keys == rows.Keys
      && (forall i :: 0 <= i < k ==> var a := Answer(answers, i);
            a.Response? && a.status < 500 && t[q[i]] == DeliveredRow(rows[q[i]], a.status, a.at))
      && (k < |q| ==> var a := Answer(answers, k);
            t[q[k]] == if a.Response? then FailedRow(rows[q[k]], a.status) else RequeuedRow(rows[q[k]]))
      && (forall id :: id in rows && id !in q[..k] && (k < |q| ==> id != q[k]) ==> t[id] == rows[id])
  {
    var q, ids := Queue(rows, tunnel), QueuedIds(rows, tunnel);
    var t, k := DrainedBy(rows, q, answers), Reached(|q|, answers);
    QueueOrdered(rows, tunnel);
    AppliedKeys(rows, q, answers, Tried(|q|, answers));
    forall i | 0 <= i < k
      ensures var a := Answer(answers, i);
        a.Response? && a.status < 500 && t[q[i]] == DeliveredRow(rows[q[i]], a.status, a.at)
    {
      PrefixDelivered(rows, ids, q, answers, i);
    }
    if k < |q| {
      DrainAt(rows, ids, q, answers, q[k]);
    }
    forall id | id in rows && id !in q[..k] && (k < |q| ==> id != q[k]) ensures t[id] == rows[id] {
      DrainAt(rows, ids, q, answers, id);
    }
  }

  /** No drain touches what an event is, only how it fares. */
  ghost predicate SameOrigins(rows: Table, t: Table) {
    && t.Keys == rows.Keys
    && forall id :: id in rows ==>
         && t[id].id == rows[id].id && t[id].tunnel == rows[id].tunnel
         && t[id].request == rows[id].request && t[id].receivedAt == rows[id].receivedAt
  }

  lemma Touched(rows: Table, ids: set<nat>, q: seq<nat>, answers: seq<Outcome>, id: nat) returns (o: Outcome)
    requires IsOrdering(rows, ids, q) && id in rows
    ensures var t := DrainedBy(rows, q, answers);
      id in t && (t[id] == rows[id] || (id in ids && t[id] == ReplayedRow(rows[id], o)))
  {
    DrainAt(rows, ids, q, answers, id);
    var k := Reached(|q|, answers);
    o := Answer(answers, k);
    if id in q[..k] {
      var i :| 0 <= i < k && q[i] == id;
      o := Answer(answers, i);
    }
  }

  lemma DrainKeepsOrigins(rows: Table, ids: set<nat>, q: seq<nat>, answers: seq<Outcome>)
    requires IsOrdering(rows, ids, q)
    ensures SameOrigins(rows, DrainedBy(rows, q, answers))
  {
    AppliedKeys(rows, q, answers, Tried(|q|, answers));
    var t := DrainedBy(rows, q, answers);
    forall id | id in rows ensures t[id] == rows[id] || exists o :: t[id] == ReplayedRow(rows[id], o) {
      var o := Touched(rows, ids, q, answers, id);
    }
  }

  /** How much of the queue a drain takes off the front: everything delivered,
      and the event it stopped at if that one died. */
  function Removed(rows: Table, q: seq<nat>, answers: seq<Outcome>): (n: nat)
    ensures n <= |q|
  {
    var t, k := DrainedBy(rows, q, answers), Reached(|q|, answers);
    if k < |q| && q[k] in t && t[q[k]].state == Dead then k + 1 else k
  }

  lemma QueueAfterDrain(rows: Table, tunnel: nat, q: seq<nat>, answers: seq<Outcome>)
    requires q == Queue(rows, tunnel)
    ensures Queue(DrainedBy(rows, q, answers), tunnel) == q[Removed(rows, q, answers)..]
  {
    var t, n := DrainedBy(rows, q, answers), Removed(rows, q, answers);
    var ids := QueuedIds(rows, tunnel);
    var rest := ids - (set id | id in q[..n]);
    QueueOrdered(rows, tunnel);
    QueueOrdered(t, tunnel);
    DrainKeepsOrigins(rows, ids, q, answers);
    OrderingDrop(rows, ids, q, n);
    SameOrder(rows, t, rest, q[n..]);
    forall id ensures id in QueuedIds(t, tunnel) <==> id in rest {
      if id in rows {
        QueuedAfterDrain(rows, tunnel, ids, q, answers, id);
      }
    }
    assert QueuedIds(t, tunnel) == rest;
    OrderingUnique(t, rest, Queue(t, tunnel), q[n..]);
  }

  predicate Waiting(rows: Table, tunnel: nat, id: nat)
    requires id in rows
  {
    rows[id].tunnel == tunnel && rows[id].state == Queued
  }

  lemma QueuedAfterDrain(rows: Table, tunnel: nat, ids: set<nat>, q: seq<nat>, answers: seq<Outcome>, id: nat)
    requires ids == QueuedIds(rows, tunnel) && IsOrdering(rows, ids, q) && id in rows
    ensures var t := DrainedBy(rows, q, answers);
      id in t && (Waiting(t, tunnel, id) <==> Waiting(rows, tunnel, id) && id !in q[..Removed(rows, q, answers)])
  {
    DrainAt(rows, ids, q, answers, id);
    var k := Reached(|q|, answers);
    assert k < |q| ==> q[..k + 1] == q[..k] + [q[k]];
    if id in q[..k] {
      var i :| 0 <= i < k && q[i] == id;
    } else if k < |q| && id == q[k] {
      assert id in ids;
    }
  }

  lemma SameOrder(rows: Table, t: Table, ids: set<nat>, q: seq<nat>)
    requires IsOrdering(rows, ids, q) && SameOrigins(rows, t)
    ensures IsOrdering(t, ids, q)
  {
    forall i, j | 0 <= i < j < |q| ensures q[i] in t && q[j] in t && Before(t, q[i], q[j]) {
      assert Before(rows, q[i], q[j]);
    }
  }

  // ----- Row well-formedness -----

  /** What every row satisfies whenever no replay is under way. */
  predicate WellFormed(e: Event) {
    match e.state
    case Queued => e.attempts < MAX_REPLAY_ATTEMPTS && e.deliveredAt == None
    case Replaying => false
    case Delivered => 1 <= e.attempts <= MAX_REPLAY_ATTEMPTS && e.lastStatus < 500 && e.deliveredAt.Some?
    case Dead => e.attempts == MAX_REPLAY_ATTEMPTS && e.lastStatus >= 500 && e.deliveredAt == None
  }

  ghost predicate AllWellFormed(rows: Table) {
    forall id :: id in rows ==> WellFormed(rows[id])
  }

  lemma DrainKeepsWellFormed(rows: Table, ids: set<nat>, q: seq<nat>, answers: seq<Outcome>)
    requires AllWellFormed(rows) && IsOrdering(rows, ids, q)
    requires forall id :: id in ids ==> rows[id].state == Queued
    ensures AllWellFormed(DrainedBy(rows, q, answers))
  {
    AppliedKeys(rows, q, answers, Tried(|q|, answers));
    var t := DrainedBy(rows, q, answers);
    forall id | id in rows ensures WellFormed(t[id]) {
      var o := Touched(rows, ids, q, answers, id);
    }
  }

  // ----- Progress -----

  /** How many more failures the queued events can take between them. */
  function Budget(rows: Table, q: seq<nat>): int
    requires forall i :: 0 <= i < |q| ==> q[i] in rows
  {
    if q == [] then 0 else MAX_REPLAY_ATTEMPTS - rows[q[0]].attempts + Budget(rows, q[1..])
  }

  ghost predicate Retriable(rows: Table, q: seq<nat>) {
    forall i :: 0 <= i < |q| ==> q[i] in rows && rows[q[i]].attempts < MAX_REPLAY_ATTEMPTS
  }

  lemma {:induction false} BudgetBounds(rows: Table, q: seq<nat>)
    requires Retriable(rows, q)
    ensures |q| <= Budget(rows, q) <= MAX_REPLAY_ATTEMPTS * |q|
  {
    if q != [] { BudgetBounds(rows, q[1..]); }
  }

  lemma {:induction false} BudgetDrop(rows: Table, q: seq<nat>, n: nat)
    requires Retriable(rows, q) && n <= |q|
    ensures Budget(rows, q[n..]) <= Budget(rows, q) - n
  {
    if n > 0 {
      BudgetDrop(rows, q[1..], n - 1);
      assert q[1..][n - 1..] == q[n..];
    }
  }

  lemma {:induction false} BudgetSame(rows: Table, t: Table, q: seq<nat>)
    requires forall i :: 0 <= i < |q| ==> q[i] in rows && q[i] in t && t[q[i]] == rows[q[i]]
    ensures Budget(t, q) == Budget(rows, q)
  {
    if q != [] { BudgetSame(rows, t, q[1..]); }
  }

  /** The agent answers every one of n requests: no transport failure. */
  predicate Steady(answers: seq<Outcome>, n: nat) {
    n <= |answers| && forall i :: 0 <= i < n ==> answers[i].Response?
  }

  /** Nothing behind the event a drain stops at is touched. */
  lemma TailUntouched(rows: Table, ids: set<nat>, q: seq<nat>, answers: seq<Outcome>)
    requires IsOrdering(rows, ids, q)
    ensures var t, k := DrainedBy(rows, q, answers), Reached(|q|, answers);
      forall i :: k < i < |q| ==> q[i] in t && t[q[i]] == rows[q[i]]
  {
    var k := Reached(|q|, answers);
    AppliedKeys(rows, q, answers, Tried(|q|, answers));
    OrderingDistinct(rows, ids, q);
    forall i | k < i < |q|
      ensures q[i] in DrainedBy(rows, q, answers) && DrainedBy(rows, q, answers)[q[i]] == rows[q[i]]
    {
      assert forall j :: 0 <= j <= k ==> q[j] != q[i];
      DrainAt(rows, ids, q, answers, q[i]);
    }
  }

  /** One more attempt on the first event costs one. */
  lemma BudgetFirst(rows: Table, t: Table, q: seq<nat>)
    requires q != [] && forall i :: 0 <= i < |q| ==> q[i] in rows && q[i] in t
    requires t[q[0]].attempts == rows[q[0]].attempts + 1
    requires forall i :: 1 <= i < |q| ==> t[q[i]] == rows[q[i]]
    ensures Budget(t, q) == Budget(rows, q) - 1
  {
    BudgetSame(rows, t, q[1..]);
  }

  lemma BudgetAfterDrain(rows: Table, ids: set<nat>, q: seq<nat>, answers: seq<Outcome>)
    requires IsOrdering(rows, ids, q) && Retriable(rows, q) && Steady(answers, |q|) && q != []
    ensures var t, n := DrainedBy(rows, q, answers), Removed(rows, q, answers);
      (forall i :: 0 <= i < |q[n..]| ==> q[n..][i] in t) && Budget(t, q[n..]) < Budget(rows, q)
  {
    var t, k, n := DrainedBy(rows, q, answers), Reached(|q|, answers), Removed(rows, q, answers);
    TailUntouched(rows, ids, q, answers);
    BudgetBounds(rows, q);
    BudgetDrop(rows, q, n);
    if n == k < |q| {
      DrainAt(rows, ids, q, answers, q[k]);
      assert Answer(answers, k).Response?;
      BudgetFirst(rows, t, q[k..]);
    } else {
      BudgetSame(rows, t, q[n..]);
    }
  }

  /** Without transport failures, every drain of a non-empty queue makes progress. */
  lemma DrainProgress(rows: Table, tunnel: nat, answers: seq<Outcome>)
    requires tunnel != 0 && AllWellFormed(rows)
    requires Queue(rows, tunnel) != [] && Steady(answers, |Queue(rows, tunnel)|)
    ensures var q, t := Queue(rows, tunnel), Drained(rows, tunnel, answers);
      var q' := Queue(t, tunnel);
      && AllWellFormed(t) && |q'| <= |q|
      && Retriable(rows, q) && Retriable(t, q') && Budget(t, q') < Budget(rows, q)
  {
    var q := Queue(rows, tunnel);
    var ids := QueuedIds(rows, tunnel);
    QueueOrdered(rows, tunnel);
    QueueRetriable(rows, tunnel);
    QueueAfterDrain(rows, tunnel, q, answers);
    DrainKeepsWellFormed(rows, ids, q, answers);
    BudgetAfterDrain(rows, ids, q, answers);
  }

  lemma QueueRetriable(rows: Table, tunnel: nat)
    requires AllWellFormed(rows)
    ensures Retriable(rows, Queue(rows, tunnel))
  {
    QueueOrdered(rows, tunnel);
    assert forall i :: 0 <= i < |Queue(rows, tunnel)| ==> Queue(rows, tunnel)[i] in QueuedIds(rows, tunnel);
  }

  /** A series of drains with nothing else going on. */
  function Series(rows: Table, tunnel: nat, drains: seq<seq<Outcome>>): Table
    decreases |drains|
  {
    if drains == [] then rows else Series(Drained(rows, tunnel, drains[0]), tunnel, drains[1..])
  }

  lemma {:induction false} SeriesEmptiesQueue(rows: Table, tunnel: nat, drains: seq<seq<Outcome>>)
    requires tunnel != 0 && AllWellFormed(rows)
    requires forall i :: 0 <= i < |drains| ==> Steady(drains[i], |Queue(rows, tunnel)|)
    requires Budget(rows, Queue(rows, tunnel)) <= |drains|
    ensures AllWellFormed(Series(rows, tunnel, drains)) && Queue(Series(rows, tunnel, drains), tunnel) == []
    decreases |drains|
  {
    QueueRetriable(rows, tunnel);
    BudgetBounds(rows, Queue(rows, tunnel));
    if drains != [] {
      var t := Drained(rows, tunnel, drains[0]);
      if Queue(rows, tunnel) != [] {
        DrainProgress(rows, tunnel, drains[0]);
      }
      SeriesEmptiesQueue(t, tunnel, drains[1..]);
    }
  }

  lemma {:induction false} SeriesKeepsOrigins(rows: Table, tunnel: nat, drains: seq<seq<Outcome>>)
    ensures SameOrigins(rows, Series(rows, tunnel, drains))
    decreases |drains|
  {
    if drains != [] {
      if tunnel != 0 {
        QueueOrdered(rows, tunnel);
        DrainKeepsOrigins(rows, QueuedIds(rows, tunnel), Queue(rows, tunnel), drains[0]);
      }
      SeriesKeepsOrigins(Drained(rows, tunnel, drains[0]), tunnel, drains[1..]);
    }
  }

  /** n queued events are all delivered or dead within 5n drains that meet no transport failure. */
  lemma SettledWithin5n(rows: Table, tunnel: nat, drains: seq<seq<Outcome>>)
    requires tunnel != 0 && AllWellFormed(rows)
    requires MAX_REPLAY_ATTEMPTS * |Queue(rows, tunnel)| <= |drains|
    requires forall i :: 0 <= i < |drains| ==> Steady(drains[i], |Queue(rows, tunnel)|)
    ensures var t := Series(rows, tunnel, drains);
      forall id :: id in QueuedIds(rows, tunnel) ==> id in t && t[id].state in {Delivered, Dead}
  {
    QueueRetriable(rows, tunnel);
    BudgetBounds(rows, Queue(rows, tunnel));
    SeriesEmptiesQueue(rows, tunnel, drains);
    SeriesKeepsOrigins(rows, tunnel, drains);
    var t := Series(rows, tunnel, drains);
    QueueOrdered(t, tunnel);
    forall id | id in QueuedIds(rows, tunnel) ensures id in t && t[id].state in {Delivered, Dead} {
      assert id !in QueuedIds(t, tunnel);
      assert WellFormed(t[id]);
    }
  }

  // ----- The premise is needed -----

  /** m rounds, each of one drain that meets a server error and one that loses the response. */
  function Alternating(rows: Table, tunnel: nat, m: nat): Table
    decreases m
  {
    if m == 0 then rows else Alternating(Round(rows, tunnel), tunnel, m - 1)
  }

  function Round(rows: Table, tunnel: nat): Table {
    Drained(Drained(rows, tunnel, [Response(500, 0)]), tunnel, [ReadFailed])
  }

  /** A drain whose first event does not get through and does not die changes that event alone. */
  lemma StuckDrain(rows: Table, tunnel: nat, o: Outcome)
    requires tunnel != 0 && Queue(rows, tunnel) != [] && !Accepted(o)
    ensures var id := Queue(rows, tunnel)[0];
      var t := Drained(rows, tunnel, [o]);
      && id in rows && id in t && t[id] == ReplayedRow(rows[id], o)
      && (t[id].state != Dead ==> Queue(t, tunnel) == Queue(rows, tunnel))
  {
    var q := Queue(rows, tunnel);
    QueueOrdered(rows, tunnel);
    assert q[0] in QueuedIds(rows, tunnel);
    assert !Accepted(Answer([o], 0));
    DrainAt(rows, QueuedIds(rows, tunnel), q, [o], q[0]);
    QueueAfterDrain(rows, tunnel, q, [o]);
  }

  ghost predicate HeadHasRoom(rows: Table, q: seq<nat>) {
    q != [] && q[0] in rows && rows[q[0]].attempts < MAX_REPLAY_ATTEMPTS - 1
  }

  lemma RoundKeepsQueue(rows: Table, tunnel: nat, q: seq<nat>)
    requires tunnel != 0 && q == Queue(rows, tunnel) && HeadHasRoom(rows, q)
    ensures Queue(Round(rows, tunnel), tunnel) == q && HeadHasRoom(Round(rows, tunnel), q)
  {
    StuckDrain(rows, tunnel, Response(500, 0));
    StuckDrain(Drained(rows, tunnel, [Response(500, 0)]), tunnel, ReadFailed);
  }

  /** Transport errors reset the count, so an app that alternates between 500 and a
      dropped stream keeps its whole queue waiting for ever. */
  lemma {:induction false} AlternatingNeverSettles(rows: Table, tunnel: nat, m: nat)
    requires tunnel != 0 && HeadHasRoom(rows, Queue(rows, tunnel))
    ensures Queue(Alternating(rows, tunnel, m), tunnel) == Queue(rows, tunnel)
    decreases m
  {
    if m > 0 {
      RoundKeepsQueue(rows, tunnel, Queue(rows, tunnel));
      AlternatingNeverSettles(Round(rows, tunnel), tunnel, m - 1);
    }
  }

  // ----- What five attempts mean -----

  /** One event through a series of outcomes; once it has left the queue it is not tried again. */
  function Fate(e: Event, os: seq<Outcome>): Event {
    if os == [] then e else
      var f := Fate(e, os[..|os| - 1]);
      if f.state == Queued then ReplayedRow(f, os[|os| - 1]) else f
  }

  /** The run of server errors at the end of os. */
  function Trailing(os: seq<Outcome>): nat {
    if os == [] || !ServerError(os[|os| - 1]) then 0 else 1 + Trailing(os[..|os| - 1])
  }

  /** Five server errors in a row, ending with the i-th outcome. */
  predicate FiveEndingAt(os: seq<Outcome>, i: nat) {
    MAX_REPLAY_ATTEMPTS <= i <= |os| && forall j :: i - MAX_REPLAY_ATTEMPTS <= j < i ==> ServerError(os[j])
  }

  predicate NoneAccepted(os: seq<Outcome>, n: nat)
    requires n <= |os|
  {
    forall j :: 0 <= j < n ==> !Accepted(os[j])
  }

  ghost predicate Dies(os: seq<Outcome>) {
    exists i :: 0 <= i <= |os| && FiveEndingAt(os, i) && NoneAccepted(os, i)
  }

  ghost predicate GetsThrough(os: seq<Outcome>) {
    exists i :: 0 <= i < |os| && Accepted(os[i]) && !Dies(os[..i])
  }

  lemma {:induction false} TrailingMeaning(os: seq<Outcome>)
    ensures Trailing(os) <= |os|
    ensures forall j :: |os| - Trailing(os) <= j < |os| ==> ServerError(os[j])
    ensures Trailing(os) < |os| ==> !ServerError(os[|os| - Trailing(os) - 1])
  {
    if os != [] { TrailingMeaning(os[..|os| - 1]); }
  }

  lemma DiesAtLast(os: seq<Outcome>)
    requires os != []
    ensures Dies(os) <==> Dies(os[..|os| - 1]) || (FiveEndingAt(os, |os|) && NoneAccepted(os, |os|))
  {
    var p := os[..|os| - 1];
    forall i | 0 <= i <= |p| ensures FiveEndingAt(os, i) && NoneAccepted(os, i) <==> FiveEndingAt(p, i) && NoneAccepted(p, i) {
    }
    if Dies(os) {
      var i :| 0 <= i <= |os| && FiveEndingAt(os, i) && NoneAccepted(os, i);
    }
    if Dies(p) {
      var i :| 0 <= i <= |p| && FiveEndingAt(p, i) && NoneAccepted(p, i);
      assert FiveEndingAt(os, i) && NoneAccepted(os, i);
    }
  }

  lemma GetsThroughAtLast(os: seq<Outcome>)
    requires os != []
    ensures GetsThrough(os) <==> GetsThrough(os[..|os| - 1]) || (Accepted(os[|os| - 1]) && !Dies(os[..|os| - 1]))
  {
    var p := os[..|os| - 1];
    assert forall i :: 0 <= i < |p| ==> os[..i] == p[..i];
    assert os[..|os| - 1] == p;
  }

  lemma UndecidedMeansNoneAccepted(os: seq<Outcome>)
    requires !Dies(os) && !GetsThrough(os)
    ensures NoneAccepted(os, |os|)
  {
    forall i | 0 <= i < |os| ensures !Accepted(os[i]) {
      assert forall j :: 0 <= j <= i && FiveEndingAt(os[..i], j) && NoneAccepted(os[..i], j) ==>
          FiveEndingAt(os, j) && NoneAccepted(os, j);
      assert !Dies(os[..i]);
    }
  }

  /** An event that starts with a clean record dies exactly when five server errors come
      in a row before any acceptance, and is delivered exactly when an acceptance comes
      first; while it waits, attempts counts the server errors since the last reset. */
  lemma {:induction false} FateDecided(e: Event, os: seq<Outcome>)
    requires e.state == Queued && e.attempts == 0
    ensures var f := Fate(e, os);
      && (f.state == Dead <==> Dies(os))
      && (f.state == Delivered <==> GetsThrough(os))
      && (f.state == Queued ==> f.attempts == Trailing(os) < MAX_REPLAY_ATTEMPTS)
      && f.state != Replaying
  {
    if os != [] {
      var p := os[..|os| - 1];
      FateDecided(e, p);
      DiesAtLast(os);
      GetsThroughAtLast(os);
      if Fate(e, p).state == Queued {
        UndecidedMeansNoneAccepted(p);
        TrailingMeaning(os);
        TrailingMeaning(p);
      }
    }
  }
}
