/** Whole runs of the queue: enqueues, drains that do not overlap, manual
    replays and clears, in any order and number. */
module QueueRuns {
  import opened Options
  import opened Events
  import opened Replay
  import opened Drains
  import opened Control

  /** What identifies an event in the order of its tunnel's queue. */
  datatype Key = Key(tunnel: nat, at: int, id: nat)

  function KeyOf(e: Event): Key { Key(e.tunnel, e.receivedAt, e.id) }

  predicate Earlier(a: Key, b: Key) {
    a.at < b.at || (a.at == b.at && a.id < b.id)
  }

  predicate Precedes(a: Key, b: Key) {
    a.tunnel == b.tunnel && Earlier(a, b)
  }

  /** The table with its history: every event ever enqueued, the ids that were
      cleared, every acceptance by the local app in the order it came, and per event
      the outcomes it has met since it was enqueued or last replayed by hand. */
  datatype World = World(
    rows: Table, nextId: nat, lastAt: int,
    enqueued: set<Key>, cleared: set<nat>, accepted: seq<Key>, met: map<nat, seq<Outcome>>)

  const EMPTY := World(map[], 1, 0, {}, {}, [], map[])

  datatype Op =
    | Enqueue(tunnel: nat, request: Request, at: int)
    | DrainQueue(tunnel: nat, answers: seq<Outcome>)
    | ReplayByHand(id: nat, outcome: Option<Outcome>)
    | Clear(tunnel: nat)

  function KeysOf(rows: Table, q: seq<nat>): (ks: seq<Key>)
    requires forall i :: 0 <= i < |q| ==> q[i] in rows
    ensures |ks| == |q| && forall i :: 0 <= i < |q| ==> ks[i] == KeyOf(rows[q[i]])
  {
    if q == [] then [] else KeysOf(rows, q[..|q| - 1]) + [KeyOf(rows[q[|q| - 1]])]
  }

  /** The events a drain gets accepted. */
  function AcceptedIds(rows: Table, tunnel: nat, answers: seq<Outcome>): (q: seq<nat>)
    ensures forall i :: 0 <= i < |q| ==> q[i] in rows
  {
    if tunnel == 0 then [] else
      var q := Queue(rows, tunnel);
      q[..Reached(|q|, answers)]
  }

  function MetBy(met: map<nat, seq<Outcome>>, id: nat): seq<Outcome> {
    if id in met then met[id] else []
  }

  /** The first n events of q have met one outcome more. */
  function MetAfter(met: map<nat, seq<Outcome>>, q: seq<nat>, answers: seq<Outcome>, n: nat): map<nat, seq<Outcome>>
    requires n <= |q|
  {
    if n == 0 then met else
      var m := MetAfter(met, q, answers, n - 1);
      m[q[n - 1] := MetBy(m, q[n - 1]) + [Answer(answers, n - 1)]]
  }

  /** The outcomes a drain of the tunnel adds to. */
  function MetInDrain(w: World, tunnel: nat, answers: seq<Outcome>): map<nat, seq<Outcome>> {
    if tunnel == 0 then w.met else
      var q := Queue(w.rows, tunnel);
      MetAfter(w.met, q, answers, Tried(|q|, answers))
  }

  function Step(w: World, op: Op): World {
    match op
    case Enqueue(tunnel, request, at) =>
      var e := Fresh(w.nextId, tunnel, request, at);
      w.(rows := w.rows[w.nextId := e], nextId := w.nextId + 1, lastAt := at, enqueued := w.enqueued + {KeyOf(e)},
          met := w.met[w.nextId := []])
    case DrainQueue(tunnel, answers) =>
      w.(rows := Drained(w.rows, tunnel, answers),
         accepted := w.accepted + KeysOf(w.rows, AcceptedIds(w.rows, tunnel, answers)),
         met := MetInDrain(w, tunnel, answers))
    case ReplayByHand(id, o) =>
      w.(rows := ReplayedByHand(w.rows, id, o),
         accepted := if id in w.rows && o.Some? && Accepted(o.value) then w.accepted + [KeyOf(w.rows[id])] else w.accepted,
         met := w.met[id := match o case None => [] case Some(a) => [a]])
    case Clear(tunnel) =>
      w.(rows := Without(w.rows, tunnel), cleared := w.cleared + (set id | id in w.rows && w.rows[id].tunnel == tunnel))
  }

  function Run(w: World, ops: seq<Op>): World
    decreases |ops|
  {
    if ops == [] then w else Run(Step(w, ops[0]), ops[1..])
  }

  /** The receipt clock does not run backwards. */
  predicate Timely(w: World, ops: seq<Op>)
    decreases |ops|
  {
    ops == [] || ((ops[0].Enqueue? ==> w.lastAt <= ops[0].at) && Timely(Step(w, ops[0]), ops[1..]))
  }

  // ----- Well-formed rows, over every run -----

  lemma StepKeepsWellFormed(w: World, op: Op)
    requires AllWellFormed(w.rows)
    ensures AllWellFormed(Step(w, op).rows)
  {
    if op.DrainQueue? && op.tunnel != 0 {
      QueueOrdered(w.rows, op.tunnel);
      DrainKeepsWellFormed(w.rows, QueuedIds(w.rows, op.tunnel), Queue(w.rows, op.tunnel), op.answers);
    }
  }

  lemma {:induction false} RunKeepsWellFormed(w: World, ops: seq<Op>)
    requires AllWellFormed(w.rows)
    ensures AllWellFormed(Run(w, ops).rows)
    decreases |ops|
  {
    if ops != [] {
      StepKeepsWellFormed(w, ops[0]);
      RunKeepsWellFormed(Step(w, ops[0]), ops[1..]);
    }
  }

  /** A clear takes all rows of its tunnel, puts them on record, and touches nothing else. */
  lemma ClearTakes(w: World, tunnel: nat, id: nat)
    ensures var v := Step(w, Clear(tunnel));
      && (id in v.rows <==> id in w.rows && w.rows[id].tunnel != tunnel)
      && (id in v.rows ==> v.rows[id] == w.rows[id])
      && (id in v.cleared <==> id in w.cleared || (id in w.rows && w.rows[id].tunnel == tunnel))
      && v.nextId == w.nextId && v.enqueued == w.enqueued && v.accepted == w.accepted && v.met == w.met
  {
  }

  /** After any run at all, every row is well formed; none is left in Replaying. */
  lemma RowsAlwaysWellFormed(ops: seq<Op>)
    ensures AllWellFormed(Run(EMPTY, ops).rows)
  {
    RunKeepsWellFormed(EMPTY, ops);
  }

  // ----- What became of each event, over every run -----

  /** The row as the queue first held it. */
  function AsEnqueued(e: Event): Event { Fresh(e.id, e.tunnel, e.request, e.receivedAt) }

  /** The row is what its outcomes, one after the other, make of the event. */
  ghost predicate Fated(rows: Table, met: map<nat, seq<Outcome>>, id: nat)
    requires id in rows
  {
    rows[id] == Fate(AsEnqueued(rows[id]), MetBy(met, id))
  }

  lemma FateOneMore(e: Event, os: seq<Outcome>, o: Outcome)
    ensures Fate(e, os + [o]) == if Fate(e, os).state == Queued then ReplayedRow(Fate(e, os), o) else Fate(e, os)
  {
    assert (os + [o])[..|os|] == os;
  }

  lemma {:induction false} MetMiss(met: map<nat, seq<Outcome>>, q: seq<nat>, answers: seq<Outcome>, n: nat, id: nat)
    requires n <= |q| && id !in q[..n]
    ensures MetBy(MetAfter(met, q, answers, n), id) == MetBy(met, id)
  {
    if n > 0 {
      assert q[..n] == q[..n - 1] + [q[n - 1]];
      MetMiss(met, q, answers, n - 1, id);
    }
  }

  lemma {:induction false} MetHit(met: map<nat, seq<Outcome>>, q: seq<nat>, answers: seq<Outcome>, n: nat, i: nat)
    requires i < n <= |q| && Distinct(q)
    ensures MetBy(MetAfter(met, q, answers, n), q[i]) == MetBy(met, q[i]) + [Answer(answers, i)]
  {
    if i == n - 1 {
      MetMiss(met, q, answers, i, q[i]);
    } else {
      MetHit(met, q, answers, n - 1, i);
    }
  }

  lemma TriedKeepsFate(rows: Table, met: map<nat, seq<Outcome>>, q: seq<nat>, answers: seq<Outcome>, n: nat, i: nat)
    requires i < n <= |q| && Distinct(q) && q[i] in rows && rows[q[i]].state == Queued && Fated(rows, met, q[i])
    ensures q[i] in Applied(rows, q, answers, n)
    ensures Fated(Applied(rows, q, answers, n), MetAfter(met, q, answers, n), q[i])
  {
    AppliedHit(rows, q, answers, n, i);
    MetHit(met, q, answers, n, i);
    FateOneMore(AsEnqueued(rows[q[i]]), MetBy(met, q[i]), Answer(answers, i));
  }

  lemma UntriedKeepsFate(rows: Table, met: map<nat, seq<Outcome>>, q: seq<nat>, answers: seq<Outcome>, n: nat, id: nat)
    requires n <= |q| && id !in q[..n] && id in rows && Fated(rows, met, id)
    ensures id in Applied(rows, q, answers, n)
    ensures Fated(Applied(rows, q, answers, n), MetAfter(met, q, answers, n), id)
  {
    AppliedMiss(rows, q, answers, n, id);
    MetMiss(met, q, answers, n, id);
  }

  lemma DrainKeepsFate(w: World, tunnel: nat, answers: seq<Outcome>, id: nat)
    requires tunnel != 0 && id in w.rows && Fated(w.rows, w.met, id)
    ensures var w' := Step(w, DrainQueue(tunnel, answers));
      id in w'.rows && Fated(w'.rows, w'.met, id)
  {
    var q, ids := Queue(w.rows, tunnel), QueuedIds(w.rows, tunnel);
    var n := Tried(|q|, answers);
    QueueOrdered(w.rows, tunnel);
    OrderingDistinct(w.rows, ids, q);
    if id in q[..n] {
      var i :| 0 <= i < n && q[i] == id;
      assert q[i] in ids;
      TriedKeepsFate(w.rows, w.met, q, answers, n, i);
    } else {
      UntriedKeepsFate(w.rows, w.met, q, answers, n, id);
    }
  }

  lemma StepKeepsFate(w: World, op: Op, id: nat)
    requires forall x :: x in w.rows ==> Fated(w.rows, w.met, x)
    requires id in Step(w, op).rows
    ensures Fated(Step(w, op).rows, Step(w, op).met, id)
  {
    if op.DrainQueue? && op.tunnel != 0 {
      AppliedKeys(w.rows, Queue(w.rows, op.tunnel), op.answers, Tried(|Queue(w.rows, op.tunnel)|, op.answers));
      DrainKeepsFate(w, op.tunnel, op.answers, id);
    } else if op.ReplayByHand? && op.id == id && op.outcome.Some? {
      FateOneMore(AsEnqueued(w.rows[id]), [], op.outcome.value);
      assert [] + [op.outcome.value] == [op.outcome.value];
    }
  }

  lemma {:induction false} RunKeepsFate(w: World, ops: seq<Op>)
    requires forall id :: id in w.rows ==> Fated(w.rows, w.met, id)
    ensures forall id :: id in Run(w, ops).rows ==> Fated(Run(w, ops).rows, Run(w, ops).met, id)
    decreases |ops|
  {
    if ops != [] {
      var w' := Step(w, ops[0]);
      forall id | id in w'.rows ensures Fated(w'.rows, w'.met, id) { StepKeepsFate(w, ops[0], id); }
      RunKeepsFate(w', ops[1..]);
    }
  }

  /** After any run, manual replays included: an event is dead exactly if five server errors
      in a row came before any acceptance among the outcomes it met since it was enqueued or
      last replayed by hand, delivered exactly if an acceptance came first, and otherwise
      queued with as many attempts as it met server errors since the last other failure. */
  lemma EventsMeetTheirFate(ops: seq<Op>, id: nat)
    requires id in Run(EMPTY, ops).rows
    ensures var e, os := Run(EMPTY, ops).rows[id], MetBy(Run(EMPTY, ops).met, id);
      && (e.state == Dead <==> Dies(os))
      && (e.state == Delivered <==> GetsThrough(os))
      && (e.state == Queued <==> !Dies(os) && !GetsThrough(os))
      && (e.state == Queued ==> e.attempts == Trailing(os) < MAX_REPLAY_ATTEMPTS)
  {
    RunKeepsFate(EMPTY, ops);
    var w := Run(EMPTY, ops);
    assert Fated(w.rows, w.met, id);
    FateDecided(AsEnqueued(w.rows[id]), MetBy(w.met, id));
  }

  // ----- What the record says, over every run -----

  /** The event was waiting when it met the last of its outcomes. */
  ghost predicate MetWhileWaiting(rows: Table, met: map<nat, seq<Outcome>>, id: nat)
    requires id in rows
  {
    var os := MetBy(met, id);
    os == [] || Fate(AsEnqueued(rows[id]), os[..|os| - 1]).state == Queued
  }

  lemma OneMoreMet(e: Event, os: seq<Outcome>, o: Outcome)
    ensures (os + [o])[..|os + [o]| - 1] == os
  {
  }

  lemma DrainKeepsMet(w: World, tunnel: nat, answers: seq<Outcome>, id: nat)
    requires tunnel != 0 && id in w.rows && Fated(w.rows, w.met, id) && MetWhileWaiting(w.rows, w.met, id)
    ensures var w' := Step(w, DrainQueue(tunnel, answers));
      id in w'.rows && MetWhileWaiting(w'.rows, w'.met, id)
  {
    var q, ids := Queue(w.rows, tunnel), QueuedIds(w.rows, tunnel);
    var n := Tried(|q|, answers);
    QueueOrdered(w.rows, tunnel);
    OrderingDistinct(w.rows, ids, q);
    DrainKeepsOrigins(w.rows, ids, q, answers);
    assert AsEnqueued(Drained(w.rows, tunnel, answers)[id]) == AsEnqueued(w.rows[id]);
    if id in q[..n] {
      var i :| 0 <= i < n && q[i] == id;
      assert q[i] in ids;
      MetHit(w.met, q, answers, n, i);
      OneMoreMet(w.rows[id], MetBy(w.met, id), Answer(answers, i));
    } else {
      MetMiss(w.met, q, answers, n, id);
    }
  }

  lemma StepKeepsMet(w: World, op: Op, id: nat)
    requires forall x :: x in w.rows ==> Fated(w.rows, w.met, x) && MetWhileWaiting(w.rows, w.met, x)
    requires id in Step(w, op).rows
    ensures MetWhileWaiting(Step(w, op).rows, Step(w, op).met, id)
  {
    if op.DrainQueue? && op.tunnel != 0 {
      AppliedKeys(w.rows, Queue(w.rows, op.tunnel), op.answers, Tried(|Queue(w.rows, op.tunnel)|, op.answers));
      DrainKeepsMet(w, op.tunnel, op.answers, id);
    }
  }

  lemma {:induction false} RunKeepsMet(w: World, ops: seq<Op>)
    requires forall id :: id in w.rows ==> Fated(w.rows, w.met, id) && MetWhileWaiting(w.rows, w.met, id)
    ensures forall id :: id in Run(w, ops).rows ==> MetWhileWaiting(Run(w, ops).rows, Run(w, ops).met, id)
    decreases |ops|
  {
    if ops != [] {
      var w' := Step(w, ops[0]);
      forall id | id in w'.rows ensures Fated(w'.rows, w'.met, id) && MetWhileWaiting(w'.rows, w'.met, id) {
        StepKeepsFate(w, ops[0], id);
        StepKeepsMet(w, ops[0], id);
      }
      RunKeepsMet(w', ops[1..]);
    }
  }

  /** After any run: a delivered event's status and time are those of the answer that accepted
      it, which is the last outcome it met; a waiting or dead event has no delivery time, and
      the status of its last outcome if that was a server error, else 0. */
  lemma RecordsAreTrue(ops: seq<Op>, id: nat)
    requires id in Run(EMPTY, ops).rows
    ensures var e, os := Run(EMPTY, ops).rows[id], MetBy(Run(EMPTY, ops).met, id);
      var last := if os == [] then None else Some(os[|os| - 1]);
      && (e.state == Delivered ==>
            last.Some? && last.value.Response? && last.value.status < 500
            && e.lastStatus == last.value.status && e.deliveredAt == Some(last.value.at))
      && (e.state != Delivered ==>
            e.deliveredAt == None
            && e.lastStatus == if last.Some? && last.value.Response? && last.value.status >= 500 then last.value.status else 0)
  {
    RunKeepsFate(EMPTY, ops);
    RunKeepsMet(EMPTY, ops);
    RunKeepsWellFormed(EMPTY, ops);
    var w := Run(EMPTY, ops);
    assert Fated(w.rows, w.met, id) && MetWhileWaiting(w.rows, w.met, id) && WellFormed(w.rows[id]);
    var e, os := AsEnqueued(w.rows[id]), MetBy(w.met, id);
    if os != [] {
      QueuedHasNoTime(e, os[..|os| - 1]);
    }
  }

  lemma {:induction false} QueuedHasNoTime(e: Event, os: seq<Outcome>)
    requires e == AsEnqueued(e)
    ensures Fate(e, os).state == Queued ==> Fate(e, os).deliveredAt == None
  {
    if os != [] { QueuedHasNoTime(e, os[..|os| - 1]); }
  }

  // ----- Order, over every run without manual replays -----

  ghost predicate StrictlyOrdered(log: seq<Key>) {
    forall i, j :: 0 <= i < j < |log| && log[i].tunnel == log[j].tunnel ==> Earlier(log[i], log[j])
  }

  /** Nothing waiting in a tunnel's queue is older than what the tunnel's app has accepted. */
  ghost predicate QueueBehindLog(rows: Table, log: seq<Key>) {
    forall id, i :: id in rows && rows[id].state == Queued && 0 <= i < |log| && log[i].tunnel == rows[id].tunnel ==>
      Earlier(log[i], KeyOf(rows[id]))
  }

  ghost predicate InThePast(w: World) {
    && Keyed(w.rows, w.nextId)
    && (forall id :: id in w.rows ==> w.rows[id].receivedAt <= w.lastAt)
    && (forall i :: 0 <= i < |w.accepted| ==> w.accepted[i].at <= w.lastAt && w.accepted[i].id < w.nextId)
  }

  /** Every event is still in the table unless it was cleared, and is delivered only if accepted. */
  ghost predicate Accounted(w: World) {
    && (forall k :: k in w.enqueued && k.id !in w.cleared ==> k.id in w.rows && KeyOf(w.rows[k.id]) == k)
    && (forall k :: k in w.enqueued ==> k.id < w.nextId)
    && (forall id :: id in w.rows && w.rows[id].state == Delivered ==> KeyOf(w.rows[id]) in w.accepted)
  }

  ghost predicate Tidy(w: World) {
    && AllWellFormed(w.rows)
    && InThePast(w) && StrictlyOrdered(w.accepted) && QueueBehindLog(w.rows, w.accepted) && Accounted(w)
  }

  lemma DrainKeepsLogOrdered(rows: Table, tunnel: nat, q: seq<nat>, k: nat, log: seq<Key>)
    requires IsOrdering(rows, QueuedIds(rows, tunnel), q) && k <= |q|
    requires (forall id :: id in rows ==> rows[id].id == id) && StrictlyOrdered(log) && QueueBehindLog(rows, log)
    ensures StrictlyOrdered(log + KeysOf(rows, q[..k]))
  {
    var log' := log + KeysOf(rows, q[..k]);
    forall i, j | 0 <= i < j < |log'| && log'[i].tunnel == log'[j].tunnel ensures Earlier(log'[i], log'[j]) {
      if |log| <= j {
        assert q[j - |log|] in QueuedIds(rows, tunnel);
        if |log| <= i {
          assert Before(rows, q[i - |log|], q[j - |log|]);
        }
      }
    }
  }

  lemma DrainKeepsQueueBehind(rows: Table, tunnel: nat, q: seq<nat>, answers: seq<Outcome>, log: seq<Key>, id: nat, i: nat)
    requires tunnel != 0 && q == Queue(rows, tunnel) && id in rows
    requires (forall x :: x in rows ==> rows[x].id == x) && QueueBehindLog(rows, log)
    requires id in Drained(rows, tunnel, answers) && Drained(rows, tunnel, answers)[id].state == Queued
    requires i < |log| + Reached(|q|, answers)
    ensures var key := (log + KeysOf(rows, q[..Reached(|q|, answers)]))[i];
      key.tunnel == rows[id].tunnel ==> Earlier(key, KeyOf(rows[id]))
  {
    var k := Reached(|q|, answers);
    StillQueued(rows, tunnel, q, answers, id);
    QueueOrdered(rows, tunnel);
    if |log| <= i && rows[id].tunnel == tunnel {
      assert id in QueuedIds(rows, tunnel);
      assert id in q;
      var j :| 0 <= j < |q| && q[j] == id;
      assert forall m :: 0 <= m < k ==> q[m] in q[..k];
      assert Before(rows, q[i - |log|], q[j]);
    } else if |log| <= i {
      assert q[i - |log|] in QueuedIds(rows, tunnel);
    }
  }

  lemma DrainKeepsOrder(rows: Table, tunnel: nat, answers: seq<Outcome>, log: seq<Key>)
    requires tunnel != 0 && (forall id :: id in rows ==> rows[id].id == id)
    requires StrictlyOrdered(log) && QueueBehindLog(rows, log)
    ensures var log' := log + KeysOf(rows, AcceptedIds(rows, tunnel, answers));
      StrictlyOrdered(log') && QueueBehindLog(Drained(rows, tunnel, answers), log')
  {
    var q, t := Queue(rows, tunnel), Drained(rows, tunnel, answers);
    var k := Reached(|q|, answers);
    var log' := log + KeysOf(rows, q[..k]);
    QueueOrdered(rows, tunnel);
    DrainKeepsLogOrdered(rows, tunnel, q, k, log);
    DrainKeepsOrigins(rows, QueuedIds(rows, tunnel), q, answers);
    forall id, i | id in t && t[id].state == Queued && 0 <= i < |log'| && log'[i].tunnel == t[id].tunnel
      ensures Earlier(log'[i], KeyOf(t[id]))
    {
      DrainKeepsQueueBehind(rows, tunnel, q, answers, log, id, i);
    }
  }

  /** What is queued after a drain was queued before, and was not accepted. */
  lemma StillQueued(rows: Table, tunnel: nat, q: seq<nat>, answers: seq<Outcome>, id: nat)
    requires q == Queue(rows, tunnel) && tunnel != 0 && id in rows
    requires id in Drained(rows, tunnel, answers) && Drained(rows, tunnel, answers)[id].state == Queued
    ensures rows[id].state == Queued && id !in q[..Reached(|q|, answers)]
  {
    QueueOrdered(rows, tunnel);
    var k, ids := Reached(|q|, answers), QueuedIds(rows, tunnel);
    DrainAt(rows, ids, q, answers, id);
    assert forall i :: 0 <= i < k ==> Accepted(Answer(answers, i));
    assert k < |q| && q[k] == id ==> id in ids;
  }

  /** What is delivered after a drain was delivered before, or is in the accepted prefix. */
  lemma NewlyDelivered(rows: Table, tunnel: nat, q: seq<nat>, answers: seq<Outcome>, id: nat)
    requires q == Queue(rows, tunnel) && tunnel != 0 && id in rows
    requires id in Drained(rows, tunnel, answers) && Drained(rows, tunnel, answers)[id].state == Delivered
    ensures rows[id].state == Delivered || id in q[..Reached(|q|, answers)]
  {
    QueueOrdered(rows, tunnel);
    DrainAt(rows, QueuedIds(rows, tunnel), q, answers, id);
  }

  lemma KeysOfContains(rows: Table, q: seq<nat>, id: nat)
    requires (forall i :: 0 <= i < |q| ==> q[i] in rows) && id in q
    ensures KeyOf(rows[id]) in KeysOf(rows, q)
  {
    var i :| 0 <= i < |q| && q[i] == id;
    assert KeysOf(rows, q)[i] == KeyOf(rows[id]);
  }

  lemma DrainKeepsAccounts(w: World, tunnel: nat, answers: seq<Outcome>)
    requires tunnel != 0 && InThePast(w) && Accounted(w)
    ensures Accounted(Step(w, DrainQueue(tunnel, answers)))
  {
    var q := Queue(w.rows, tunnel);
    var k, w' := Reached(|q|, answers), Step(w, DrainQueue(tunnel, answers));
    QueueOrdered(w.rows, tunnel);
    DrainKeepsOrigins(w.rows, QueuedIds(w.rows, tunnel), q, answers);
    forall id | id in w'.rows && w'.rows[id].state == Delivered ensures KeyOf(w'.rows[id]) in w'.accepted {
      NewlyDelivered(w.rows, tunnel, q, answers, id);
      if id in q[..k] {
        KeysOfContains(w.rows, q[..k], id);
      }
    }
  }

  lemma DrainStaysInThePast(w: World, tunnel: nat, answers: seq<Outcome>)
    requires tunnel != 0 && InThePast(w)
    ensures InThePast(Step(w, DrainQueue(tunnel, answers)))
  {
    QueueOrdered(w.rows, tunnel);
    DrainKeepsOrigins(w.rows, QueuedIds(w.rows, tunnel), Queue(w.rows, tunnel), answers);
  }

  lemma StepKeepsTidy(w: World, op: Op)
    requires Tidy(w) && !op.ReplayByHand? && (op.Enqueue? ==> w.lastAt <= op.at)
    ensures Tidy(Step(w, op))
  {
    StepKeepsWellFormed(w, op);
    if op.DrainQueue? {
      if op.tunnel == 0 {
        assert Step(w, op) == w;
      } else {
        DrainKeepsOrder(w.rows, op.tunnel, op.answers, w.accepted);
        DrainKeepsAccounts(w, op.tunnel, op.answers);
        DrainStaysInThePast(w, op.tunnel, op.answers);
      }
    }
  }

  // ----- Manual replays and order -----

  /** Newer than all its tunnel's app has accepted. */
  ghost predicate NewerThanLog(log: seq<Key>, k: Key) {
    forall i :: 0 <= i < |log| && log[i].tunnel == k.tunnel ==> Earlier(log[i], k)
  }

  /** Older than everything else its tunnel has queued. */
  ghost predicate OlderThanQueue(rows: Table, k: Key) {
    forall x :: x in rows && rows[x].state == Queued && rows[x].tunnel == k.tunnel && x != k.id ==> Earlier(k, KeyOf(rows[x]))
  }

  /** A manual replay that fits in: the event must be newer than all acceptances of its
      tunnel, and if it is accepted on the spot, older than everything its tunnel has queued. */
  ghost predicate FitsIn(w: World, id: nat, o: Option<Outcome>) {
    id in w.rows ==>
      && NewerThanLog(w.accepted, KeyOf(w.rows[id]))
      && (o.Some? && Accepted(o.value) ==> OlderThanQueue(w.rows, KeyOf(w.rows[id])))
  }

  lemma FittingReplayKeepsTidy(w: World, id: nat, o: Option<Outcome>)
    requires Tidy(w) && FitsIn(w, id, o)
    ensures Tidy(Step(w, ReplayByHand(id, o)))
  {
    StepKeepsWellFormed(w, ReplayByHand(id, o));
    if id in w.rows { FittingReplayKeepsOrder(w, id, o); }
  }

  lemma FittingReplayKeepsOrder(w: World, id: nat, o: Option<Outcome>)
    requires Keyed(w.rows, w.nextId) && StrictlyOrdered(w.accepted) && QueueBehindLog(w.rows, w.accepted)
    requires id in w.rows && FitsIn(w, id, o)
    ensures var w' := Step(w, ReplayByHand(id, o));
      StrictlyOrdered(w'.accepted) && QueueBehindLog(w'.rows, w'.accepted)
  {
    var w' := Step(w, ReplayByHand(id, o));
    forall x, i | x in w'.rows && w'.rows[x].state == Queued && 0 <= i < |w'.accepted| && w'.accepted[i].tunnel == w'.rows[x].tunnel
      ensures Earlier(w'.accepted[i], KeyOf(w'.rows[x]))
    {
      assert KeyOf(w'.rows[x]) == KeyOf(w.rows[x]);
    }
  }

  /** Every manual replay of the run fits in where it comes. */
  ghost predicate HandsFitIn(w: World, ops: seq<Op>)
    decreases |ops|
  {
    ops == [] || ((ops[0].ReplayByHand? ==> FitsIn(w, ops[0].id, ops[0].outcome)) && HandsFitIn(Step(w, ops[0]), ops[1..]))
  }

  predicate NoHands(ops: seq<Op>) {
    forall i :: 0 <= i < |ops| ==> !ops[i].ReplayByHand?
  }

  lemma {:induction false} NoHandsFitIn(w: World, ops: seq<Op>)
    requires NoHands(ops)
    ensures HandsFitIn(w, ops)
    decreases |ops|
  {
    if ops != [] { NoHandsFitIn(Step(w, ops[0]), ops[1..]); }
  }

  lemma {:induction false} RunKeepsTidy(w: World, ops: seq<Op>)
    requires Tidy(w) && HandsFitIn(w, ops) && Timely(w, ops)
    ensures Tidy(Run(w, ops))
    decreases |ops|
  {
    if ops != [] {
      if ops[0].ReplayByHand? {
        FittingReplayKeepsTidy(w, ops[0].id, ops[0].outcome);
      } else {
        StepKeepsTidy(w, ops[0]);
      }
      RunKeepsTidy(Step(w, ops[0]), ops[1..]);
    }
  }

  predicate Resolved(w: World, k: Key) {
    k in w.accepted || k.id in w.cleared || (k.id in w.rows && w.rows[k.id].state == Dead)
  }

  /** Over any run whose manual replays, if there are any, fit in, whatever mix of server
      errors, transport failures, enqueues and clears it meets: each tunnel's acceptances
      strictly follow the order of receipt, so none comes twice, and every event received
      before an accepted one is accepted, dead or cleared. */
  lemma DeliveryOrder(ops: seq<Op>)
    requires HandsFitIn(EMPTY, ops) && Timely(EMPTY, ops)
    ensures var w := Run(EMPTY, ops);
      && StrictlyOrdered(w.accepted)
      && (forall k, i :: k in w.enqueued && 0 <= i < |w.accepted| && Precedes(k, w.accepted[i]) ==> Resolved(w, k))
  {
    RunKeepsTidy(EMPTY, ops);
    var w := Run(EMPTY, ops);
    forall k, i | k in w.enqueued && 0 <= i < |w.accepted| && Precedes(k, w.accepted[i]) && k.id !in w.cleared
      ensures Resolved(w, k)
    {
      assert WellFormed(w.rows[k.id]);
      assert w.rows[k.id].state != Queued;
    }
  }

  /** Whatever comes next, short of another manual replay, acceptances stay in order. */
  ghost predicate OrderIsSafe(w: World) {
    forall ops :: NoHands(ops) && Timely(w, ops) ==> StrictlyOrdered(Run(w, ops).accepted)
  }

  function Fine(n: nat): (answers: seq<Outcome>)
    ensures |answers| == n && forall i :: 0 <= i < n ==> Accepted(answers[i])
  {
    if n == 0 then [] else Fine(n - 1) + [Response(200, 0)]
  }

  /** A drain that meets no failure accepts the whole queue. */
  lemma FullDrain(w: World, tunnel: nat, x: nat) returns (ops: seq<Op>, j: nat)
    requires tunnel != 0 && x in w.rows && w.rows[x].state == Queued && w.rows[x].tunnel == tunnel
    ensures NoHands(ops) && Timely(w, ops)
    ensures w.accepted <= Run(w, ops).accepted
    ensures |w.accepted| <= j < |Run(w, ops).accepted| && Run(w, ops).accepted[j] == KeyOf(w.rows[x])
  {
    var q := Queue(w.rows, tunnel);
    QueueOrdered(w.rows, tunnel);
    assert x in QueuedIds(w.rows, tunnel);
    var i :| 0 <= i < |q| && q[i] == x;
    var answers := Fine(|q|);
    ops := [DrainQueue(tunnel, answers)];
    assert ops[1..] == [];
    assert Reached(|q|, answers) == |q|;
    assert q[..|q|] == q;
    j := |w.accepted| + i;
    assert Run(w, ops) == Step(w, ops[0]);
  }

  lemma OutOfOrderShows(w: World, i: nat, tunnel: nat, x: nat)
    requires tunnel != 0 && x in w.rows && w.rows[x].state == Queued && w.rows[x].tunnel == tunnel
    requires i < |w.accepted| && w.accepted[i].tunnel == tunnel && !Earlier(w.accepted[i], KeyOf(w.rows[x]))
    ensures !OrderIsSafe(w)
  {
    var ops, j := FullDrain(w, tunnel, x);
    var log := Run(w, ops).accepted;
    assert log[i] == w.accepted[i];
    assert !StrictlyOrdered(log);
  }

  lemma UnorderedNow(w: World)
    requires !StrictlyOrdered(w.accepted)
    ensures !OrderIsSafe(w)
  {
    assert NoHands([]) && Timely(w, []) && Run(w, []) == w;
  }

  lemma MisfitShows(w: World, id: nat, o: Option<Outcome>)
    requires Tidy(w) && id in w.rows && w.rows[id].tunnel != 0 && !FitsIn(w, id, o)
    ensures !OrderIsSafe(Step(w, ReplayByHand(id, o)))
  {
    var w', k := Step(w, ReplayByHand(id, o)), KeyOf(w.rows[id]);
    var accepted := o.Some? && Accepted(o.value);
    if !NewerThanLog(w.accepted, k) {
      var i :| 0 <= i < |w.accepted| && w.accepted[i].tunnel == k.tunnel && !Earlier(w.accepted[i], k);
      assert w'.accepted[i] == w.accepted[i];
      if accepted {
        assert w'.accepted[|w.accepted|] == k;
        UnorderedNow(w');
      } else {
        assert w'.rows[id].state == Queued && KeyOf(w'.rows[id]) == k;
        OutOfOrderShows(w', i, k.tunnel, id);
      }
    } else {
      var x :| x in w.rows && w.rows[x].state == Queued && w.rows[x].tunnel == k.tunnel && x != id && !Earlier(k, KeyOf(w.rows[x]));
      assert w'.accepted[|w.accepted|] == k && w'.rows[x] == w.rows[x];
      OutOfOrderShows(w', |w.accepted|, k.tunnel, x);
    }
  }

  /** In every tidy world, for every event and every outcome of the replay, with no agent
      connected too: order is safe from then on exactly if the replay fits in. So replaying
      a delivered event by hand always breaks it, now or at a later drain, and so does an
      accepted replay that overtakes the queue. */
  lemma HandsKeepOrderIff(w: World, id: nat, o: Option<Outcome>)
    requires Tidy(w) && id in w.rows && w.rows[id].tunnel != 0
    ensures OrderIsSafe(Step(w, ReplayByHand(id, o))) <==> FitsIn(w, id, o)
  {
    var w' := Step(w, ReplayByHand(id, o));
    if FitsIn(w, id, o) {
      FittingReplayKeepsTidy(w, id, o);
      forall ops | NoHands(ops) && Timely(w', ops) ensures StrictlyOrdered(Run(w', ops).accepted) {
        NoHandsFitIn(w', ops);
        RunKeepsTidy(w', ops);
      }
    } else {
      MisfitShows(w, id, o);
    }
  }

  /** A delivered event never fits in. */
  lemma DeliveredNeverFitsIn(w: World, id: nat, o: Option<Outcome>)
    requires Tidy(w) && id in w.rows && w.rows[id].state == Delivered
    ensures !FitsIn(w, id, o)
  {
    var k := KeyOf(w.rows[id]);
    assert k in w.accepted;
    var i :| 0 <= i < |w.accepted| && w.accepted[i] == k;
  }
}
