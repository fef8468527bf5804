/** Order of delivery when everything interleaves, statement by statement, over sessions
    that replace one another: how a drain must fit in with those that are still at work. */
module Order {
  import opened Events
  import opened Workers
  import opened Overlap
  import opened Finality
  import Q = QueueRuns

  /** The worker model with its history: the key of every event, and every acceptance by the
      local app in the order it came. */
  datatype Trace = Trace(s: State, lastAt: int, keys: map<nat, Q.Key>, accepted: seq<Q.Key>)

  const START := Trace(INIT, 0, map[], [])

  /** v can get an event accepted while w can get one accepted too, or put back one that is
      not younger. */
  ghost predicate Clash(s: State, v: nat, w: nat)
    requires v in s.workers && w in s.workers
  {
    exists x: nat, y: nat :: CanAsk(s, v, x) && (CanAsk(s, w, y) || (y in s.rows && y <= x && CanReturn(s, w, y)))
  }

  /** Drain k clashes with no other drain of its tunnel. */
  ghost predicate FitsIn(s: State, k: nat)
    requires k in s.workers
  {
    forall w :: w in s.workers && w != k && s.workers[w].tunnel == s.workers[k].tunnel ==> !Clash(s, k, w) && !Clash(s, w, k)
  }

  /** A step that is no manual replay and keeps the receipt clock from running backwards. */
  predicate Regular(t: Trace, step: Step) {
    Enabled(t.s, step) && !step.StartByHand? && (step.Enqueue? ==> t.lastAt <= step.at)
  }

  /** And the start of a drain only if it fits in. */
  ghost predicate Orderly(t: Trace, step: Step) {
    Regular(t, step) && (step.StartDrain? ==> FitsIn(Do(t.s, step), step.w))
  }

  function Next(t: Trace, step: Step): Trace
    requires Enabled(t.s, step)
  {
    Trace(
      Do(t.s, step),
      if step.Enqueue? then step.at else t.lastAt,
      if step.Enqueue? then t.keys[t.s.nextId := Q.Key(step.tunnel, step.at, t.s.nextId)] else t.keys,
      if step.Respond? && step.status < 500 && t.s.workers[step.w].pc.id in t.keys
        then t.accepted + [t.keys[t.s.workers[step.w].pc.id]] else t.accepted)
  }

  ghost predicate AllOrderly(t: Trace, steps: seq<Step>)
    decreases |steps|
  {
    steps == [] || (Orderly(t, steps[0]) && AllOrderly(Next(t, steps[0]), steps[1..]))
  }

  ghost function After(t: Trace, steps: seq<Step>): Trace
    requires AllOrderly(t, steps)
    decreases |steps|
  {
    if steps == [] then t else After(Next(t, steps[0]), steps[1..])
  }

  // ----- Keys and lists -----

  ghost predicate KeysOk(t: Trace) {
    && (forall id :: id in t.keys ==> t.keys[id].id == id && 1 <= id < t.s.nextId && t.keys[id].at <= t.lastAt)
    && (forall a, b :: a in t.keys && b in t.keys && a < b ==> t.keys[a].at <= t.keys[b].at)
    && (forall id :: id in t.s.rows ==> id in t.keys && Q.KeyOf(t.s.rows[id]) == t.keys[id])
    && 1 <= t.s.nextId
  }

  ghost predicate ListOk(t: Trace, w: nat, id: nat)
    requires w in t.s.workers
  {
    Holds(t.s.workers[w], id) ==> id in t.keys && t.keys[id].tunnel == t.s.workers[w].tunnel != 0
  }

  /** A drain works through its list from the oldest to the youngest. */
  predicate Sorted(wk: Worker) {
    && (forall i, j :: 0 <= i < j < |wk.todo| ==> wk.todo[i] < wk.todo[j])
    && (forall i :: 0 <= i < |wk.todo| && !wk.pc.Between? && !wk.pc.Finished? ==> wk.pc.id < wk.todo[i])
  }

  ghost predicate DrainOk(t: Trace, w: nat)
    requires w in t.s.workers
  {
    !t.s.workers[w].byHand && Sorted(t.s.workers[w]) && forall id: nat :: ListOk(t, w, id)
  }

  ghost predicate DrainsOk(t: Trace) {
    Wired(t.s) && forall w :: w in t.s.workers ==> DrainOk(t, w)
  }

  lemma KeysStay(t: Trace, step: Step)
    requires KeysOk(t) && Enabled(t.s, step)
    ensures forall id :: id in t.keys ==> id in Next(t, step).keys && Next(t, step).keys[id] == t.keys[id]
    ensures t.s.nextId <= Next(t, step).s.nextId
  {
  }

  /** No step changes what identifies an event. */
  lemma RowStays(s: State, step: Step, id: nat)
    requires Enabled(s, step) && id in Do(s, step).rows && !(step.Enqueue? && id == s.nextId)
    ensures id in s.rows && Q.KeyOf(Do(s, step).rows[id]) == Q.KeyOf(s.rows[id])
  {
  }

  lemma StepKeepsKeys(t: Trace, step: Step)
    requires KeysOk(t) && Regular(t, step)
    ensures KeysOk(Next(t, step))
    ensures forall id :: id in t.keys ==> id in Next(t, step).keys && Next(t, step).keys[id] == t.keys[id]
  {
    var t' := Next(t, step);
    KeysStay(t, step);
    forall id | id in t'.s.rows ensures id in t'.keys && Q.KeyOf(t'.s.rows[id]) == t'.keys[id] {
      if !(step.Enqueue? && id == t.s.nextId) { RowStays(t.s, step, id); }
    }
    assert step.Enqueue? || (t'.keys == t.keys && t'.s.nextId == t.s.nextId && t'.lastAt == t.lastAt);
  }

  lemma ListingIsSorted(t: Trace, tunnel: nat)
    requires KeysOk(t)
    ensures var q := Queue(t.s.rows, tunnel);
      && (forall i, j :: 0 <= i < j < |q| ==> q[i] < q[j])
      && (forall i :: 0 <= i < |q| ==> q[i] in t.keys && t.keys[q[i]].tunnel == tunnel && q[i] < t.s.nextId)
      && (forall id :: id in QueuedIds(t.s.rows, tunnel) <==> id in q)
  {
    var q, ids := Queue(t.s.rows, tunnel), QueuedIds(t.s.rows, tunnel);
    QueueOrdered(t.s.rows, tunnel);
    forall i | 0 <= i < |q| ensures q[i] in t.keys && t.keys[q[i]].tunnel == tunnel {
      assert q[i] in ids;
      assert Q.KeyOf(t.s.rows[q[i]]) == t.keys[q[i]];
    }
    forall i, j | 0 <= i < j < |q| ensures q[i] < q[j] {
      assert Before(t.s.rows, q[i], q[j]);
      assert Q.KeyOf(t.s.rows[q[i]]) == t.keys[q[i]] && Q.KeyOf(t.s.rows[q[j]]) == t.keys[q[j]];
    }
  }

  lemma StartIsOk(t: Trace, step: Step)
    requires KeysOk(t) && Regular(t, step) && step.StartDrain?
    ensures DrainOk(Next(t, step), step.w)
  {
    var t', w, q := Next(t, step), step.w, Queue(t.s.rows, step.tunnel);
    ListingIsSorted(t, step.tunnel);
    var wk := t'.s.workers[w];
    assert wk == Worker(if step.tunnel == 0 then [] else q, Between, false, t.s.sessions[w].tunnel, w);
    forall id: nat ensures ListOk(t', w, id) {
      if id in wk.todo { assert id in q; }
    }
  }

  /** A drain's own step leaves it a shorter list and no new event. */
  lemma OwnStep(s: State, step: Step)
    requires Enabled(s, step) && ByWorker(step) && step.w in s.workers && WiredOk(s, step.w) && !s.workers[step.w].byHand
    ensures var wk, wk' := s.workers[step.w], Do(s, step).workers[step.w];
      && !wk'.byHand && wk'.tunnel == wk.tunnel && wk'.via == wk.via
      && ((wk'.todo == wk.todo && forall id: nat :: WorksOn(wk'.pc, id) ==> WorksOn(wk.pc, id))
          || (step.Take? && wk.todo != [] && wk' == wk.(todo := wk.todo[1..], pc := Starting(wk.todo[0])))
          || (wk'.pc.Finished? && wk'.todo == []))
  {
  }

  lemma OwnStepIsOk(t: Trace, step: Step)
    requires KeysOk(t) && Regular(t, step) && ByWorker(step) && step.w in t.s.workers
    requires WiredOk(t.s, step.w) && DrainOk(t, step.w)
    ensures DrainOk(Next(t, step), step.w)
  {
    OwnStep(t.s, step);
    StepKeepsKeys(t, step);
    var t', w := Next(t, step), step.w;
    assert Sorted(t.s.workers[w]);
    forall id: nat ensures ListOk(t', w, id) { assert ListOk(t, w, id); }
  }

  lemma OthersStepIsOk(t: Trace, step: Step, w: nat)
    requires KeysOk(t) && Regular(t, step) && w in t.s.workers && DrainOk(t, w)
    requires Do(t.s, step).workers[w] == t.s.workers[w]
    ensures DrainOk(Next(t, step), w)
  {
    StepKeepsKeys(t, step);
    var t' := Next(t, step);
    forall id: nat ensures ListOk(t', w, id) { assert ListOk(t, w, id); }
  }

  lemma StepKeepsDrains(t: Trace, step: Step)
    requires KeysOk(t) && DrainsOk(t) && Regular(t, step)
    ensures DrainsOk(Next(t, step))
  {
    OnlyTheActorMoves(t.s, step);
    StepKeepsWired(t.s, step);
    forall w | w in Next(t, step).s.workers ensures DrainOk(Next(t, step), w) {
      assert w in t.s.workers ==> WiredOk(t.s, w) && DrainOk(t, w);
      if !ByWorker(step) || step.w != w {
        OthersStepIsOk(t, step, w);
      } else if step.StartDrain? {
        StartIsOk(t, step);
      } else {
        OwnStepIsOk(t, step);
      }
    }
  }

  // ----- What a step can do for anybody -----

  /** Nobody comes to ask for more but a drain that starts. */
  lemma AsksShrink(s: State, step: Step, w: nat, x: nat)
    requires Wired(s) && Enabled(s, step) && !step.StartByHand? && w in s.workers && CanAsk(Do(s, step), w, x)
    ensures CanAsk(s, w, x)
  {
    OnlyTheActorMoves(s, step);
    assert WiredOk(s, w);
    if ByWorker(step) && step.w == w { OwnWay(s, step, x); } else { OthersWay(s, step, w, x); }
  }

  /** The step puts the event back, as its worker could. */
  predicate PutsItBack(s: State, step: Step, y: nat)
    requires Enabled(s, step)
  {
    step.Requeue? && s.workers[step.w].pc.id == y
  }

  lemma OwnReturn(s: State, step: Step, y: nat)
    requires Enabled(s, step) && ByWorker(step) && step.w in s.workers && WiredOk(s, step.w) && !s.workers[step.w].byHand
    requires y in s.rows && y in Do(s, step).rows && CanReturn(Do(s, step), step.w, y)
    ensures CanReturn(s, step.w, y)
  {
    OwnWay(s, step, y);
  }

  /** Nor to put more back, but a drain that starts, or one that counts a failure and sees
      the count reset by another that puts the event back. */
  lemma ReturnsShrink(s: State, step: Step, w: nat, y: nat)
    requires Wired(s) && Enabled(s, step) && !step.StartByHand? && !(step.Enqueue? && y == s.nextId)
    requires (forall v :: v in s.workers ==> !s.workers[v].byHand)
    requires w in s.workers && y in Do(s, step).rows && CanReturn(Do(s, step), w, y)
    ensures y in s.rows && (CanReturn(s, w, y) || (PutsItBack(s, step, y) && step.w != w))
  {
    OnlyTheActorMoves(s, step);
    RowStays(s, step, y);
    assert WiredOk(s, w);
    if ByWorker(step) && step.w == w {
      OwnReturn(s, step, y);
    } else {
      OthersWay(s, step, w, y);
      AttemptsGrow(s, step, y);
    }
  }

  lemma AttemptsGrow(s: State, step: Step, y: nat)
    requires Enabled(s, step) && y in s.rows && y in Do(s, step).rows && !(step.Enqueue? && y == s.nextId)
    requires forall v :: v in s.workers ==> WiredOk(s, v) && !s.workers[v].byHand
    ensures Do(s, step).rows[y].attempts >= s.rows[y].attempts || PutsItBack(s, step, y)
  {
    assert forall v :: v in s.workers && WiredOk(s, v) ==> !s.workers[v].pc.Reviving?;
  }

  /** Who puts an event back could do so. */
  lemma PuttersReturn(s: State, step: Step, y: nat)
    requires Enabled(s, step) && PutsItBack(s, step, y) && y in s.rows
    ensures CanReturn(s, step.w, y)
    ensures forall x :: !CanAsk(s, step.w, x)
  {
  }

  /** It may still be accepted: it is queued, or somebody can put it back. */
  ghost predicate Alive(s: State, y: nat) {
    y in s.rows && (s.rows[y].state == Queued || exists w :: w in s.workers && CanReturn(s, w, y))
  }

  lemma OnlyReturnersQueue(s: State, step: Step, y: nat)
    requires Enabled(s, step) && y in Do(s, step).rows && Do(s, step).rows[y].state == Queued
    requires !(step.Enqueue? && y == s.nextId) && !step.StartByHand?
    ensures y in s.rows
    ensures s.rows[y].state == Queued || (ByWorker(step) && step.w in s.workers && CanReturn(s, step.w, y))
  {
  }

  lemma NewListIsQueued(s: State, step: Step, y: nat)
    requires Enabled(s, step) && step.StartDrain?
    requires (y in s.rows && CanReturn(Do(s, step), step.w, y)) || CanAsk(Do(s, step), step.w, y)
    ensures y in s.rows && s.rows[y].state == Queued && s.rows[y].tunnel == step.tunnel != 0
  {
    QueueOrdered(s.rows, step.tunnel);
    assert y in Queue(s.rows, step.tunnel);
    assert y in QueuedIds(s.rows, step.tunnel);
  }

  lemma AliveShrinks(s: State, step: Step, y: nat)
    requires Wired(s) && Enabled(s, step) && !step.StartByHand? && !(step.Enqueue? && y == s.nextId)
    requires (forall v :: v in s.workers ==> !s.workers[v].byHand)
    requires Alive(Do(s, step), y)
    ensures Alive(s, y)
  {
    var s' := Do(s, step);
    if s'.rows[y].state == Queued {
      OnlyReturnersQueue(s, step, y);
    } else {
      var w :| w in s'.workers && CanReturn(s', w, y);
      OnlyTheActorMoves(s, step);
      RowStays(s, step, y);
      if w in s.workers {
        ReturnsShrink(s, step, w, y);
        if PutsItBack(s, step, y) { PuttersReturn(s, step, y); }
      } else {
        NewListIsQueued(s, step, y);
      }
    }
  }

  // ----- What every orderly step keeps -----

  ghost predicate NoClash(s: State) {
    forall v, w :: v in s.workers && w in s.workers && v != w && s.workers[v].tunnel == s.workers[w].tunnel ==> !Clash(s, v, w)
  }

  /** The drain has marked the event and can hear about it, or has heard. */
  predicate InHand(s: State, w: nat, x: nat)
    requires w in s.workers
  {
    var p := s.workers[w].pc;
    WorksOn(p, x) && (p.Exchanging? || p.Accepting? || p.Counting? || p.Settling? || (p.Opening? && s.workers[w].via in s.open))
  }

  predicate HasHeard(s: State, w: nat, x: nat)
    requires w in s.workers
  {
    var p := s.workers[w].pc;
    WorksOn(p, x) && (p.Accepting? || p.Counting? || p.Settling?)
  }

  ghost predicate InHandOk(s: State) {
    forall w, x: nat :: w in s.workers && InHand(s, w, x) && x in s.rows ==> s.rows[x].state != Queued
  }

  /** What a drain has heard about, no other drain can put back. */
  ghost predicate HeardOk(s: State) {
    forall w, u, x: nat :: w in s.workers && HasHeard(s, w, x) && u in s.workers && u != w && x in s.rows ==> !CanReturn(s, u, x)
  }

  /** All that the tunnel's app has accepted is older than id. */
  ghost predicate AfterLog(t: Trace, tunnel: nat, id: nat) {
    forall i :: 0 <= i < |t.accepted| && t.accepted[i].tunnel == tunnel ==> t.accepted[i].id < id
  }

  ghost predicate LogOk(t: Trace) {
    && (forall i :: 0 <= i < |t.accepted| ==> t.accepted[i].id in t.keys && t.accepted[i] == t.keys[t.accepted[i].id])
    && (forall i, j :: 0 <= i < j < |t.accepted| && t.accepted[i].tunnel == t.accepted[j].tunnel ==>
          t.accepted[i].id < t.accepted[j].id)
  }

  ghost predicate AskOk(t: Trace) {
    forall w, x: nat :: w in t.s.workers && CanAsk(t.s, w, x) ==> AfterLog(t, t.s.workers[w].tunnel, x)
  }

  ghost predicate AliveOk(t: Trace) {
    forall y :: Alive(t.s, y) ==> AfterLog(t, t.s.rows[y].tunnel, y)
  }

  /** Who can ask for an event asks first for all that is alive and older. */
  ghost predicate OldestFirst(s: State) {
    forall v, x, y: nat :: v in s.workers && CanAsk(s, v, x) && Alive(s, y) && s.rows[y].tunnel == s.workers[v].tunnel && y <= x ==>
      CanAsk(s, v, y)
  }

  ghost predicate AcceptingOk(t: Trace) {
    forall w :: w in t.s.workers && t.s.workers[w].pc.Accepting? ==>
      t.s.workers[w].pc.id in t.keys && t.keys[t.s.workers[w].pc.id] in t.accepted
  }

  ghost predicate ResolvedOk(t: Trace, id: nat)
    requires id in t.keys
  {
    && (id in t.s.rows || id in t.s.cleared)
    && (id in t.s.rows && t.s.rows[id].state == Delivered ==> t.keys[id] in t.accepted)
    && (id in t.s.rows && t.s.rows[id].state == Replaying ==> Attended(t.s, id))
  }

  ghost predicate ResolvedsOk(t: Trace) {
    forall id :: id in t.keys ==> ResolvedOk(t, id)
  }

  /** What holds however drains start. */
  ghost predicate Base(t: Trace) {
    KeysOk(t) && DrainsOk(t) && InHandOk(t.s) && HeardOk(t.s)
  }

  ghost predicate Ok(t: Trace) {
    && Base(t) && NoClash(t.s) && OldestFirst(t.s)
    && LogOk(t) && AskOk(t) && AliveOk(t) && AcceptingOk(t) && ResolvedsOk(t)
  }

  lemma NoHands(t: Trace)
    requires DrainsOk(t)
    ensures forall w :: w in t.s.workers ==> !t.s.workers[w].byHand
  {
    forall w | w in t.s.workers ensures !t.s.workers[w].byHand { assert DrainOk(t, w); }
  }

  /** Events that two drains hold are of one tunnel. */
  lemma SameTunnel(t: Trace, v: nat, w: nat, x: nat)
    requires DrainsOk(t) && v in t.s.workers && w in t.s.workers && Holds(t.s.workers[v], x) && Holds(t.s.workers[w], x)
    ensures t.s.workers[v].tunnel == t.s.workers[w].tunnel
  {
    assert DrainOk(t, v) && DrainOk(t, w) && ListOk(t, v, x) && ListOk(t, w, x);
  }

  lemma AskersHold(s: State, w: nat, x: nat)
    requires w in s.workers && CanAsk(s, w, x)
    ensures Holds(s.workers[w], x)
  {
  }

  lemma ReturnersHold(s: State, w: nat, y: nat)
    requires w in s.workers && y in s.rows && CanReturn(s, w, y)
    ensures Holds(s.workers[w], y)
  {
  }

  /** An event in hand that a drain can still hear about is no other's to put back. */
  lemma OnlyItsDrainReturns(t: Trace, w: nat, u: nat, x: nat)
    requires DrainsOk(t) && NoClash(t.s) && HeardOk(t.s)
    requires w in t.s.workers && InHand(t.s, w, x) && u in t.s.workers && u != w && x in t.s.rows
    ensures !CanReturn(t.s, u, x)
  {
    assert HasHeard(t.s, w, x) || CanAsk(t.s, w, x);
    assert t.s.workers[w].tunnel == t.s.workers[u].tunnel ==> !Clash(t.s, w, u);
    if CanReturn(t.s, u, x) {
      ReturnersHold(t.s, u, x);
      SameTunnel(t, w, u, x);
    }
  }

  // InHandOk and HeardOk

  /** A drain has an event in hand that had it before, or has just marked it. */
  lemma NewInHand(s: State, step: Step, w: nat, x: nat)
    requires Wired(s) && Enabled(s, step) && !step.StartByHand? && w in Do(s, step).workers && InHand(Do(s, step), w, x)
    ensures w in s.workers
    ensures InHand(s, w, x) || (step.Mark? && step.w == w && s.workers[w].pc.id == x)
  {
    OnlyTheActorMoves(s, step);
    if w in s.workers { assert WiredOk(s, w); }
  }

  lemma StepKeepsInHand(t: Trace, step: Step, w: nat, x: nat)
    requires Base(t) && NoClash(t.s) && Regular(t, step)
    requires w in Do(t.s, step).workers && InHand(Do(t.s, step), w, x) && x in Do(t.s, step).rows
    ensures Do(t.s, step).rows[x].state != Queued
  {
    NewInHand(t.s, step, w, x);
    NoHands(t);
    assert DrainOk(t, w) && ListOk(t, w, x);
    if InHand(t.s, w, x) && Do(t.s, step).rows[x].state == Queued {
      OnlyReturnersQueue(t.s, step, x);
      if step.w != w { OnlyItsDrainReturns(t, w, step.w, x); }
      StillInHand(t.s, step, w, x);
    }
  }

  /** Who puts back what it has in hand has it in hand no more. */
  lemma StillInHand(s: State, step: Step, w: nat, x: nat)
    requires Enabled(s, step) && x in s.rows && s.rows[x].state != Queued && x in Do(s, step).rows && Do(s, step).rows[x].state == Queued
    requires w in s.workers && !(step.Enqueue? && x == s.nextId) && !step.StartByHand?
    requires w in Do(s, step).workers && InHand(Do(s, step), w, x)
    ensures step.w != w
  {
  }

  lemma NewHeard(s: State, step: Step, w: nat, x: nat)
    requires Enabled(s, step) && w in Do(s, step).workers && HasHeard(Do(s, step), w, x)
    ensures w in s.workers && (HasHeard(s, w, x) || (step.Respond? && step.w == w && s.workers[w].pc == Exchanging(x)))
  {
    OnlyTheActorMoves(s, step);
  }

  lemma StepKeepsHeard(t: Trace, step: Step, w: nat, u: nat, x: nat)
    requires Base(t) && NoClash(t.s) && Regular(t, step)
    requires var s' := Do(t.s, step);
      w in s'.workers && HasHeard(s', w, x) && u in s'.workers && u != w && x in s'.rows
    ensures !CanReturn(Do(t.s, step), u, x)
  {
    var s' := Do(t.s, step);
    NewHeard(t.s, step, w, x);
    NoHands(t);
    assert DrainOk(t, w) && ListOk(t, w, x);
    assert InHand(t.s, w, x);
    RowStays(t.s, step, x);
    if CanReturn(s', u, x) {
      if u in t.s.workers {
        OnlyItsDrainReturns(t, w, u, x);
        ReturnsShrink(t.s, step, u, x);
        PuttersReturn(t.s, step, x);
        if step.w != w { OnlyItsDrainReturns(t, w, step.w, x); }
      } else {
        OnlyTheActorMoves(t.s, step);
        NewListIsQueued(t.s, step, x);
      }
    }
  }

  lemma StepKeepsBase(t: Trace, step: Step)
    requires Base(t) && NoClash(t.s) && Regular(t, step)
    ensures Base(Next(t, step))
  {
    var s' := Do(t.s, step);
    StepKeepsKeys(t, step);
    StepKeepsDrains(t, step);
    forall w, x: nat | w in s'.workers && InHand(s', w, x) && x in s'.rows ensures s'.rows[x].state != Queued {
      StepKeepsInHand(t, step, w, x);
    }
    forall w, u, x: nat | w in s'.workers && HasHeard(s', w, x) && u in s'.workers && u != w && x in s'.rows
      ensures !CanReturn(s', u, x)
    {
      StepKeepsHeard(t, step, w, u, x);
    }
  }

  // NoClash and OldestFirst

  /** What a drain holds was there before the step. */
  lemma HeldAreOld(t: Trace, step: Step, w: nat, y: nat)
    requires KeysOk(t) && DrainsOk(t) && Regular(t, step) && w in t.s.workers && Holds(Do(t.s, step).workers[w], y)
    ensures y < t.s.nextId
  {
    OnlyTheActorMoves(t.s, step);
    assert WiredOk(t.s, w) && DrainOk(t, w);
    if ByWorker(step) && step.w == w { OwnStep(t.s, step); }
    assert ListOk(t, w, y);
  }

  /** While a drain puts an event back, no other that could be accepted later is asked for. */
  lemma NobodyAsksPast(t: Trace, step: Step, v: nat, w: nat, x: nat, y: nat)
    requires Base(t) && NoClash(t.s) && Regular(t, step) && PutsItBack(t.s, step, y) && y in t.s.rows
    requires v in t.s.workers && w in t.s.workers && t.s.workers[v].tunnel == t.s.workers[w].tunnel && Holds(t.s.workers[w], y)
    requires y <= x
    ensures !CanAsk(t.s, v, x)
  {
    PuttersReturn(t.s, step, y);
    ReturnersHold(t.s, step.w, y);
    SameTunnel(t, step.w, w, y);
    assert step.w != v ==> !Clash(t.s, v, step.w);
  }

  /** What w can put back beside what v can ask for, it could before. */
  lemma ReturnedBeside(t: Trace, step: Step, v: nat, w: nat, x: nat, y: nat)
    requires Base(t) && NoClash(t.s) && Regular(t, step)
    requires v in t.s.workers && w in t.s.workers && t.s.workers[v].tunnel == t.s.workers[w].tunnel
    requires CanAsk(t.s, v, x) && y <= x
    requires y in Do(t.s, step).rows && w in Do(t.s, step).workers && CanReturn(Do(t.s, step), w, y)
    ensures y in t.s.rows && CanReturn(t.s, w, y)
  {
    NoHands(t);
    ReturnersHold(Do(t.s, step), w, y);
    HeldAreOld(t, step, w, y);
    ReturnsShrink(t.s, step, w, y);
    if !CanReturn(t.s, w, y) {
      HeldBefore(t, step, w, y);
      NobodyAsksPast(t, step, v, w, x, y);
    }
  }

  lemma HeldBefore(t: Trace, step: Step, w: nat, y: nat)
    requires DrainsOk(t) && Regular(t, step) && w in t.s.workers && Holds(Do(t.s, step).workers[w], y)
    ensures Holds(t.s.workers[w], y)
  {
    OnlyTheActorMoves(t.s, step);
    assert WiredOk(t.s, w) && DrainOk(t, w);
    if ByWorker(step) && step.w == w { OwnStep(t.s, step); }
  }

  lemma OldPairsFit(t: Trace, step: Step, v: nat, w: nat)
    requires Base(t) && NoClash(t.s) && Regular(t, step)
    requires v in t.s.workers && w in t.s.workers && v != w && t.s.workers[v].tunnel == t.s.workers[w].tunnel
    requires v in Do(t.s, step).workers && w in Do(t.s, step).workers
    ensures !Clash(Do(t.s, step), v, w)
  {
    var s, s' := t.s, Do(t.s, step);
    assert !Clash(s, v, w);
    if Clash(s', v, w) {
      var x: nat, y: nat :| CanAsk(s', v, x) && (CanAsk(s', w, y) || (y in s'.rows && y <= x && CanReturn(s', w, y)));
      AsksShrink(s, step, v, x);
      if CanAsk(s', w, y) {
        AsksShrink(s, step, w, y);
      } else {
        ReturnedBeside(t, step, v, w, x, y);
      }
    }
  }

  lemma StepKeepsNoClash(t: Trace, step: Step)
    requires Base(t) && NoClash(t.s) && Orderly(t, step)
    ensures NoClash(Do(t.s, step))
  {
    var s, s' := t.s, Do(t.s, step);
    OnlyTheActorMoves(s, step);
    forall v, w | v in s'.workers && w in s'.workers && v != w && s'.workers[v].tunnel == s'.workers[w].tunnel
      ensures !Clash(s', v, w)
    {
      if v in s.workers && w in s.workers {
        TunnelStays(t, step, v);
        TunnelStays(t, step, w);
        OldPairsFit(t, step, v, w);
      } else {
        assert step.StartDrain? && FitsIn(s', step.w);
      }
    }
  }

  lemma TunnelStays(t: Trace, step: Step, w: nat)
    requires DrainsOk(t) && Regular(t, step) && w in t.s.workers
    ensures w in Do(t.s, step).workers && Do(t.s, step).workers[w].tunnel == t.s.workers[w].tunnel
  {
    OnlyTheActorMoves(t.s, step);
    assert WiredOk(t.s, w) && DrainOk(t, w);
    if ByWorker(step) && step.w == w { OwnStep(t.s, step); }
  }

  /** A drain that goes on asking for an event goes on asking for the older ones, but for one
      that it hears about. */
  lemma AsksOnward(t: Trace, step: Step, v: nat, x: nat, y: nat)
    requires DrainsOk(t) && Regular(t, step) && v in t.s.workers && y <= x
    requires CanAsk(t.s, v, x) && CanAsk(t.s, v, y) && CanAsk(Do(t.s, step), v, x)
    ensures CanAsk(Do(t.s, step), v, y) || (step.Respond? && step.w == v && t.s.workers[v].pc == Exchanging(y))
  {
    OnlyTheActorMoves(t.s, step);
    assert WiredOk(t.s, v) && DrainOk(t, v) && Sorted(t.s.workers[v]);
    if ByWorker(step) && step.w == v {
      OwnAsksOnward(t.s, step, x, y);
    } else {
      OthersAsksOnward(t.s, step, v, x, y);
    }
  }

  lemma OwnAsksOnward(s: State, step: Step, x: nat, y: nat)
    requires Enabled(s, step) && ByWorker(step) && step.w in s.workers && WiredOk(s, step.w) && !s.workers[step.w].byHand
    requires CanAsk(s, step.w, x) && CanAsk(s, step.w, y) && CanAsk(Do(s, step), step.w, x)
    ensures CanAsk(Do(s, step), step.w, y) || (step.Respond? && s.workers[step.w].pc == Exchanging(y))
  {
  }

  lemma OthersAsksOnward(s: State, step: Step, v: nat, x: nat, y: nat)
    requires Enabled(s, step) && v in s.workers && Do(s, step).workers[v] == s.workers[v] && Sorted(s.workers[v]) && y <= x
    requires WiredOk(s, v) && !s.workers[v].byHand
    requires CanAsk(s, v, x) && CanAsk(s, v, y) && CanAsk(Do(s, step), v, x)
    ensures CanAsk(Do(s, step), v, y)
  {
    var wk := s.workers[v];
    if wk.via !in Do(s, step).open {
      assert wk.pc == Exchanging(x);
    }
  }

  /** What the app has just accepted is not alive. */
  lemma AcceptedIsNotAlive(t: Trace, step: Step)
    requires Base(t) && NoClash(t.s) && Orderly(t, step) && step.Respond? && step.status < 500
    ensures !Alive(Do(t.s, step), t.s.workers[step.w].pc.id)
  {
    var x, s' := t.s.workers[step.w].pc.id, Do(t.s, step);
    assert InHand(t.s, step.w, x) && HasHeard(s', step.w, x);
    StepKeepsBase(t, step);
    assert DrainOk(Next(t, step), step.w) && Sorted(s'.workers[step.w]);
    if x in s'.rows {
      assert InHand(s', step.w, x);
      forall u | u in s'.workers ensures !CanReturn(s', u, x) {
        if u != step.w { assert HasHeard(s', step.w, x); }
      }
    }
  }

  lemma HolderTunnel(t: Trace, w: nat, y: nat)
    requires KeysOk(t) && DrainsOk(t) && w in t.s.workers && y in t.s.rows && Holds(t.s.workers[w], y)
    ensures t.s.rows[y].tunnel == t.s.workers[w].tunnel
  {
    assert DrainOk(t, w) && ListOk(t, w, y);
    assert Q.KeyOf(t.s.rows[y]) == t.keys[y];
  }

  lemma NewAsksOldest(t: Trace, step: Step, x: nat, y: nat)
    requires Base(t) && NoClash(t.s) && Orderly(t, step) && step.StartDrain?
    requires var s' := Do(t.s, step);
      CanAsk(s', step.w, x) && Alive(s', y) && s'.rows[y].tunnel == s'.workers[step.w].tunnel && y <= x
    ensures CanAsk(Do(t.s, step), step.w, y)
  {
    var s, s', k := t.s, Do(t.s, step), step.w;
    NewListIsQueued(s, step, x);
    if s.rows[y].state == Queued {
      QueueOrdered(s.rows, step.tunnel);
      assert y in QueuedIds(s.rows, step.tunnel);
    } else {
      var w :| w in s'.workers && CanReturn(s', w, y);
      assert w != k && s'.workers[w].tunnel == s'.workers[k].tunnel ==> !Clash(s', k, w);
      if w == k {
        NewListIsQueued(s, step, y);
      } else {
        StepKeepsDrains(t, step);
        StepKeepsKeys(t, step);
        ReturnersHold(s', w, y);
        HolderTunnel(Next(t, step), w, y);
      }
    }
  }

  lemma StepKeepsOldestFirst(t: Trace, step: Step, v: nat, x: nat, y: nat)
    requires Base(t) && NoClash(t.s) && OldestFirst(t.s) && Orderly(t, step)
    requires var s' := Do(t.s, step);
      v in s'.workers && CanAsk(s', v, x) && Alive(s', y) && s'.rows[y].tunnel == s'.workers[v].tunnel && y <= x
    ensures CanAsk(Do(t.s, step), v, y)
  {
    var s, s' := t.s, Do(t.s, step);
    OnlyTheActorMoves(s, step);
    if v !in s.workers {
      NewAsksOldest(t, step, x, y);
    } else {
      AsksShrink(s, step, v, x);
      AskersHold(s, v, x);
      assert DrainOk(t, v) && ListOk(t, v, x);
      NoHands(t);
      AliveShrinks(s, step, y);
      RowStays(s, step, y);
      TunnelStays(t, step, v);
      assert CanAsk(s, v, y);
      AsksOnward(t, step, v, x, y);
      if step.Respond? && step.w == v && s.workers[v].pc == Exchanging(y) {
        if step.status < 500 { AcceptedIsNotAlive(t, step); }
      }
    }
  }

  // The log

  /** What is accepted is older than all that can be accepted after it. */
  lemma AskedAfterAccepted(t: Trace, step: Step, w: nat, z: nat)
    requires Base(t) && NoClash(t.s) && Orderly(t, step) && step.Respond? && step.status < 500
    requires w in Do(t.s, step).workers && CanAsk(Do(t.s, step), w, z)
    requires t.s.workers[w].tunnel == t.s.workers[step.w].tunnel
    ensures t.s.workers[step.w].pc.id < z
  {
    var s, v, x := t.s, step.w, t.s.workers[step.w].pc.id;
    AsksShrink(s, step, w, z);
    assert CanAsk(s, v, x);
    assert w != v ==> !Clash(s, v, w);
    assert DrainOk(t, v) && Sorted(s.workers[v]);
  }

  lemma AliveAfterAccepted(t: Trace, step: Step, y: nat)
    requires Base(t) && NoClash(t.s) && OldestFirst(t.s) && Orderly(t, step) && step.Respond? && step.status < 500
    requires Alive(Do(t.s, step), y) && t.s.workers[step.w].tunnel == Do(t.s, step).rows[y].tunnel
    ensures t.s.workers[step.w].pc.id < y
  {
    var s, v, x := t.s, step.w, t.s.workers[step.w].pc.id;
    NoHands(t);
    AliveShrinks(s, step, y);
    AcceptedIsNotAlive(t, step);
    assert CanAsk(s, v, x) && DrainOk(t, v) && Sorted(s.workers[v]);
    assert CanAsk(s, v, y) ==> y >= x;
  }

  /** The log grows by an event of the answered drain's tunnel, or not at all. */
  lemma LogGrows(t: Trace, step: Step)
    requires KeysOk(t) && DrainsOk(t) && Regular(t, step)
    ensures t.accepted <= Next(t, step).accepted
    ensures step.Respond? ==> var id := t.s.workers[step.w].pc.id;
      id in t.keys && t.keys[id].id == id && t.keys[id].tunnel == t.s.workers[step.w].tunnel
    ensures Next(t, step).accepted == if step.Respond? && step.status < 500 then t.accepted + [t.keys[t.s.workers[step.w].pc.id]] else t.accepted
  {
    if step.Respond? {
      assert DrainOk(t, step.w) && ListOk(t, step.w, t.s.workers[step.w].pc.id);
    }
  }

  lemma LogAfter(t: Trace, step: Step, tunnel: nat, z: nat)
    requires KeysOk(t) && DrainsOk(t) && Regular(t, step) && AfterLog(t, tunnel, z)
    requires step.Respond? && step.status < 500 && t.s.workers[step.w].tunnel == tunnel ==> t.s.workers[step.w].pc.id < z
    ensures AfterLog(Next(t, step), tunnel, z)
  {
    LogGrows(t, step);
    var log := Next(t, step).accepted;
    forall i | 0 <= i < |log| && log[i].tunnel == tunnel ensures log[i].id < z {
      if i < |t.accepted| { assert log[i] == t.accepted[i]; }
    }
  }

  lemma StepKeepsAsk(t: Trace, step: Step, w: nat, z: nat)
    requires Base(t) && NoClash(t.s) && AskOk(t) && AliveOk(t) && Orderly(t, step)
    requires w in Do(t.s, step).workers && CanAsk(Do(t.s, step), w, z)
    ensures AfterLog(Next(t, step), Do(t.s, step).workers[w].tunnel, z)
  {
    OnlyTheActorMoves(t.s, step);
    if w !in t.s.workers {
      NewListIsQueued(t.s, step, z);
      assert Alive(t.s, z);
      NewTunnel(t.s, step);
      LogAfter(t, step, step.tunnel, z);
    } else {
      AsksShrink(t.s, step, w, z);
      TunnelStays(t, step, w);
      if step.Respond? && step.status < 500 && t.s.workers[step.w].tunnel == t.s.workers[w].tunnel {
        AskedAfterAccepted(t, step, w, z);
      }
      LogAfter(t, step, t.s.workers[w].tunnel, z);
    }
  }

  lemma NewTunnel(s: State, step: Step)
    requires Enabled(s, step) && step.StartDrain? && step.tunnel != 0
    ensures Do(s, step).workers[step.w].tunnel == step.tunnel
  {
  }

  lemma StepKeepsAlive(t: Trace, step: Step, y: nat)
    requires Base(t) && NoClash(t.s) && OldestFirst(t.s) && LogOk(t) && AliveOk(t) && Orderly(t, step)
    requires Alive(Do(t.s, step), y)
    ensures AfterLog(Next(t, step), Do(t.s, step).rows[y].tunnel, y)
  {
    var s' := Do(t.s, step);
    if step.Enqueue? && y == t.s.nextId {
      assert Next(t, step).accepted == t.accepted;
    } else {
      NoHands(t);
      AliveShrinks(t.s, step, y);
      RowStays(t.s, step, y);
      if step.Respond? && step.status < 500 && t.s.workers[step.w].tunnel == s'.rows[y].tunnel {
        AliveAfterAccepted(t, step, y);
      }
      LogAfter(t, step, s'.rows[y].tunnel, y);
    }
  }

  lemma StepKeepsLog(t: Trace, step: Step)
    requires KeysOk(t) && DrainsOk(t) && LogOk(t) && AskOk(t) && Regular(t, step)
    ensures LogOk(Next(t, step))
  {
    KeysStay(t, step);
    LogGrows(t, step);
    if step.Respond? {
      assert CanAsk(t.s, step.w, t.s.workers[step.w].pc.id);
      assert AfterLog(t, t.s.workers[step.w].tunnel, t.s.workers[step.w].pc.id);
    }
  }

  lemma OnlyAnswersAreAccepted(s: State, step: Step, w: nat)
    requires Enabled(s, step) && w in Do(s, step).workers && Do(s, step).workers[w].pc.Accepting?
    ensures w in s.workers
    ensures if step.Respond? && step.w == w then step.status < 500 && s.workers[w].pc == Exchanging(Do(s, step).workers[w].pc.id)
            else Do(s, step).workers[w] == s.workers[w]
  {
    OnlyTheActorMoves(s, step);
  }

  lemma StepKeepsAccepting(t: Trace, step: Step)
    requires KeysOk(t) && DrainsOk(t) && AcceptingOk(t) && Regular(t, step)
    ensures AcceptingOk(Next(t, step))
  {
    var t' := Next(t, step);
    KeysStay(t, step);
    LogGrows(t, step);
    assert forall k :: k in t.accepted ==> k in t'.accepted;
    forall w | w in t'.s.workers && t'.s.workers[w].pc.Accepting?
      ensures t'.s.workers[w].pc.id in t'.keys && t'.keys[t'.s.workers[w].pc.id] in t'.accepted
    {
      OnlyAnswersAreAccepted(t.s, step, w);
      if step.Respond? && step.w == w { assert t'.accepted[|t.accepted|] == t.keys[t'.s.workers[w].pc.id]; }
    }
  }

  lemma OnlyAcceptDelivers(s: State, step: Step, id: nat)
    requires Enabled(s, step) && id in Do(s, step).rows && Do(s, step).rows[id].state == Delivered
    ensures (id in s.rows && s.rows[id].state == Delivered) || (step.Accept? && s.workers[step.w].pc.id == id)
  {
  }

  lemma KeptOrCleared(s: State, step: Step, id: nat)
    requires Enabled(s, step) && (id in s.rows || id in s.cleared || (step.Enqueue? && id == s.nextId))
    ensures id in Do(s, step).rows || id in Do(s, step).cleared
  {
  }

  lemma NothingExpires(t: Trace, step: Step)
    requires DrainsOk(t) && Enabled(t.s, step)
    ensures !step.Expire?
  {
    NoHands(t);
  }

  lemma StepKeepsResolved(t: Trace, step: Step, id: nat)
    requires KeysOk(t) && DrainsOk(t) && AcceptingOk(t) && ResolvedsOk(t) && Regular(t, step) && id in Next(t, step).keys
    ensures ResolvedOk(Next(t, step), id)
  {
    var t' := Next(t, step);
    KeysStay(t, step);
    LogGrows(t, step);
    assert forall k :: k in t.accepted ==> k in t'.accepted;
    assert id in t.keys ==> ResolvedOk(t, id);
    KeptOrCleared(t.s, step, id);
    if id in t'.s.rows && t'.s.rows[id].state == Delivered {
      OnlyAcceptDelivers(t.s, step, id);
    }
    if id in t'.s.rows && t'.s.rows[id].state == Replaying {
      NothingExpires(t, step);
      OnlyMarkMakesReplaying(t.s, step, id);
      assert id in t.s.rows ==> id in t.keys;
      AttendanceStays(t.s, step, id);
    }
  }

  lemma StepKeepsOk(t: Trace, step: Step)
    requires Ok(t) && Orderly(t, step)
    ensures Ok(Next(t, step))
  {
    var t' := Next(t, step);
    StepKeepsBase(t, step);
    StepKeepsNoClash(t, step);
    StepKeepsLog(t, step);
    StepKeepsAccepting(t, step);
    forall v, x, y: nat | v in t'.s.workers && CanAsk(t'.s, v, x) && Alive(t'.s, y) && t'.s.rows[y].tunnel == t'.s.workers[v].tunnel && y <= x
      ensures CanAsk(t'.s, v, y)
    {
      StepKeepsOldestFirst(t, step, v, x, y);
    }
    forall w, x: nat | w in t'.s.workers && CanAsk(t'.s, w, x) ensures AfterLog(t', t'.s.workers[w].tunnel, x) {
      StepKeepsAsk(t, step, w, x);
    }
    forall y | Alive(t'.s, y) ensures AfterLog(t', t'.s.rows[y].tunnel, y) { StepKeepsAlive(t, step, y); }
    forall id | id in t'.keys ensures ResolvedOk(t', id) { StepKeepsResolved(t, step, id); }
  }

  lemma {:induction false} RunKeepsOk(t: Trace, steps: seq<Step>)
    requires Ok(t) && AllOrderly(t, steps)
    ensures Ok(After(t, steps))
    decreases |steps|
  {
    if steps != [] {
      StepKeepsOk(t, steps[0]);
      RunKeepsOk(Next(t, steps[0]), steps[1..]);
    }
  }

  /** The history is one of the worker model. */
  lemma {:induction false} AfterIsRun(t: Trace, steps: seq<Step>)
    requires AllOrderly(t, steps)
    ensures Possible(t.s, steps) && After(t, steps).s == Run(t.s, steps)
    decreases |steps|
  {
    if steps != [] { AfterIsRun(Next(t, steps[0]), steps[1..]); }
  }

  /** The drain is counting the event's last failure. */
  predicate CountsLast(s: State, w: nat, id: nat)
    requires w in s.workers && id in s.rows
  {
    WorksOn(s.workers[w].pc, id) && !CanReturn(s, w, id) && (s.workers[w].pc.Counting? || s.workers[w].pc.Settling?)
  }

  ghost predicate Dying(s: State, id: nat) {
    id in s.rows && exists w :: w in s.workers && CountsLast(s, w, id)
  }

  ghost predicate Resolved(t: Trace, k: Q.Key) {
    k in t.accepted || k.id in t.s.cleared || (k.id in t.s.rows && t.s.rows[k.id].state == Dead) || Dying(t.s, k.id)
  }

  lemma OkIsOrdered(t: Trace)
    requires KeysOk(t) && LogOk(t)
    ensures Q.StrictlyOrdered(t.accepted)
  {
    forall i, j | 0 <= i < j < |t.accepted| && t.accepted[i].tunnel == t.accepted[j].tunnel
      ensures Q.Earlier(t.accepted[i], t.accepted[j])
    {
      assert t.accepted[i].id < t.accepted[j].id;
    }
  }

  lemma UnresolvedIsYounger(t: Trace, id: nat, i: nat)
    requires Ok(t) && id in t.keys && i < |t.accepted| && Q.Precedes(t.keys[id], t.accepted[i])
    ensures Resolved(t, t.keys[id])
  {
    assert ResolvedOk(t, id);
    assert t.accepted[i] == t.keys[t.accepted[i].id];
    if id in t.s.rows {
      assert Q.KeyOf(t.s.rows[id]) == t.keys[id];
      assert !Alive(t.s, id);
      if t.s.rows[id].state == Replaying {
        var w :| w in t.s.workers && Inside(t.s.workers[w].pc, id);
        assert !CanReturn(t.s, w, id);
        assert t.s.workers[w].pc.Accepting? || CountsLast(t.s, w, id);
      }
    }
  }

  /** In every interleaving of statements, responses, connects, closes, enqueues and clears
      without manual replays, in which every drain that starts fits in with those at work:
      each tunnel's acceptances strictly follow the order of receipt, and every event
      received before an accepted one is accepted, dead, at its last failure or cleared. */
  lemma DeliveryOrder(steps: seq<Step>)
    requires AllOrderly(START, steps)
    ensures var t := After(START, steps);
      && Possible(INIT, steps) && t.s == Run(INIT, steps)
      && Q.StrictlyOrdered(t.accepted)
      && (forall id, i :: id in t.keys && 0 <= i < |t.accepted| && Q.Precedes(t.keys[id], t.accepted[i]) ==> Resolved(t, t.keys[id]))
  {
    var t := After(START, steps);
    AfterIsRun(START, steps);
    RunKeepsOk(START, steps);
    OkIsOrdered(t);
    forall id, i | id in t.keys && 0 <= i < |t.accepted| && Q.Precedes(t.keys[id], t.accepted[i])
      ensures Resolved(t, t.keys[id])
    {
      UnresolvedIsYounger(t, id, i);
    }
  }

  /** A drain that starts when no other of its tunnel is at work always fits in. */
  lemma LoneDrainFitsIn(s: State, k: nat)
    requires k in s.workers
    requires forall w :: w in s.workers && w != k && s.workers[w].tunnel == s.workers[k].tunnel ==> s.workers[w].pc.Finished?
    ensures FitsIn(s, k)
  {
  }
}
