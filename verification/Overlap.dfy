/** What overlap between workers costs, and what its absence gives back: the step
    model against the sequential one. */
module Overlap {
  import opened Options
  import opened Events
  import opened Replay
  import opened Drains
  import opened Workers

  // ----- A worker left alone does what the sequential model says -----

  /** The steps of a worker that has marked its event and meets o. */
  function AnswerSteps(w: nat, o: Outcome): seq<Step> {
    match o
    case OpenFailed => [Lose(w)] + [Requeue(w)]
    case _ => [Open(w)] + AfterOpen(w, o)
  }

  function Answered(o: Outcome): seq<int> { if o.Response? then [o.status] else [] }

  lemma RunOne(s: State, a: Step)
    requires Enabled(s, a)
    ensures Possible(s, [a]) && Run(s, [a]) == Do(s, a)
  {
    assert [a][1..] == [];
  }

  lemma RunMore(s: State, a: Step, rest: seq<Step>)
    requires Enabled(s, a) && Possible(Do(s, a), rest)
    ensures Possible(s, [a] + rest) && Run(s, [a] + rest) == Run(Do(s, a), rest)
  {
    assert ([a] + rest)[1..] == rest;
  }

  /** t is s but for worker w, and the row and the log of the event. */
  ghost predicate Near(s: State, t: State, w: nat, id: nat) {
    && id in s.rows && id in t.rows && w in t.workers
    && t == s.(rows := s.rows[id := t.rows[id]], workers := s.workers[w := t.workers[w]], log := t.log)
  }

  /** The steps leave s as it was but for worker w and the event, which end like this. */
  ghost predicate Ends(s: State, steps: seq<Step>, w: nat, id: nat, e: Event, log: seq<int>) {
    && Possible(s, steps) && Near(s, Run(s, steps), w, id)
    && Run(s, steps).rows[id] == e && LogOf(Run(s, steps), id) == log
  }

  /** One step, and then the others. */
  lemma EndsFront(s: State, a: Step, t: State, rest: seq<Step>, w: nat, id: nat, e: Event, log: seq<int>)
    requires Enabled(s, a) && t == Do(s, a) && Near(s, t, w, id) && Ends(t, rest, w, id, e, log)
    ensures Ends(s, [a] + rest, w, id, e, log)
  {
    RunMore(s, a, rest);
  }

  lemma EndsOne(s: State, a: Step, w: nat, id: nat)
    requires Enabled(s, a) && Near(s, Do(s, a), w, id)
    ensures Ends(s, [a], w, id, Do(s, a).rows[id], LogOf(Do(s, a), id))
  {
    RunOne(s, a);
  }

  lemma FailureSteps(s: State, w: nat)
    requires Enabled(s, Count(w)) && s.workers[w].pc.id in s.rows
    ensures var id := s.workers[w].pc.id;
      Ends(s, [Count(w)] + [Settle(w)], w, id, FailedRow(s.rows[id], s.workers[w].pc.status), LogOf(s, id))
  {
    var id, t := s.workers[w].pc.id, Do(s, Count(w));
    EndsOne(t, Settle(w), w, id);
    EndsFront(s, Count(w), t, [Settle(w)], w, id, FailedRow(s.rows[id], s.workers[w].pc.status), LogOf(s, id));
  }

  lemma LossSteps(s: State, w: nat)
    requires Enabled(s, Lose(w)) && s.workers[w].pc.id in s.rows
    ensures var id := s.workers[w].pc.id;
      Ends(s, [Lose(w)] + [Requeue(w)], w, id, RequeuedRow(s.rows[id]), LogOf(s, id))
  {
    var id, t := s.workers[w].pc.id, Do(s, Lose(w));
    EndsOne(t, Requeue(w), w, id);
    EndsFront(s, Lose(w), t, [Requeue(w)], w, id, RequeuedRow(s.rows[id]), LogOf(s, id));
  }

  /** The app's answer, logged and about to be recorded. */
  lemma HeardSteps(s: State, w: nat, status: int)
    requires w in s.workers && s.workers[w].pc.Exchanging? && s.workers[w].pc.id in s.rows
    ensures var t, id := Do(s, Respond(w, status)), s.workers[w].pc.id;
      && Near(s, t, w, id) && t.rows == s.rows && LogOf(t, id) == LogOf(s, id) + [status]
      && t.workers[w].pc == if status >= 500 then Counting(id, status) else Accepting(id, status)
  {
  }

  lemma AcceptSteps(s: State, w: nat, at: int)
    requires Enabled(s, Accept(w, at)) && s.workers[w].pc.id in s.rows
    ensures var id := s.workers[w].pc.id;
      Ends(s, [Accept(w, at)], w, id, DeliveredRow(s.rows[id], s.workers[w].pc.status, at), LogOf(s, id))
  {
    EndsOne(s, Accept(w, at), w, s.workers[w].pc.id);
  }

  function AfterOpen(w: nat, o: Outcome): seq<Step>
    requires !o.OpenFailed?
  {
    match o
    case Response(status, at) => [Respond(w, status)] + (if status >= 500 then [Count(w)] + [Settle(w)] else [Accept(w, at)])
    case _ => [Lose(w)] + [Requeue(w)]
  }

  lemma OpenedSteps(s: State, w: nat, o: Outcome)
    requires w in s.workers && s.workers[w].pc.Exchanging? && s.workers[w].pc.id in s.rows && !o.OpenFailed?
    ensures var id := s.workers[w].pc.id;
      Ends(s, AfterOpen(w, o), w, id, ReplayedRow(s.rows[id], o), LogOf(s, id) + Answered(o))
  {
    var id := s.workers[w].pc.id;
    if o.Response? {
      var t := Do(s, Respond(w, o.status));
      HeardSteps(s, w, o.status);
      if o.status >= 500 { FailureSteps(t, w); } else { AcceptSteps(t, w, o.at); }
      EndsFront(s, Respond(w, o.status), t, if o.status >= 500 then [Count(w)] + [Settle(w)] else [Accept(w, o.at)],
                w, id, ReplayedRow(s.rows[id], o), LogOf(s, id) + Answered(o));
    } else {
      LossSteps(s, w);
    }
  }

  lemma ExchangeSteps(s: State, w: nat, o: Outcome)
    requires w in s.workers && s.workers[w].pc.Opening? && s.workers[w].pc.id in s.rows
    requires o.OpenFailed? || s.workers[w].via in s.open
    ensures var id := s.workers[w].pc.id;
      Ends(s, AnswerSteps(w, o), w, id, ReplayedRow(s.rows[id], o), LogOf(s, id) + Answered(o))
  {
    var id := s.workers[w].pc.id;
    if o.OpenFailed? {
      LossSteps(s, w);
    } else {
      var t := Do(s, Open(w));
      OpenedSteps(t, w, o);
      EndsFront(s, Open(w), t, AfterOpen(w, o), w, id, ReplayedRow(s.rows[id], o), LogOf(s, id) + Answered(o));
      assert AnswerSteps(w, o) == [Open(w)] + AfterOpen(w, o);
    }
  }

  /** From mark to last update, with nothing in between: exactly the sequential ReplayEvent. */
  lemma SoloReplayIsSequential(s: State, w: nat, o: Outcome)
    requires w in s.workers && s.workers[w].pc.Starting? && s.workers[w].pc.id in s.rows
    requires o.OpenFailed? || s.workers[w].via in s.open
    ensures var steps, id := [Mark(w)] + AnswerSteps(w, o), s.workers[w].pc.id;
      && Ends(s, steps, w, id, ReplayedRow(s.rows[id], o), LogOf(s, id) + Answered(o))
      && Run(s, steps).rows == ReplayedAt(s.rows, id, o)
  {
    var id, t := s.workers[w].pc.id, Do(s, Mark(w));
    assert ReplayedRow(t.rows[id], o) == ReplayedRow(s.rows[id], o);
    ExchangeSteps(t, w, o);
    EndsFront(s, Mark(w), t, AnswerSteps(w, o), w, id, ReplayedRow(s.rows[id], o), LogOf(s, id) + Answered(o));
  }

  // ----- Without overlap, rows at rest are well formed -----

  predicate WorksOn(p: Pc, id: nat) {
    !p.Between? && !p.Finished? && p.id == id
  }

  predicate Holds(wk: Worker, id: nat) {
    id in wk.todo || WorksOn(wk.pc, id)
  }

  ghost predicate Free(s: State, id: nat) {
    forall w :: w in s.workers ==> !Holds(s.workers[w], id)
  }

  /** A worker starts only on events that nobody holds, and is not cut short. */
  ghost predicate Alone(s: State, step: Step) {
    && (step.StartDrain? ==> forall id :: id in Queue(s.rows, step.tunnel) ==> Free(s, id))
    && (step.StartByHand? ==> Free(s, step.id))
    && !step.Expire?
  }

  ghost predicate Exclusive(s: State, steps: seq<Step>)
    requires Possible(s, steps)
    decreases |steps|
  {
    steps == [] || (Alone(s, steps[0]) && Exclusive(Do(s, steps[0]), steps[1..]))
  }

  /** How an event's row looks to the one worker that holds it. */
  predicate Fits(wk: Worker, e: Event, id: nat) {
    if !WorksOn(wk.pc, id) || wk.pc.Starting? || wk.pc.Finding? then e.state == Queued && WellFormed(e)
    else if wk.pc.Reviving? then WellFormed(e)
    else if wk.pc.Settling? then
      && e.state == Replaying && e.deliveredAt == None && e.lastStatus >= 500
      && e.attempts == wk.pc.attempts <= MAX_REPLAY_ATTEMPTS
    else
      && e.state == Replaying && e.deliveredAt == None && e.attempts < MAX_REPLAY_ATTEMPTS
      && (wk.pc.Accepting? ==> wk.pc.status < 500) && (wk.pc.Counting? ==> wk.pc.status >= 500)
  }

  predicate Tidy(wk: Worker) {
    && (forall i, j :: 0 <= i < j < |wk.todo| ==> wk.todo[i] != wk.todo[j])
    && (forall i :: 0 <= i < |wk.todo| ==> !WorksOn(wk.pc, wk.todo[i]))
  }

  ghost predicate OneHolder(s: State, id: nat) {
    forall v, w :: v in s.workers && w in s.workers && Holds(s.workers[v], id) && Holds(s.workers[w], id) ==> v == w
  }

  ghost predicate RowFits(s: State, id: nat) {
    && (Free(s, id) && id in s.rows ==> WellFormed(s.rows[id]))
    && (forall w :: w in s.workers && Holds(s.workers[w], id) && id in s.rows ==> Fits(s.workers[w], s.rows[id], id))
  }

  ghost predicate Undisturbed(s: State) {
    && (forall w :: w in s.workers ==> Tidy(s.workers[w]))
    && (forall id: nat :: OneHolder(s, id))
    && (forall id: nat :: RowFits(s, id))
    && (forall id :: id in s.rows ==> id < s.nextId)
    && (forall w, id: nat :: w in s.workers && Holds(s.workers[w], id) ==> id < s.nextId)
  }

  lemma NotHeldBefore(s: State, step: Step, w: nat, id: nat)
    requires Enabled(s, step) && !step.StartDrain? && !step.StartByHand?
    requires w in Do(s, step).workers && Holds(Do(s, step).workers[w], id)
    ensures w in s.workers && Holds(s.workers[w], id)
  {
  }

  lemma TakenWereFree(s: State, step: Step, w: nat, id: nat)
    requires Enabled(s, step) && Alone(s, step) && (step.StartDrain? || step.StartByHand?)
    requires w in Do(s, step).workers && Holds(Do(s, step).workers[w], id)
    ensures if w == step.w then Free(s, id) && id in s.rows else w in s.workers && Holds(s.workers[w], id)
  {
  }

  lemma StepKeepsOneHolder(s: State, step: Step, id: nat)
    requires Undisturbed(s) && Enabled(s, step) && Alone(s, step)
    ensures OneHolder(Do(s, step), id)
  {
    var s' := Do(s, step);
    assert OneHolder(s, id);
    forall v, w | v in s'.workers && w in s'.workers && Holds(s'.workers[v], id) && Holds(s'.workers[w], id)
      ensures v == w
    {
      if step.StartDrain? || step.StartByHand? {
        TakenWereFree(s, step, v, id);
        TakenWereFree(s, step, w, id);
      } else {
        NotHeldBefore(s, step, v, id);
        NotHeldBefore(s, step, w, id);
      }
    }
  }

  lemma DrainStartsTidy(rows: Table, tunnel: nat, wk: Worker)
    requires wk.pc.Between? && (wk.todo == [] || wk.todo == Queue(rows, tunnel))
    ensures Tidy(wk)
  {
    QueueOrdered(rows, tunnel);
    OrderingDistinct(rows, QueuedIds(rows, tunnel), Queue(rows, tunnel));
  }

  lemma TakeKeepsTidy(wk: Worker)
    requires Tidy(wk) && wk.todo != []
    ensures Tidy(wk.(todo := wk.todo[1..], pc := Starting(wk.todo[0])))
  {
    assert forall i :: 0 <= i < |wk.todo[1..]| ==> wk.todo[1..][i] == wk.todo[i + 1];
  }

  lemma StepKeepsTidy(s: State, step: Step, w: nat)
    requires Undisturbed(s) && Enabled(s, step) && w in Do(s, step).workers
    ensures Tidy(Do(s, step).workers[w])
  {
    assert w in s.workers ==> Tidy(s.workers[w]);
    if step.StartDrain? {
      if step.w == w { DrainStartsTidy(s.rows, step.tunnel, Do(s, step).workers[w]); }
    } else if step.Take? {
      TakeKeepsTidy(s.workers[step.w]);
    }
  }

  /** A step changes no row but a new one and the one its worker is on. */
  lemma OnlyOwnRow(s: State, step: Step, id: nat)
    requires Enabled(s, step) && id in Do(s, step).rows
    requires !(step.Enqueue? && id == s.nextId)
    requires ByWorker(step) && step.w in s.workers ==> !WorksOn(s.workers[step.w].pc, id)
    ensures id in s.rows && Do(s, step).rows[id] == s.rows[id]
  {
  }

  /** A statement leaves the row as the worker's new place, or its leaving, requires. */
  lemma WriterKeepsFit(s: State, step: Step, id: nat)
    requires Enabled(s, step) && ByWorker(step) && !step.Expire? && step.w in s.workers && Writes(s.workers[step.w].pc)
    requires WorksOn(s.workers[step.w].pc, id) && Tidy(s.workers[step.w]) && id in Do(s, step).rows
    requires id in s.rows ==> Fits(s.workers[step.w], s.rows[id], id)
    ensures var wk, e := Do(s, step).workers[step.w], Do(s, step).rows[id];
      if Holds(wk, id) then Fits(wk, e, id) else WellFormed(e)
  {
    assert id !in s.workers[step.w].todo;
  }

  /** The worker on an event leaves the row as its new place, or its leaving, requires. */
  lemma ActorKeepsFit(s: State, step: Step, id: nat)
    requires Enabled(s, step) && ByWorker(step) && !step.Expire? && step.w in s.workers
    requires WorksOn(s.workers[step.w].pc, id) && Tidy(s.workers[step.w]) && id in Do(s, step).rows
    requires id in s.rows ==> Fits(s.workers[step.w], s.rows[id], id)
    ensures var wk, e := Do(s, step).workers[step.w], Do(s, step).rows[id];
      if Holds(wk, id) then Fits(wk, e, id) else WellFormed(e)
  {
    if Writes(s.workers[step.w].pc) {
      WriterKeepsFit(s, step, id);
    } else {
      assert Do(s, step).rows == s.rows;
    }
  }

  /** The one holder of an event finds its row as the holder's own step leaves it. */
  lemma StepKeepsFit(s: State, step: Step, w: nat, id: nat)
    requires Undisturbed(s) && Enabled(s, step) && Alone(s, step)
    requires w in Do(s, step).workers && Holds(Do(s, step).workers[w], id) && id in Do(s, step).rows
    ensures Fits(Do(s, step).workers[w], Do(s, step).rows[id], id)
  {
    assert RowFits(s, id);
    if step.StartDrain? || step.StartByHand? {
      TakenWereFree(s, step, w, id);
      if step.StartDrain? && w == step.w {
        QueueOrdered(s.rows, step.tunnel);
        assert id in QueuedIds(s.rows, step.tunnel);
      }
    } else {
      NotHeldBefore(s, step, w, id);
      assert OneHolder(s, id);
      if ByWorker(step) && WorksOn(s.workers[step.w].pc, id) {
        assert w == step.w && Tidy(s.workers[w]);
        ActorKeepsFit(s, step, id);
      } else {
        OnlyOwnRow(s, step, id);
      }
    }
  }

  lemma StepKeepsRest(s: State, step: Step, id: nat)
    requires Undisturbed(s) && Enabled(s, step) && Alone(s, step)
    requires Free(Do(s, step), id) && id in Do(s, step).rows
    ensures WellFormed(Do(s, step).rows[id])
  {
    assert RowFits(s, id);
    if ByWorker(step) && step.w in s.workers && WorksOn(s.workers[step.w].pc, id) {
      assert Tidy(s.workers[step.w]);
      ActorKeepsFit(s, step, id);
    } else if !(step.Enqueue? && id == s.nextId) {
      OnlyOwnRow(s, step, id);
      if !Free(s, id) {
        var w := LetGo(s, step, id);
        assert Fits(s.workers[w], s.rows[id], id);
      }
    }
  }

  /** An event let go of by a worker that was not on it was still waiting in that worker's list. */
  lemma LetGo(s: State, step: Step, id: nat) returns (w: nat)
    requires Enabled(s, step) && !Free(s, id) && Free(Do(s, step), id)
    requires ByWorker(step) && step.w in s.workers ==> !WorksOn(s.workers[step.w].pc, id)
    ensures w in s.workers && Holds(s.workers[w], id) && !WorksOn(s.workers[w].pc, id)
  {
    w :| w in s.workers && Holds(s.workers[w], id);
    assert !Holds(Do(s, step).workers[w], id);
  }

  lemma StepKeepsUndisturbed(s: State, step: Step)
    requires Undisturbed(s) && Enabled(s, step) && Alone(s, step)
    ensures Undisturbed(Do(s, step))
  {
    var s' := Do(s, step);
    forall w | w in s'.workers ensures Tidy(s'.workers[w]) { StepKeepsTidy(s, step, w); }
    forall id: nat ensures OneHolder(s', id) { StepKeepsOneHolder(s, step, id); }
    forall id: nat ensures RowFits(s', id) {
      if Free(s', id) && id in s'.rows { StepKeepsRest(s, step, id); }
      forall w | w in s'.workers && Holds(s'.workers[w], id) && id in s'.rows
        ensures Fits(s'.workers[w], s'.rows[id], id)
      {
        StepKeepsFit(s, step, w, id);
      }
    }
    forall w, id: nat | w in s'.workers && Holds(s'.workers[w], id) ensures id < s'.nextId {
      if step.StartDrain? || step.StartByHand? {
        TakenWereFree(s, step, w, id);
      } else {
        NotHeldBefore(s, step, w, id);
      }
    }
  }

  lemma {:induction false} RunKeepsUndisturbed(s: State, steps: seq<Step>)
    requires Undisturbed(s) && Possible(s, steps) && Exclusive(s, steps)
    ensures Undisturbed(Run(s, steps))
    decreases |steps|
  {
    if steps != [] {
      StepKeepsUndisturbed(s, steps[0]);
      RunKeepsUndisturbed(Do(s, steps[0]), steps[1..]);
    }
  }

  /** However the workers interleave, as long as none starts on an event another holds:
      every event that nobody is working on has a well-formed row, exactly as in the
      sequential model. */
  lemma ExclusiveRowsWellFormed(steps: seq<Step>)
    requires Possible(INIT, steps) && Exclusive(INIT, steps)
    ensures var s := Run(INIT, steps);
      forall id: nat :: id in s.rows && Free(s, id) ==> WellFormed(s.rows[id])
  {
    RunKeepsUndisturbed(INIT, steps);
    var s := Run(INIT, steps);
    forall id: nat | id in s.rows && Free(s, id) ensures WellFormed(s.rows[id]) {
      assert RowFits(s, id);
    }
  }

  // ----- With overlap they need not be -----

  lemma {:induction false} RunThen(s: State, steps: seq<Step>, last: Step)
    requires Possible(s, steps) && Enabled(Run(s, steps), last)
    ensures Possible(s, steps + [last]) && Run(s, steps + [last]) == Do(Run(s, steps), last)
    decreases |steps|
  {
    if steps == [] {
      RunOne(s, last);
      assert [] + [last] == [last];
    } else {
      RunThen(Do(s, steps[0]), steps[1..], last);
      assert (steps + [last])[1..] == steps[1..] + [last];
    }
  }

  lemma {:induction false} RunJoins(s: State, before: seq<Step>, after: seq<Step>)
    requires Possible(s, before) && Possible(Run(s, before), after)
    ensures Possible(s, before + after) && Run(s, before + after) == Run(Run(s, before), after)
    decreases |before|
  {
    if before == [] {
      assert before + after == after;
    } else {
      RunJoins(Do(s, before[0]), before[1..], after);
      assert (before + after)[1..] == before[1..] + after;
    }
  }

  /** One event, of tunnel 7. */
  ghost predicate OneEvent(s: State) {
    s.rows.Keys == {1} && s.rows[1].tunnel == 7
  }

  /** It waits to be tried again after n failures. */
  ghost predicate OneQueued(s: State, n: nat) {
    OneEvent(s) && s.rows[1].state == Queued && s.rows[1].attempts == n
  }

  lemma QueueOfOne(s: State, n: nat)
    requires OneQueued(s, n)
    ensures Queue(s.rows, 7) == [1]
  {
    QueueOrdered(s.rows, 7);
    assert QueuedIds(s.rows, 7) == {1};
    OrderingUnique(s.rows, {1}, Queue(s.rows, 7), [1]);
  }

  predicate Unused(s: State, k: nat) { k !in s.sessions && k !in s.workers }

  /** The drain of session w has read its list, and done nothing yet. */
  predicate HasListed(s: State, w: nat) {
    w in s.workers && s.workers[w] == Worker([1], Between, false, 7, w)
  }

  /** An agent connects, and its drain reads the list. */
  lemma ConnectAndList(s: State, k: nat, n: nat) returns (steps: seq<Step>)
    requires OneQueued(s, n) && Unused(s, k)
    ensures Possible(s, steps) && HasListed(Run(s, steps), k) && k in Run(s, steps).open
    ensures var t := Run(s, steps);
      && t.rows == s.rows && t.log == s.log && t.workers.Keys == s.workers.Keys + {k} && t.sessions.Keys == s.sessions.Keys + {k}
      && forall w :: w in s.workers && w != k ==> t.workers[w] == s.workers[w]
  {
    QueueOfOne(s, n);
    var t := Do(s, Connect(k, 7, true));
    RunOne(t, StartDrain(k, 7));
    RunMore(s, Connect(k, 7, true), [StartDrain(k, 7)]);
    steps := [Connect(k, 7, true)] + [StartDrain(k, 7)];
  }

  /** The drain tries the event and meets o; on a closed session that can only be OpenFailed. */
  lemma TryIt(s: State, w: nat, o: Outcome) returns (steps: seq<Step>)
    requires OneEvent(s) && HasListed(s, w) && (o.OpenFailed? || w in s.open)
    ensures Ends(s, steps, w, 1, ReplayedRow(s.rows[1], o), LogOf(s, 1) + Answered(o))
    ensures OneEvent(Run(s, steps))
  {
    var t := Do(s, Take(w));
    SoloReplayIsSequential(t, w, o);
    RunMore(s, Take(w), [Mark(w)] + AnswerSteps(w, o));
    steps := [Take(w)] + ([Mark(w)] + AnswerSteps(w, o));
  }

  lemma EnqueueOne(request: Request) returns (steps: seq<Step>)
    ensures Possible(INIT, steps) && OneQueued(Run(INIT, steps), 0)
    ensures Run(INIT, steps) == Do(INIT, Enqueue(7, request, 0))
  {
    RunOne(INIT, Enqueue(7, request, 0));
    steps := [Enqueue(7, request, 0)];
  }

  /** Two drains have read a list with the event; only the younger one's session is open. */
  ghost predicate BothListed(s: State, a: nat, b: nat, n: nat) {
    a != b && OneQueued(s, n) && HasListed(s, a) && HasListed(s, b) && b in s.open
  }

  lemma ListTwice(s: State, a: nat, b: nat, n: nat) returns (steps: seq<Step>)
    requires OneQueued(s, n) && Unused(s, a) && Unused(s, b) && a != b
    ensures Possible(s, steps) && BothListed(Run(s, steps), a, b, n)
    ensures var t := Run(s, steps);
      t.log == s.log && t.workers.Keys == s.workers.Keys + {a, b} && t.sessions.Keys == s.sessions.Keys + {a, b}
  {
    var first := ConnectAndList(s, a, n);
    var t := Run(s, first);
    var second := ConnectAndList(t, b, n);
    RunJoins(s, first, second);
    steps := first + second;
  }

  /** The agent reconnects before the first drain has got to its event: both drains list it.
      The first session is closed by then, since the registry closes what it replaces. */
  lemma OverlapIsReachable(request: Request) returns (steps: seq<Step>)
    ensures Possible(INIT, steps) && BothListed(Run(INIT, steps), 1, 2, 0) && 1 !in Run(INIT, steps).open
    ensures var t := Run(INIT, steps);
      t.log == map[] && t.workers.Keys == {1, 2} && t.sessions.Keys == {1, 2}
  {
    var enqueue := EnqueueOne(request);
    var rest := ListTwice(Run(INIT, enqueue), 1, 2, 0);
    RunJoins(INIT, enqueue, rest);
    steps := enqueue + rest;
    RunKeepsWired(INIT, steps);
    var t := Run(INIT, steps);
    assert WiredOk(t, 1) && WiredOk(t, 2);
  }

  /** The younger drain delivers the event, and then the older one, which cannot open a
      stream any more, puts it back in the queue. */
  lemma DeliveryCanBeUndone(request: Request) returns (before: seq<Step>, after: seq<Step>)
    ensures before <= after && Possible(INIT, before) && Possible(INIT, after)
    ensures OneEvent(Run(INIT, before)) && Run(INIT, before).rows[1].state == Delivered
    ensures OneQueued(Run(INIT, after), 0)
    ensures LogOf(Run(INIT, after), 1) == [200] && Unused(Run(INIT, after), 3)
  {
    before := OverlapIsReachable(request);
    var s := Run(INIT, before);
    var accept := TryIt(s, 2, Response(200, 0));
    RunJoins(INIT, before, accept);
    before := before + accept;
    var t := Run(INIT, before);
    var requeue := TryIt(t, 1, OpenFailed);
    RunJoins(INIT, before, requeue);
    after := before + requeue;
  }

  /** The next drain gives it to the app again, which can accept it twice. */
  lemma DeliveredTwice(request: Request) returns (steps: seq<Step>)
    ensures Possible(INIT, steps) && LogOf(Run(INIT, steps), 1) == [200, 200]
  {
    var before, after := DeliveryCanBeUndone(request);
    var s := Run(INIT, after);
    var list := ConnectAndList(s, 3, 0);
    RunJoins(INIT, after, list);
    var t := Run(INIT, after + list);
    var accept := TryIt(t, 3, Response(200, 0));
    RunJoins(INIT, after + list, accept);
    steps := after + list + accept;
  }

  /** n reconnects whose drains each meet a server error. */
  lemma Failures(request: Request, n: nat) returns (steps: seq<Step>)
    requires n < MAX_REPLAY_ATTEMPTS
    ensures Possible(INIT, steps) && OneQueued(Run(INIT, steps), n)
    ensures forall k :: k > n ==> Unused(Run(INIT, steps), k)
  {
    steps := EnqueueOne(request);
    for i := 0 to n
      invariant Possible(INIT, steps) && OneQueued(Run(INIT, steps), i)
      invariant forall k :: k > i ==> Unused(Run(INIT, steps), k)
    {
      var s0 := Run(INIT, steps);
      var list := ConnectAndList(s0, i + 1, i);
      RunJoins(INIT, steps, list);
      steps := steps + list;
      var s := Run(INIT, steps);
      forall k | k > i + 1 ensures Unused(s, k) { assert Unused(s0, k); }
      var fail := TryIt(s, i + 1, Response(500, 0));
      RunJoins(INIT, steps, fail);
      steps := steps + fail;
      forall k | k > i + 1 ensures Unused(Run(INIT, steps), k) { assert Unused(s, k); }
    }
  }

  /** In the same way a fifth failure is undone, and the event starts over. */
  lemma DeathCanBeUndone(request: Request) returns (before: seq<Step>, after: seq<Step>)
    ensures before <= after && Possible(INIT, before) && Possible(INIT, after)
    ensures OneEvent(Run(INIT, before)) && Run(INIT, before).rows[1].state == Dead
    ensures OneQueued(Run(INIT, after), 0)
  {
    before := Failures(request, MAX_REPLAY_ATTEMPTS - 1);
    var list := ListTwice(Run(INIT, before), 5, 6, MAX_REPLAY_ATTEMPTS - 1);
    RunJoins(INIT, before, list);
    before := before + list;
    var fail := TryIt(Run(INIT, before), 6, Response(500, 0));
    RunJoins(INIT, before, fail);
    before := before + fail;
    var requeue := TryIt(Run(INIT, before), 5, OpenFailed);
    RunJoins(INIT, before, requeue);
    after := before + requeue;
  }

  // ----- Manual replays at once -----

  /** Manual replays 1 to n of the event have met a server error and are to count it, the
      first m have counted. */
  ghost predicate AllFailing(s: State, n: nat, m: nat) {
    && m <= n && OneEvent(s) && s.rows[1].state == Replaying && s.rows[1].attempts == m
    && 9 in s.sessions && 9 in s.open && 7 in s.current && s.current[7] == 9 && s.sessions.Keys == {9}
    && (forall w :: w in s.workers <==> 1 <= w <= n)
    && (forall w :: 1 <= w <= m ==> s.workers[w].pc == Settling(1, 500, w))
    && (forall w :: m < w <= n ==> s.workers[w].pc == Counting(1, 500))
  }

  /** A manual replay up to where it knows its session. */
  lemma HandStarts(s: State, w: nat) returns (steps: seq<Step>)
    requires OneEvent(s) && Unused(s, w) && 7 in s.current
    ensures Possible(s, steps)
    ensures Run(s, steps) == s.(rows := s.rows[1 := RequeuedRow(s.rows[1])],
                                workers := s.workers[w := Worker([], Starting(1), true, 7, s.current[7])])
  {
    var a := Do(s, StartByHand(w, 1));
    var b := Do(a, Revive(w));
    RunOne(b, Find(w));
    RunMore(a, Revive(w), [Find(w)]);
    RunMore(s, StartByHand(w, 1), [Revive(w)] + [Find(w)]);
    steps := [StartByHand(w, 1)] + ([Revive(w)] + [Find(w)]);
  }

  /** And on to a server error. */
  lemma HandFails(s: State, w: nat) returns (steps: seq<Step>)
    requires OneEvent(s) && w in s.workers && s.workers[w].pc == Starting(1) && s.workers[w].via in s.open
    ensures Possible(s, steps)
    ensures var t := Run(s, steps);
      && t.rows == s.rows[1 := ReplayingRow(s.rows[1])] && t.workers == s.workers[w := s.workers[w].(pc := Counting(1, 500))]
      && t.sessions == s.sessions && t.current == s.current && t.open == s.open
  {
    var a := Do(s, Mark(w));
    var b := Do(a, Open(w));
    RunOne(b, Respond(w, 500));
    RunMore(a, Open(w), [Respond(w, 500)]);
    RunMore(s, Mark(w), [Open(w)] + [Respond(w, 500)]);
    steps := [Mark(w)] + ([Open(w)] + [Respond(w, 500)]);
  }

  /** One more manual replay, up to its server error. */
  lemma OneMoreFails(s: State, w: nat) returns (steps: seq<Step>)
    requires OneEvent(s) && Unused(s, w) && 7 in s.current && s.current[7] in s.open
    ensures Possible(s, steps)
    ensures var t := Run(s, steps);
      && OneEvent(t) && t.rows[1].state == Replaying && t.rows[1].attempts == 0
      && w in t.workers && t.workers[w].pc == Counting(1, 500) && t.workers[w].byHand && t.workers == s.workers[w := t.workers[w]]
      && t.sessions == s.sessions && t.current == s.current && t.open == s.open
  {
    var first := HandStarts(s, w);
    var second := HandFails(Run(s, first), w);
    RunJoins(s, first, second);
    steps := first + second;
  }

  /** The first i manual replays have failed; no other worker is there. */
  ghost predicate SoFar(s: State, i: nat) {
    && OneEvent(s) && 7 in s.current && s.current[7] == 9 && 9 in s.open && s.sessions.Keys == {9}
    && (forall w :: w in s.workers <==> 1 <= w <= i)
    && (i > 0 ==> AllFailing(s, i, 0))
  }

  lemma SoFarAndOne(s: State, i: nat) returns (steps: seq<Step>)
    requires SoFar(s, i) && i < MAX_REPLAY_ATTEMPTS
    ensures Possible(s, steps) && SoFar(Run(s, steps), i + 1)
  {
    assert Unused(s, i + 1);
    steps := OneMoreFails(s, i + 1);
    var t := Run(s, steps);
    forall w | 0 < w <= i + 1 ensures t.workers[w].pc == Counting(1, 500) {
      if w <= i { assert t.workers[w] == s.workers[w]; }
    }
  }

  lemma FiveFail(request: Request) returns (steps: seq<Step>)
    ensures Possible(INIT, steps) && AllFailing(Run(INIT, steps), MAX_REPLAY_ATTEMPTS, 0)
  {
    steps := EnqueueOne(request);
    RunThen(INIT, steps, Connect(9, 7, true));
    steps := steps + [Connect(9, 7, true)];
    for i := 0 to MAX_REPLAY_ATTEMPTS
      invariant Possible(INIT, steps) && SoFar(Run(INIT, steps), i)
    {
      var more := SoFarAndOne(Run(INIT, steps), i);
      RunJoins(INIT, steps, more);
      steps := steps + more;
    }
  }

  lemma OneMoreCounts(s: State, m: nat)
    requires m < MAX_REPLAY_ATTEMPTS && AllFailing(s, MAX_REPLAY_ATTEMPTS, m)
    ensures Enabled(s, Count(m + 1)) && AllFailing(Do(s, Count(m + 1)), MAX_REPLAY_ATTEMPTS, m + 1)
  {
  }

  lemma AllCounted(request: Request) returns (steps: seq<Step>)
    ensures Possible(INIT, steps) && AllFailing(Run(INIT, steps), MAX_REPLAY_ATTEMPTS, MAX_REPLAY_ATTEMPTS)
  {
    steps := FiveFail(request);
    for i := 0 to MAX_REPLAY_ATTEMPTS
      invariant Possible(INIT, steps) && AllFailing(Run(INIT, steps), MAX_REPLAY_ATTEMPTS, i)
    {
      OneMoreCounts(Run(INIT, steps), i);
      RunThen(INIT, steps, Count(i + 1));
      steps := steps + [Count(i + 1)];
    }
  }

  lemma LastTwoSettle(s: State)
    requires AllFailing(s, MAX_REPLAY_ATTEMPTS, MAX_REPLAY_ATTEMPTS)
    ensures Enabled(s, Settle(5)) && OneEvent(Do(s, Settle(5))) && Do(s, Settle(5)).rows[1].state == Dead
    ensures Enabled(Do(s, Settle(5)), Settle(4)) && OneQueued(Do(Do(s, Settle(5)), Settle(4)), MAX_REPLAY_ATTEMPTS)
  {
    assert 1 <= 4 <= MAX_REPLAY_ATTEMPTS && 1 <= 5 <= MAX_REPLAY_ATTEMPTS;
  }

  /** MarkFailed is two statements: of five manual replays at once the last to count takes
      the event to its death, and one that settles after it brings the event back with all its
      attempts used up. */
  lemma SlowSettleRevives(request: Request) returns (before: seq<Step>, after: seq<Step>)
    ensures before <= after && Possible(INIT, before) && Possible(INIT, after)
    ensures OneEvent(Run(INIT, before)) && Run(INIT, before).rows[1].state == Dead
    ensures OneQueued(Run(INIT, after), MAX_REPLAY_ATTEMPTS)
  {
    before := AllCounted(request);
    LastTwoSettle(Run(INIT, before));
    RunThen(INIT, before, Settle(5));
    before := before + [Settle(5)];
    RunThen(INIT, before, Settle(4));
    after := before + [Settle(4)];
  }
}
