/** When a verdict is final, when an event is delivered for the last time, and when it is
    stranded: which workers can still come to it, and what they can still do to it. */
module Finality {
  import opened Events
  import opened Workers
  import opened Overlap

  /** The event is not replayed by hand once more. */
  predicate LeavesAlone(steps: seq<Step>, id: nat) {
    forall i :: 0 <= i < |steps| && steps[i].StartByHand? ==> steps[i].id != id
  }

  /** After the steps the event is still there, and its state is another. */
  ghost predicate TakesBack(s: State, steps: seq<Step>, id: nat, verdict: EventState) {
    && Possible(s, steps) && LeavesAlone(steps, id)
    && id in Run(s, steps).rows && Run(s, steps).rows[id].state != verdict
  }

  /** Short of another manual replay, nothing that can follow changes the event's state. */
  ghost predicate Final(s: State, id: nat, verdict: EventState) {
    forall steps :: !TakesBack(s, steps, id, verdict)
  }

  // ----- What a worker can still do -----

  /** The worker is in the middle of its list and not bound to stop. */
  predicate GoesOn(p: Pc) { p.Between? || p.Starting? || p.Opening? || p.Exchanging? || p.Accepting? }

  /** The worker has the event in its list and can still come to it. On a closed session it
      comes to the first at most, and not even there if it must open another stream before. */
  predicate WillTake(s: State, w: nat, id: nat)
    requires w in s.workers
  {
    var wk := s.workers[w];
    if wk.via in s.open then id in wk.todo && GoesOn(wk.pc)
    else wk.todo != [] && wk.todo[0] == id && (wk.pc.Between? || wk.pc.Exchanging? || wk.pc.Accepting?)
  }

  /** The worker can still give the event to the app. */
  predicate CanAsk(s: State, w: nat, id: nat)
    requires w in s.workers
  {
    var wk := s.workers[w];
    || (wk.via in s.open && id in wk.todo && GoesOn(wk.pc))
    || (WorksOn(wk.pc, id)
        && (wk.pc.Exchanging? || wk.pc.Reviving? || wk.pc.Finding? || ((wk.pc.Starting? || wk.pc.Opening?) && wk.via in s.open)))
  }

  /** The worker can still put the event, whose row is there, back in the queue. A failure
      that is being counted is put back only while there are attempts left. */
  predicate CanReturn(s: State, w: nat, id: nat)
    requires w in s.workers && id in s.rows
  {
    || WillTake(s, w, id)
    || (WorksOn(s.workers[w].pc, id)
        && match s.workers[w].pc
           case Accepting(_, _) => false
           case Counting(_, _) => s.rows[id].attempts + 1 < MAX_REPLAY_ATTEMPTS
           case Settling(_, _, n) => n < MAX_REPLAY_ATTEMPTS
           case _ => true)
  }

  predicate ThreatensDelivery(s: State, w: nat, id: nat)
    requires w in s.workers
  {
    WillTake(s, w, id) || (WorksOn(s.workers[w].pc, id) && !s.workers[w].pc.Accepting?)
  }

  predicate ThreatensDeath(s: State, w: nat, id: nat)
    requires w in s.workers && id in s.rows
  {
    CanReturn(s, w, id) || (WorksOn(s.workers[w].pc, id) && s.workers[w].pc.Accepting?)
  }

  predicate Touches(s: State, w: nat, id: nat)
    requires w in s.workers
  {
    WillTake(s, w, id) || WorksOn(s.workers[w].pc, id)
  }

  lemma NotQueuedNotListed(rows: Table, tunnel: nat, id: nat)
    requires !(id in rows && rows[id].state == Queued)
    ensures id !in Queue(rows, tunnel)
  {
    QueueOrdered(rows, tunnel);
  }

  /** A worker's own step gives it no new way to come to an event. */
  lemma OwnWay(s: State, step: Step, id: nat)
    requires Enabled(s, step) && ByWorker(step) && step.w in s.workers && WiredOk(s, step.w)
    ensures var s', w := Do(s, step), step.w;
      && (WillTake(s', w, id) ==> WillTake(s, w, id))
      && (CanAsk(s', w, id) ==> CanAsk(s, w, id))
      && (WorksOn(s'.workers[w].pc, id) ==> WorksOn(s.workers[w].pc, id) || (step.Take? && WillTake(s, w, id)))
  {
  }

  /** Nor does anybody else's: only a new session opens, and it is no drain's that is there. */
  lemma OthersWay(s: State, step: Step, w: nat, id: nat)
    requires Enabled(s, step) && w in s.workers && WiredOk(s, w) && Do(s, step).workers[w] == s.workers[w]
    requires !(ByWorker(step) && step.w == w)
    ensures WillTake(Do(s, step), w, id) ==> WillTake(s, w, id)
    ensures CanAsk(Do(s, step), w, id) ==> CanAsk(s, w, id)
  {
    assert Do(s, step).open <= if step.Connect? then s.open + {step.k} else s.open;
  }

  /** And one that starts comes only to what is queued, or is replayed by hand. */
  lemma NewWay(s: State, step: Step, id: nat)
    requires Enabled(s, step) && ((step.StartDrain? && id !in Queue(s.rows, step.tunnel)) || (step.StartByHand? && step.id != id))
    ensures !WillTake(Do(s, step), step.w, id) && !CanAsk(Do(s, step), step.w, id) && !WorksOn(Do(s, step).workers[step.w].pc, id)
  {
  }

  // ----- Without a threat -----

  ghost predicate DeliverySafe(s: State, id: nat) {
    && id < s.nextId && Wired(s)
    && (id in s.rows ==> s.rows[id].state == Delivered && forall w :: w in s.workers ==> !ThreatensDelivery(s, w, id))
  }

  lemma NoNewThreat(s: State, step: Step, w: nat, id: nat)
    requires Wired(s) && Enabled(s, step) && !(step.StartByHand? && step.id == id)
    requires id in s.rows && s.rows[id].state != Queued && w in Do(s, step).workers
    ensures WillTake(Do(s, step), w, id) ==> w in s.workers && WillTake(s, w, id)
    ensures WorksOn(Do(s, step).workers[w].pc, id) ==> w in s.workers && (WorksOn(s.workers[w].pc, id) || WillTake(s, w, id))
  {
    OnlyTheActorMoves(s, step);
    if step.StartDrain? { NotQueuedNotListed(s.rows, step.tunnel, id); }
    if w !in s.workers {
      NewWay(s, step, id);
    } else {
      assert WiredOk(s, w);
      if ByWorker(step) && step.w == w { OwnWay(s, step, id); } else { OthersWay(s, step, w, id); }
    }
  }

  /** A step changes an event's state only if its worker is on it. */
  lemma StateStays(s: State, step: Step, id: nat)
    requires Enabled(s, step) && id < s.nextId && id in Do(s, step).rows
    requires ByWorker(step) && step.w in s.workers ==> !WorksOn(s.workers[step.w].pc, id)
    ensures id in s.rows && Do(s, step).rows[id] == s.rows[id]
  {
    OnlyOwnRow(s, step, id);
  }

  lemma StepKeepsDeliverySafe(s: State, step: Step, id: nat)
    requires DeliverySafe(s, id) && Enabled(s, step) && (step.StartByHand? ==> step.id != id)
    ensures DeliverySafe(Do(s, step), id)
  {
    StepKeepsWired(s, step);
    var s' := Do(s, step);
    if id in s'.rows {
      if ByWorker(step) && step.w in s.workers && WorksOn(s.workers[step.w].pc, id) {
        assert s.workers[step.w].pc.Accepting?;
      } else {
        StateStays(s, step, id);
      }
      forall w | w in s'.workers ensures !ThreatensDelivery(s', w, id) {
        NoNewThreat(s, step, w, id);
        if w in s.workers && s.workers[w].pc.Accepting? { OnlyAccepts(s, step, w, id); }
      }
    }
  }

  /** Who is on the event to record an acceptance stays so until it has. */
  lemma OnlyAccepts(s: State, step: Step, w: nat, id: nat)
    requires Enabled(s, step) && w in s.workers && w in Do(s, step).workers && s.workers[w].pc.Accepting?
    ensures Do(s, step).workers[w].pc.Accepting? || !WorksOn(Do(s, step).workers[w].pc, id)
  {
  }

  lemma {:induction false} RunKeepsDeliverySafe(s: State, steps: seq<Step>, id: nat)
    requires DeliverySafe(s, id) && Possible(s, steps) && LeavesAlone(steps, id)
    ensures DeliverySafe(Run(s, steps), id)
    decreases |steps|
  {
    if steps != [] {
      StepKeepsDeliverySafe(s, steps[0], id);
      RunKeepsDeliverySafe(Do(s, steps[0]), steps[1..], id);
    }
  }

  /** The event is there, not queued, and nobody can put it back. */
  ghost predicate OutOfReach(s: State, id: nat) {
    && id in s.rows && id < s.nextId && s.rows[id].state != Queued
    && forall w :: w in s.workers ==> !CanReturn(s, w, id)
  }

  /** Who is on an event that is out of reach leaves it delivered, or dead, or counts one more. */
  lemma OwnRowOutOfReach(s: State, step: Step, id: nat)
    requires Enabled(s, step) && id in s.rows && id in Do(s, step).rows
    requires ByWorker(step) && step.w in s.workers && WorksOn(s.workers[step.w].pc, id) && !CanReturn(s, step.w, id)
    ensures var e, e', p, p' := s.rows[id], Do(s, step).rows[id], s.workers[step.w].pc, Do(s, step).workers[step.w].pc;
      && e'.attempts >= e.attempts
      && (e'.state == e.state || (p.Accepting? && e'.state == Delivered) || (p.Settling? && e'.state == Dead))
      && (WorksOn(p', id) ==> p'.Settling? && p'.attempts >= MAX_REPLAY_ATTEMPTS)
  {
  }

  lemma RowOutOfReach(s: State, step: Step, id: nat)
    requires OutOfReach(s, id) && Wired(s) && Enabled(s, step) && id in Do(s, step).rows
    ensures Do(s, step).rows[id].attempts >= s.rows[id].attempts && Do(s, step).rows[id].state != Queued
    ensures !(ByWorker(step) && step.w in s.workers && WorksOn(s.workers[step.w].pc, id)) ==> Do(s, step).rows[id] == s.rows[id]
  {
    if ByWorker(step) && step.w in s.workers && WorksOn(s.workers[step.w].pc, id) {
      OwnRowOutOfReach(s, step, id);
    } else {
      StateStays(s, step, id);
    }
  }

  lemma StepKeepsOutOfReach(s: State, step: Step, id: nat)
    requires OutOfReach(s, id) && Wired(s) && Enabled(s, step) && !(step.StartByHand? && step.id == id)
    requires id in Do(s, step).rows
    ensures OutOfReach(Do(s, step), id)
  {
    var s' := Do(s, step);
    OnlyTheActorMoves(s, step);
    RowOutOfReach(s, step, id);
    forall w | w in s'.workers ensures !CanReturn(s', w, id) {
      NoNewThreat(s, step, w, id);
      if WorksOn(s'.workers[w].pc, id) {
        assert !CanReturn(s, w, id);
        if ByWorker(step) && step.w == w { OwnRowOutOfReach(s, step, id); }
      }
    }
  }

  ghost predicate DeathSafe(s: State, id: nat) {
    && id < s.nextId && Wired(s)
    && (id in s.rows ==>
          && OutOfReach(s, id) && s.rows[id].state == Dead
          && forall w :: w in s.workers && s.workers[w].pc.Accepting? ==> !WorksOn(s.workers[w].pc, id))
  }

  lemma StepKeepsDeathSafe(s: State, step: Step, id: nat)
    requires DeathSafe(s, id) && Enabled(s, step) && (step.StartByHand? ==> step.id != id)
    ensures DeathSafe(Do(s, step), id)
  {
    StepKeepsWired(s, step);
    var s' := Do(s, step);
    if id in s'.rows {
      if id !in s.rows { StateStays(s, step, id); }
      StepKeepsOutOfReach(s, step, id);
      RowOutOfReach(s, step, id);
      if ByWorker(step) && step.w in s.workers && WorksOn(s.workers[step.w].pc, id) { OwnRowOutOfReach(s, step, id); }
      forall w | w in s'.workers && s'.workers[w].pc.Accepting? ensures !WorksOn(s'.workers[w].pc, id) {
        NoNewThreat(s, step, w, id);
        assert w in s.workers ==> !CanReturn(s, w, id);
      }
    }
  }

  lemma {:induction false} RunKeepsDeathSafe(s: State, steps: seq<Step>, id: nat)
    requires DeathSafe(s, id) && Possible(s, steps) && LeavesAlone(steps, id)
    ensures DeathSafe(Run(s, steps), id)
    decreases |steps|
  {
    if steps != [] {
      StepKeepsDeathSafe(s, steps[0], id);
      RunKeepsDeathSafe(Do(s, steps[0]), steps[1..], id);
    }
  }

  /** Nobody touches the event, whatever its state, and it is not queued. */
  ghost predicate StrandedSafe(s: State, id: nat, e: Event) {
    && id < s.nextId && Wired(s)
    && (id in s.rows ==> s.rows[id] == e && e.state != Queued && forall w :: w in s.workers ==> !Touches(s, w, id))
  }

  lemma StepKeepsStrandedSafe(s: State, step: Step, id: nat, e: Event)
    requires StrandedSafe(s, id, e) && Enabled(s, step) && (step.StartByHand? ==> step.id != id)
    ensures StrandedSafe(Do(s, step), id, e)
  {
    StepKeepsWired(s, step);
    var s' := Do(s, step);
    if id in s'.rows {
      assert ByWorker(step) && step.w in s.workers ==> !(id in s.rows && Touches(s, step.w, id));
      StateStays(s, step, id);
      forall w | w in s'.workers ensures !Touches(s', w, id) { NoNewThreat(s, step, w, id); }
    }
  }

  lemma {:induction false} RunKeepsStrandedSafe(s: State, steps: seq<Step>, id: nat, e: Event)
    requires StrandedSafe(s, id, e) && Possible(s, steps) && LeavesAlone(steps, id)
    ensures StrandedSafe(Run(s, steps), id, e)
    decreases |steps|
  {
    if steps != [] {
      StepKeepsStrandedSafe(s, steps[0], id, e);
      RunKeepsStrandedSafe(Do(s, steps[0]), steps[1..], id, e);
    }
  }

  // ----- What a threat does -----

  /** Steps that one worker takes by itself. */
  predicate OwnSteps(steps: seq<Step>, w: nat) {
    forall i :: 0 <= i < |steps| ==> ByWorker(steps[i]) && !steps[i].StartDrain? && !steps[i].StartByHand? && steps[i].w == w
  }

  predicate Own(a: Step, w: nat) {
    ByWorker(a) && !a.StartDrain? && !a.StartByHand? && a.w == w
  }

  lemma OwnFront(s: State, a: Step, rest: seq<Step>, w: nat)
    requires Enabled(s, a) && Own(a, w) && Possible(Do(s, a), rest) && OwnSteps(rest, w)
    ensures Possible(s, [a] + rest) && OwnSteps([a] + rest, w) && Run(s, [a] + rest) == Run(Do(s, a), rest)
  {
    RunMore(s, a, rest);
  }

  lemma OwnOne(s: State, a: Step, w: nat)
    requires Enabled(s, a) && Own(a, w)
    ensures Possible(s, [a]) && OwnSteps([a], w) && Run(s, [a]) == Do(s, a)
  {
    RunOne(s, a);
  }

  function Rank(p: Pc): nat {
    match p
    case Starting(_) => 4
    case Opening(_) => 3
    case Exchanging(_) => 2
    case Accepting(_, _) => 1
    case _ => 0
  }

  /** The worker's next step on its way through its list, with an app that accepts. */
  function Onward(w: nat, p: Pc): Step {
    match p
    case Starting(_) => Mark(w)
    case Opening(_) => Open(w)
    case Exchanging(_) => Respond(w, 200)
    case Accepting(_, _) => Accept(w, 0)
    case _ => Take(w)
  }

  /** A worker that can come to the event in its list can mark it. */
  lemma ComesToMark(s: State, w: nat, id: nat) returns (steps: seq<Step>)
    requires w in s.workers && WillTake(s, w, id) && id in s.rows
    ensures Possible(s, steps) && OwnSteps(steps, w)
    ensures var t := Run(s, steps);
      && id in t.rows && t.rows[id].state == Replaying
      && w in t.workers && t.workers[w].pc == Opening(id) && t.workers[w].via == s.workers[w].via && t.open == s.open
    decreases |s.workers[w].todo|, Rank(s.workers[w].pc)
  {
    var wk := s.workers[w];
    var a := Onward(w, wk.pc);
    var t := Do(s, a);
    if wk.pc.Between? && wk.todo[0] == id {
      OwnOne(t, Mark(w), w);
      OwnFront(s, a, [Mark(w)], w);
      steps := [a] + [Mark(w)];
    } else {
      var rest := ComesToMark(t, w, id);
      OwnFront(s, a, rest, w);
      steps := [a] + rest;
    }
  }

  lemma OwnThen(s: State, first: seq<Step>, second: seq<Step>, w: nat)
    requires Possible(s, first) && OwnSteps(first, w) && Possible(Run(s, first), second) && OwnSteps(second, w)
    ensures Possible(s, first + second) && OwnSteps(first + second, w) && Run(s, first + second) == Run(Run(s, first), second)
  {
    RunJoins(s, first, second);
  }

  /** A worker that has marked the event can lose it. */
  lemma LosesIt(s: State, w: nat, id: nat) returns (steps: seq<Step>)
    requires w in s.workers && id in s.rows && (s.workers[w].pc == Opening(id) || s.workers[w].pc == Exchanging(id))
    ensures Possible(s, steps) && OwnSteps(steps, w)
    ensures var t := Run(s, steps);
      id in t.rows && t.rows[id].state == Queued && w in t.workers && t.workers[w].pc.Finished?
  {
    OwnOne(Do(s, Lose(w)), Requeue(w), w);
    OwnFront(s, Lose(w), [Requeue(w)], w);
    steps := [Lose(w)] + [Requeue(w)];
  }

  /** A worker that can put the event back does so, unless it is a manual replay that is
      just beginning, and is finished then. */
  lemma PutsBack(s: State, w: nat, id: nat) returns (steps: seq<Step>)
    requires w in s.workers && id in s.rows && CanReturn(s, w, id)
    requires !s.workers[w].pc.Reviving? && !s.workers[w].pc.Finding?
    ensures Possible(s, steps) && OwnSteps(steps, w)
    ensures var t := Run(s, steps);
      id in t.rows && t.rows[id].state == Queued && w in t.workers && t.workers[w].pc.Finished?
  {
    if WillTake(s, w, id) {
      var mark := ComesToMark(s, w, id);
      var lose := LosesIt(Run(s, mark), w, id);
      OwnThen(s, mark, lose, w);
      steps := mark + lose;
    } else {
      match s.workers[w].pc {
        case Starting(_) =>
          var lose := LosesIt(Do(s, Mark(w)), w, id);
          OwnFront(s, Mark(w), lose, w);
          steps := [Mark(w)] + lose;
        case Opening(_) => steps := LosesIt(s, w, id);
        case Exchanging(_) => steps := LosesIt(s, w, id);
        case Requeueing(_) => OwnOne(s, Requeue(w), w); steps := [Requeue(w)];
        case Counting(_, _) =>
          OwnOne(Do(s, Count(w)), Settle(w), w);
          OwnFront(s, Count(w), [Settle(w)], w);
          steps := [Count(w)] + [Settle(w)];
        case Settling(_, _, _) => OwnOne(s, Settle(w), w); steps := [Settle(w)];
      }
    }
  }

  /** Some number above all of a set. */
  lemma {:induction false} Above(ks: set<nat>) returns (k: nat)
    ensures forall x :: x in ks ==> x < k
    decreases |ks|
  {
    if ks == {} {
      k := 0;
    } else {
      var x :| x in ks;
      var below := Above(ks - {x});
      k := if below <= x then x + 1 else below;
      forall y | y in ks ensures y < k { assert y == x || y in ks - {x}; }
    }
  }

  lemma NewNumber(s: State) returns (k: nat)
    ensures Unused(s, k)
  {
    k := Above(s.sessions.Keys + s.workers.Keys);
  }

  /** A manual replay that looks for a session finds an open one, if an agent connects first. */
  lemma FindsSession(s: State, w: nat) returns (steps: seq<Step>)
    requires w in s.workers && s.workers[w].pc.Finding?
    ensures Possible(s, steps) && forall i :: 0 <= i < |steps| ==> !steps[i].StartByHand?
    ensures var t := Run(s, steps);
      && t.rows == s.rows && t.log == s.log
      && w in t.workers && t.workers[w].pc == Starting(s.workers[w].pc.id) && t.workers[w].via in t.open
  {
    var k := NewNumber(s);
    var connect := Connect(k, s.workers[w].tunnel, true);
    RunOne(Do(s, connect), Find(w));
    RunMore(s, connect, [Find(w)]);
    steps := [connect] + [Find(w)];
  }

  lemma AloneThen(s: State, first: seq<Step>, second: seq<Step>, id: nat)
    requires Possible(s, first) && LeavesAlone(first, id) && Possible(Run(s, first), second) && LeavesAlone(second, id)
    ensures Possible(s, first + second) && LeavesAlone(first + second, id)
    ensures Run(s, first + second) == Run(Run(s, first), second)
  {
    RunJoins(s, first, second);
  }

  /** So whoever can put the event back can make it queued. */
  lemma Returns(s: State, w: nat, id: nat) returns (steps: seq<Step>)
    requires w in s.workers && id in s.rows && CanReturn(s, w, id) && WiredOk(s, w)
    ensures Possible(s, steps) && LeavesAlone(steps, id)
    ensures id in Run(s, steps).rows && Run(s, steps).rows[id].state == Queued
  {
    if s.workers[w].pc.Reviving? {
      OwnOne(s, Revive(w), w);
      steps := [Revive(w)];
    } else if s.workers[w].pc.Finding? {
      var find := FindsSession(s, w);
      var put := PutsBack(Run(s, find), w, id);
      AloneThen(s, find, put, id);
      steps := find + put;
    } else {
      steps := PutsBack(s, w, id);
    }
  }

  /** And who cannot, but is on it, leaves it delivered or dead. */
  lemma LeavesItAs(s: State, w: nat, id: nat) returns (steps: seq<Step>)
    requires w in s.workers && id in s.rows && WorksOn(s.workers[w].pc, id) && !CanReturn(s, w, id)
    ensures Possible(s, steps) && LeavesAlone(steps, id) && id in Run(s, steps).rows
    ensures Run(s, steps).rows[id].state == if s.workers[w].pc.Accepting? then Delivered else Dead
  {
    match s.workers[w].pc {
      case Accepting(_, _) => OwnOne(s, Accept(w, 0), w); steps := [Accept(w, 0)];
      case Counting(_, _) =>
        OwnOne(Do(s, Count(w)), Settle(w), w);
        OwnFront(s, Count(w), [Settle(w)], w);
        steps := [Count(w)] + [Settle(w)];
      case Settling(_, _, _) => OwnOne(s, Settle(w), w); steps := [Settle(w)];
    }
  }

  lemma TouchChanges(s: State, w: nat, id: nat, verdict: EventState)
    requires w in s.workers && id in s.rows && WiredOk(s, w) && verdict != Queued
    requires CanReturn(s, w, id) || (WorksOn(s.workers[w].pc, id) && verdict != if s.workers[w].pc.Accepting? then Delivered else Dead)
    ensures !Final(s, id, verdict)
  {
    var steps;
    if CanReturn(s, w, id) {
      steps := Returns(s, w, id);
    } else {
      steps := LeavesItAs(s, w, id);
    }
    assert TakesBack(s, steps, id, verdict);
  }

  // ----- Exactly when a verdict is final -----

  /** In every state that can be reached: a delivery is final exactly if no worker can still
      come to the event, and none is on it but to record one more acceptance. */
  lemma DeliveryFinalIff(s: State, id: nat)
    requires Wired(s) && id in s.rows && id < s.nextId && s.rows[id].state == Delivered
    ensures Final(s, id, Delivered) <==> forall w :: w in s.workers ==> !ThreatensDelivery(s, w, id)
  {
    if w :| w in s.workers && ThreatensDelivery(s, w, id) {
      assert WiredOk(s, w);
      TouchChanges(s, w, id, Delivered);
    } else {
      forall steps ensures !TakesBack(s, steps, id, Delivered) {
        if Possible(s, steps) && LeavesAlone(steps, id) { RunKeepsDeliverySafe(s, steps, id); }
      }
    }
  }

  /** In every state that can be reached: a death is final exactly if no worker can still come
      to the event, and none is on it but to count a failure that makes at least five. */
  lemma DeathFinalIff(s: State, id: nat)
    requires Wired(s) && id in s.rows && id < s.nextId && s.rows[id].state == Dead
    ensures Final(s, id, Dead) <==> forall w :: w in s.workers ==> !ThreatensDeath(s, w, id)
  {
    if w :| w in s.workers && ThreatensDeath(s, w, id) {
      assert WiredOk(s, w);
      TouchChanges(s, w, id, Dead);
    } else {
      forall w | w in s.workers ensures !CanReturn(s, w, id) { assert !ThreatensDeath(s, w, id); }
      forall w | w in s.workers && s.workers[w].pc.Accepting? ensures !WorksOn(s.workers[w].pc, id) {
        assert !ThreatensDeath(s, w, id);
      }
      forall steps ensures !TakesBack(s, steps, id, Dead) {
        if Possible(s, steps) && LeavesAlone(steps, id) { RunKeepsDeathSafe(s, steps, id); }
      }
    }
  }

  /** In every state that can be reached: an event in replaying stays there, short of a clear
      and of another manual replay, exactly if no worker can come to it and none is on it. */
  lemma StrandedIff(s: State, id: nat)
    requires Wired(s) && id in s.rows && id < s.nextId && s.rows[id].state == Replaying
    ensures Final(s, id, Replaying) <==> forall w :: w in s.workers ==> !Touches(s, w, id)
  {
    if w :| w in s.workers && Touches(s, w, id) {
      assert WiredOk(s, w);
      TouchChanges(s, w, id, Replaying);
    } else {
      forall steps ensures !TakesBack(s, steps, id, Replaying) {
        if Possible(s, steps) && LeavesAlone(steps, id) { RunKeepsStrandedSafe(s, steps, id, s.rows[id]); }
      }
    }
  }

  /** A row that is not queued and that no worker touches stays as it is, to the last column,
      until it is cleared or replayed by hand. */
  lemma UntouchedRowsStay(s: State, steps: seq<Step>, id: nat)
    requires Wired(s) && id in s.rows && id < s.nextId && s.rows[id].state != Queued
    requires forall w :: w in s.workers ==> !Touches(s, w, id)
    requires Possible(s, steps) && LeavesAlone(steps, id)
    ensures id in Run(s, steps).rows ==> Run(s, steps).rows[id] == s.rows[id]
  {
    RunKeepsStrandedSafe(s, steps, id, s.rows[id]);
  }

  lemma ExpiryStrands(s: State)
    requires Wired(s) && Inv(s) && OneEvent(s) && s.rows[1].state == Replaying
    requires s.workers.Keys == {1} && s.workers[1].pc == Counting(1, 500) && s.workers[1].byHand
    ensures Enabled(s, Expire(1))
    ensures var t := Do(s, Expire(1));
      t.rows == s.rows && Final(t, 1, Replaying)
  {
    var t := Do(s, Expire(1));
    StepKeepsWired(s, Expire(1));
    assert RowOk(s, 1);
    StrandedIff(t, 1);
  }

  lemma FailureToBeCounted(request: Request) returns (steps: seq<Step>)
    ensures Possible(INIT, steps)
    ensures var s := Run(INIT, steps);
      && Wired(s) && Inv(s) && OneEvent(s) && s.rows[1].state == Replaying
      && s.workers.Keys == {1} && s.workers[1].pc == Counting(1, 500) && s.workers[1].byHand
  {
    steps := EnqueueOne(request);
    RunThen(INIT, steps, Connect(9, 7, true));
    steps := steps + [Connect(9, 7, true)];
    var fail := OneMoreFails(Run(INIT, steps), 1);
    RunJoins(INIT, steps, fail);
    steps := steps + fail;
    RunKeepsWired(INIT, steps);
    InitInv();
    RunKeepsInv(INIT, steps);
  }

  /** A manual replay whose time is up before it has counted its failure strands the event. */
  lemma StrandedIsReachable(request: Request) returns (steps: seq<Step>)
    ensures Possible(INIT, steps)
    ensures var s := Run(INIT, steps);
      1 in s.rows && s.rows[1].state == Replaying && Final(s, 1, Replaying)
  {
    steps := FailureToBeCounted(request);
    ExpiryStrands(Run(INIT, steps));
    RunThen(INIT, steps, Expire(1));
    steps := steps + [Expire(1)];
  }

  // ----- Exactly when an event has been delivered for the last time -----

  /** How many times the app has accepted the event. */
  function Acceptances(log: seq<int>): nat {
    if log == [] then 0 else Acceptances(log[..|log| - 1]) + if log[|log| - 1] < 500 then 1 else 0
  }

  lemma {:induction false} AcceptancesGrow(a: seq<int>, b: seq<int>)
    requires a <= b
    ensures Acceptances(a) <= Acceptances(b)
    decreases |b|
  {
    if a != b {
      AcceptancesGrow(a, b[..|b| - 1]);
    }
  }

  lemma {:induction false} RunExtendsLog(s: State, steps: seq<Step>, id: nat)
    requires Possible(s, steps)
    ensures LogOf(s, id) <= LogOf(Run(s, steps), id)
    decreases |steps|
  {
    if steps != [] {
      StepExtendsLog(s, steps[0], id);
      RunExtendsLog(Do(s, steps[0]), steps[1..], id);
    }
  }

  /** The steps have the app accept the event once more. */
  ghost predicate AcceptsAgain(s: State, steps: seq<Step>, id: nat) {
    && Possible(s, steps) && LeavesAlone(steps, id)
    && Acceptances(LogOf(Run(s, steps), id)) > Acceptances(LogOf(s, id))
  }

  /** Short of another manual replay, the app does not accept the event any more. */
  ghost predicate NeverAgain(s: State, id: nat) {
    forall steps :: !AcceptsAgain(s, steps, id)
  }

  ghost predicate NobodyAsks(s: State, id: nat) {
    forall w :: w in s.workers ==> !CanAsk(s, w, id)
  }

  ghost predicate AgainSafe(s: State, id: nat) {
    && id < s.nextId && Wired(s) && NobodyAsks(s, id)
    && (id in s.rows ==> OutOfReach(s, id))
  }

  /** Who can give an event that is there to the app can also put it back. */
  lemma AskersReturn(s: State, w: nat, id: nat)
    requires w in s.workers && id in s.rows && CanAsk(s, w, id)
    ensures CanReturn(s, w, id)
  {
  }

  lemma NoNewAsker(s: State, step: Step, w: nat, id: nat)
    requires Wired(s) && Enabled(s, step) && (step.StartByHand? ==> step.id != id)
    requires !(id in s.rows && s.rows[id].state == Queued) && w in Do(s, step).workers
    ensures CanAsk(Do(s, step), w, id) ==> w in s.workers && CanAsk(s, w, id)
  {
    OnlyTheActorMoves(s, step);
    if step.StartDrain? { NotQueuedNotListed(s.rows, step.tunnel, id); }
    if w !in s.workers {
      NewWay(s, step, id);
    } else {
      assert WiredOk(s, w);
      if ByWorker(step) && step.w == w { OwnWay(s, step, id); } else { OthersWay(s, step, w, id); }
    }
  }

  lemma StepKeepsAgainSafe(s: State, step: Step, id: nat)
    requires AgainSafe(s, id) && Enabled(s, step) && (step.StartByHand? ==> step.id != id)
    ensures AgainSafe(Do(s, step), id) && LogOf(Do(s, step), id) == LogOf(s, id)
  {
    StepKeepsWired(s, step);
    var s' := Do(s, step);
    forall w | w in s'.workers ensures !CanAsk(s', w, id) { NoNewAsker(s, step, w, id); }
    if id in s'.rows {
      if id !in s.rows { AbsentStays(s, step, id); }
      StepKeepsOutOfReach(s, step, id);
    }
    if step.Respond? { assert !CanAsk(s, step.w, id); }
  }

  lemma AbsentStays(s: State, step: Step, id: nat)
    requires Enabled(s, step) && id < s.nextId && id !in s.rows
    ensures id !in Do(s, step).rows
  {
  }

  lemma {:induction false} RunKeepsAgainSafe(s: State, steps: seq<Step>, id: nat)
    requires AgainSafe(s, id) && Possible(s, steps) && LeavesAlone(steps, id)
    ensures LogOf(Run(s, steps), id) == LogOf(s, id)
    decreases |steps|
  {
    if steps != [] {
      StepKeepsAgainSafe(s, steps[0], id);
      RunKeepsAgainSafe(Do(s, steps[0]), steps[1..], id);
    }
  }

  predicate MayGoOn(s: State, w: nat, id: nat) {
    w in s.workers && CanAsk(s, w, id) && !s.workers[w].pc.Reviving? && !s.workers[w].pc.Finding?
  }

  lemma StepsOn(s: State, w: nat, id: nat)
    requires MayGoOn(s, w, id) && s.workers[w].pc != Exchanging(id)
    ensures var a := Onward(w, s.workers[w].pc);
      && Enabled(s, a) && Own(a, w) && MayGoOn(Do(s, a), w, id)
      && var wk, wk' := s.workers[w], Do(s, a).workers[w];
         |wk'.todo| < |wk.todo| || (wk'.todo == wk.todo && Rank(wk'.pc) < Rank(wk.pc))
  {
    var wk := s.workers[w];
    if wk.pc.Between? { assert id == wk.todo[0] || id in wk.todo[1..]; }
  }

  /** On the way the worker touches no row but of what it asks for, and of what was accepted. */
  predicate Bystander(s: State, w: nat, y: nat)
    requires w in s.workers
  {
    y in s.rows && !CanAsk(s, w, y) && !(s.workers[w].pc.Accepting? && s.workers[w].pc.id == y)
  }

  lemma BystandersStay(s: State, w: nat, id: nat, y: nat)
    requires MayGoOn(s, w, id) && s.workers[w].pc != Exchanging(id) && WiredOk(s, w) && Bystander(s, w, y)
    ensures var a := Onward(w, s.workers[w].pc);
      Enabled(s, a) && Own(a, w) && Bystander(Do(s, a), w, y) && Do(s, a).rows[y] == s.rows[y]
  {
    StepsOn(s, w, id);
    OwnWay(s, Onward(w, s.workers[w].pc), y);
  }

  /** A drain that can give the event to the app does so. */
  lemma Asks(s: State, w: nat, id: nat) returns (steps: seq<Step>)
    requires MayGoOn(s, w, id) && WiredOk(s, w)
    ensures Possible(s, steps) && OwnSteps(steps, w)
    ensures var t := Run(s, steps);
      && w in t.workers && t.workers[w].pc == Exchanging(id)
      && forall y :: Bystander(s, w, y) ==> y in t.rows && t.rows[y] == s.rows[y]
    decreases |s.workers[w].todo|, Rank(s.workers[w].pc)
  {
    var wk := s.workers[w];
    if wk.pc == Exchanging(id) {
      steps := [];
    } else {
      var a := Onward(w, wk.pc);
      StepsOn(s, w, id);
      var t := Do(s, a);
      OwnKeepsWiring(s, a);
      var rest := Asks(t, w, id);
      OwnFront(s, a, rest, w);
      steps := [a] + rest;
      forall y | Bystander(s, w, y) ensures y in Run(s, steps).rows && Run(s, steps).rows[y] == s.rows[y] {
        BystandersStay(s, w, id, y);
        assert Bystander(t, w, y);
      }
    }
  }

  lemma OwnKeepsWiring(s: State, a: Step)
    requires Enabled(s, a) && ByWorker(a) && !a.StartDrain? && !a.StartByHand? && !a.Find? && WiredOk(s, a.w)
    ensures WiredOk(Do(s, a), a.w)
  {
  }

  lemma AsksAndAccepts(s: State, w: nat, id: nat) returns (steps: seq<Step>)
    requires MayGoOn(s, w, id) && WiredOk(s, w)
    ensures AcceptsAgain(s, steps, id)
  {
    var ask := Asks(s, w, id);
    var t := Run(s, ask);
    RunExtendsLog(s, ask, id);
    AcceptancesGrow(LogOf(s, id), LogOf(t, id));
    OwnOne(t, Respond(w, 200), w);
    OwnThen(s, ask, [Respond(w, 200)], w);
    steps := ask + [Respond(w, 200)];
    assert LogOf(Run(s, steps), id) == LogOf(t, id) + [200];
    assert (LogOf(t, id) + [200])[..|LogOf(t, id)|] == LogOf(t, id);
  }

  lemma FirstThenAgain(s: State, first: seq<Step>, second: seq<Step>, id: nat)
    requires Possible(s, first) && LeavesAlone(first, id) && AcceptsAgain(Run(s, first), second, id)
    ensures AcceptsAgain(s, first + second, id)
  {
    AloneThen(s, first, second, id);
    RunExtendsLog(s, first, id);
    AcceptancesGrow(LogOf(s, id), LogOf(Run(s, first), id));
  }

  /** A queued event is accepted by the drain of the next session. */
  lemma QueuedIsAccepted(s: State, id: nat) returns (steps: seq<Step>)
    requires Wired(s) && id in s.rows && s.rows[id].state == Queued && s.rows[id].tunnel != 0
    ensures AcceptsAgain(s, steps, id)
  {
    var tunnel := s.rows[id].tunnel;
    var k := NewNumber(s);
    var t := Do(s, Connect(k, tunnel, true));
    RunOne(t, StartDrain(k, tunnel));
    RunMore(s, Connect(k, tunnel, true), [StartDrain(k, tunnel)]);
    var first := [Connect(k, tunnel, true)] + [StartDrain(k, tunnel)];
    QueueOrdered(s.rows, tunnel);
    assert id in QueuedIds(s.rows, tunnel);
    RunKeepsWired(s, first);
    assert WiredOk(Run(s, first), k);
    var accept := AsksAndAccepts(Run(s, first), k, id);
    FirstThenAgain(s, first, accept, id);
    steps := first + accept;
  }

  lemma ReturnedIsAccepted(s: State, w: nat, id: nat) returns (steps: seq<Step>)
    requires Wired(s) && w in s.workers && id in s.rows && id < s.nextId && CanReturn(s, w, id) && s.rows[id].tunnel != 0
    ensures AcceptsAgain(s, steps, id)
  {
    assert WiredOk(s, w);
    var put := Returns(s, w, id);
    RowKeepsTunnel(s, put, id);
    RunKeepsWired(s, put);
    var accept := QueuedIsAccepted(Run(s, put), id);
    FirstThenAgain(s, put, accept, id);
    steps := put + accept;
  }

  lemma {:induction false} RowKeepsTunnel(s: State, steps: seq<Step>, id: nat)
    requires Possible(s, steps) && id in s.rows && id in Run(s, steps).rows && id < s.nextId
    ensures Run(s, steps).rows[id].tunnel == s.rows[id].tunnel
    decreases |steps|
  {
    if steps != [] {
      var t := Do(s, steps[0]);
      if id in t.rows {
        RowKeepsTunnel(t, steps[1..], id);
      } else {
        StaysAbsent(t, steps[1..], id);
      }
    }
  }

  lemma {:induction false} StaysAbsent(s: State, steps: seq<Step>, id: nat)
    requires Possible(s, steps) && id !in s.rows && id < s.nextId
    ensures id !in Run(s, steps).rows
    decreases |steps|
  {
    if steps != [] {
      AbsentStays(s, steps[0], id);
      StaysAbsent(Do(s, steps[0]), steps[1..], id);
    }
  }

  /** Also one whose row is gone: a worker that still has the request sends it all the same. */
  lemma AskedIsAccepted(s: State, w: nat, id: nat) returns (steps: seq<Step>)
    requires Wired(s) && w in s.workers && CanAsk(s, w, id)
    ensures AcceptsAgain(s, steps, id)
    decreases if w in s.workers && s.workers[w].pc.Reviving? then 1 else 0
  {
    var wk := s.workers[w];
    if wk.pc.Reviving? {
      RunOne(s, Revive(w));
      StepKeepsWired(s, Revive(w));
      var rest := AskedIsAccepted(Do(s, Revive(w)), w, id);
      FirstThenAgain(s, [Revive(w)], rest, id);
      steps := [Revive(w)] + rest;
    } else if wk.pc.Finding? {
      var find := FindsSession(s, w);
      RunKeepsWired(s, find);
      assert WiredOk(Run(s, find), w);
      var rest := AsksAndAccepts(Run(s, find), w, id);
      FirstThenAgain(s, find, rest, id);
      steps := find + rest;
    } else {
      assert WiredOk(s, w);
      steps := AsksAndAccepts(s, w, id);
    }
  }

  /** In every state that can be reached: the app has accepted the event for the last time,
      short of another manual replay, exactly if its row is there, is not queued and nobody
      can put it back, or is gone and nobody can give the event to the app any more. */
  lemma NeverAgainIff(s: State, id: nat)
    requires Wired(s) && id < s.nextId && (id in s.rows ==> s.rows[id].tunnel != 0)
    ensures NeverAgain(s, id) <==> if id in s.rows then OutOfReach(s, id) else NobodyAsks(s, id)
  {
    if id in s.rows && s.rows[id].state == Queued {
      var steps := QueuedIsAccepted(s, id);
    } else if w :| w in s.workers && id in s.rows && CanReturn(s, w, id) {
      var steps := ReturnedIsAccepted(s, w, id);
    } else if w :| w in s.workers && id !in s.rows && CanAsk(s, w, id) {
      assert WiredOk(s, w);
      var steps := AskedIsAccepted(s, w, id);
    } else {
      forall w | w in s.workers ensures !CanAsk(s, w, id) {
        if id in s.rows && CanAsk(s, w, id) { AskersReturn(s, w, id); }
      }
      forall steps ensures !AcceptsAgain(s, steps, id) {
        if Possible(s, steps) && LeavesAlone(steps, id) { RunKeepsAgainSafe(s, steps, id); }
      }
    }
  }
}
