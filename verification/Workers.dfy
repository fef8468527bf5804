/** Any number of replay workers on one table, one SQL statement or one response
    at a time, over agent sessions that come, replace one another and go. No update
    compares before it sets, and MarkFailed is two statements, so workers on the same
    event really do interleave. */
module Workers {
  import opened Events

  /** Where a worker stands; the id is the event it is working on. */
  datatype Pc =
    | Between
    | Reviving(id: nat)   // a manual replay, about to wipe the record
    | Finding(id: nat)    // and then to look up the tunnel's session
    | Starting(id: nat)
    | Opening(id: nat)    // marked, the stream still to be opened
    | Exchanging(id: nat)
    | Requeueing(id: nat)
    | Accepting(id: nat, status: int)
    | Counting(id: nat, status: int)
    | Settling(id: nat, status: int, attempts: nat)
    | Finished

  /** A drain holds the rest of the list it read; a manual replay has none. via is the
      session that the worker opens its streams on. */
  datatype Worker = Worker(todo: seq<nat>, pc: Pc, byHand: bool, tunnel: nat, via: nat)

  /** The session of one agent connection. If its tunnel could not be looked up, its drain
      reads no list. */
  datatype Session = Session(tunnel: nat, known: bool)

  /** sessions are all that were ever registered, current the registry, open those that can
      still open streams. The drain of a session is the worker of the same number. log keeps
      every status the local app has answered, per event, and expired the events whose final
      update was refused because the time of a manual replay was up. */
  datatype State = State(
    rows: Table, nextId: nat, cleared: set<nat>,
    sessions: map<nat, Session>, current: map<nat, nat>, open: set<nat>,
    workers: map<nat, Worker>, log: map<nat, seq<int>>, expired: set<nat>)

  const INIT := State(map[], 1, {}, map[], map[], {}, map[], map[], {})

  datatype Step =
    | Enqueue(tunnel: nat, request: Request, at: int)
    | Clear(tunnel: nat)
    | Connect(k: nat, tunnel: nat, known: bool) // Put: closes the session it replaces
    | Hangup(k: nat)
    | Forget(k: nat)                            // Remove, by the handler of a closed session
    | StartDrain(w: nat, tunnel: nat)
    | StartByHand(w: nat, id: nat)
    | Revive(w: nat)
    | Find(w: nat)
    | Take(w: nat)
    | Stop(w: nat)
    | Mark(w: nat)
    | Open(w: nat)
    | Respond(w: nat, status: int) // also after a close, if the answer was there before it
    | Lose(w: nat)
    | Requeue(w: nat)
    | Accept(w: nat, now: int)
    | Count(w: nat)
    | Settle(w: nat)
    | Expire(w: nat) // the context of a manual replay ends, and its next statement is refused

  predicate ByWorker(step: Step) {
    !step.Enqueue? && !step.Clear? && !step.Connect? && !step.Hangup? && !step.Forget?
  }

  function Listed(k: Session): nat { if k.known then k.tunnel else 0 }

  predicate Enabled(s: State, step: Step) {
    match step
    case Enqueue(_, _, _) => true
    case Clear(_) => true
    case Connect(k, _, _) => k !in s.sessions && k !in s.workers
    case Hangup(k) => k in s.open
    case Forget(k) => k in s.sessions && k !in s.open
    case StartDrain(w, tunnel) => w in s.sessions && w !in s.workers && tunnel == Listed(s.sessions[w])
    case StartByHand(w, id) => w !in s.sessions && w !in s.workers && id in s.rows
    case Revive(w) => w in s.workers && s.workers[w].pc.Reviving?
    case Find(w) => w in s.workers && s.workers[w].pc.Finding?
    case Take(w) => w in s.workers && s.workers[w].pc.Between? && s.workers[w].todo != []
    case Stop(w) => w in s.workers && s.workers[w].pc.Between? && s.workers[w].todo == []
    case Mark(w) => w in s.workers && s.workers[w].pc.Starting?
    case Open(w) => w in s.workers && s.workers[w].pc.Opening? && s.workers[w].via in s.open
    case Respond(w, _) => w in s.workers && s.workers[w].pc.Exchanging?
    case Lose(w) => w in s.workers && (s.workers[w].pc.Opening? || s.workers[w].pc.Exchanging?)
    case Requeue(w) => w in s.workers && s.workers[w].pc.Requeueing?
    case Accept(w, _) => w in s.workers && s.workers[w].pc.Accepting?
    case Count(w) => w in s.workers && s.workers[w].pc.Counting?
    case Settle(w) => w in s.workers && s.workers[w].pc.Settling?
    case Expire(w) => w in s.workers && s.workers[w].byHand && Writes(s.workers[w].pc)
  }

  /** The worker's next step is a statement. */
  predicate Writes(p: Pc) {
    p.Reviving? || p.Starting? || p.Requeueing? || p.Accepting? || p.Counting? || p.Settling?
  }

  /** The worker has marked the event and still owes it a final update. */
  predicate Inside(p: Pc, id: nat) {
    (p.Opening? || p.Exchanging? || p.Requeueing? || p.Accepting? || p.Counting? || p.Settling?) && p.id == id
  }

  function LogOf(s: State, id: nat): seq<int> {
    if id in s.log then s.log[id] else []
  }

  function At(wk: Worker, p: Pc): Worker { wk.(pc := p) }

  /** A worker that is done with its list. */
  function Gone(wk: Worker): Worker { wk.(todo := [], pc := Finished) }

  /** What a step does to the table. */
  function RowsAfter(s: State, step: Step): Table
    requires Enabled(s, step)
  {
    if step.Enqueue? then s.rows[s.nextId := Fresh(s.nextId, step.tunnel, step.request, step.at)]
    else if step.Clear? then Without(s.rows, step.tunnel)
    else if ByWorker(step) && step.w in s.workers then Written(s.rows, s.workers[step.w].pc, step)
    else s.rows
  }

  /** The statement of a worker that stands at p; an id that is gone matches no row. */
  function Written(rows: Table, p: Pc, step: Step): Table {
    if p.Between? || p.Finished? || p.id !in rows then rows else
      match step
      case Revive(_) => rows[p.id := RequeuedRow(rows[p.id])]
      case Mark(_) => rows[p.id := ReplayingRow(rows[p.id])]
      case Requeue(_) => rows[p.id := RequeuedRow(rows[p.id])]
      case Accept(_, now) => if p.Accepting? then rows[p.id := DeliveredRow(rows[p.id], p.status, now)] else rows
      case Count(_) => if p.Counting? then rows[p.id := CountedRow(rows[p.id], p.status)] else rows
      case Settle(_) => if p.Settling? then rows[p.id := SettledRow(rows[p.id], p.attempts)] else rows
      case _ => rows
  }

  /** What a step does to the worker that takes it. */
  function WorkerAfter(s: State, step: Step): Worker
    requires Enabled(s, step) && ByWorker(step)
  {
    match step
    case StartDrain(w, tunnel) =>
      Worker(if tunnel == 0 then [] else Queue(s.rows, tunnel), Between, false, s.sessions[w].tunnel, w)
    case StartByHand(w, id) => Worker([], Reviving(id), true, s.rows[id].tunnel, 0)
    case Revive(w) => At(s.workers[w], Finding(s.workers[w].pc.id))
    case Find(w) =>
      var wk := s.workers[w];
      if wk.tunnel in s.current then wk.(pc := Starting(wk.pc.id), via := s.current[wk.tunnel]) else Gone(wk)
    case Take(w) =>
      var wk := s.workers[w];
      wk.(todo := wk.todo[1..], pc := Starting(wk.todo[0]))
    case Mark(w) => At(s.workers[w], Opening(s.workers[w].pc.id))
    case Open(w) => At(s.workers[w], Exchanging(s.workers[w].pc.id))
    case Respond(w, status) =>
      var id := s.workers[w].pc.id;
      At(s.workers[w], if status >= 500 then Counting(id, status) else Accepting(id, status))
    case Lose(w) => At(s.workers[w], Requeueing(s.workers[w].pc.id))
    case Accept(w, _) => At(s.workers[w], Between)
    case Count(w) => // the count is read back; a row that is gone is an error
      var Counting(id, status) := s.workers[w].pc;
      if id in s.rows then At(s.workers[w], Settling(id, status, s.rows[id].attempts + 1)) else Gone(s.workers[w])
    case Stop(w) => Gone(s.workers[w])
    case Requeue(w) => Gone(s.workers[w])
    case Settle(w) => Gone(s.workers[w])
    case Expire(w) => Gone(s.workers[w])
  }

  function CurrentAfter(s: State, step: Step): map<nat, nat>
    requires Enabled(s, step)
  {
    if step.Connect? then s.current[step.tunnel := step.k]
    else if step.Forget? && s.sessions[step.k].tunnel in s.current && s.current[s.sessions[step.k].tunnel] == step.k
      then s.current - {s.sessions[step.k].tunnel}
    else s.current
  }

  function OpenAfter(s: State, step: Step): set<nat> {
    if step.Connect? then (if step.tunnel in s.current then s.open - {s.current[step.tunnel]} else s.open) + {step.k}
    else if step.Hangup? then s.open - {step.k}
    else s.open
  }

  function ExpiredAfter(s: State, step: Step): set<nat>
    requires Enabled(s, step)
  {
    if step.Expire? && Inside(s.workers[step.w].pc, s.workers[step.w].pc.id) then s.expired + {s.workers[step.w].pc.id}
    else s.expired
  }

  function Do(s: State, step: Step): State
    requires Enabled(s, step)
  {
    State(
      RowsAfter(s, step),
      if step.Enqueue? then s.nextId + 1 else s.nextId,
      if step.Clear? then s.cleared + (set id | id in s.rows && s.rows[id].tunnel == step.tunnel) else s.cleared,
      if step.Connect? then s.sessions[step.k := Session(step.tunnel, step.known)] else s.sessions,
      CurrentAfter(s, step),
      OpenAfter(s, step),
      if ByWorker(step) then s.workers[step.w := WorkerAfter(s, step)] else s.workers,
      if step.Respond? then s.log[s.workers[step.w].pc.id := LogOf(s, s.workers[step.w].pc.id) + [step.status]] else s.log,
      ExpiredAfter(s, step))
  }

  predicate Possible(s: State, steps: seq<Step>)
    decreases |steps|
  {
    steps == [] || (Enabled(s, steps[0]) && Possible(Do(s, steps[0]), steps[1..]))
  }

  function Run(s: State, steps: seq<Step>): State
    requires Possible(s, steps)
    decreases |steps|
  {
    if steps == [] then s else Run(Do(s, steps[0]), steps[1..])
  }

  // ----- What holds in every interleaving -----

  ghost predicate Attended(s: State, id: nat) {
    exists w :: w in s.workers && Inside(s.workers[w].pc, id)
  }

  /** A response that is logged but not yet counted in the row. */
  predicate Owes(p: Pc, id: nat) {
    (p.Accepting? || p.Counting?) && p.id == id
  }

  function Owing(workers: map<nat, Worker>, id: nat): set<nat> {
    set w | w in workers && Owes(workers[w].pc, id)
  }

  ghost predicate LoggedBelow500(log: seq<int>) { exists i :: 0 <= i < |log| && log[i] < 500 }

  ghost predicate Logged5xx(log: seq<int>) { exists i :: 0 <= i < |log| && log[i] >= 500 }

  predicate Known(s: State, p: Pc) {
    match p
    case Between => true
    case Finished => true
    case _ => p.id < s.nextId
  }

  ghost predicate WorkerOk(s: State, wk: Worker) {
    && Known(s, wk.pc)
    && (forall i :: 0 <= i < |wk.todo| ==> wk.todo[i] < s.nextId)
    && (wk.pc.Accepting? ==> wk.pc.status < 500 && LoggedBelow500(LogOf(s, wk.pc.id)) && wk.pc.status in LogOf(s, wk.pc.id))
    && (wk.pc.Counting? ==> wk.pc.status >= 500 && Logged5xx(LogOf(s, wk.pc.id)) && wk.pc.status in LogOf(s, wk.pc.id))
    && (wk.pc.Settling? ==> wk.pc.status >= 500 && Logged5xx(LogOf(s, wk.pc.id)) && wk.pc.attempts <= |LogOf(s, wk.pc.id)|)
  }

  ghost predicate RowOk(s: State, id: nat)
    requires id in s.rows
  {
    var e := s.rows[id];
    && id < s.nextId
    && (e.state == Replaying ==> Attended(s, id) || id in s.expired)
    && (e.state == Delivered ==> LoggedBelow500(LogOf(s, id)) && e.lastStatus in LogOf(s, id))
    && (e.state == Dead ==> |LogOf(s, id)| >= MAX_REPLAY_ATTEMPTS && Logged5xx(LogOf(s, id)))
    && (e.lastStatus == 0 || e.lastStatus in LogOf(s, id))
  }

  function AttemptsOf(s: State, id: nat): nat {
    if id in s.rows then s.rows[id].attempts else 0
  }

  ghost predicate Inv(s: State) {
    && (forall id :: id in s.rows ==> RowOk(s, id))
    && (forall w :: w in s.workers ==> WorkerOk(s, s.workers[w]))
    && (forall id: nat :: AttemptsOf(s, id) + |Owing(s.workers, id)| <= |LogOf(s, id)|)
    && (forall id: nat :: 1 <= id < s.nextId ==> id in s.rows || id in s.cleared)
  }

  lemma OwingUpdate(workers: map<nat, Worker>, w: nat, wk: Worker, id: nat)
    ensures |Owing(workers[w := wk], id)|
         == |Owing(workers, id)| - (if w in workers && Owes(workers[w].pc, id) then 1 else 0)
            + (if Owes(wk.pc, id) then 1 else 0)
  {
    var before, after := Owing(workers, id), Owing(workers[w := wk], id);
    assert after == if Owes(wk.pc, id) then before + {w} else before - {w};
  }

  lemma OnlyTheActorMoves(s: State, step: Step)
    requires Enabled(s, step)
    ensures var s' := Do(s, step);
      if !ByWorker(step) then s'.workers == s.workers
      else step.w in s'.workers && s'.workers == s.workers[step.w := s'.workers[step.w]]
  {
  }

  function Debt(workers: map<nat, Worker>, w: nat, id: nat): nat {
    if w in workers && Owes(workers[w].pc, id) then 1 else 0
  }

  /** What a worker's step adds to the attempts and to its debt is logged. */
  lemma StepPaysItsWay(s: State, step: Step, id: nat)
    requires Enabled(s, step) && ByWorker(step)
    ensures var s' := Do(s, step);
      AttemptsOf(s', id) + Debt(s'.workers, step.w, id) + |LogOf(s, id)|
        <= AttemptsOf(s, id) + Debt(s.workers, step.w, id) + |LogOf(s', id)|
  {
  }

  lemma StepKeepsCounts(s: State, step: Step, id: nat)
    requires Inv(s) && Enabled(s, step)
    ensures var s' := Do(s, step);
      AttemptsOf(s', id) + |Owing(s'.workers, id)| <= |LogOf(s', id)|
  {
    assert AttemptsOf(s, id) + |Owing(s.workers, id)| <= |LogOf(s, id)|;
    if ByWorker(step) {
      OnlyTheActorMoves(s, step);
      OwingUpdate(s.workers, step.w, Do(s, step).workers[step.w], id);
      StepPaysItsWay(s, step, id);
    }
  }

  /** Logs only grow. */
  lemma StepExtendsLog(s: State, step: Step, id: nat)
    requires Enabled(s, step)
    ensures LogOf(s, id) <= LogOf(Do(s, step), id)
    ensures LoggedBelow500(LogOf(s, id)) ==> LoggedBelow500(LogOf(Do(s, step), id))
    ensures Logged5xx(LogOf(s, id)) ==> Logged5xx(LogOf(Do(s, step), id))
    ensures forall status :: status in LogOf(s, id) ==> status in LogOf(Do(s, step), id)
  {
    var l, l' := LogOf(s, id), LogOf(Do(s, step), id);
    if LoggedBelow500(l) {
      var i :| 0 <= i < |l| && l[i] < 500;
      assert l'[i] < 500;
    }
    if Logged5xx(l) {
      var i :| 0 <= i < |l| && l[i] >= 500;
      assert l'[i] >= 500;
    }
  }

  /** A worker that did not take the step: what it relies on still holds. */
  lemma OthersStayOk(s: State, step: Step, wk: Worker)
    requires Enabled(s, step) && WorkerOk(s, wk)
    ensures WorkerOk(Do(s, step), wk)
  {
    if !wk.pc.Between? && !wk.pc.Finished? { StepExtendsLog(s, step, wk.pc.id); }
  }

  /** The count that MarkFailed reads back is backed by the log. */
  lemma CountIsBacked(s: State, w: nat)
    requires Inv(s) && Enabled(s, Count(w))
    ensures AttemptsOf(s, s.workers[w].pc.id) < |LogOf(s, s.workers[w].pc.id)|
  {
    var id := s.workers[w].pc.id;
    assert w in Owing(s.workers, id);
    assert AttemptsOf(s, id) + |Owing(s.workers, id)| <= |LogOf(s, id)|;
  }

  lemma StarterIsOk(s: State, step: Step)
    requires Enabled(s, step) && (step.StartDrain? || step.StartByHand?)
    requires forall id :: id in s.rows ==> id < s.nextId
    ensures WorkerOk(Do(s, step), Do(s, step).workers[step.w])
  {
  }

  lemma AnswererStaysOk(s: State, w: nat, status: int)
    requires Enabled(s, Respond(w, status)) && WorkerOk(s, s.workers[w])
    ensures WorkerOk(Do(s, Respond(w, status)), Do(s, Respond(w, status)).workers[w])
  {
    var id := s.workers[w].pc.id;
    assert LogOf(Do(s, Respond(w, status)), id)[|LogOf(s, id)|] == status;
  }

  lemma CounterStaysOk(s: State, w: nat)
    requires Inv(s) && Enabled(s, Count(w))
    ensures WorkerOk(Do(s, Count(w)), Do(s, Count(w)).workers[w])
  {
    assert WorkerOk(s, s.workers[w]);
    CountIsBacked(s, w);
    assert LogOf(Do(s, Count(w)), s.workers[w].pc.id) == LogOf(s, s.workers[w].pc.id);
  }

  lemma TakerStaysOk(s: State, w: nat)
    requires Enabled(s, Take(w)) && WorkerOk(s, s.workers[w])
    ensures WorkerOk(Do(s, Take(w)), Do(s, Take(w)).workers[w])
  {
  }

  /** Any other step only passes on what the worker knows. */
  lemma MoverStaysOk(s: State, step: Step)
    requires Enabled(s, step) && ByWorker(step) && step.w in s.workers && WorkerOk(s, s.workers[step.w])
    requires !step.Respond? && !step.Count? && !step.Take?
    ensures WorkerOk(Do(s, step), Do(s, step).workers[step.w])
  {
    var p := Do(s, step).workers[step.w].pc;
    assert !p.Accepting? && !p.Counting? && !p.Settling?;
    assert Do(s, step).workers[step.w].todo == s.workers[step.w].todo || Do(s, step).workers[step.w].todo == [];
  }

  lemma ActorStaysOk(s: State, step: Step)
    requires Inv(s) && Enabled(s, step) && ByWorker(step)
    ensures WorkerOk(Do(s, step), Do(s, step).workers[step.w])
  {
    if step.StartDrain? || step.StartByHand? {
      assert forall id :: id in s.rows ==> RowOk(s, id);
      StarterIsOk(s, step);
    } else {
      assert WorkerOk(s, s.workers[step.w]);
      match step {
        case Respond(w, status) => AnswererStaysOk(s, w, status);
        case Count(w) => CounterStaysOk(s, w);
        case Take(w) => TakerStaysOk(s, w);
        case _ => MoverStaysOk(s, step);
      }
    }
  }

  lemma StepKeepsWorkers(s: State, step: Step, w: nat)
    requires Inv(s) && Enabled(s, step) && w in Do(s, step).workers
    ensures WorkerOk(Do(s, step), Do(s, step).workers[w])
  {
    if ByWorker(step) && step.w == w {
      ActorStaysOk(s, step);
    } else {
      assert WorkerOk(s, s.workers[w]);
      OthersStayOk(s, step, s.workers[w]);
    }
  }

  /** Who is inside stays so while the row stays in replaying, unless time is up. */
  lemma InsideStays(s: State, step: Step, w: nat, id: nat)
    requires Enabled(s, step) && w in s.workers && Inside(s.workers[w].pc, id) && !(step.Expire? && step.w == w)
    requires id in Do(s, step).rows && Do(s, step).rows[id].state == Replaying && id < s.nextId
    ensures Inside(Do(s, step).workers[w].pc, id)
  {
  }

  lemma OnlyMarkMakesReplaying(s: State, step: Step, id: nat)
    requires Enabled(s, step) && id in Do(s, step).rows && Do(s, step).rows[id].state == Replaying
    ensures (id in s.rows && s.rows[id].state == Replaying && !(step.Enqueue? && id == s.nextId))
      || (step.Mark? && Inside(Do(s, step).workers[step.w].pc, id))
  {
  }

  lemma AttendanceStays(s: State, step: Step, id: nat)
    requires Enabled(s, step) && id in Do(s, step).rows && Do(s, step).rows[id].state == Replaying
    requires id in s.rows && s.rows[id].state == Replaying ==> id < s.nextId && Attended(s, id)
    ensures Attended(Do(s, step), id) || (step.Expire? && id in Do(s, step).expired)
  {
    OnlyMarkMakesReplaying(s, step, id);
    if id in s.rows && s.rows[id].state == Replaying {
      var w :| w in s.workers && Inside(s.workers[w].pc, id);
      if !(step.Expire? && step.w == w) { InsideStays(s, step, w, id); }
    }
  }

  lemma StepKeepsAttendance(s: State, step: Step, id: nat)
    requires Inv(s) && Enabled(s, step) && id in Do(s, step).rows && Do(s, step).rows[id].state == Replaying
    ensures Attended(Do(s, step), id) || id in Do(s, step).expired
  {
    assert id in s.rows ==> RowOk(s, id);
    if id !in s.expired { AttendanceStays(s, step, id); }
  }

  lemma StepKeepsRows(s: State, step: Step, id: nat)
    requires Inv(s) && Enabled(s, step) && id in Do(s, step).rows
    ensures RowOk(Do(s, step), id)
  {
    var s' := Do(s, step);
    StepExtendsLog(s, step, id);
    assert id in s.rows ==> RowOk(s, id);
    assert ByWorker(step) && step.w in s.workers ==> WorkerOk(s, s.workers[step.w]);
    if s'.rows[id].state == Replaying { StepKeepsAttendance(s, step, id); }
  }

  lemma StepKeepsInv(s: State, step: Step)
    requires Inv(s) && Enabled(s, step)
    ensures Inv(Do(s, step))
  {
    var s' := Do(s, step);
    forall id | id in s'.rows ensures RowOk(s', id) { StepKeepsRows(s, step, id); }
    forall w | w in s'.workers ensures WorkerOk(s', s'.workers[w]) { StepKeepsWorkers(s, step, w); }
    forall id: nat ensures AttemptsOf(s', id) + |Owing(s'.workers, id)| <= |LogOf(s', id)| {
      StepKeepsCounts(s, step, id);
    }
  }

  lemma {:induction false} RunKeepsInv(s: State, steps: seq<Step>)
    requires Inv(s) && Possible(s, steps)
    ensures Inv(Run(s, steps))
    decreases |steps|
  {
    if steps != [] {
      StepKeepsInv(s, steps[0]);
      RunKeepsInv(Do(s, steps[0]), steps[1..]);
    }
  }

  lemma InitInv()
    ensures Inv(INIT)
  {
    assert forall id: nat :: Owing(INIT.workers, id) == {};
  }

  /** In every interleaving: an event in Replaying has a worker inside ReplayEvent for it,
      or the time of a manual replay of it was up before its final update. */
  lemma ReplayingIsAttended(steps: seq<Step>)
    requires Possible(INIT, steps)
    ensures var s := Run(INIT, steps);
      && (forall id :: id in s.rows && s.rows[id].state == Replaying ==> Attended(s, id) || id in s.expired)
      && ((forall w :: w in s.workers ==> s.workers[w].pc == Finished) ==>
            forall id :: id in s.rows && s.rows[id].state == Replaying ==> id in s.expired)
  {
    InitInv();
    RunKeepsInv(INIT, steps);
    var s := Run(INIT, steps);
    assert forall id :: id in s.rows ==> RowOk(s, id);
  }

  /** Replaying, with nobody inside ReplayEvent for it. */
  ghost predicate Unattended(s: State, id: nat) {
    id in s.rows && s.rows[id].state == Replaying && !Attended(s, id)
  }

  /** The step ends the only worker inside ReplayEvent for id before its final update. */
  ghost predicate EndsOnlyWorker(s: State, step: Step, id: nat) {
    && step.Expire? && step.w in s.workers && Inside(s.workers[step.w].pc, id)
    && id in s.rows && s.rows[id].state == Replaying
    && forall w :: w in s.workers && Inside(s.workers[w].pc, id) ==> w == step.w
  }

  /** Exactly then does an event become unattended. */
  lemma UnattendedIff(s: State, step: Step, id: nat)
    requires Enabled(s, step) && !Unattended(s, id)
    ensures Unattended(Do(s, step), id) <==> EndsOnlyWorker(s, step, id)
  {
    var s' := Do(s, step);
    if step.Mark? { assert Inside(s'.workers[step.w].pc, s.workers[step.w].pc.id); }
    if Unattended(s', id) {
      if id in s.rows && s.rows[id].state == Replaying {
        forall w | w in s.workers && Inside(s.workers[w].pc, id) ensures step.Expire? && w == step.w {
          assert !(w in s'.workers && Inside(s'.workers[w].pc, id));
        }
        assert Attended(s, id);
      }
    }
  }

  lemma {:induction false} OnlyExpiryLeaves(s: State, steps: seq<Step>)
    requires Possible(s, steps) && s.expired == {} && forall i :: 0 <= i < |steps| ==> !steps[i].Expire?
    ensures Run(s, steps).expired == {}
    decreases |steps|
  {
    if steps != [] { OnlyExpiryLeaves(Do(s, steps[0]), steps[1..]); }
  }

  /** Without a manual replay that runs out of time, none ever is. */
  lemma AlwaysAttended(steps: seq<Step>, id: nat)
    requires Possible(INIT, steps) && forall i :: 0 <= i < |steps| ==> !steps[i].Expire?
    ensures !Unattended(Run(INIT, steps), id)
  {
    OnlyExpiryLeaves(INIT, steps);
    ReplayingIsAttended(steps);
  }

  /** In every interleaving: delivered means that the app answered below 500, dead means at
      least five answers with a server error among them, attempts is never ahead of the
      answers, and the status on record is 0 or one of the answers, never 0 by default for a
      delivered event. */
  lemma VerdictsAreBacked(steps: seq<Step>)
    requires Possible(INIT, steps)
    ensures var s := Run(INIT, steps);
      forall id :: id in s.rows ==>
        && (s.rows[id].state == Delivered ==> LoggedBelow500(LogOf(s, id)))
        && (s.rows[id].state == Dead ==> |LogOf(s, id)| >= MAX_REPLAY_ATTEMPTS && Logged5xx(LogOf(s, id)))
        && s.rows[id].attempts + |Owing(s.workers, id)| <= |LogOf(s, id)|
        && (s.rows[id].lastStatus in LogOf(s, id) || (s.rows[id].lastStatus == 0 && s.rows[id].state != Delivered))
  {
    InitInv();
    RunKeepsInv(INIT, steps);
    var s := Run(INIT, steps);
    forall id | id in s.rows ensures RowOk(s, id) && s.rows[id].attempts + |Owing(s.workers, id)| <= |LogOf(s, id)| {
      assert AttemptsOf(s, id) == s.rows[id].attempts;
    }
  }

  /** In every interleaving: no event is lost, short of clearing it. */
  lemma NothingIsLost(steps: seq<Step>)
    requires Possible(INIT, steps)
    ensures var s := Run(INIT, steps);
      forall id: nat :: 1 <= id < s.nextId ==> id in s.rows || id in s.cleared
  {
    InitInv();
    RunKeepsInv(INIT, steps);
  }

  // ----- Sessions and who uses them -----

  ghost predicate SessionsOk(s: State) {
    && (forall k :: k in s.open ==> k in s.sessions && s.sessions[k].tunnel in s.current && s.current[s.sessions[k].tunnel] == k)
    && (forall tunnel :: tunnel in s.current ==>
          s.current[tunnel] in s.sessions && s.sessions[s.current[tunnel]].tunnel == tunnel)
  }

  /** A manual replay has no list; a drain uses its own session. */
  predicate WiredOk(s: State, w: nat)
    requires w in s.workers
  {
    var wk := s.workers[w];
    if wk.byHand then wk.todo == [] && w !in s.sessions && (wk.pc.Starting? || wk.pc.Opening? ==> wk.via in s.sessions)
    else w in s.sessions && wk.via == w && wk.tunnel == s.sessions[w].tunnel && !wk.pc.Reviving? && !wk.pc.Finding?
  }

  ghost predicate Wired(s: State) {
    SessionsOk(s) && forall w :: w in s.workers ==> WiredOk(s, w)
  }

  lemma OwnWiring(s: State, step: Step)
    requires SessionsOk(s) && Enabled(s, step) && ByWorker(step) && (step.w in s.workers ==> WiredOk(s, step.w))
    ensures WiredOk(Do(s, step), step.w)
  {
  }

  lemma OthersWiring(s: State, step: Step, w: nat)
    requires Enabled(s, step) && w in s.workers && WiredOk(s, w) && Do(s, step).workers[w] == s.workers[w]
    ensures WiredOk(Do(s, step), w)
  {
    assert forall k :: k in s.sessions ==> k in Do(s, step).sessions && Do(s, step).sessions[k] == s.sessions[k];
  }

  lemma StepKeepsWiring(s: State, step: Step, w: nat)
    requires SessionsOk(s) && Enabled(s, step) && w in Do(s, step).workers && (w in s.workers ==> WiredOk(s, w))
    ensures WiredOk(Do(s, step), w)
  {
    OnlyTheActorMoves(s, step);
    if ByWorker(step) && step.w == w {
      OwnWiring(s, step);
    } else {
      OthersWiring(s, step, w);
    }
  }

  lemma StepKeepsSessions(s: State, step: Step)
    requires SessionsOk(s) && Enabled(s, step)
    ensures SessionsOk(Do(s, step))
  {
  }

  lemma StepKeepsWired(s: State, step: Step)
    requires Wired(s) && Enabled(s, step)
    ensures Wired(Do(s, step))
  {
    StepKeepsSessions(s, step);
    forall w | w in Do(s, step).workers ensures WiredOk(Do(s, step), w) { StepKeepsWiring(s, step, w); }
  }

  lemma {:induction false} RunKeepsWired(s: State, steps: seq<Step>)
    requires Wired(s) && Possible(s, steps)
    ensures Wired(Run(s, steps))
    decreases |steps|
  {
    if steps != [] {
      StepKeepsWired(s, steps[0]);
      RunKeepsWired(Do(s, steps[0]), steps[1..]);
    }
  }

  /** In every interleaving a tunnel has at most one session that can open streams, and
      that is the one the registry has. */
  lemma OneOpenSession(steps: seq<Step>)
    requires Possible(INIT, steps)
    ensures var s := Run(INIT, steps);
      && (forall k :: k in s.open ==> k in s.sessions && s.sessions[k].tunnel in s.current && s.current[s.sessions[k].tunnel] == k)
      && (forall j, k :: j in s.open && k in s.open && s.sessions[j].tunnel == s.sessions[k].tunnel ==> j == k)
  {
    RunKeepsWired(INIT, steps);
  }

  // ----- What each step of the registry and of the sessions does -----

  /** A session that hangs up can open no more streams; nothing else changes. */
  lemma HangupCloses(s: State, k: nat)
    requires Enabled(s, Hangup(k))
    ensures var t := Do(s, Hangup(k));
      && (forall j :: j in t.open <==> j in s.open && j != k)
      && t == s.(open := t.open)
  {
  }

  /** Once a session's handler has finished, no tunnel has that session any more, and every
      other entry of the registry is as it was; nothing else changes. */
  lemma ForgetRemoves(s: State, k: nat)
    requires SessionsOk(s) && Enabled(s, Forget(k))
    ensures var t := Do(s, Forget(k));
      && (forall tunnel :: tunnel in t.current <==> tunnel in s.current && s.current[tunnel] != k)
      && (forall tunnel :: tunnel in t.current ==> t.current[tunnel] == s.current[tunnel])
      && t == s.(current := t.current)
  {
  }

  /** A new session takes its tunnel over and closes the one it replaces, and no other. */
  lemma ConnectReplaces(s: State, k: nat, tunnel: nat, known: bool)
    requires SessionsOk(s) && Enabled(s, Connect(k, tunnel, known))
    ensures var t := Do(s, Connect(k, tunnel, known));
      && (forall j :: j in t.open <==> j == k || (j in s.open && s.sessions[j].tunnel != tunnel))
      && t.current == s.current[tunnel := k] && t.sessions == s.sessions[k := Session(tunnel, known)]
      && t == s.(open := t.open, current := t.current, sessions := t.sessions)
  {
  }

  /** Nothing else touches sessions. */
  lemma OthersLeaveSessions(s: State, step: Step)
    requires Enabled(s, step) && !step.Connect? && !step.Hangup? && !step.Forget?
    ensures var t := Do(s, step);
      t.open == s.open && t.current == s.current && t.sessions == s.sessions
  {
  }

  /** Clearing removes the tunnel's rows, remembers that, and leaves every other row alone;
      workers that hold such an event are not told. */
  lemma ClearRemoves(s: State, tunnel: nat)
    ensures var t := Do(s, Clear(tunnel));
      && (forall id :: id in t.rows <==> id in s.rows && s.rows[id].tunnel != tunnel)
      && (forall id :: id in t.rows ==> t.rows[id] == s.rows[id])
      && (forall id :: id in t.cleared <==> id in s.cleared || (id in s.rows && s.rows[id].tunnel == tunnel))
      && t == s.(rows := t.rows, cleared := t.cleared)
  {
  }

  /** The drain of a session reads its tunnel's queue, unless the tunnel could not be looked up. */
  lemma StartReads(s: State, k: nat, tunnel: nat)
    requires Enabled(s, StartDrain(k, tunnel))
    ensures var t := Do(s, StartDrain(k, tunnel));
      && t.workers[k].todo == (if s.sessions[k].known && s.sessions[k].tunnel != 0 then Queue(s.rows, s.sessions[k].tunnel) else [])
      && t.workers[k].pc == Between && !t.workers[k].byHand && t == s.(workers := s.workers[k := t.workers[k]])
  {
  }

  /** A manual replay goes on over the session that the registry has for its tunnel; if it has
      none, it ends and leaves the row as it is. */
  lemma FindPicks(s: State, w: nat)
    requires Enabled(s, Find(w))
    ensures var t, wk := Do(s, Find(w)), s.workers[w];
      && t.rows == s.rows && t == s.(workers := s.workers[w := t.workers[w]])
      && (wk.tunnel !in s.current ==> t.workers[w].pc.Finished? && t.workers[w].todo == [])
      && (wk.tunnel in s.current ==> t.workers[w] == wk.(pc := Starting(wk.pc.id), via := s.current[wk.tunnel]))
  {
  }

  ghost predicate Forgotten(s: State, k: nat) {
    k in s.sessions && k !in s.open && forall tunnel :: tunnel in s.current ==> s.current[tunnel] != k
  }

  lemma {:induction false} ForgottenForEver(s: State, steps: seq<Step>, k: nat)
    requires Forgotten(s, k) && Possible(s, steps)
    ensures Forgotten(Run(s, steps), k)
    decreases |steps|
  {
    if steps != [] { ForgottenForEver(Do(s, steps[0]), steps[1..], k); }
  }

  /** Over every run: a session whose handler has finished is never one that a manual replay
      goes on over. */
  lemma FinishedIsNeverFound(before: seq<Step>, k: nat, after: seq<Step>, w: nat)
    requires Possible(INIT, before) && Enabled(Run(INIT, before), Forget(k))
    requires Possible(Do(Run(INIT, before), Forget(k)), after)
    requires Enabled(Run(Do(Run(INIT, before), Forget(k)), after), Find(w))
    ensures var t := Do(Run(Do(Run(INIT, before), Forget(k)), after), Find(w));
      t.workers[w].pc.Finished? || t.workers[w].via != k
  {
    RunKeepsWired(INIT, before);
    var s := Run(INIT, before);
    ForgetRemoves(s, k);
    ForgottenForEver(Do(s, Forget(k)), after, k);
    FindPicks(Run(Do(s, Forget(k)), after), w);
  }

  // ----- Whose session a stream is opened on -----

  /** What a worker holds, if it is still in the table, is of the worker's tunnel, and so is
      the session it opens streams on. */
  ghost predicate OwnTunnel(s: State, w: nat)
    requires w in s.workers
  {
    var wk := s.workers[w];
    && (!wk.pc.Between? && !wk.pc.Finished? && wk.pc.id in s.rows ==> s.rows[wk.pc.id].tunnel == wk.tunnel)
    && (forall i :: 0 <= i < |wk.todo| && wk.todo[i] in s.rows ==> s.rows[wk.todo[i]].tunnel == wk.tunnel)
    && (wk.pc.Starting? || wk.pc.Opening? || wk.pc.Exchanging? ==> wk.via in s.sessions && s.sessions[wk.via].tunnel == wk.tunnel)
    && (!wk.byHand ==> wk.via == w && w in s.sessions && s.sessions[w].tunnel == wk.tunnel)
    && (forall i :: 0 <= i < |wk.todo| ==> wk.todo[i] < s.nextId)
    && (!wk.pc.Between? && !wk.pc.Finished? ==> wk.pc.id < s.nextId)
  }

  lemma RowTunnelStays(s: State, step: Step, id: nat)
    requires Enabled(s, step) && id < s.nextId && id in Do(s, step).rows
    ensures id in s.rows && Do(s, step).rows[id].tunnel == s.rows[id].tunnel
  {
  }

  lemma OthersOwnTunnel(s: State, step: Step, w: nat)
    requires Enabled(s, step) && w in s.workers && OwnTunnel(s, w) && Do(s, step).workers[w] == s.workers[w]
    ensures OwnTunnel(Do(s, step), w)
  {
    var wk := s.workers[w];
    forall id | id < s.nextId && id in Do(s, step).rows ensures id in s.rows && Do(s, step).rows[id].tunnel == s.rows[id].tunnel {
      RowTunnelStays(s, step, id);
    }
    assert forall k :: k in s.sessions ==> k in Do(s, step).sessions && Do(s, step).sessions[k] == s.sessions[k];
  }

  lemma NewOwnTunnel(s: State, step: Step)
    requires Wired(s) && Enabled(s, step) && (step.StartDrain? || step.StartByHand?) && forall id :: id in s.rows ==> id < s.nextId
    ensures OwnTunnel(Do(s, step), step.w)
  {
    if step.StartDrain? {
      QueueOrdered(s.rows, step.tunnel);
      var todo := Do(s, step).workers[step.w].todo;
      forall i | 0 <= i < |todo| ensures todo[i] in s.rows && s.rows[todo[i]].tunnel == step.tunnel {
        assert todo[i] in QueuedIds(s.rows, step.tunnel);
      }
    }
  }

  lemma MoverOwnTunnel(s: State, step: Step)
    requires Wired(s) && Enabled(s, step) && ByWorker(step) && step.w in s.workers && OwnTunnel(s, step.w)
    ensures OwnTunnel(Do(s, step), step.w)
  {
    forall id | id < s.nextId && id in Do(s, step).rows ensures id in s.rows && Do(s, step).rows[id].tunnel == s.rows[id].tunnel {
      RowTunnelStays(s, step, id);
    }
    assert WiredOk(s, step.w);
  }

  ghost predicate TunnelsOk(s: State) {
    && Wired(s) && (forall id :: id in s.rows ==> id < s.nextId)
    && forall w :: w in s.workers ==> OwnTunnel(s, w)
  }

  lemma StepKeepsTunnels(s: State, step: Step)
    requires TunnelsOk(s) && Enabled(s, step)
    ensures TunnelsOk(Do(s, step))
  {
    OnlyTheActorMoves(s, step);
    StepKeepsWired(s, step);
    forall w | w in Do(s, step).workers ensures OwnTunnel(Do(s, step), w) {
      if !ByWorker(step) || step.w != w {
        OthersOwnTunnel(s, step, w);
      } else if w in s.workers {
        MoverOwnTunnel(s, step);
      } else {
        NewOwnTunnel(s, step);
      }
    }
  }

  lemma {:induction false} RunKeepsTunnels(s: State, steps: seq<Step>)
    requires TunnelsOk(s) && Possible(s, steps)
    ensures TunnelsOk(Run(s, steps))
    decreases |steps|
  {
    if steps != [] {
      StepKeepsTunnels(s, steps[0]);
      RunKeepsTunnels(Do(s, steps[0]), steps[1..]);
    }
  }

  /** In every interleaving: a stream for an event is opened only on a session of the event's
      own tunnel, by drains and by manual replays, and it is the one the registry has. */
  lemma StreamsGoToTheOwner(steps: seq<Step>, w: nat)
    requires Possible(INIT, steps) && Enabled(Run(INIT, steps), Open(w))
    ensures var s := Run(INIT, steps);
      var id, k := s.workers[w].pc.id, s.workers[w].via;
      && k in s.sessions && k in s.open
      && (id in s.rows ==>
            s.sessions[k].tunnel == s.rows[id].tunnel && s.rows[id].tunnel in s.current && s.current[s.rows[id].tunnel] == k)
  {
    RunKeepsTunnels(INIT, steps);
    assert OwnTunnel(Run(INIT, steps), w);
  }
}
