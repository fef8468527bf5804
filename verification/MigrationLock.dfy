/** Any number of Migrate calls at once, one statement at a time, behind the advisory lock
    (internal/store/store.go). Callers may be builds of different age: each embeds the
    first so many of one common list of scripts. */
module MigrationLock {
  import opened Options
  import opened Migrations

  /** Where a call stands; Closing holds the result until the deferred unlock has run. */
  datatype Pc =
    | Waiting
    | Preparing
    | Checking
    | Executing
    | Recording
    | Committing
    | Closing(ok: bool)
    | Done(ok: bool)

  /** own is how many scripts the caller embeds, next the one its loop has come to. */
  datatype Caller = Caller(own: nat, next: nat, pc: Pc)

  /** versions is schema_migrations in the order of the commits, ran the scripts whose effects
      are committed. What a transaction has not committed lives in its caller's place alone. */
  datatype State = State(versions: seq<string>, ran: seq<string>, lock: Option<nat>, callers: map<nat, Caller>)

  const INIT := State([], [], None, map[])

  datatype Step =
    | Start(c: nat, own: nat)
    | Acquire(c: nat)
    | Prepare(c: nat)          // CREATE TABLE IF NOT EXISTS
    | Check(c: nat)            // SELECT EXISTS
    | Execute(c: nat)          // the script, inside a transaction
    | Record(c: nat)           // the INSERT, inside the same one
    | Commit(c: nat)
    | Unlock(c: nat)
    | Fail(c: nat)             // the next statement fails; an open transaction is rolled back
    | LoseReply(c: nat)        // the commit is carried out, but reported as failed
    | Crash(c: nat)            // the connection breaks: the server rolls back and unlocks

  predicate Inside(pc: Pc) { !pc.Waiting? && !pc.Done? }

  predicate Working(pc: Pc) { Inside(pc) && !pc.Closing? }

  predicate Enabled(names: seq<string>, s: State, step: Step) {
    match step
    case Start(c, own) => c !in s.callers && own <= |names|
    case Acquire(c) => c in s.callers && s.callers[c].pc.Waiting? && s.lock.None?
    case Prepare(c) => c in s.callers && s.callers[c].pc.Preparing?
    case Check(c) => c in s.callers && s.callers[c].pc.Checking?
    case Execute(c) => c in s.callers && s.callers[c].pc.Executing?
    case Record(c) => c in s.callers && s.callers[c].pc.Recording?
    case Commit(c) => c in s.callers && s.callers[c].pc.Committing?
    case LoseReply(c) => c in s.callers && s.callers[c].pc.Committing?
    case Unlock(c) => c in s.callers && s.callers[c].pc.Closing?
    case Fail(c) => c in s.callers && (s.callers[c].pc.Waiting? || Working(s.callers[c].pc))
    case Crash(c) => c in s.callers && !s.callers[c].pc.Done?
  }

  function Goes(s: State, c: nat, pc: Pc): State
    requires c in s.callers
  {
    s.(callers := s.callers[c := s.callers[c].(pc := pc)])
  }

  /** next may not be a script's number: a build that has more scripts than the list cannot be. */
  function NameAt(names: seq<string>, i: nat): string {
    if i < |names| then names[i] else ""
  }

  function Committed(s: State, name: string): State {
    s.(versions := s.versions + [name], ran := s.ran + [name])
  }

  function Do(names: seq<string>, s: State, step: Step): State
    requires Enabled(names, s, step)
  {
    match step
    case Start(c, own) => s.(callers := s.callers[c := Caller(own, 0, Waiting)])
    case Acquire(c) => Goes(s, c, Preparing).(lock := Some(c))
    case Prepare(c) => Goes(s, c, Checking)
    case Check(c) =>
      var k := s.callers[c];
      if k.next >= k.own then Goes(s, c, Closing(true))
      else if NameAt(names, k.next) in s.versions then s.(callers := s.callers[c := k.(next := k.next + 1)])
      else Goes(s, c, Executing)
    case Execute(c) => Goes(s, c, Recording)
    case Record(c) => // the primary key refuses a second row of one version
      if NameAt(names, s.callers[c].next) in s.versions then Goes(s, c, Closing(false)) else Goes(s, c, Committing)
    case Commit(c) =>
      var k := s.callers[c];
      Committed(s.(callers := s.callers[c := k.(next := k.next + 1, pc := Checking)]), NameAt(names, k.next))
    case LoseReply(c) => Committed(Goes(s, c, Closing(false)), NameAt(names, s.callers[c].next))
    case Unlock(c) => Goes(s, c, Done(s.callers[c].pc.ok)).(lock := None)
    case Fail(c) => Goes(s, c, if s.callers[c].pc.Waiting? then Done(false) else Closing(false))
    case Crash(c) =>
      Goes(s, c, Done(s.callers[c].pc == Closing(true))).(lock := if s.callers[c].pc.Waiting? then s.lock else None)
  }

  predicate Possible(names: seq<string>, s: State, steps: seq<Step>)
    decreases |steps|
  {
    steps == [] || (Enabled(names, s, steps[0]) && Possible(names, Do(names, s, steps[0]), steps[1..]))
  }

  function Run(names: seq<string>, s: State, steps: seq<Step>): State
    requires Possible(names, s, steps)
    decreases |steps|
  {
    if steps == [] then s else Run(names, Do(names, s, steps[0]), steps[1..])
  }

  // ----- What every step keeps -----

  predicate IsPrefix(names: seq<string>, versions: seq<string>) {
    |versions| <= |names| && versions == names[..|versions|]
  }

  /** What a caller knows of how many scripts are applied. */
  predicate Knows(k: Caller, applied: nat) {
    match k.pc
    case Waiting => k.next == 0
    case Preparing => k.next == 0
    case Checking => k.next <= k.own && k.next <= applied
    case Executing => k.next < k.own && k.next == applied
    case Recording => k.next < k.own && k.next == applied
    case Committing => k.next < k.own && k.next == applied
    case Closing(ok) => ok ==> k.own <= applied
    case Done(ok) => ok ==> k.own <= applied
  }

  ghost predicate CallerOk(names: seq<string>, s: State, c: nat)
    requires c in s.callers
  {
    && s.callers[c].own <= |names| && Knows(s.callers[c], |s.versions|)
    && (Inside(s.callers[c].pc) <==> s.lock == Some(c))
  }

  ghost predicate Inv(names: seq<string>, s: State) {
    && IsPrefix(names, s.versions) && s.ran == s.versions
    && (s.lock.Some? ==> s.lock.value in s.callers)
    && forall c :: c in s.callers ==> CallerOk(names, s, c)
  }

  lemma NextIsNew(names: seq<string>, versions: seq<string>, i: nat)
    requires Distinct(names) && IsPrefix(names, versions) && i < |names|
    ensures names[i] in versions <==> i < |versions|
  {
    if i < |versions| { assert versions[i] == names[i]; }
  }

  lemma PrefixGrows(names: seq<string>, versions: seq<string>)
    requires IsPrefix(names, versions) && |versions| < |names|
    ensures IsPrefix(names, versions + [names[|versions|]])
  {
  }

  /** The table, and the one caller that moves. */
  lemma StepKeepsOwn(names: seq<string>, s: State, step: Step)
    requires Distinct(names) && Inv(names, s) && Enabled(names, s, step)
    ensures var t := Do(names, s, step);
      && IsPrefix(names, t.versions) && t.ran == t.versions && CallerOk(names, t, step.c)
      && (t.versions == s.versions || (s.lock == Some(step.c) && |t.versions| == |s.versions| + 1))
  {
    if step.c in s.callers {
      assert CallerOk(names, s, step.c);
      var i := s.callers[step.c].next;
      if i < |names| {
        NextIsNew(names, s.versions, i);
        if i == |s.versions| { PrefixGrows(names, s.versions); }
      }
    }
  }

  lemma StepKeepsOthers(names: seq<string>, s: State, step: Step, c: nat)
    requires Distinct(names) && Inv(names, s) && Enabled(names, s, step) && c in s.callers && c != step.c
    ensures c in Do(names, s, step).callers && CallerOk(names, Do(names, s, step), c)
  {
    StepKeepsOwn(names, s, step);
    assert CallerOk(names, s, c);
    if step.c in s.callers { assert CallerOk(names, s, step.c); }
  }

  lemma StepKeepsInv(names: seq<string>, s: State, step: Step)
    requires Distinct(names) && Inv(names, s) && Enabled(names, s, step)
    ensures Inv(names, Do(names, s, step))
  {
    StepKeepsOwn(names, s, step);
    forall c | c in Do(names, s, step).callers && c != step.c ensures CallerOk(names, Do(names, s, step), c) {
      StepKeepsOthers(names, s, step, c);
    }
  }

  lemma {:induction false} RunKeepsInv(names: seq<string>, s: State, steps: seq<Step>)
    requires Distinct(names) && Inv(names, s) && Possible(names, s, steps)
    ensures Inv(names, Run(names, s, steps))
    decreases |steps|
  {
    if steps != [] {
      StepKeepsInv(names, s, steps[0]);
      RunKeepsInv(names, Do(names, s, steps[0]), steps[1..]);
    }
  }

  /** Whatever fails, breaks or interleaves: the committed scripts are always a prefix of the
      list, each there once and with its effects; and a call that returned success has all
      of its own scripts applied. */
  lemma CommittedIsPrefix(names: seq<string>, steps: seq<Step>)
    requires Distinct(names) && Possible(names, INIT, steps)
    ensures var s := Run(names, INIT, steps);
      && IsPrefix(names, s.versions) && Distinct(s.versions) && s.ran == s.versions
      && forall c :: c in s.callers && s.callers[c].pc == Done(true) ==>
           s.callers[c].own <= |names| && AllApplied(names[..s.callers[c].own], s.versions)
  {
    RunKeepsInv(names, INIT, steps);
    var s := Run(names, INIT, steps);
    forall c | c in s.callers && s.callers[c].pc == Done(true)
      ensures s.callers[c].own <= |names| && AllApplied(names[..s.callers[c].own], s.versions)
    {
      assert CallerOk(names, s, c);
      assert forall i :: 0 <= i < |s.versions| ==> s.versions[i] == names[i];
    }
  }

  /** Only the holder of the lock commits, one script at a time, the next of the list; and
      nothing that is committed is ever undone. */
  lemma OnlyHolderCommits(names: seq<string>, steps: seq<Step>, step: Step)
    requires Distinct(names) && Possible(names, INIT, steps) && Enabled(names, Run(names, INIT, steps), step)
    ensures var s := Run(names, INIT, steps);
      var t := Do(names, s, step);
      t.versions == s.versions
      || (s.lock == Some(step.c) && |s.versions| < |names| && t.versions == s.versions + [names[|s.versions|]])
  {
    RunKeepsInv(names, INIT, steps);
    StepKeepsOwn(names, Run(names, INIT, steps), step);
  }

  // ----- What the lock is for -----

  predicate Faulty(step: Step) { step.Fail? || step.LoseReply? || step.Crash? }

  /** Calls fail only from outside causes: no caller's insert ever meets another's row. */
  lemma NoCallFailsByItself(names: seq<string>, steps: seq<Step>)
    requires Distinct(names) && Possible(names, INIT, steps)
    requires forall i :: 0 <= i < |steps| ==> !Faulty(steps[i])
    ensures forall c :: c in Run(names, INIT, steps).callers ==>
      Run(names, INIT, steps).callers[c].pc !in {Closing(false), Done(false)}
  {
    RunStaysGood(names, INIT, steps);
  }

  predicate AllGood(s: State) {
    forall c :: c in s.callers ==> s.callers[c].pc !in {Closing(false), Done(false)}
  }

  lemma {:induction false} RunStaysGood(names: seq<string>, s: State, steps: seq<Step>)
    requires Distinct(names) && Inv(names, s) && AllGood(s) && Possible(names, s, steps)
    requires forall i :: 0 <= i < |steps| ==> !Faulty(steps[i])
    ensures AllGood(Run(names, s, steps))
    decreases |steps|
  {
    if steps != [] {
      StepStaysGood(names, s, steps[0]);
      StepKeepsInv(names, s, steps[0]);
      RunStaysGood(names, Do(names, s, steps[0]), steps[1..]);
    }
  }

  lemma StepStaysGood(names: seq<string>, s: State, step: Step)
    requires Distinct(names) && Inv(names, s) && AllGood(s) && Enabled(names, s, step) && !Faulty(step)
    ensures AllGood(Do(names, s, step))
  {
    if step.c in s.callers {
      assert CallerOk(names, s, step.c);
      if step.Record? { NextIsNew(names, s.versions, s.callers[step.c].next); }
    }
  }

  // ----- Every call comes to an end -----

  /** How many more statements a call can take. */
  function Left(k: Caller): int {
    match k.pc
    case Waiting => 4 * k.own + 4
    case Preparing => 4 * k.own + 3
    case Checking => 4 * (k.own - k.next) + 2
    case Executing => 4 * (k.own - k.next) + 1
    case Recording => 4 * (k.own - k.next)
    case Committing => 4 * (k.own - k.next) - 1
    case Closing(_) => 1
    case Done(_) => 0
  }

  lemma MovesAreFinite(names: seq<string>, s: State, step: Step)
    requires Inv(names, s) && Enabled(names, s, step) && step.c in s.callers
    ensures 0 <= Left(Do(names, s, step).callers[step.c]) < Left(s.callers[step.c])
  {
    assert CallerOk(names, s, step.c);
  }

  function MovesOf(steps: seq<Step>, c: nat): nat {
    if steps == [] then 0 else (if steps[0].c == c then 1 else 0) + MovesOf(steps[1..], c)
  }

  lemma {:induction false} MovesAreBounded(names: seq<string>, s: State, steps: seq<Step>, c: nat)
    requires Distinct(names) && Inv(names, s) && Possible(names, s, steps) && c in s.callers
    ensures c in Run(names, s, steps).callers
    ensures MovesOf(steps, c) + Left(Run(names, s, steps).callers[c]) <= Left(s.callers[c])
    decreases |steps|
  {
    if steps != [] {
      var t := Do(names, s, steps[0]);
      StepKeepsInv(names, s, steps[0]);
      if steps[0].c == c {
        MovesAreFinite(names, s, steps[0]);
      }
      MovesAreBounded(names, t, steps[1..], c);
    }
  }

  function NextMove(s: State, c: nat): Step
    requires c in s.callers && !s.callers[c].pc.Done?
  {
    match s.callers[c].pc
    case Waiting => Acquire(c)
    case Preparing => Prepare(c)
    case Checking => Check(c)
    case Executing => Execute(c)
    case Recording => Record(c)
    case Committing => Commit(c)
    case Closing(_) => Unlock(c)
  }

  /** No deadlock: while a call is unfinished, that call or the holder of the lock can move. */
  lemma SomeoneCanMove(names: seq<string>, steps: seq<Step>, c: nat)
    requires Distinct(names) && Possible(names, INIT, steps)
    requires var s := Run(names, INIT, steps); c in s.callers && !s.callers[c].pc.Done?
    ensures var s := Run(names, INIT, steps);
      var mover := if s.lock.Some? then s.lock.value else c;
      mover in s.callers && !s.callers[mover].pc.Done? && Enabled(names, s, NextMove(s, mover))
  {
    RunKeepsInv(names, INIT, steps);
    var s := Run(names, INIT, steps);
    var mover := if s.lock.Some? then s.lock.value else c;
    assert CallerOk(names, s, mover) && CallerOk(names, s, c);
  }

  /** And no call goes on for ever: one that embeds n scripts takes at most 4n + 4 steps. */
  lemma CallsAreShort(names: seq<string>, before: seq<Step>, after: seq<Step>, c: nat, own: nat)
    requires Distinct(names) && Possible(names, INIT, before) && Enabled(names, Run(names, INIT, before), Start(c, own))
    requires Possible(names, Do(names, Run(names, INIT, before), Start(c, own)), after)
    ensures MovesOf(after, c) <= 4 * own + 4
    ensures MovesOf(after, c) == 4 * own + 4 ==>
      var s := Run(names, Do(names, Run(names, INIT, before), Start(c, own)), after);
      c in s.callers && s.callers[c].pc.Done?
  {
    var s := Run(names, INIT, before);
    RunKeepsInv(names, INIT, before);
    StepKeepsInv(names, s, Start(c, own));
    var t := Do(names, s, Start(c, own));
    MovesAreBounded(names, t, after, c);
    RunKeepsInv(names, t, after);
    assert CallerOk(names, Run(names, t, after), c);
  }

  /** What each fault leaves: a statement that fails and a connection that breaks commit
      nothing, and a broken connection lets go of the lock; a commit whose reply is lost has
      been carried out, though its call ends in an error. */
  lemma FaultsLeave(names: seq<string>, s: State, c: nat)
    requires Distinct(names) && Inv(names, s) && c in s.callers
    ensures Enabled(names, s, Fail(c)) ==>
      var t := Do(names, s, Fail(c));
      t.versions == s.versions && t.ran == s.ran && t.callers[c].pc in {Closing(false), Done(false)}
    ensures Enabled(names, s, Crash(c)) ==>
      var t := Do(names, s, Crash(c));
      && t.versions == s.versions && t.ran == s.ran && t.callers[c].pc.Done?
      && t.lock == if s.lock == Some(c) then None else s.lock
    ensures Enabled(names, s, LoseReply(c)) ==>
      var t := Do(names, s, LoseReply(c));
      && |s.versions| < |names| && t.versions == s.versions + [names[|s.versions|]] == t.ran
      && t.callers[c].pc == Closing(false)
  {
    assert CallerOk(names, s, c);
  }

  /** All of its own scripts, or more if more were there. */
  function Reach(s: State, own: nat): nat {
    if |s.versions| >= own then |s.versions| else own
  }

  predicate OwnMoves(steps: seq<Step>, c: nat) {
    forall i :: 0 <= i < |steps| ==> steps[i].c == c && !Faulty(steps[i])
  }

  /** The call has not failed or finished, and nobody else holds the lock. */
  ghost predicate Unhindered(names: seq<string>, s: State, c: nat) {
    && Inv(names, s) && c in s.callers && s.lock in {None, Some(c)}
    && !s.callers[c].pc.Done? && s.callers[c].pc != Closing(false)
  }

  lemma AloneItMoves(names: seq<string>, s: State, c: nat)
    requires Distinct(names) && Unhindered(names, s, c)
    ensures Enabled(names, s, NextMove(s, c)) && !Faulty(NextMove(s, c)) && NextMove(s, c).c == c
    ensures var t := Do(names, s, NextMove(s, c));
      && Inv(names, t) && c in t.callers && t.callers[c].own == s.callers[c].own && t.lock in {None, Some(c)}
      && Reach(t, t.callers[c].own) == Reach(s, s.callers[c].own) <= |names|
      && 0 <= Left(t.callers[c]) < Left(s.callers[c])
      && t.callers[c].pc !in {Closing(false), Done(false)}
      && (t.callers[c].pc == Done(true) ==> t.lock == None && Reach(t, t.callers[c].own) == |t.versions|)
  {
    var step := NextMove(s, c);
    assert CallerOk(names, s, c);
    StepKeepsOwn(names, s, step);
    StepKeepsInv(names, s, step);
    MovesAreFinite(names, s, step);
    assert CallerOk(names, Do(names, s, step), c);
    if step.Record? { NextIsNew(names, s.versions, s.callers[c].next); }
  }

  /** From every state in which a call has not failed and nobody else holds the lock, its own
      statements bring it to success, with exactly its own scripts applied on top of those
      that were. */
  lemma {:induction false} AloneItSucceeds(names: seq<string>, s: State, c: nat) returns (steps: seq<Step>)
    requires Distinct(names) && Unhindered(names, s, c)
    ensures OwnMoves(steps, c) && Possible(names, s, steps)
    ensures Reach(s, s.callers[c].own) <= |names|
    ensures var t := Run(names, s, steps);
      c in t.callers && t.callers[c].pc == Done(true) && t.lock == None && t.versions == names[..Reach(s, s.callers[c].own)]
    decreases Left(s.callers[c])
  {
    var step := NextMove(s, c);
    AloneItMoves(names, s, c);
    var t := Do(names, s, step);
    var rest := [];
    if !t.callers[c].pc.Done? {
      rest := AloneItSucceeds(names, t, c);
    }
    steps := [step] + rest;
    assert steps[1..] == rest;
  }
}
