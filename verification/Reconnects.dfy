/** Exactly when a drain may start beside others: what a drain that does not fit in does to
    the order of delivery. */
module Reconnects {
  import opened Events
  import opened Workers
  import opened Overlap
  import opened Finality
  import opened Order

  /** Whatever comes next, short of a manual replay and of another drain that does not fit
      in, acceptances stay in order. */
  ghost predicate OrderIsSafe(t: Trace) {
    forall steps :: AllOrderly(t, steps) ==> Q.StrictlyOrdered(After(t, steps).accepted)
  }

  ghost predicate Reaches(t: Trace, u: Trace) {
    exists steps :: AllOrderly(t, steps) && After(t, steps) == u
  }

  lemma {:induction false} AfterJoins(t: Trace, a: seq<Step>, b: seq<Step>)
    requires AllOrderly(t, a) && AllOrderly(After(t, a), b)
    ensures AllOrderly(t, a + b) && After(t, a + b) == After(After(t, a), b)
    decreases |a|
  {
    if a == [] {
      assert a + b == b;
    } else {
      AfterJoins(Next(t, a[0]), a[1..], b);
      assert (a + b)[1..] == a[1..] + b;
    }
  }

  lemma ReachesOn(t: Trace, u: Trace, v: Trace)
    requires Reaches(t, u) && Reaches(u, v)
    ensures Reaches(t, v)
  {
    var a :| AllOrderly(t, a) && After(t, a) == u;
    var b :| AllOrderly(u, b) && After(u, b) == v;
    AfterJoins(t, a, b);
  }

  lemma ReachesNext(t: Trace, step: Step)
    requires Orderly(t, step)
    ensures Reaches(t, Next(t, step))
  {
    var u := Next(t, step);
    assert [step][1..] == [] && AllOrderly(u, []) && After(u, []) == u;
    assert AllOrderly(t, [step]) && After(t, [step]) == u;
  }

  lemma ReachesItself(t: Trace)
    ensures Reaches(t, t)
  {
    assert AllOrderly(t, []) && After(t, []) == t;
  }

  lemma NotStrictly(u: Trace, i: nat, j: nat)
    requires KeysOk(u) && i < j < |u.accepted| && u.accepted[i].tunnel == u.accepted[j].tunnel
    requires var a, b := u.accepted[i].id, u.accepted[j].id;
      a in u.keys && b in u.keys && u.accepted[i] == u.keys[a] && u.accepted[j] == u.keys[b] && b <= a
    ensures !Q.StrictlyOrdered(u.accepted)
  {
    assert !Q.Earlier(u.accepted[i], u.accepted[j]);
  }

  /** Two acceptances in the log of u are the wrong way round. */
  lemma OutOfOrder(t: Trace, u: Trace, i: nat, j: nat)
    requires Reaches(t, u) && KeysOk(u) && i < j < |u.accepted| && u.accepted[i].tunnel == u.accepted[j].tunnel
    requires var a, b := u.accepted[i].id, u.accepted[j].id;
      a in u.keys && b in u.keys && u.accepted[i] == u.keys[a] && u.accepted[j] == u.keys[b] && b <= a
    ensures !OrderIsSafe(t)
  {
    var steps :| AllOrderly(t, steps) && After(t, steps) == u;
    NotStrictly(u, i, j);
    assert !Q.StrictlyOrdered(After(t, steps).accepted);
  }

  // ----- What one drain does by itself -----

  /** u is t but for drain w, rows and the log, which has grown. */
  ghost predicate Beside(t: Trace, u: Trace, w: nat) {
    && w in t.s.workers && w in u.s.workers
    && u.s.workers == t.s.workers[w := u.s.workers[w]] && u.s.workers[w].tunnel == t.s.workers[w].tunnel
    && u.s.open == t.s.open && u.s.sessions == t.s.sessions && u.s.current == t.s.current
    && u.s.rows.Keys == t.s.rows.Keys && u.keys == t.keys && t.accepted <= u.accepted
  }

  lemma OwnStepBeside(t: Trace, a: Step, w: nat)
    requires KeysOk(t) && DrainsOk(t) && Enabled(t.s, a) && Own(a, w) && w in t.s.workers
    ensures Orderly(t, a) && Beside(t, Next(t, a), w) && KeysOk(Next(t, a)) && DrainsOk(Next(t, a))
  {
    assert WiredOk(t.s, w) && DrainOk(t, w);
    OwnStep(t.s, a);
    StepKeepsKeys(t, a);
    StepKeepsDrains(t, a);
    LogGrows(t, a);
  }

  lemma BesideOn(t: Trace, v: Trace, u: Trace, w: nat)
    requires Beside(t, v, w) && Beside(v, u, w)
    ensures Beside(t, u, w)
  {
  }

  lemma BesideItself(t: Trace, w: nat)
    requires w in t.s.workers
    ensures Beside(t, t, w)
  {
    assert t.s.workers == t.s.workers[w := t.s.workers[w]];
  }

  ghost predicate Sound(t: Trace) { KeysOk(t) && DrainsOk(t) }

  lemma OwnStepReaches(t: Trace, a: Step, w: nat)
    requires Sound(t) && Enabled(t.s, a) && Own(a, w) && w in t.s.workers
    ensures Reaches(t, Next(t, a)) && Beside(t, Next(t, a), w) && Sound(Next(t, a))
  {
    OwnStepBeside(t, a, w);
    ReachesNext(t, a);
  }

  /** Its own steps are always orderly. */
  lemma {:induction false} DoOwn(t: Trace, steps: seq<Step>, w: nat) returns (u: Trace)
    requires Sound(t) && Possible(t.s, steps) && OwnSteps(steps, w) && w in t.s.workers
    ensures Reaches(t, u) && u.s == Run(t.s, steps) && Beside(t, u, w) && Sound(u)
    decreases |steps|
  {
    if steps == [] {
      u := t;
      ReachesItself(t);
      BesideItself(t, w);
    } else {
      var v := Next(t, steps[0]);
      OwnStepReaches(t, steps[0], w);
      u := DoOwn(v, steps[1..], w);
      ReachesOn(t, v, u);
      BesideOn(t, v, u, w);
    }
  }

  /** The last acceptance is of x, which the tunnel's drain w had. */
  ghost predicate LastAccepted(u: Trace, x: nat, tunnel: nat) {
    && x in u.keys && u.keys[x].id == x && u.keys[x].tunnel == tunnel
    && u.accepted != [] && u.accepted[|u.accepted| - 1] == u.keys[x]
  }

  lemma AnswerIsLogged(v: Trace, w: nat, x: nat)
    requires Sound(v) && w in v.s.workers && v.s.workers[w].pc == Exchanging(x)
    ensures var u := Next(v, Respond(w, 200));
      && Reaches(v, u) && Beside(v, u, w) && Sound(u) && |u.accepted| > |v.accepted|
      && u.s.workers[w] == v.s.workers[w].(pc := Accepting(x, 200)) && u.s.rows == v.s.rows
      && LastAccepted(u, x, v.s.workers[w].tunnel)
  {
    OwnStepReaches(v, Respond(w, 200), w);
    LogGrows(v, Respond(w, 200));
  }

  lemma AskerGoesOn(t: Trace, w: nat, x: nat)
    requires Sound(t) && w in t.s.workers && CanAsk(t.s, w, x)
    ensures MayGoOn(t.s, w, x) && WiredOk(t.s, w)
  {
    assert WiredOk(t.s, w) && DrainOk(t, w);
  }

  /** A drain that can ask for an event gets it accepted, and touches no row but of what it
      asks for on the way. */
  lemma GetsAccepted(t: Trace, w: nat, x: nat) returns (u: Trace)
    requires Sound(t) && w in t.s.workers && CanAsk(t.s, w, x)
    ensures Reaches(t, u) && Beside(t, u, w) && Sound(u) && |u.accepted| > |t.accepted|
    ensures u.s.workers[w].pc == Accepting(x, 200) && LastAccepted(u, x, t.s.workers[w].tunnel)
    ensures forall y :: Bystander(t.s, w, y) ==> y in u.s.rows && u.s.rows[y] == t.s.rows[y]
  {
    AskerGoesOn(t, w, x);
    var steps := Asks(t.s, w, x);
    var v := DoOwn(t, steps, w);
    AnswerIsLogged(v, w, x);
    u := Next(v, Respond(w, 200));
    ReachesOn(t, v, u);
    BesideOn(t, v, u, w);
  }

  /** x was accepted by the time of a, and y is the last that is accepted in b. */
  lemma WrongWayRound(t: Trace, a: Trace, b: Trace, x: nat, y: nat, tunnel: nat)
    requires Reaches(t, b) && KeysOk(b) && LastAccepted(a, x, tunnel) && LastAccepted(b, y, tunnel)
    requires a.keys == b.keys && a.accepted <= b.accepted && |a.accepted| < |b.accepted| && y <= x
    ensures !OrderIsSafe(t)
  {
    var i := |a.accepted| - 1;
    assert b.accepted[i] == a.accepted[i];
    OutOfOrder(t, b, i, |b.accepted| - 1);
  }

  /** First case: two drains can both get an event accepted, and the older one comes last. */
  lemma BothAsk(t: Trace, v: nat, x: nat, w: nat, y: nat)
    requires Sound(t) && v in t.s.workers && w in t.s.workers && v != w
    requires t.s.workers[v].tunnel == t.s.workers[w].tunnel && CanAsk(t.s, v, x) && CanAsk(t.s, w, y) && y < x
    ensures !OrderIsSafe(t)
  {
    var a := GetsAccepted(t, v, x);
    StillAsks(t, a, v, w, y);
    var b := GetsAccepted(a, w, y);
    ReachesOn(t, a, b);
    WrongWayRound(t, a, b, x, y, t.s.workers[v].tunnel);
  }

  lemma StillAsks(t: Trace, u: Trace, v: nat, w: nat, y: nat)
    requires Beside(t, u, v) && w in t.s.workers && w != v && CanAsk(t.s, w, y)
    ensures w in u.s.workers && u.s.workers[w] == t.s.workers[w] && CanAsk(u.s, w, y)
  {
    assert u.s.workers[w] == t.s.workers[w];
  }

  // ----- Bringing the drains of a tunnel to their end -----

  /** The event is queued, or the drain is on its way to put it back. */
  predicate Recovers(s: State, z: nat, y: nat)
    requires z in s.workers
  {
    && y in s.rows && !HasHeard(s, z, y)
    && (s.rows[y].state == Queued || (WorksOn(s.workers[z].pc, y) && !s.workers[z].pc.Starting?))
  }

  /** The drain's next step on its way to its end, losing every stream. */
  function Homeward(z: nat, wk: Worker): Step {
    match wk.pc
    case Starting(_) => Mark(z)
    case Opening(_) => Lose(z)
    case Exchanging(_) => Lose(z)
    case Requeueing(_) => Requeue(z)
    case Accepting(_, _) => Accept(z, 0)
    case Counting(_, _) => Count(z)
    case Settling(_, _, _) => Settle(z)
    case _ => if wk.todo == [] then Stop(z) else Take(z)
  }

  function Distance(p: Pc): nat {
    match p
    case Finished => 0
    case Starting(_) => 4
    case Opening(_) => 3
    case Exchanging(_) => 3
    case Requeueing(_) => 2
    case Accepting(_, _) => 6
    case Counting(_, _) => 6
    case Settling(_, _, _) => 5
    case _ => 5
  }

  lemma StepsHome(s: State, z: nat, y: nat)
    requires z in s.workers && WiredOk(s, z) && !s.workers[z].byHand && !s.workers[z].pc.Finished? && Recovers(s, z, y)
    ensures var a := Homeward(z, s.workers[z]);
      && Enabled(s, a) && Own(a, z) && Recovers(Do(s, a), z, y)
      && var wk, wk' := s.workers[z], Do(s, a).workers[z];
         |wk'.todo| < |wk.todo| || (|wk'.todo| == |wk.todo| && Distance(wk'.pc) < Distance(wk.pc))
  {
  }

  lemma WindsUp(s: State, z: nat, y: nat) returns (steps: seq<Step>)
    requires z in s.workers && WiredOk(s, z) && !s.workers[z].byHand && Recovers(s, z, y)
    ensures Possible(s, steps) && OwnSteps(steps, z)
    ensures var t := Run(s, steps);
      z in t.workers && t.workers[z].pc.Finished? && y in t.rows && t.rows[y].state == Queued
    decreases |s.workers[z].todo|, Distance(s.workers[z].pc)
  {
    if s.workers[z].pc.Finished? {
      steps := [];
    } else {
      var a := Homeward(z, s.workers[z]);
      StepsHome(s, z, y);
      OwnKeepsWiring(s, a);
      var rest := WindsUp(Do(s, a), z, y);
      OwnFront(s, a, rest, z);
      steps := [a] + rest;
    }
  }

  /** What winding up some drains leaves as it was. */
  ghost predicate WoundUp(t: Trace, u: Trace, zs: set<nat>, y: nat) {
    && y in u.s.rows && u.s.rows[y].state == Queued && u.keys == t.keys && t.accepted <= u.accepted
    && u.s.workers.Keys == t.s.workers.Keys
    && forall w :: w in t.s.workers ==>
         && u.s.workers[w].tunnel == t.s.workers[w].tunnel
         && if w in zs then u.s.workers[w].pc.Finished? else u.s.workers[w] == t.s.workers[w]
  }

  lemma OneWoundUp(t: Trace, v: Trace, u: Trace, z: nat, zs: set<nat>, y: nat)
    requires Beside(t, v, z) && v.s.workers[z].pc.Finished? && WoundUp(v, u, zs - {z}, y) && z in zs
    ensures WoundUp(t, u, zs, y)
  {
    forall w | w in t.s.workers
      ensures w in u.s.workers && u.s.workers[w].tunnel == t.s.workers[w].tunnel
      ensures if w in zs then u.s.workers[w].pc.Finished? else u.s.workers[w] == t.s.workers[w]
    {
      assert w in v.s.workers;
      if w != z { assert v.s.workers[w] == t.s.workers[w]; }
    }
  }

  lemma OneWindsUp(t: Trace, z: nat, y: nat) returns (v: Trace)
    requires Sound(t) && y in t.s.rows && t.s.rows[y].state == Queued && z in t.s.workers && !HasHeard(t.s, z, y)
    ensures Reaches(t, v) && Beside(t, v, z) && Sound(v) && v.s.workers[z].pc.Finished?
    ensures y in v.s.rows && v.s.rows[y].state == Queued
  {
    assert WiredOk(t.s, z) && DrainOk(t, z);
    var steps := WindsUp(t.s, z, y);
    v := DoOwn(t, steps, z);
  }

  /** All of some drains can be brought to their end with the event still queued. */
  lemma {:induction false} AllWindUp(t: Trace, zs: set<nat>, y: nat) returns (u: Trace)
    requires Sound(t) && y in t.s.rows && t.s.rows[y].state == Queued
    requires forall z :: z in zs ==> z in t.s.workers && !HasHeard(t.s, z, y)
    ensures Reaches(t, u) && Sound(u) && WoundUp(t, u, zs, y)
    decreases |zs|
  {
    if zs == {} {
      u := t;
      ReachesItself(t);
    } else {
      var z :| z in zs;
      var v := OneWindsUp(t, z, y);
      forall x | x in zs - {z} ensures x in v.s.workers && !HasHeard(v.s, x, y) { assert v.s.workers[x] == t.s.workers[x]; }
      u := AllWindUp(v, zs - {z}, y);
      ReachesOn(t, v, u);
      OneWoundUp(t, v, u, z, zs, y);
    }
  }

  // ----- The next reconnect -----

  /** With the drains of its tunnel at their end, a new one fits in, and gets the event accepted. */
  lemma NextDrain(t: Trace, y: nat, tunnel: nat) returns (u: Trace)
    requires Sound(t) && tunnel != 0 && y in t.s.rows && t.s.rows[y].state == Queued && t.s.rows[y].tunnel == tunnel
    requires forall w :: w in t.s.workers && t.s.workers[w].tunnel == tunnel ==> t.s.workers[w].pc.Finished?
    ensures Reaches(t, u) && Sound(u) && u.keys == t.keys && t.accepted <= u.accepted && |t.accepted| < |u.accepted|
    ensures LastAccepted(u, y, tunnel)
  {
    var k := NewNumber(t.s);
    var connect, start := Connect(k, tunnel, true), StartDrain(k, tunnel);
    var c := Next(t, connect);
    StepKeepsKeys(t, connect);
    StepKeepsDrains(t, connect);
    ReachesNext(t, connect);
    var d := Next(c, start);
    LoneDrainFitsIn(d.s, k);
    StepKeepsKeys(c, start);
    StepKeepsDrains(c, start);
    ReachesNext(c, start);
    ReachesOn(t, c, d);
    QueueOrdered(c.s.rows, tunnel);
    assert y in QueuedIds(c.s.rows, tunnel);
    u := GetsAccepted(d, k, y);
    ReachesOn(t, d, u);
  }

  lemma Redelivers(t: Trace, y: nat, tunnel: nat) returns (u: Trace)
    requires Sound(t) && tunnel != 0 && y in t.s.rows && t.s.rows[y].state == Queued && t.s.rows[y].tunnel == tunnel
    requires forall w :: w in t.s.workers && t.s.workers[w].tunnel == tunnel ==> !HasHeard(t.s, w, y)
    ensures Reaches(t, u) && Sound(u) && u.keys == t.keys && t.accepted <= u.accepted && |t.accepted| < |u.accepted|
    ensures LastAccepted(u, y, tunnel)
  {
    var zs := set w | w in t.s.workers && t.s.workers[w].tunnel == tunnel;
    var v := AllWindUp(t, zs, y);
    TunnelOfRow(t, y);
    TunnelOfRow(v, y);
    u := NextDrain(v, y, tunnel);
    ReachesOn(t, v, u);
  }

  lemma TunnelOfRow(t: Trace, y: nat)
    requires KeysOk(t) && y in t.s.rows
    ensures y in t.keys && t.keys[y].tunnel == t.s.rows[y].tunnel
  {
    assert Q.KeyOf(t.s.rows[y]) == t.keys[y];
  }

  /** Beside what another has heard, nobody who can put it back is disturbed. */
  lemma StillReturns(t: Trace, b: Trace, v: nat, u: nat, y: nat)
    requires Base(t) && Beside(t, b, v) && u in t.s.workers && u != v && y in t.s.rows && CanReturn(t.s, u, y)
    requires Bystander(t.s, v, y) ==> y in b.s.rows && b.s.rows[y] == t.s.rows[y]
    ensures u in b.s.workers && b.s.workers[u] == t.s.workers[u] && y in b.s.rows && CanReturn(b.s, u, y)
  {
    assert b.s.workers[u] == t.s.workers[u];
    assert y in b.s.rows.Keys;
    if HasHeard(t.s, u, y) {
      assert !CanReturn(t.s, v, y);
      if CanAsk(t.s, v, y) { AskersReturn(t.s, v, y); }
      assert !HasHeard(t.s, v, y);
    }
  }

  lemma AcceptIsWritten(a: Trace, v: nat, x: nat) returns (b: Trace)
    requires Sound(a) && v in a.s.workers && a.s.workers[v].pc == Accepting(x, 200)
    ensures Reaches(a, b) && Beside(a, b, v) && Sound(b) && b.s.workers[v].pc.Between?
    ensures forall y :: y in a.s.rows && y != x ==> y in b.s.rows && b.s.rows[y] == a.s.rows[y]
  {
    b := Next(a, Accept(v, 0));
    OwnStepReaches(a, Accept(v, 0), v);
  }

  lemma PutsBackBeside(b: Trace, u: nat, y: nat) returns (c: Trace)
    requires Sound(b) && u in b.s.workers && y in b.s.rows && CanReturn(b.s, u, y)
    ensures Reaches(b, c) && Beside(b, c, u) && Sound(c)
    ensures y in c.s.rows && c.s.rows[y].state == Queued && c.s.workers[u].pc.Finished?
  {
    assert WiredOk(b.s, u) && DrainOk(b, u);
    var steps := PutsBack(b.s, u, y);
    c := DoOwn(b, steps, u);
  }

  /** After v has had its event accepted and u has put back an older one, nobody stands in
      the way of that. */
  lemma NobodyHasHeard(t: Trace, b: Trace, c: Trace, v: nat, u: nat, y: nat, tunnel: nat)
    requires Base(t) && Beside(t, b, v) && Beside(b, c, u) && v != u && u in t.s.workers
    requires y in t.s.rows && CanReturn(t.s, u, y)
    requires b.s.workers[v].pc.Between? && c.s.workers[u].pc.Finished?
    ensures forall w :: w in c.s.workers && c.s.workers[w].tunnel == tunnel ==> !HasHeard(c.s, w, y)
  {
    forall w | w in c.s.workers ensures !HasHeard(c.s, w, y) {
      if w != u && w != v {
        assert w in b.s.workers && c.s.workers[w] == b.s.workers[w];
        assert w in t.s.workers && b.s.workers[w] == t.s.workers[w];
        assert !HasHeard(t.s, w, y);
      } else if w == v {
        assert c.s.workers[v] == b.s.workers[v];
      }
    }
  }

  /** v gets its event accepted and says so, and leaves what u can put back alone. */
  lemma AcceptsBeside(t: Trace, v: nat, x: nat, u: nat, y: nat) returns (a: Trace, b: Trace)
    requires Base(t) && v in t.s.workers && u in t.s.workers && v != u
    requires CanAsk(t.s, v, x) && y in t.s.rows && CanReturn(t.s, u, y)
    ensures Reaches(t, b) && Beside(t, b, v) && Sound(b) && b.s.workers[v].pc.Between?
    ensures LastAccepted(a, x, t.s.workers[v].tunnel) && a.keys == t.keys && a.accepted <= b.accepted
    ensures u in b.s.workers && y in b.s.rows && CanReturn(b.s, u, y)
  {
    a := GetsAccepted(t, v, x);
    b := AcceptIsWritten(a, v, x);
    BesideOn(t, a, b, v);
    ReachesOn(t, a, b);
    StillReturns(t, b, v, u, y);
  }

  /** An older event is queued again, and nobody stands in its way. */
  lemma QueuedAgain(t: Trace, v: nat, x: nat, u: nat, y: nat) returns (a: Trace, c: Trace)
    requires Base(t) && v in t.s.workers && u in t.s.workers && v != u
    requires CanAsk(t.s, v, x) && y in t.s.rows && CanReturn(t.s, u, y)
    ensures Reaches(t, c) && Sound(c) && y in c.s.rows && c.s.rows[y].state == Queued && c.keys == t.keys
    ensures LastAccepted(a, x, t.s.workers[v].tunnel) && a.keys == t.keys && a.accepted <= c.accepted
    ensures forall w :: w in c.s.workers && c.s.workers[w].tunnel == t.s.workers[v].tunnel ==> !HasHeard(c.s, w, y)
  {
    var b;
    a, b := AcceptsBeside(t, v, x, u, y);
    c := PutsBackBeside(b, u, y);
    ReachesOn(t, b, c);
    NobodyHasHeard(t, b, c, v, u, y, t.s.workers[v].tunnel);
  }

  lemma HeldTunnel(t: Trace, u: nat, y: nat)
    requires Sound(t) && u in t.s.workers && y in t.s.rows && CanReturn(t.s, u, y)
    ensures y in t.keys && t.keys[y].tunnel == t.s.workers[u].tunnel != 0
  {
    ReturnersHold(t.s, u, y);
    assert DrainOk(t, u) && ListOk(t, u, y);
  }

  /** Second case: one drain can get an event accepted, and another can put back one that is
      not younger, which the next reconnect delivers too late. */
  lemma PutBackAfter(t: Trace, v: nat, x: nat, u: nat, y: nat)
    requires Base(t) && v in t.s.workers && u in t.s.workers && v != u && t.s.workers[v].tunnel == t.s.workers[u].tunnel
    requires CanAsk(t.s, v, x) && y in t.s.rows && y <= x && CanReturn(t.s, u, y)
    ensures !OrderIsSafe(t)
  {
    var tunnel := t.s.workers[v].tunnel;
    HeldTunnel(t, u, y);
    var a, c := QueuedAgain(t, v, x, u, y);
    TunnelOfRow(c, y);
    var d := Redelivers(c, y, tunnel);
    ReachesOn(t, c, d);
    WrongWayRound(t, a, d, x, y, tunnel);
  }

  // ----- Exactly when a drain may start -----

  /** A drain that can ask for an event that another can ask for too never has the same one. */
  lemma AskersDiffer(t: Trace, k: nat, x: nat, w: nat, y: nat)
    requires Base(t) && k in t.s.workers && w in t.s.workers && k != w && t.s.workers[k].tunnel == t.s.workers[w].tunnel
    requires t.s.workers[k].pc.Between? && CanAsk(t.s, k, x) && CanAsk(t.s, w, y)
    requires x in t.s.rows && t.s.rows[x].state == Queued
    ensures x != y
  {
    assert WiredOk(t.s, k) && WiredOk(t.s, w) && DrainOk(t, k) && DrainOk(t, w);
    assert t.s.workers[w].via !in t.s.open;
    assert InHand(t.s, w, y);
  }

  lemma ClashBreaksOrder(t: Trace, k: nat, v: nat, w: nat)
    requires Base(t) && v in t.s.workers && w in t.s.workers && v != w && t.s.workers[v].tunnel == t.s.workers[w].tunnel
    requires Clash(t.s, v, w) && (k == v || k == w) && t.s.workers[k].pc.Between?
    requires forall x: nat :: CanAsk(t.s, k, x) ==> x in t.s.rows && t.s.rows[x].state == Queued
    ensures !OrderIsSafe(t)
  {
    var x: nat, y: nat :| CanAsk(t.s, v, x) && (CanAsk(t.s, w, y) || (y in t.s.rows && y <= x && CanReturn(t.s, w, y)));
    if CanAsk(t.s, w, y) {
      if k == v { AskersDiffer(t, k, x, w, y); } else { AskersDiffer(t, k, y, v, x); }
      if y < x { BothAsk(t, v, x, w, y); } else { BothAsk(t, w, y, v, x); }
    } else {
      PutBackAfter(t, v, x, w, y);
    }
  }

  lemma NewAsksQueued(s: State, step: Step)
    requires Enabled(s, step) && step.StartDrain?
    ensures forall x: nat :: CanAsk(Do(s, step), step.w, x) ==> x in s.rows && s.rows[x].state == Queued
  {
    forall x: nat | CanAsk(Do(s, step), step.w, x) ensures x in s.rows && s.rows[x].state == Queued {
      NewListIsQueued(s, step, x);
    }
  }

  lemma MisfitBreaksOrder(t: Trace, start: Step)
    requires Ok(t) && Enabled(t.s, start) && start.StartDrain? && !FitsIn(Do(t.s, start), start.w)
    ensures !OrderIsSafe(Next(t, start))
  {
    var k, t' := start.w, Next(t, start);
    StepKeepsBase(t, start);
    NewAsksQueued(t.s, start);
    var w :| w in t'.s.workers && w != k && t'.s.workers[w].tunnel == t'.s.workers[k].tunnel && (Clash(t'.s, k, w) || Clash(t'.s, w, k));
    if Clash(t'.s, k, w) { ClashBreaksOrder(t', k, k, w); } else { ClashBreaksOrder(t', k, w, k); }
  }

  /** In every state that orderly steps lead to, for every drain that starts there, beside
      any number of others: order is safe from then on exactly if the drain fits in. */
  lemma StartKeepsOrderIff(t: Trace, start: Step)
    requires Ok(t) && Enabled(t.s, start) && start.StartDrain?
    ensures OrderIsSafe(Next(t, start)) <==> FitsIn(Do(t.s, start), start.w)
  {
    if FitsIn(Do(t.s, start), start.w) {
      StepKeepsOk(t, start);
      forall steps | AllOrderly(Next(t, start), steps) ensures Q.StrictlyOrdered(After(Next(t, start), steps).accepted) {
        RunKeepsOk(Next(t, start), steps);
        OkIsOrdered(After(Next(t, start), steps));
      }
    } else {
      MisfitBreaksOrder(t, start);
    }
  }

  lemma OrderlyRunsAreOk(steps: seq<Step>)
    requires AllOrderly(START, steps)
    ensures Ok(After(START, steps))
  {
    RunKeepsOk(START, steps);
  }

  /** The ordinary reconnect: the old drain waits for an answer while the new one, on the
      open session, reads a list with something in it. Order is not safe then. */
  lemma BusyReconnectBreaksOrder(t: Trace, k: nat, w: nat)
    requires Ok(t) && k in t.s.sessions && k in t.s.open && t.s.sessions[k].known && k !in t.s.workers
    requires w in t.s.workers && t.s.workers[w].pc.Exchanging? && t.s.workers[w].tunnel == t.s.sessions[k].tunnel != 0
    requires Queue(t.s.rows, t.s.sessions[k].tunnel) != []
    ensures !OrderIsSafe(Next(t, StartDrain(k, t.s.sessions[k].tunnel)))
  {
    var start := StartDrain(k, t.s.sessions[k].tunnel);
    var s' := Do(t.s, start);
    assert CanAsk(s', k, s'.workers[k].todo[0]) && CanAsk(s', w, t.s.workers[w].pc.id);
    assert Clash(s', k, w);
    StartKeepsOrderIff(t, start);
  }

  // ----- A run to such a reconnect -----

  lemma OneOn(t: Trace, a: Step, u: Trace)
    requires Reaches(START, t) && Orderly(t, a) && u == Next(t, a)
    ensures Reaches(START, u)
  {
    ReachesNext(t, a);
    ReachesOn(START, t, u);
  }

  /** One event, one session, and its drain where the argument says. */
  ghost predicate OneDrain(t: Trace, wk: Worker) {
    && t.s.rows.Keys == {1} && t.s.workers == map[1 := wk] && t.s.nextId == 2 && t.lastAt == 0
    && t.s.sessions == map[1 := Session(7, true)] && t.s.current == map[7 := 1] && t.s.open == {1}
  }

  lemma FirstConnects(request: Request) returns (t: Trace)
    ensures Reaches(START, t) && OneQueued(t.s, 0) && t.s.workers == map[] && t.s.nextId == 2 && t.lastAt == 0
    ensures t.s.sessions == map[1 := Session(7, true)] && t.s.current == map[7 := 1] && t.s.open == {1}
  {
    var a := Next(START, Enqueue(7, request, 0));
    ReachesNext(START, Enqueue(7, request, 0));
    t := Next(a, Connect(1, 7, true));
    OneOn(a, Connect(1, 7, true), t);
  }

  lemma FirstLists(request: Request) returns (t: Trace)
    ensures Reaches(START, t) && OneDrain(t, Worker([1], Between, false, 7, 1))
  {
    var a := FirstConnects(request);
    t := Next(a, StartDrain(1, 7));
    QueueOfOne(a.s, 0);
    LoneDrainFitsIn(t.s, 1);
    OneOn(a, StartDrain(1, 7), t);
  }

  lemma FirstMoves(t: Trace, a: Step, wk: Worker) returns (u: Trace)
    requires Reaches(START, t) && OneDrain(t, wk) && Enabled(t.s, a) && Own(a, 1) && (a.Take? || a.Mark? || a.Open?)
    ensures Reaches(START, u) && OneDrain(u, WorkerAfter(t.s, a))
  {
    u := Next(t, a);
    OneOn(t, a, u);
  }

  lemma FirstWaits(request: Request) returns (t: Trace)
    ensures Reaches(START, t) && OneDrain(t, Worker([], Exchanging(1), false, 7, 1))
  {
    var one: seq<nat> := [1];
    assert one[1..] == [];
    t := FirstLists(request);
    t := FirstMoves(t, Take(1), Worker([1], Between, false, 7, 1));
    t := FirstMoves(t, Mark(1), Worker([], Starting(1), false, 7, 1));
    t := FirstMoves(t, Open(1), Worker([], Opening(1), false, 7, 1));
  }

  lemma SecondConnects(a: Trace, request: Request) returns (t: Trace)
    requires Reaches(START, a) && OneDrain(a, Worker([], Exchanging(1), false, 7, 1))
    ensures Reaches(START, t) && t.s.workers == a.s.workers
    ensures 2 in t.s.rows && t.s.rows[2] == Fresh(2, 7, request, 0)
    ensures 2 in t.s.sessions && t.s.sessions[2] == Session(7, true) && 2 in t.s.open
  {
    var b := Next(a, Enqueue(7, request, 0));
    OneOn(a, Enqueue(7, request, 0), b);
    t := Next(b, Connect(2, 7, true));
    OneOn(b, Connect(2, 7, true), t);
  }

  lemma ReachableIsOk(t: Trace)
    requires Reaches(START, t)
    ensures Ok(t)
  {
    var steps :| AllOrderly(START, steps) && After(START, steps) == t;
    OrderlyRunsAreOk(steps);
  }

  /** The app is slow, one more event comes in, and the agent reconnects: the ordinary way to
      lose the order. */
  lemma BusyReconnectIsReachable(request: Request) returns (t: Trace)
    ensures Reaches(START, t) && Enabled(t.s, StartDrain(2, 7)) && !OrderIsSafe(Next(t, StartDrain(2, 7)))
  {
    var a := FirstWaits(request);
    t := SecondConnects(a, request);
    ReachableIsOk(t);
    QueueOrdered(t.s.rows, 7);
    assert 2 in QueuedIds(t.s.rows, 7);
    BusyReconnectBreaksOrder(t, 2, 1);
  }
}
