/** The life of agent connections: registration, heartbeats, replacement, and
    disconnect handlers that may run late (internal/edge/tunnelserver.go), over the
    registry and the presence keys. Times are in milliseconds. */
module Connections {
  import opened Sessions
  import P = Presence

  const PRESENCE_TTL: int := P.PRESENCE_TTL

  const BEAT: int := PRESENCE_TTL / 3

  /** Where a connection's handler stands. */
  datatype Phase =
    | Dialing                 // handshake done, not registered yet
    | Registered              // in the registry, first heartbeat still to come
    | Serving(nextBeat: int)  // in the heartbeat loop
    | Unregistered            // closed, Remove done, Clear still to come
    | Gone

  /** rank numbers the connections in the order of their Put. */
  datatype Conn = Conn(sub: string, open: bool, phase: Phase, rank: nat)

  datatype Cleared = Cleared(at: int, clearer: nat)

  /** current and expiry are the registry and the presence keys. The rest is history:
      when each subdomain last had a heartbeat and a Clear, and which connections'
      Clear took a served subdomain offline. */
  datatype State = State(
    now: int, conns: map<nat, Conn>, puts: nat, current: map<string, nat>, expiry: map<string, int>,
    lastBeat: map<string, int>, lastClear: map<string, Cleared>, outages: set<nat>)

  const INIT := State(0, map[], 0, map[], map[], map[], map[], {})

  datatype Step =
    | Connect(id: nat, sub: string)
    | Put(id: nat)
    | FirstBeat(id: nat)
    | Beat(id: nat)
    | Close(id: nat)
    | Remove(id: nat)
    | Clear(id: nat)
    | Tick(dt: int)

  function Online(s: State, sub: string): bool {
    P.Shows(s.expiry, sub, s.now)
  }

  predicate Served(s: State, id: nat) {
    id in s.conns && s.conns[id].open && s.conns[id].phase.Serving?
  }

  /** Heartbeats of open connections are on time: the clock waits for them. */
  predicate MayTick(s: State, dt: int) {
    0 < dt && forall id :: id in s.conns && s.conns[id].open ==>
      !s.conns[id].phase.Registered? && (s.conns[id].phase.Serving? ==> s.now + dt <= s.conns[id].phase.nextBeat)
  }

  predicate Enabled(s: State, step: Step) {
    match step
    case Connect(id, _) => id !in s.conns
    case Put(id) => id in s.conns && s.conns[id].phase.Dialing?
    case FirstBeat(id) => id in s.conns && s.conns[id].phase.Registered?
    case Beat(id) => id in s.conns && s.conns[id].phase.Serving? && s.conns[id].phase.nextBeat <= s.now
    case Close(id) => id in s.conns && s.conns[id].open
    case Remove(id) => id in s.conns && s.conns[id].phase.Serving? && !s.conns[id].open
    case Clear(id) => id in s.conns && s.conns[id].phase.Unregistered?
    case Tick(dt) => MayTick(s, dt)
  }

  function Closed(s: State, sub: string, id: nat): map<nat, Conn>
    requires id in s.conns
  {
    map c | c in s.conns :: if Replaces(s.current, sub, id, c) then s.conns[c].(open := false) else s.conns[c]
  }

  function WithHeartbeat(s: State, sub: string): State {
    s.(expiry := P.Beaten(s.expiry, sub, s.now), lastBeat := s.lastBeat[sub := s.now])
  }

  ghost predicate SomeoneServes(s: State, sub: string) {
    exists id :: Served(s, id) && s.conns[id].sub == sub
  }

  ghost function Do(s: State, step: Step): State
    requires Enabled(s, step)
  {
    match step
    case Connect(id, sub) => s.(conns := s.conns[id := Conn(sub, true, Dialing, 0)])
    case Put(id) =>
      var sub := s.conns[id].sub;
      var me := s.conns[id].(phase := Registered, rank := s.puts + 1);
      s.(conns := Closed(s, sub, id)[id := me], puts := s.puts + 1, current := PutIn(s.current, sub, id))
    case FirstBeat(id) =>
      var c := s.conns[id];
      WithHeartbeat(s.(conns := s.conns[id := c.(phase := Serving(s.now + BEAT))]), c.sub)
    case Beat(id) =>
      var c := s.conns[id];
      WithHeartbeat(s.(conns := s.conns[id := c.(phase := Serving(c.phase.nextBeat + BEAT))]), c.sub)
    case Close(id) => s.(conns := s.conns[id := s.conns[id].(open := false)])
    case Remove(id) =>
      var c := s.conns[id];
      s.(conns := s.conns[id := c.(phase := Unregistered)], current := RemovedFrom(s.current, c.sub, id))
    case Clear(id) =>
      var c := s.conns[id];
      s.(conns := s.conns[id := c.(phase := Gone)], expiry := P.Cleared(s.expiry, c.sub),
         lastClear := s.lastClear[c.sub := Cleared(s.now, id)],
         outages := if Online(s, c.sub) && SomeoneServes(s, c.sub) then s.outages + {id} else s.outages)
    case Tick(dt) => s.(now := s.now + dt)
  }

  ghost predicate Possible(s: State, steps: seq<Step>)
    decreases |steps|
  {
    steps == [] || (Enabled(s, steps[0]) && Possible(Do(s, steps[0]), steps[1..]))
  }

  ghost function Run(s: State, steps: seq<Step>): State
    requires Possible(s, steps)
    decreases |steps|
  {
    if steps == [] then s else Run(Do(s, steps[0]), steps[1..])
  }

  // ----- The registry over every interleaving -----

  predicate WasPut(c: Conn) { !c.phase.Dialing? }

  /** An open connection that has been put. */
  predicate Live(s: State, id: nat) {
    id in s.conns && s.conns[id].open && WasPut(s.conns[id])
  }

  predicate IsCurrent(s: State, id: nat)
    requires id in s.conns
  {
    s.conns[id].sub in s.current && s.current[s.conns[id].sub] == id
  }

  predicate InLoop(c: Conn) { c.phase.Registered? || c.phase.Serving? }

  ghost predicate CurrentOk(s: State, sub: string, id: nat) {
    id in s.conns && s.conns[id].sub == sub && InLoop(s.conns[id])
  }

  ghost predicate RegistryOk(s: State) {
    && (forall id :: Live(s, id) ==> IsCurrent(s, id) && InLoop(s.conns[id]))
    && (forall sub :: sub in s.current ==> CurrentOk(s, sub, s.current[sub]))
  }

  lemma StepKeepsLiveCurrent(s: State, step: Step, id: nat)
    requires RegistryOk(s) && Enabled(s, step) && Live(Do(s, step), id)
    ensures IsCurrent(Do(s, step), id) && InLoop(Do(s, step).conns[id])
  {
    assert id in s.conns;
    if Live(s, id) { assert IsCurrent(s, id); }
  }

  lemma StepKeepsCurrentOk(s: State, step: Step, sub: string)
    requires RegistryOk(s) && Enabled(s, step) && sub in Do(s, step).current
    ensures CurrentOk(Do(s, step), sub, Do(s, step).current[sub])
  {
    if sub in s.current { assert CurrentOk(s, sub, s.current[sub]); }
  }

  lemma StepKeepsRegistry(s: State, step: Step)
    requires RegistryOk(s) && Enabled(s, step)
    ensures RegistryOk(Do(s, step))
  {
    var s' := Do(s, step);
    forall id | Live(s', id) ensures IsCurrent(s', id) && InLoop(s'.conns[id]) { StepKeepsLiveCurrent(s, step, id); }
    forall sub | sub in s'.current ensures CurrentOk(s', sub, s'.current[sub]) { StepKeepsCurrentOk(s, step, sub); }
  }

  lemma {:induction false} RunKeepsRegistry(s: State, steps: seq<Step>)
    requires RegistryOk(s) && Possible(s, steps)
    ensures RegistryOk(Run(s, steps))
    decreases |steps|
  {
    if steps != [] {
      StepKeepsRegistry(s, steps[0]);
      RunKeepsRegistry(Do(s, steps[0]), steps[1..]);
    }
  }

  /** However connects, replacements, closes and late handlers interleave: an open session
      that was ever put is the current one, so a subdomain has at most one of them. */
  lemma OneOpenSession(steps: seq<Step>)
    requires Possible(INIT, steps)
    ensures var s := Run(INIT, steps);
      && (forall id :: Live(s, id) ==> IsCurrent(s, id))
      && (forall a, b :: Live(s, a) && Live(s, b) && s.conns[a].sub == s.conns[b].sub ==> a == b)
  {
    RunKeepsRegistry(INIT, steps);
  }

  /** A disconnect handler never takes an open session out of the registry. */
  lemma StaleRemoveIsHarmless(steps: seq<Step>, id: nat, other: nat)
    requires Possible(INIT, steps) && Enabled(Run(INIT, steps), Remove(id)) && Live(Run(INIT, steps), other)
    ensures var s := Do(Run(INIT, steps), Remove(id));
      Live(s, other) && IsCurrent(s, other)
  {
    RunKeepsRegistry(INIT, steps);
    StepKeepsRegistry(Run(INIT, steps), Remove(id));
  }

  // ----- Presence over every interleaving -----

  ghost predicate RankBounded(s: State, id: nat)
    requires id in s.conns
  {
    WasPut(s.conns[id]) ==> 1 <= s.conns[id].rank <= s.puts
  }

  /** Nothing was put on id's subdomain after the current connection. */
  ghost predicate CurrentIsNewest(s: State, id: nat)
    requires id in s.conns
  {
    var sub := s.conns[id].sub;
    WasPut(s.conns[id]) && sub in s.current && s.current[sub] != id && s.current[sub] in s.conns ==>
      s.conns[id].rank < s.conns[s.current[sub]].rank
  }

  ghost predicate RanksOk(s: State) {
    forall id :: id in s.conns ==> RankBounded(s, id) && CurrentIsNewest(s, id)
  }

  /** The connection was put before id was, on the same subdomain, and its handler has finished. */
  ghost predicate EarlierAndGone(s: State, c: nat, id: nat) {
    && c in s.conns && id in s.conns && s.conns[c].sub == s.conns[id].sub
    && s.conns[c].phase.Gone? && !s.conns[c].open && s.conns[c].rank < s.conns[id].rank
  }

  function LastBeatOf(c: Conn): int
    requires c.phase.Serving?
  {
    c.phase.nextBeat - BEAT
  }

  /** A served subdomain has its key from the last heartbeat on, unless an earlier
      connection's Clear has deleted it since. */
  ghost predicate Covered(s: State, id: nat)
    requires Served(s, id)
  {
    var sub, last := s.conns[id].sub, LastBeatOf(s.conns[id]);
    && last <= s.now <= last + BEAT
    && if sub in s.expiry then s.expiry[sub] >= last + PRESENCE_TTL
       else sub in s.lastClear && last <= s.lastClear[sub].at <= s.now && EarlierAndGone(s, s.lastClear[sub].clearer, id)
  }

  /** A Clear has deleted the subdomain's key since its last heartbeat. */
  predicate ClearedSinceBeat(s: State, sub: string)
    requires sub in s.lastBeat
  {
    sub in s.lastClear && s.lastBeat[sub] <= s.lastClear[sub].at <= s.now
  }

  ghost predicate KeysOk(s: State) {
    && (forall sub :: sub in s.expiry ==>
          sub in s.lastBeat && s.expiry[sub] == s.lastBeat[sub] + PRESENCE_TTL && s.lastBeat[sub] <= s.now)
    && (forall sub :: sub in s.lastBeat && sub !in s.expiry ==> ClearedSinceBeat(s, sub))
  }

  ghost predicate OutagesOk(s: State) {
    forall c :: c in s.outages ==> c in s.conns && s.conns[c].phase.Gone? && !s.conns[c].open
  }

  ghost predicate Inv(s: State) {
    && RegistryOk(s) && RanksOk(s) && KeysOk(s) && OutagesOk(s)
    && (forall id :: Served(s, id) ==> Covered(s, id))
  }

  lemma StepKeepsRank(s: State, step: Step, id: nat)
    requires RegistryOk(s) && RanksOk(s) && Enabled(s, step) && id in Do(s, step).conns
    ensures RankBounded(Do(s, step), id) && CurrentIsNewest(Do(s, step), id)
  {
    assert id in s.conns ==> RankBounded(s, id) && CurrentIsNewest(s, id);
    var sub := Do(s, step).conns[id].sub;
    assert sub in s.current ==> CurrentOk(s, sub, s.current[sub]);
  }

  lemma StepKeepsRanks(s: State, step: Step)
    requires RegistryOk(s) && RanksOk(s) && Enabled(s, step)
    ensures RanksOk(Do(s, step))
  {
    forall id | id in Do(s, step).conns ensures RankBounded(Do(s, step), id) && CurrentIsNewest(Do(s, step), id) {
      StepKeepsRank(s, step, id);
    }
  }

  lemma StepKeepsKeys(s: State, step: Step)
    requires KeysOk(s) && Enabled(s, step)
    ensures KeysOk(Do(s, step))
  {
  }

  lemma StepKeepsOutages(s: State, step: Step)
    requires RegistryOk(s) && OutagesOk(s) && Enabled(s, step)
    ensures OutagesOk(Do(s, step))
  {
  }

  lemma TickKeepsCovered(s: State, dt: int, id: nat)
    requires Enabled(s, Tick(dt)) && Served(s, id) && Covered(s, id)
    ensures Covered(Do(s, Tick(dt)), id)
  {
  }

  lemma BeatKeepsCovered(s: State, step: Step, id: nat)
    requires RegistryOk(s) && KeysOk(s) && Enabled(s, step) && (step.FirstBeat? || step.Beat?)
    requires Served(Do(s, step), id) && (Served(s, id) ==> Covered(s, id))
    ensures Covered(Do(s, step), id)
  {
  }

  /** A Clear comes from a handler whose session is closed, and so not from id's. */
  lemma ClearKeepsCovered(s: State, c: nat, id: nat)
    requires RegistryOk(s) && RanksOk(s) && Enabled(s, Clear(c)) && Served(s, id) && Covered(s, id)
    ensures Covered(Do(s, Clear(c)), id)
  {
    assert c != id && IsCurrent(s, id) && Live(s, id);
    if s.conns[c].sub == s.conns[id].sub {
      assert RankBounded(s, c) && CurrentIsNewest(s, c);
      assert !Live(s, c);
    }
  }

  lemma OthersKeepCovered(s: State, step: Step, id: nat)
    requires Enabled(s, step) && (step.Connect? || step.Put? || step.Close? || step.Remove?)
    requires Served(Do(s, step), id) && (Served(s, id) ==> Covered(s, id))
    ensures Covered(Do(s, step), id)
  {
    assert Served(s, id);
  }

  lemma StepKeepsCovered(s: State, step: Step, id: nat)
    requires Inv(s) && Enabled(s, step) && Served(Do(s, step), id)
    ensures Covered(Do(s, step), id)
  {
    assert Served(s, id) ==> Covered(s, id);
    match step {
      case Tick(dt) => TickKeepsCovered(s, dt, id);
      case Clear(c) => ClearKeepsCovered(s, c, id);
      case FirstBeat(_) => BeatKeepsCovered(s, step, id);
      case Beat(_) => BeatKeepsCovered(s, step, id);
      case _ => OthersKeepCovered(s, step, id);
    }
  }

  lemma StepKeepsInv(s: State, step: Step)
    requires Inv(s) && Enabled(s, step)
    ensures Inv(Do(s, step))
  {
    StepKeepsRegistry(s, step);
    StepKeepsRanks(s, step);
    StepKeepsKeys(s, step);
    StepKeepsOutages(s, step);
    forall id | Served(Do(s, step), id) ensures Covered(Do(s, step), id) { StepKeepsCovered(s, step, id); }
  }

  lemma {:induction false} RunKeepsInv(s: State, steps: seq<Step>)
    requires Inv(s) && Possible(s, steps)
    ensures Inv(Run(s, steps))
    decreases |steps|
  {
    if steps != [] {
      StepKeepsInv(s, steps[0]);
      RunKeepsInv(Do(s, steps[0]), steps[1..]);
    }
  }

  /** Whenever an open session's subdomain is offline, the reason is the Clear of an
      earlier connection of that subdomain, which came after the session's last heartbeat.
      That was at most five seconds ago, so the whole time offline since then
      is no longer, however many Clears fall into it. */
  lemma OfflineIsALateClear(steps: seq<Step>, id: nat)
    requires Possible(INIT, steps) && Served(Run(INIT, steps), id)
    requires !Online(Run(INIT, steps), Run(INIT, steps).conns[id].sub)
    ensures var s := Run(INIT, steps);
      var sub := s.conns[id].sub;
      && sub in s.lastClear && EarlierAndGone(s, s.lastClear[sub].clearer, id)
      && LastBeatOf(s.conns[id]) <= s.lastClear[sub].at
      && s.lastClear[sub].at <= s.now <= LastBeatOf(s.conns[id]) + 5_000
  {
    RunKeepsInv(INIT, steps);
    assert Covered(Run(INIT, steps), id);
  }

  /** A served subdomain goes offline only by a Clear, and each time another connection
      is put on record for it. */
  lemma OnlyClearsOpenOutages(steps: seq<Step>, step: Step, id: nat)
    requires Possible(INIT, steps) && Enabled(Run(INIT, steps), step)
    requires var s := Run(INIT, steps);
      Served(s, id) && Online(s, s.conns[id].sub)
    requires var s' := Do(Run(INIT, steps), step);
      Served(s', id) && !Online(s', s'.conns[id].sub)
    ensures var s := Run(INIT, steps);
      step.Clear? && step.id !in s.outages && Do(s, step).outages == s.outages + {step.id}
  {
    RunKeepsInv(INIT, steps);
    var s := Run(INIT, steps);
    StepKeepsInv(s, step);
    assert Covered(s, id) && Covered(Do(s, step), id);
  }

  /** The connections other than id that were ever put on its subdomain. */
  function EarlierConns(s: State, id: nat): set<nat>
    requires id in s.conns
  {
    set c | c in s.conns && c != id && s.conns[c].sub == s.conns[id].sub && WasPut(s.conns[c])
              && s.conns[c].rank < s.conns[id].rank
  }

  /** The connections whose Clear took id's subdomain offline while it was served. */
  function OutagesOf(s: State, id: nat): set<nat>
    requires id in s.conns
  {
    set c | c in s.outages && c in s.conns && s.conns[c].sub == s.conns[id].sub
  }

  lemma SubsetIsSmaller(small: set<nat>, large: set<nat>)
    requires small <= large
    ensures |small| <= |large|
  {
    assert large == small + (large - small);
  }

  /** Outages never outnumber the earlier connections of the subdomain. */
  lemma OutagesAreFew(steps: seq<Step>, id: nat)
    requires Possible(INIT, steps) && Served(Run(INIT, steps), id)
    ensures var s := Run(INIT, steps);
      OutagesOf(s, id) <= EarlierConns(s, id) && |OutagesOf(s, id)| <= |EarlierConns(s, id)|
  {
    RunKeepsInv(INIT, steps);
    var s := Run(INIT, steps);
    assert Live(s, id) && IsCurrent(s, id);
    forall c | c in OutagesOf(s, id) ensures c in EarlierConns(s, id) {
      assert RankBounded(s, c) && CurrentIsNewest(s, c);
    }
    SubsetIsSmaller(OutagesOf(s, id), EarlierConns(s, id));
  }

  /** Without a further heartbeat a subdomain is offline after fifteen seconds, and before that
      only by a Clear. */
  lemma SilentMeansOffline(steps: seq<Step>, sub: string)
    requires Possible(INIT, steps)
    ensures var s := Run(INIT, steps);
      && (Online(s, sub) ==> sub in s.lastBeat && s.now < s.lastBeat[sub] + 15_000)
      && (sub in s.lastBeat && s.now < s.lastBeat[sub] + 15_000 && !Online(s, sub) ==> ClearedSinceBeat(s, sub))
  {
    RunKeepsInv(INIT, steps);
  }

  /** Every heartbeat puts the end of its subdomain's key fifteen seconds off and the next
      heartbeat five seconds on, and touches no other key and no other connection. */
  lemma BeatRenews(s: State, step: Step)
    requires Enabled(s, step) && (step.FirstBeat? || step.Beat?)
    ensures var t, c := Do(s, step), s.conns[step.id];
      && t.expiry == s.expiry[c.sub := s.now + 15_000] && Online(t, c.sub) && t.now == s.now && t.current == s.current
      && t.conns == s.conns[step.id := Conn(c.sub, c.open, Serving((if step.Beat? then c.phase.nextBeat else s.now) + 5_000), c.rank)]
  {
  }

  /** The time that the steps let pass. */
  function Passed(steps: seq<Step>): int {
    if steps == [] then 0 else (if steps[0].Tick? then steps[0].dt else 0) + Passed(steps[1..])
  }

  lemma {:induction false} ClockShowsTimePassed(s: State, steps: seq<Step>)
    requires Possible(s, steps)
    ensures Run(s, steps).now == s.now + Passed(steps)
    decreases |steps|
  {
    if steps != [] { ClockShowsTimePassed(Do(s, steps[0]), steps[1..]); }
  }

  // ----- When handlers keep up -----

  /** Every other connection that was put on id's subdomain has finished its handler. */
  ghost predicate Alone(s: State, id: nat)
    requires id in s.conns
  {
    forall c :: c in s.conns && c != id && s.conns[c].sub == s.conns[id].sub && WasPut(s.conns[c]) ==> s.conns[c].phase.Gone?
  }

  /** No connection is put while a handler of its subdomain is still to finish. */
  ghost predicate Prompt(s: State, steps: seq<Step>)
    requires Possible(s, steps)
    decreases |steps|
  {
    steps == [] || ((steps[0].Put? ==> Alone(s, steps[0].id)) && Prompt(Do(s, steps[0]), steps[1..]))
  }

  ghost predicate KeptUp(s: State, id: nat)
    requires Live(s, id)
  {
    Alone(s, id) && (Served(s, id) ==> s.conns[id].sub in s.expiry)
  }

  lemma StepKeepsUp(s: State, step: Step, id: nat)
    requires RegistryOk(s) && Enabled(s, step) && (step.Put? ==> Alone(s, step.id))
    requires forall c :: Live(s, c) ==> KeptUp(s, c)
    requires Live(Do(s, step), id)
    ensures KeptUp(Do(s, step), id)
  {
    assert Live(s, id) ==> KeptUp(s, id);
  }

  lemma {:induction false} RunKeepsUp(s: State, steps: seq<Step>)
    requires RegistryOk(s) && Possible(s, steps) && Prompt(s, steps) && forall c :: Live(s, c) ==> KeptUp(s, c)
    ensures forall c :: Live(Run(s, steps), c) ==> KeptUp(Run(s, steps), c)
    decreases |steps|
  {
    if steps != [] {
      forall id | Live(Do(s, steps[0]), id) ensures KeptUp(Do(s, steps[0]), id) { StepKeepsUp(s, steps[0], id); }
      StepKeepsRegistry(s, steps[0]);
      RunKeepsUp(Do(s, steps[0]), steps[1..]);
    }
  }

  /** Then an open session's subdomain is never offline. */
  lemma PromptHandlersKeepOnline(steps: seq<Step>, id: nat)
    requires Possible(INIT, steps) && Prompt(INIT, steps) && Served(Run(INIT, steps), id)
    ensures Online(Run(INIT, steps), Run(INIT, steps).conns[id].sub)
  {
    RunKeepsUp(INIT, steps);
    RunKeepsInv(INIT, steps);
    var s := Run(INIT, steps);
    assert Live(s, id) && KeptUp(s, id) && Covered(s, id);
  }

  lemma {:induction false} RunThen(s: State, steps: seq<Step>, last: Step)
    requires Possible(s, steps) && Enabled(Run(s, steps), last)
    ensures Possible(s, steps + [last]) && Run(s, steps + [last]) == Do(Run(s, steps), last)
    decreases |steps|
  {
    if steps == [] {
      assert [] + [last] == [last] && [last][1..] == [];
    } else {
      RunThen(Do(s, steps[0]), steps[1..], last);
      assert (steps + [last])[1..] == steps[1..] + [last];
    }
  }

  /** A connection came and went, and its Clear is still to come; another is about to be
      put on a subdomain where it replaces nobody. */
  ghost predicate LateClearPending(s: State, sub: string) {
    && s.conns == map[1 := Conn(sub, false, Unregistered, 1), 2 := Conn(sub, true, Dialing, 0)]
    && s.current == map[] && s.puts == 1
  }

  lemma LateClearIsReachable(sub: string) returns (before: seq<Step>)
    ensures Possible(INIT, before) && LateClearPending(Run(INIT, before), sub)
  {
    RunThen(INIT, [], Connect(1, sub));
    before := [] + [Connect(1, sub)];
    RunThen(INIT, before, Put(1));
    before := before + [Put(1)];
    assert Run(INIT, before).conns == map[1 := Conn(sub, true, Registered, 1)];
    RunThen(INIT, before, FirstBeat(1));
    before := before + [FirstBeat(1)];
    RunThen(INIT, before, Close(1));
    before := before + [Close(1)];
    assert Run(INIT, before).conns == map[1 := Conn(sub, false, Serving(BEAT), 1)];
    RunThen(INIT, before, Remove(1));
    before := before + [Remove(1)];
    RunThen(INIT, before, Connect(2, sub));
    before := before + [Connect(2, sub)];
    assert Run(INIT, before).current == map[];
  }

  /** Replacement is not what matters: a connection that left the registry by itself, so
      that its successor replaces nobody, can still take that successor offline if its
      Clear comes late enough. */
  lemma UnreplacedClearOpensOutage(sub: string) returns (before: seq<Step>, steps: seq<Step>)
    ensures Possible(INIT, before) && Enabled(Run(INIT, before), Put(2)) && sub !in Run(INIT, before).current
    ensures steps == before + [Put(2)] + [FirstBeat(2)] + [Clear(1)]
    ensures Possible(INIT, steps) && Served(Run(INIT, steps), 2) && Run(INIT, steps).conns[2].sub == sub
    ensures !Online(Run(INIT, steps), sub)
  {
    before := LateClearIsReachable(sub);
    RunThen(INIT, before, Put(2));
    steps := before + [Put(2)];
    RunThen(INIT, steps, FirstBeat(2));
    steps := steps + [FirstBeat(2)];
    RunThen(INIT, steps, Clear(1));
    steps := steps + [Clear(1)];
  }
}
