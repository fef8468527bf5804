/** Any number of ClaimTunnel calls at once, one SQL statement at a time: the select and
    the insert that follows it are not one transaction (internal/store/tunnels.go). */
module Claims {
  import opened Options
  import opened Routing
  import opened Tunnels

  datatype Pc =
    | Selecting
    | Inserting
    | Updating(seen: Tunnel)
    | Done(r: Result<Tunnel, ClaimError>)

  datatype Claim = Claim(user: nat, sub: string, rules: seq<string>, pc: Pc)

  /** How a statement ends for its caller. Lost: it took effect, but the caller sees an error. */
  datatype Exec = Fine | NotRun | Lost

  datatype State = State(rows: Table, nextId: nat, claims: map<nat, Claim>)

  const INIT := State(map[], 1, map[])

  datatype Step =
    | Start(c: nat, user: nat, sub: string, rules: seq<string>)
    | Select(c: nat, exec: Exec)
    | Insert(c: nat, exec: Exec)
    | Update(c: nat, exec: Exec)

  predicate Enabled(s: State, step: Step) {
    match step
    case Start(c, _, _, _) => c !in s.claims
    case Select(c, _) => c in s.claims && s.claims[c].pc.Selecting?
    case Insert(c, _) => c in s.claims && s.claims[c].pc.Inserting?
    case Update(c, _) => c in s.claims && s.claims[c].pc.Updating?
  }

  function At(s: State, c: nat, pc: Pc): map<nat, Claim>
    requires c in s.claims
  {
    s.claims[c := s.claims[c].(pc := pc)]
  }

  function Do(s: State, step: Step): State
    requires Enabled(s, step)
  {
    match step
    case Start(c, user, sub, rules) => s.(claims := s.claims[c := Claim(user, sub, rules, Selecting)])
    case Select(c, exec) =>
      var sub := s.claims[c].sub;
      s.(claims := At(s, c,
           if !exec.Fine? then Done(Failure(LookupFailed))
           else if sub !in s.rows then Inserting
           else if s.rows[sub].user != s.claims[c].user then Done(Failure(SubdomainTaken))
           else Updating(s.rows[sub])))
    case Insert(c, exec) =>
      var k := s.claims[c];
      if exec.NotRun? then s.(claims := At(s, c, Done(Failure(CreateFailed))))
      else if k.sub in s.rows then // the unique constraint refuses; the id is used up
        s.(nextId := s.nextId + 1, claims := At(s, c, Done(Failure(CreateFailed))))
      else
        var t := Tunnel(s.nextId, k.user, k.sub, k.rules);
        State(s.rows[k.sub := t], s.nextId + 1, At(s, c, Done(if exec.Fine? then Success(t) else Failure(CreateFailed))))
    case Update(c, exec) =>
      var k := s.claims[c];
      State(if exec.NotRun? then s.rows else WithRules(s.rows, k.pc.seen.id, k.rules), s.nextId,
            At(s, c, Done(if exec.Fine? then Success(k.pc.seen) else Failure(UpdateFailed))))
  }

  predicate Possible(s: State, steps: seq<Step>)
    decreases |steps|
  {
    steps == [] || (Enabled(s, steps[0]) && Possible(Do(s, steps[0]), steps[1..]))
  }

  function Run(s: State, steps: seq<Step>): State
    requires Possible(s, steps)
    decreases |steps|
  {
    if steps == [] then s else Run(Do(s, steps[0]), steps[1..])
  }

  // ----- What every step keeps -----

  predicate IsRow(rows: Table, t: Tunnel) {
    t.subdomain in rows && rows[t.subdomain].id == t.id && rows[t.subdomain].user == t.user
  }

  predicate ClaimOk(rows: Table, k: Claim) {
    match k.pc
    case Updating(seen) => IsRow(rows, seen) && seen.user == k.user && seen.subdomain == k.sub
    case Done(Success(t)) => IsRow(rows, t) && t.user == k.user && t.subdomain == k.sub
    case Done(Failure(e)) => e == SubdomainTaken ==> k.sub in rows && rows[k.sub].user != k.user
    case _ => true
  }

  ghost predicate Inv(s: State) {
    TableOk(s.rows, s.nextId) && forall c :: c in s.claims ==> ClaimOk(s.rows, s.claims[c])
  }

  lemma StepKeepsOwners(s: State, step: Step)
    requires Inv(s) && Enabled(s, step)
    ensures SameOwners(s.rows, Do(s, step).rows)
  {
  }

  lemma StepKeepsInv(s: State, step: Step)
    requires Inv(s) && Enabled(s, step)
    ensures Inv(Do(s, step))
  {
    StepKeepsOwners(s, step);
    forall c | c in Do(s, step).claims ensures ClaimOk(Do(s, step).rows, Do(s, step).claims[c]) {
      assert c in s.claims ==> ClaimOk(s.rows, s.claims[c]);
    }
  }

  lemma {:induction false} RunKeepsInv(s: State, steps: seq<Step>)
    requires Inv(s) && Possible(s, steps)
    ensures Inv(Run(s, steps)) && SameOwners(s.rows, Run(s, steps).rows)
    decreases |steps|
  {
    if steps != [] {
      StepKeepsInv(s, steps[0]);
      StepKeepsOwners(s, steps[0]);
      RunKeepsInv(Do(s, steps[0]), steps[1..]);
    }
  }

  lemma {:induction false} RunJoins(s: State, before: seq<Step>, after: seq<Step>)
    requires Possible(s, before) && Possible(Run(s, before), after)
    ensures Possible(s, before + after) && Run(s, before + after) == Run(Run(s, before), after)
    decreases |before|
  {
    if before == [] {
      assert before + after == after;
    } else {
      RunJoins(Do(s, before[0]), before[1..], after);
      assert (before + after)[1..] == before[1..] + after;
    }
  }

  /** From the moment a tunnel exists, nothing ever changes its id or its owner, and it
      stays the only one of its name. */
  lemma OwnershipIsForEver(before: seq<Step>, after: seq<Step>, sub: string)
    requires Possible(INIT, before) && Possible(Run(INIT, before), after) && sub in Run(INIT, before).rows
    ensures Possible(INIT, before + after)
    ensures var t, u := Run(INIT, before).rows, Run(INIT, before + after).rows;
      sub in u && u[sub].id == t[sub].id && u[sub].user == t[sub].user && u[sub].subdomain == sub && DistinctIds(u)
  {
    RunKeepsInv(INIT, before);
    RunKeepsInv(Run(INIT, before), after);
    RunJoins(INIT, before, after);
  }

  predicate Succeeded(s: State, c: nat) {
    c in s.claims && s.claims[c].pc.Done? && s.claims[c].pc.r.Success?
  }

  /** However the statements of any number of claims interleave and fail: all claims of one
      name that ever succeed are one user's and name one tunnel, and a claim is turned away
      as taken only when another user does own the name. */
  lemma OneUserEverSucceeds(steps: seq<Step>, a: nat, b: nat)
    requires Possible(INIT, steps)
    requires var s := Run(INIT, steps);
      Succeeded(s, a) && b in s.claims && s.claims[a].sub == s.claims[b].sub && s.claims[b].pc.Done?
    ensures var s := Run(INIT, steps);
      match s.claims[b].pc.r
      case Success(t) => s.claims[a].user == s.claims[b].user && s.claims[a].pc.r.value.id == t.id
      case Failure(e) => e == SubdomainTaken ==> s.claims[a].user != s.claims[b].user
  {
    RunKeepsInv(INIT, steps);
    var s := Run(INIT, steps);
    assert ClaimOk(s.rows, s.claims[a]) && ClaimOk(s.rows, s.claims[b]);
  }

  /** A request to the public host of a claimed name finds the tunnel that was claimed. */
  lemma ClaimedHostFindsTunnel(steps: seq<Step>, c: nat, base: string, host: string)
    requires Possible(INIT, steps) && Succeeded(Run(INIT, steps), c)
    requires var k := Run(INIT, steps).claims[c];
      ValidName(k.sub) && SameName(host, k.pc.r.value.subdomain + "." + base)
    ensures var s := Run(INIT, steps);
      var name := Subdomain(host, base);
      name in s.rows && s.rows[name].id == s.claims[c].pc.r.value.id && s.rows[name].user == s.claims[c].user
  {
    RunKeepsInv(INIT, steps);
    var s := Run(INIT, steps);
    assert ClaimOk(s.rows, s.claims[c]);
    HostRoutesBack(s.claims[c].sub, s.claims[c].sub, base, host);
  }

  /** A statement that does not end well ends its claim in an error, whether or not it took
      effect: if not, the table is as it was, and if so, as it would be without the fault. */
  lemma FaultsAreReported(s: State, c: nat, step: Step, exec: Exec)
    requires step in {Select(c, exec), Insert(c, exec), Update(c, exec)} && Enabled(s, step) && !exec.Fine?
    ensures Do(s, step).claims[c].pc.Done? && !Succeeded(Do(s, step), c)
    ensures exec.NotRun? ==> Do(s, step).rows == s.rows
    ensures exec.Lost? && step.Insert? ==> Do(s, step).rows == Do(s, Insert(c, Fine)).rows
    ensures exec.Lost? && step.Update? ==> Do(s, step).rows == Do(s, Update(c, Fine)).rows
    ensures exec.Lost? && step.Insert? && s.claims[c].sub !in s.rows ==>
      var k := s.claims[c];
      Do(s, step).rows == s.rows[k.sub := Tunnel(s.nextId, k.user, k.sub, k.rules)]
  {
  }

  // ----- Alone, and not alone -----

  /** Without interference and failures, a claim ends as the one-at-a-time ClaimTunnel does. */
  lemma SoloClaimIsSequential(s: State, c: nat)
    requires Inv(s) && c in s.claims && s.claims[c].pc.Selecting?
    ensures var k := s.claims[c];
      var t := Do(s, Select(c, Fine));
      var u := if t.claims[c].pc.Inserting? then Do(t, Insert(c, Fine))
               else if t.claims[c].pc.Updating? then Do(t, Update(c, Fine)) else t;
      && u.claims[c].pc.Done? && k.sub in u.rows
      && (Succeeded(u, c) <==> u.rows[k.sub].user == k.user)
      && (u.claims[c].pc.r.Failure? ==> u.claims[c].pc.r.error == SubdomainTaken && u.rows == s.rows)
      && (Succeeded(u, c) ==> u.rows[k.sub] == u.claims[c].pc.r.value.(rules := k.rules))
      && forall sub :: sub in u.rows && sub != k.sub ==> sub in s.rows && u.rows[sub] == s.rows[sub]
  {
    assert ClaimOk(s.rows, s.claims[c]);
  }

  lemma {:induction false} RunThen(s: State, steps: seq<Step>, last: Step)
    requires Possible(s, steps) && Enabled(Run(s, steps), last)
    ensures Possible(s, steps + [last]) && Run(s, steps + [last]) == Do(Run(s, steps), last)
    decreases |steps|
  {
    if steps == [] {
      assert [] + [last] == [last] && [last][1..] == [];
    } else {
      RunThen(Do(s, steps[0]), steps[1..], last);
      assert (steps + [last])[1..] == steps[1..] + [last];
    }
  }

  /** Two first connections of one user race, and the loser gets an error for a name that
      is its own: the insert does not look again. */
  lemma OwnerCanFail(user: nat, sub: string) returns (steps: seq<Step>)
    ensures Possible(INIT, steps)
    ensures var s := Run(INIT, steps);
      && sub in s.rows && s.rows[sub].user == user
      && 2 in s.claims && s.claims[2] == Claim(user, sub, [], Done(Failure(CreateFailed)))
  {
    RunThen(INIT, [], Start(1, user, sub, []));
    steps := [] + [Start(1, user, sub, [])];
    RunThen(INIT, steps, Start(2, user, sub, []));
    steps := steps + [Start(2, user, sub, [])];
    RunThen(INIT, steps, Select(1, Fine));
    steps := steps + [Select(1, Fine)];
    RunThen(INIT, steps, Select(2, Fine));
    steps := steps + [Select(2, Fine)];
    assert Run(INIT, steps).rows == map[];
    RunThen(INIT, steps, Insert(1, Fine));
    steps := steps + [Insert(1, Fine)];
    RunThen(INIT, steps, Insert(2, Fine));
    steps := steps + [Insert(2, Fine)];
  }

  // ----- Exactly when a claim succeeds -----

  /** None of c's own statements fails. */
  predicate OwnRun(steps: seq<Step>, c: nat) {
    forall i :: 0 <= i < |steps| && !steps[i].Start? && steps[i].c == c ==> steps[i].exec == Fine
  }

  /** step carries out another claim's insert of c's name. */
  predicate OtherInserts(s: State, step: Step, c: nat) {
    && step.Insert? && step.c != c && !step.exec.NotRun?
    && step.c in s.claims && c in s.claims && s.claims[step.c].sub == s.claims[c].sub
  }

  /** Another claim's insert of c's name is carried out before c's own. */
  predicate Beaten(s: State, steps: seq<Step>, c: nat)
    requires Possible(s, steps)
    decreases |steps|
  {
    steps != [] && !(steps[0].Insert? && steps[0].c == c)
    && (OtherInserts(s, steps[0], c) || Beaten(Do(s, steps[0]), steps[1..], c))
  }

  /** When c looks, the name is its own, or it is free and nobody inserts it before c does. */
  predicate Wins(s: State, steps: seq<Step>, c: nat)
    requires Possible(s, steps)
    decreases |steps|
  {
    steps != [] &&
    if steps[0].Select? && steps[0].c == c then
      var k := s.claims[c];
      if k.sub in s.rows then s.rows[k.sub].user == k.user else !Beaten(Do(s, steps[0]), steps[1..], c)
    else Wins(Do(s, steps[0]), steps[1..], c)
  }

  lemma {:induction false} DoneStays(s: State, steps: seq<Step>, c: nat)
    requires Possible(s, steps) && c in s.claims && s.claims[c].pc.Done?
    ensures c in Run(s, steps).claims && Run(s, steps).claims[c] == s.claims[c]
    decreases |steps|
  {
    if steps != [] { DoneStays(Do(s, steps[0]), steps[1..], c); }
  }

  lemma {:induction false} UpdatingSucceeds(s: State, steps: seq<Step>, c: nat)
    requires Possible(s, steps) && OwnRun(steps, c) && c in s.claims && s.claims[c].pc.Updating?
    requires c in Run(s, steps).claims && Run(s, steps).claims[c].pc.Done?
    ensures Succeeded(Run(s, steps), c)
    decreases |steps|
  {
    if steps != [] {
      var t := Do(s, steps[0]);
      if steps[0].c == c {
        DoneStays(t, steps[1..], c);
      } else {
        UpdatingSucceeds(t, steps[1..], c);
      }
    }
  }

  lemma {:induction false} TakenInsertFails(s: State, steps: seq<Step>, c: nat)
    requires Possible(s, steps) && c in s.claims && s.claims[c].pc.Inserting? && s.claims[c].sub in s.rows
    requires c in Run(s, steps).claims && Run(s, steps).claims[c].pc.Done?
    ensures Run(s, steps).claims[c].pc == Done(Failure(CreateFailed))
    decreases |steps|
  {
    if steps != [] {
      var t := Do(s, steps[0]);
      if steps[0].c == c {
        DoneStays(t, steps[1..], c);
      } else {
        TakenInsertFails(t, steps[1..], c);
      }
    }
  }

  lemma {:induction false} InsertSucceedsIff(s: State, steps: seq<Step>, c: nat)
    requires Possible(s, steps) && OwnRun(steps, c)
    requires c in s.claims && s.claims[c].pc.Inserting? && s.claims[c].sub !in s.rows
    requires c in Run(s, steps).claims && Run(s, steps).claims[c].pc.Done?
    ensures Succeeded(Run(s, steps), c) <==> !Beaten(s, steps, c)
    ensures !Succeeded(Run(s, steps), c) ==> Run(s, steps).claims[c].pc.r.error == CreateFailed
    decreases |steps|
  {
    if steps != [] {
      var t := Do(s, steps[0]);
      if steps[0].c == c {
        DoneStays(t, steps[1..], c);
      } else if OtherInserts(s, steps[0], c) {
        TakenInsertFails(t, steps[1..], c);
      } else {
        InsertSucceedsIff(t, steps[1..], c);
      }
    }
  }

  lemma {:induction false} SelectSucceedsIff(s: State, steps: seq<Step>, c: nat)
    requires Possible(s, steps) && OwnRun(steps, c) && (c in s.claims ==> s.claims[c].pc.Selecting?)
    requires c in Run(s, steps).claims && Run(s, steps).claims[c].pc.Done?
    ensures Succeeded(Run(s, steps), c) <==> Wins(s, steps, c)
    decreases |steps|
  {
    if steps != [] {
      var t, rest := Do(s, steps[0]), steps[1..];
      if steps[0].Select? && steps[0].c == c {
        if t.claims[c].pc.Inserting? {
          InsertSucceedsIff(t, rest, c);
        } else if t.claims[c].pc.Updating? {
          UpdatingSucceeds(t, rest, c);
        } else {
          DoneStays(t, rest, c);
        }
      } else {
        SelectSucceedsIff(t, rest, c);
      }
    }
  }

  /** Over every interleaving, with other claims' statements failing as they may: a claim
      whose own statements do not fail succeeds exactly if at its select the name was its
      user's, or was free and no other claim's insert came before its own. */
  lemma ClaimSucceedsIff(steps: seq<Step>, c: nat)
    requires Possible(INIT, steps) && OwnRun(steps, c)
    requires c in Run(INIT, steps).claims && Run(INIT, steps).claims[c].pc.Done?
    ensures Succeeded(Run(INIT, steps), c) <==> Wins(INIT, steps, c)
  {
    SelectSucceedsIff(INIT, steps, c);
  }

  /** In particular a claim on a name that is its user's when the claim starts never fails. */
  lemma OwnerOfOldNameSucceeds(before: seq<Step>, c: nat, user: nat, sub: string, rules: seq<string>, after: seq<Step>)
    requires Possible(INIT, before) && Enabled(Run(INIT, before), Start(c, user, sub, rules))
    requires sub in Run(INIT, before).rows && Run(INIT, before).rows[sub].user == user
    requires var s := Do(Run(INIT, before), Start(c, user, sub, rules));
      Possible(s, after) && OwnRun(after, c) && c in Run(s, after).claims && Run(s, after).claims[c].pc.Done?
    ensures Succeeded(Run(Do(Run(INIT, before), Start(c, user, sub, rules)), after), c)
  {
    RunKeepsInv(INIT, before);
    var s := Do(Run(INIT, before), Start(c, user, sub, rules));
    StepKeepsInv(Run(INIT, before), Start(c, user, sub, rules));
    OwnerWins(s, after, c);
  }

  lemma {:induction false} OwnerWins(s: State, steps: seq<Step>, c: nat)
    requires Inv(s) && Possible(s, steps) && OwnRun(steps, c)
    requires c in s.claims && s.claims[c].pc.Selecting?
    requires s.claims[c].sub in s.rows && s.rows[s.claims[c].sub].user == s.claims[c].user
    requires c in Run(s, steps).claims && Run(s, steps).claims[c].pc.Done?
    ensures Succeeded(Run(s, steps), c)
    decreases |steps|
  {
    if steps != [] {
      var t, rest := Do(s, steps[0]), steps[1..];
      if steps[0].c == c {
        UpdatingSucceeds(t, rest, c);
      } else {
        StepKeepsInv(s, steps[0]);
        StepKeepsOwners(s, steps[0]);
        OwnerWins(t, rest, c);
      }
    }
  }
}
