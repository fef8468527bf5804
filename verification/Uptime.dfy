/** Exactly when an open session is sure to stay online. */
module Uptime {
  import opened Connections

  /** No connection of the subdomain is put. */
  ghost predicate NoPutOn(s: State, steps: seq<Step>, sub: string)
    requires Possible(s, steps)
    decreases |steps|
  {
    steps == [] || ((steps[0].Put? ==> s.conns[steps[0].id].sub != sub) && NoPutOn(Do(s, steps[0]), steps[1..], sub))
  }

  lemma {:induction false} ClosedStays(s: State, steps: seq<Step>, id: nat)
    requires Possible(s, steps) && id in s.conns && !s.conns[id].open
    ensures id in Run(s, steps).conns && !Run(s, steps).conns[id].open
    decreases |steps|
  {
    if steps != [] { ClosedStays(Do(s, steps[0]), steps[1..], id); }
  }

  lemma StepKeepsAlone(s: State, step: Step, id: nat)
    requires RegistryOk(s) && Enabled(s, step) && Served(s, id) && Served(Do(s, step), id)
    requires Alone(s, id) && s.conns[id].sub in s.expiry
    requires step.Put? ==> s.conns[step.id].sub != s.conns[id].sub
    ensures Alone(Do(s, step), id) && Do(s, step).conns[id].sub == s.conns[id].sub
    ensures s.conns[id].sub in Do(s, step).expiry
  {
  }

  lemma {:induction false} AloneStaysOnline(s: State, steps: seq<Step>, id: nat)
    requires Inv(s) && Served(s, id) && Alone(s, id) && s.conns[id].sub in s.expiry
    requires Possible(s, steps) && NoPutOn(s, steps, s.conns[id].sub) && Served(Run(s, steps), id)
    ensures Online(Run(s, steps), s.conns[id].sub)
    decreases |steps|
  {
    if steps == [] {
      assert Covered(s, id);
    } else {
      var t := Do(s, steps[0]);
      StepKeepsInv(s, steps[0]);
      if Served(t, id) {
        StepKeepsAlone(s, steps[0], id);
        AloneStaysOnline(t, steps[1..], id);
      } else {
        assert !t.conns[id].open;
        ClosedStays(t, steps[1..], id);
      }
    }
  }

  lemma FrontStep(s: State, step: Step, rest: seq<Step>, sub: string)
    requires Enabled(s, step) && !step.Put? && Possible(Do(s, step), rest) && NoPutOn(Do(s, step), rest, sub)
    ensures Possible(s, [step] + rest) && Run(s, [step] + rest) == Run(Do(s, step), rest)
    ensures NoPutOn(s, [step] + rest, sub)
  {
    assert ([step] + rest)[1..] == rest;
  }

  lemma LateHandlerClears(s: State, id: nat, c: nat) returns (steps: seq<Step>)
    requires Served(s, id) && c in s.conns && c != id && !s.conns[c].open
    requires WasPut(s.conns[c]) && !s.conns[c].phase.Gone?
    ensures Possible(s, steps) && NoPutOn(s, steps, s.conns[c].sub)
    ensures Served(Run(s, steps), id) && Run(s, steps).conns[id].sub == s.conns[id].sub
    ensures s.conns[c].sub !in Run(s, steps).expiry
    decreases if s.conns[c].phase.Registered? then 2 else if s.conns[c].phase.Serving? then 1 else 0
  {
    var sub := s.conns[c].sub;
    var step := if s.conns[c].phase.Registered? then FirstBeat(c) else if s.conns[c].phase.Serving? then Remove(c) else Clear(c);
    var t := Do(s, step);
    if step.Clear? {
      FrontStep(s, step, [], sub);
      steps := [step] + [];
    } else {
      var rest := LateHandlerClears(t, id, c);
      FrontStep(s, step, rest, sub);
      steps := [step] + rest;
    }
  }

  /** If steps can follow, with no put on id's subdomain, they leave it online while id is served. */
  ghost predicate OnlineAfter(s: State, steps: seq<Step>, id: nat)
    requires id in s.conns
  {
    var sub := s.conns[id].sub;
    Possible(s, steps) && NoPutOn(s, steps, sub) && Served(Run(s, steps), id) ==> Online(Run(s, steps), sub)
  }

  /** Nothing that can follow, short of a put on its subdomain, takes a served session offline. */
  ghost predicate SureToStayOnline(s: State, id: nat)
    requires id in s.conns
  {
    forall steps :: OnlineAfter(s, steps, id)
  }

  /** In every reachable state, for every session that is served there: as long as no
      connection of its subdomain is put, the subdomain is sure to stay online while the
      session is served, exactly if it is online now and the handler of every other
      connection that was put on it has finished. */
  lemma StaysOnlineIff(before: seq<Step>)
    requires Possible(INIT, before)
    ensures var s := Run(INIT, before);
      forall id :: Served(s, id) ==> (SureToStayOnline(s, id) <==> Online(s, s.conns[id].sub) && Alone(s, id))
  {
    RunKeepsInv(INIT, before);
    var s := Run(INIT, before);
    forall id | Served(s, id) ensures SureToStayOnline(s, id) <==> Online(s, s.conns[id].sub) && Alone(s, id) {
      StaysOnlineHere(s, id);
    }
  }

  lemma StaysOnlineHere(s: State, id: nat)
    requires Inv(s) && Served(s, id)
    ensures SureToStayOnline(s, id) <==> Online(s, s.conns[id].sub) && Alone(s, id)
  {
    var sub := s.conns[id].sub;
    if Online(s, sub) && Alone(s, id) {
      forall steps ensures OnlineAfter(s, steps, id) {
        if Possible(s, steps) && NoPutOn(s, steps, sub) && Served(Run(s, steps), id) {
          AloneStaysOnline(s, steps, id);
        }
      }
    } else if !Online(s, sub) {
      var none: seq<Step> := [];
      assert !OnlineAfter(s, none, id);
    } else {
      var c :| c in s.conns && c != id && s.conns[c].sub == sub && WasPut(s.conns[c]) && !s.conns[c].phase.Gone?;
      assert Live(s, id) && IsCurrent(s, id);
      assert !Live(s, c);
      var steps := LateHandlerClears(s, id, c);
      assert !OnlineAfter(s, steps, id);
    }
  }
}
