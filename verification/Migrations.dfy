/** Schema migrations with one caller at a time (internal/store/store.go). */
module Migrations {
  /** Directory entries have distinct names. */
  ghost predicate Distinct(names: seq<string>) {
    forall i, j :: 0 <= i < j < |names| ==> names[i] != names[j]
  }

  /** What becomes of one name: its query can fail, its transaction can fail and roll back,
      and a failing commit may still have been carried out. */
  datatype Try = Applies | QueryFails | RollsBack | CommitFails(carriedOut: bool)

  predicate Halts(applied: bool, t: Try) {
    t.QueryFails? || (!applied && !t.Applies?)
  }

  /** The first name from i on at which a migration stops with an error; all of them if none does. */
  function StopsFrom(names: seq<string>, versions: seq<string>, tries: seq<Try>, i: nat): (n: nat)
    requires |tries| == |names| && i <= |names|
    ensures i <= n <= |names| && (n < |names| ==> Halts(names[n] in versions, tries[n]))
    ensures forall j :: i <= j < n ==> !Halts(names[j] in versions, tries[j])
    decreases |names| - i
  {
    if i == |names| || Halts(names[i] in versions, tries[i]) then i else StopsFrom(names, versions, tries, i + 1)
  }

  function StopsAt(names: seq<string>, versions: seq<string>, tries: seq<Try>): (n: nat)
    requires |tries| == |names|
    ensures n <= |names|
  {
    StopsFrom(names, versions, tries, 0)
  }

  /** Those of the first n names that are not applied, in their order. */
  function Missing(names: seq<string>, n: nat, versions: seq<string>): seq<string>
    requires n <= |names|
  {
    if n == 0 then [] else
      Missing(names, n - 1, versions) + if names[n - 1] in versions then [] else [names[n - 1]]
  }

  /** The names that become applied. */
  function Gained(names: seq<string>, versions: seq<string>, tries: seq<Try>): seq<string>
    requires |tries| == |names|
  {
    var n := StopsAt(names, versions, tries);
    Missing(names, n, versions) + if n < |names| && tries[n] == CommitFails(true) then [names[n]] else []
  }

  lemma StopsHere(names: seq<string>, versions: seq<string>, tries: seq<Try>, i: nat)
    requires |tries| == |names| && i < |names| && i <= StopsAt(names, versions, tries)
    ensures Halts(names[i] in versions, tries[i]) <==> StopsAt(names, versions, tries) == i
  {
  }

  /** How far the loop has come: the first i names are applied, and no later one is that was not before. */
  ghost predicate UpTo(names: seq<string>, was: seq<string>, ran0: seq<string>, i: nat, versions: seq<string>, ran: seq<string>)
    requires i <= |names|
  {
    && versions == was + Missing(names, i, was) && ran == ran0 + Missing(names, i, was)
    && forall j :: i <= j < |names| ==> (names[j] in versions <==> names[j] in was)
  }

  lemma OneMore(names: seq<string>, was: seq<string>, ran0: seq<string>, i: nat, versions: seq<string>, ran: seq<string>)
    requires Distinct(names) && i < |names| && UpTo(names, was, ran0, i, versions, ran)
    ensures if names[i] in versions then UpTo(names, was, ran0, i + 1, versions, ran)
            else UpTo(names, was, ran0, i + 1, versions + [names[i]], ran + [names[i]])
  {
  }

  /** versions is schema_migrations in the order of the commits, ran the scripts whose
      effects are committed. */
  class Database {
    var versions: seq<string>
    var ran: seq<string>

    constructor ()
      ensures versions == [] && ran == []
    {
      versions, ran := [], [];
    }

    method Migrate(names: seq<string>, tries: seq<Try>) returns (ok: bool)
      requires Distinct(names) && |tries| == |names|
      modifies this
      ensures ok <==> StopsAt(names, old(versions), tries) == |names|
      ensures versions == old(versions) + Gained(names, old(versions), tries)
      ensures ran == old(ran) + Gained(names, old(versions), tries)
    {
      ghost var was, ran0 := versions, ran;
      for i := 0 to |names|
        invariant i <= StopsAt(names, was, tries)
        invariant UpTo(names, was, ran0, i, versions, ran)
      {
        StopsHere(names, was, tries, i);
        OneMore(names, was, ran0, i, versions, ran);
        if tries[i].QueryFails? { return false; }
        if names[i] in versions { continue; }
        if tries[i].RollsBack? { return false; }
        var txRan, txVersions := ran + [names[i]], versions + [names[i]];
        if tries[i].CommitFails? && !tries[i].carriedOut { return false; }
        ran, versions := txRan, txVersions;
        if tries[i].CommitFails? { return false; }
      }
      return true;
    }
  }

  predicate AllApplied(names: seq<string>, versions: seq<string>) {
    forall i :: 0 <= i < |names| ==> names[i] in versions
  }

  lemma InPrefix(names: seq<string>, k: nat, i: nat)
    requires Distinct(names) && k <= |names| && i < |names|
    ensures names[i] in names[..k] <==> i < k
  {
    if i < k { assert names[..k][i] == names[i]; }
  }

  lemma {:induction false} MissingOfPrefix(names: seq<string>, k: nat, n: nat)
    requires Distinct(names) && k <= |names| && n <= |names|
    ensures Missing(names, n, names[..k]) == if n <= k then [] else names[k..n]
    decreases n
  {
    if n > 0 {
      MissingOfPrefix(names, k, n - 1);
      InPrefix(names, k, n - 1);
      assert k < n ==> names[k..n - 1] + [names[n - 1]] == names[k..n];
    }
  }

  /** What is gained where the call stops: what comes after the prefix, if anything. */
  lemma GainedUpTo(names: seq<string>, k: nat, n: nat)
    requires Distinct(names) && k <= |names| && n <= |names|
    ensures names[..k] + Missing(names, n, names[..k]) == names[..if n <= k then k else n]
  {
    MissingOfPrefix(names, k, n);
    if n > k { PrefixAndMore(names, k, n); }
  }

  /** And one more, if the last commit was carried out. */
  lemma GainedOneMore(names: seq<string>, k: nat, n: nat)
    requires Distinct(names) && k <= |names| && n < |names| && names[n] !in names[..k]
    ensures k <= n && names[..k] + (Missing(names, n, names[..k]) + [names[n]]) == names[..n + 1]
  {
    InPrefix(names, k, n);
    GainedUpTo(names, k, n);
    PrefixAndMore(names, n, n + 1);
  }

  /** A database that holds the first k scripts ends up with the first k' of them, in order,
      each once; with all of them if the call succeeds; and succeeding again changes nothing. */
  lemma MigrateExtendsPrefix(names: seq<string>, k: nat, tries: seq<Try>) returns (k': nat)
    requires Distinct(names) && k <= |names| && |tries| == |names|
    ensures k <= k' <= |names| && names[..k] + Gained(names, names[..k], tries) == names[..k']
    ensures StopsAt(names, names[..k], tries) == |names| ==> k' == |names|
    ensures k == |names| ==> Gained(names, names[..k], tries) == []
  {
    var n := StopsAt(names, names[..k], tries);
    if n < |names| && tries[n] == CommitFails(true) {
      GainedOneMore(names, k, n);
      k' := n + 1;
    } else {
      GainedUpTo(names, k, n);
      k' := if n <= k then k else n;
    }
    if k == |names| { NothingGained(names, tries); }
  }

  lemma NothingGained(names: seq<string>, tries: seq<Try>)
    requires Distinct(names) && |tries| == |names|
    ensures Gained(names, names[..|names|], tries) == []
  {
    var n := StopsAt(names, names[..|names|], tries);
    MissingOfPrefix(names, |names|, n);
    if n < |names| { InPrefix(names, |names|, n); }
  }

  lemma PrefixAndMore(names: seq<string>, k: nat, n: nat)
    requires k <= n <= |names|
    ensures names[..k] + names[k..n] == names[..n]
    ensures n == k + 1 ==> names[k..n] == [names[k]]
  {
  }

  /** Whatever the table held before, a call that succeeds leaves every name applied. */
  lemma SuccessMeansAllApplied(names: seq<string>, versions: seq<string>, tries: seq<Try>)
    requires |tries| == |names| && StopsAt(names, versions, tries) == |names|
    ensures AllApplied(names, versions + Gained(names, versions, tries))
  {
    MissingHasAll(names, |names|, versions);
  }

  lemma {:induction false} MissingHasAll(names: seq<string>, n: nat, versions: seq<string>)
    requires n <= |names|
    ensures forall i :: 0 <= i < n ==> names[i] in versions || names[i] in Missing(names, n, versions)
  {
    if n > 0 { MissingHasAll(names, n - 1, versions); }
  }
}
