/** The tunnels table and the handshake that claims a name in it
    (internal/store/tunnels.go, internal/edge/tunnelserver.go). */
module Tunnels {
  import opened Options
  import opened Routing

  datatype Tunnel = Tunnel(id: nat, user: nat, subdomain: string, rules: seq<string>)

  /** subdomain is UNIQUE, so the table is keyed by it. */
  type Table = map<string, Tunnel>

  datatype ClaimError = SubdomainTaken | LookupFailed | CreateFailed | UpdateFailed

  ghost predicate DistinctIds(rows: Table) {
    forall a, b :: a in rows && b in rows && rows[a].id == rows[b].id ==> a == b
  }

  ghost predicate TableOk(rows: Table, nextId: nat) {
    && (forall sub :: sub in rows ==> rows[sub].subdomain == sub && rows[sub].id < nextId)
    && DistinctIds(rows)
  }

  /** UPDATE tunnels SET buffer_rules WHERE id. */
  function WithRules(rows: Table, id: nat, rules: seq<string>): Table {
    map sub | sub in rows :: if rows[sub].id == id then rows[sub].(rules := rules) else rows[sub]
  }

  /** after still has every tunnel of before, under the same id and owner. */
  ghost predicate SameOwners(before: Table, after: Table) {
    forall sub :: sub in before ==>
      sub in after && after[sub].id == before[sub].id && after[sub].user == before[sub].user
  }

  /** One claim at a time. A claim on a tunnel that exists reports the rules it had before. */
  class TunnelStore {
    var rows: Table
    var nextId: nat

    ghost predicate Valid()
      reads this
    {
      TableOk(rows, nextId)
    }

    constructor ()
      ensures Valid() && rows == map[]
    {
      rows, nextId := map[], 1;
    }

    method ClaimTunnel(user: nat, subdomain: string, rules: seq<string>) returns (r: Result<Tunnel, ClaimError>)
      requires Valid()
      modifies this
      ensures Valid() && SameOwners(old(rows), rows)
      ensures forall sub :: sub in rows && sub != subdomain ==> sub in old(rows) && rows[sub] == old(rows)[sub]
      ensures subdomain in rows
      ensures r.Success? <==> rows[subdomain].user == user
      ensures r.Failure? ==> r.error == SubdomainTaken && rows == old(rows)
      ensures r.Success? ==> rows[subdomain] == r.value.(rules := rules) && r.value.subdomain == subdomain
      ensures r.Success? ==> r.value == if subdomain in old(rows) then old(rows)[subdomain] else rows[subdomain]
    {
      if subdomain !in rows {
        var t := Tunnel(nextId, user, subdomain, rules);
        rows, nextId := rows[subdomain := t], nextId + 1;
        return Success(t);
      }
      var t := rows[subdomain];
      if t.user != user { return Failure(SubdomainTaken); }
      rows := WithRules(rows, t.id, rules);
      return Success(t);
    }
  }

  // ----- The handshake -----

  const VERSION: int := 1

  datatype Handshake = Handshake(version: int, token: string, subdomain: string, rules: seq<string>)

  datatype Refusal = UnsupportedVersion | InvalidToken | InvalidSubdomain | TakenByAnother | InternalError

  datatype Accepted = Accepted(subdomain: string, publicURL: string)

  predicate IsHex(c: char) { '0' <= c <= '9' || 'a' <= c <= 'f' }

  /** Any name the generator of random names may come up with. */
  predicate RandomName(name: string) {
    |name| == 10 && name[..2] == "t-" && forall i :: 2 <= i < 10 ==> IsHex(name[i])
  }

  lemma RandomNamesAreValid(name: string)
    requires RandomName(name)
    ensures ValidName(name)
  {
    assert name[..2][0] == 't' && name[..2][1] == '-';
    assert name[0] == 't' && name[1] == '-';
  }

  /** users gives the account of each valid token, random the name for an agent that asks for none. */
  method Authenticate(st: TunnelStore, hs: Handshake, users: map<string, nat>, random: string,
      publicTLS: bool, publicHost: string) returns (r: Result<Accepted, Refusal>)
    requires st.Valid() && RandomName(random)
    modifies st
    ensures st.Valid() && SameOwners(old(st.rows), st.rows)
    ensures r.Failure? ==> st.rows == old(st.rows)
    ensures r.Success? <==>
      && hs.version == VERSION && hs.token in users && (hs.subdomain != "" ==> ValidName(hs.subdomain))
      && var name := if hs.subdomain == "" then random else hs.subdomain;
         name in old(st.rows) ==> old(st.rows)[name].user == users[hs.token]
    ensures r == Failure(UnsupportedVersion) <==> hs.version != 1
    ensures r == Failure(InvalidToken) <==> hs.version == 1 && hs.token !in users
    ensures r == Failure(InvalidSubdomain) <==>
      hs.version == 1 && hs.token in users && hs.subdomain != "" && !ValidName(hs.subdomain)
    ensures r == Failure(TakenByAnother) <==>
      && hs.version == 1 && hs.token in users && (hs.subdomain != "" ==> ValidName(hs.subdomain))
      && var name := if hs.subdomain == "" then random else hs.subdomain;
         name in old(st.rows) && old(st.rows)[name].user != users[hs.token]
    ensures r != Failure(InternalError)
    ensures r.Success? ==>
      && r.value.subdomain == (if hs.subdomain == "" then random else hs.subdomain)
      && ValidName(r.value.subdomain) && r.value.subdomain in st.rows
      && st.rows[r.value.subdomain].user == users[hs.token] && st.rows[r.value.subdomain].rules == hs.rules
      && r.value.publicURL == (if publicTLS then "https" else "http") + "://" + HostOf(r.value.subdomain, publicHost)
  {
    if hs.version != VERSION { return Failure(UnsupportedVersion); }
    if hs.token !in users { return Failure(InvalidToken); }
    var user := users[hs.token];
    var subdomain := hs.subdomain;
    if subdomain == "" {
      subdomain := random;
      RandomNamesAreValid(random);
    }
    if !ValidName(subdomain) { return Failure(InvalidSubdomain); }
    var claimed := st.ClaimTunnel(user, subdomain, hs.rules);
    if claimed.Failure? {
      return Failure(if claimed.error == SubdomainTaken then TakenByAnother else InternalError);
    }
    var scheme := "http";
    if publicTLS { scheme := "https"; }
    return Success(Accepted(claimed.value.subdomain, scheme + "://" + claimed.value.subdomain + "." + publicHost));
  }
}
