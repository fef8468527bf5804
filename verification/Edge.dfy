/** The public listener: which limiter a request counts against and where it goes
    (internal/edge/router.go). */
module Edge {
  import opened Routing
  import RateLimit
  import Sessions
  import Presence
  import Tunnels

  datatype Route =
    | TooMany429
    | Apex
    | Unknown404
    | Live(sess: Sessions.Session)
    | Offline(tunnel: Tunnels.Tunnel)

  class Router {
    const baseHost: string
    const tunnels: Tunnels.TunnelStore
    const presence: Presence.Presence
    const registry: Sessions.Registry
    const tunnelLimiter: RateLimit.IPLimiter
    const dashboardLimiter: RateLimit.IPLimiter

    constructor (baseHost: string, tunnels: Tunnels.TunnelStore, presence: Presence.Presence, registry: Sessions.Registry,
        tunnelLimiter: RateLimit.IPLimiter, dashboardLimiter: RateLimit.IPLimiter)
      ensures this.baseHost == baseHost && this.tunnels == tunnels && this.presence == presence && this.registry == registry
      ensures this.tunnelLimiter == tunnelLimiter && this.dashboardLimiter == dashboardLimiter
    {
      this.baseHost, this.tunnels, this.presence, this.registry := baseHost, tunnels, presence, registry;
      this.tunnelLimiter, this.dashboardLimiter := tunnelLimiter, dashboardLimiter;
    }

    /** now and then_ are the limiter's two clock reads, ms the time at the key store.
        Exactly one limiter is charged, and a refused request goes no further; of the rest
        a tunnel's requests go to its live session exactly while it has both a presence key
        and a session, and every other request for it is served offline. */
    method ServeHTTP(host: string, ip: string, now: int, then_: int, ms: int) returns (r: Route)
      requires tunnelLimiter != dashboardLimiter
      modifies tunnelLimiter, dashboardLimiter
      ensures var sub := Subdomain(host, baseHost);
        var (charged, spared) := if sub == "" then (dashboardLimiter, tunnelLimiter) else (tunnelLimiter, dashboardLimiter);
        var call := RateLimit.Call(if sub == "" then ip else LimiterKey(ip, sub), now, then_);
        && spared.State() == old(spared.State())
        && (charged.State(), r != TooMany429) == RateLimit.Allowed(charged.config, old(charged.State()), call)
      ensures var sub := Subdomain(host, baseHost);
        && (r == Apex ==> sub == "")
        && (r == Unknown404 ==> sub != "" && sub !in tunnels.rows)
        && (r.Live? <==> r != TooMany429 && sub != "" && sub in tunnels.rows
                         && Presence.Shows(presence.keys, sub, ms) && sub in registry.sessions)
        && (r.Live? ==> r.sess == registry.sessions[sub])
        && (r.Offline? ==> sub != "" && sub in tunnels.rows && r.tunnel == tunnels.rows[sub])
    {
      var sub := Subdomain(host, baseHost);
      if sub == "" {
        var ok := dashboardLimiter.Allow(ip, now, then_);
        return if ok then Apex else TooMany429;
      }
      var ok := tunnelLimiter.Allow(ip + "|" + sub, now, then_);
      if !ok { return TooMany429; }
      if sub !in tunnels.rows { return Unknown404; }
      var tunnel := tunnels.rows[sub];
      var online := presence.IsOnline(sub, ms);
      if online {
        var sess := registry.Get(sub);
        if sess.Some? { return Live(sess.value); }
      }
      return Offline(tunnel);
    }
  }

  // ----- One tenant's traffic does not throttle another's -----

  /** A request for a tunnel, with the limiter's clock reads. */
  datatype Hit = Hit(ip: string, sub: string, now: int, then_: int)

  function CallOf(h: Hit): RateLimit.Call { RateLimit.Call(LimiterKey(h.ip, h.sub), h.now, h.then_) }

  function CallsOf(hits: seq<Hit>): (calls: seq<RateLimit.Call>)
    ensures |calls| == |hits|
  {
    if hits == [] then [] else [CallOf(hits[0])] + CallsOf(hits[1..])
  }

  /** The hits from one address on one tunnel. */
  function From(hits: seq<Hit>, ip: string, sub: string): seq<Hit> {
    if hits == [] then []
    else (if hits[0].ip == ip && hits[0].sub == sub then [hits[0]] else []) + From(hits[1..], ip, sub)
  }

  predicate Addresses(hits: seq<Hit>) {
    forall i :: 0 <= i < |hits| ==> '|' !in hits[i].ip
  }

  lemma {:induction false} OnlyIsFrom(hits: seq<Hit>, ip: string, sub: string)
    requires Addresses(hits) && '|' !in ip
    ensures RateLimit.Only(CallsOf(hits), LimiterKey(ip, sub)) == CallsOf(From(hits, ip, sub))
  {
    if hits != [] {
      OnlyIsFrom(hits[1..], ip, sub);
      BucketsAreShared(hits[0].ip, hits[0].sub, ip, sub);
      assert CallsOf(hits)[1..] == CallsOf(hits[1..]);
      var rest := From(hits[1..], ip, sub);
      assert ([hits[0]] + rest)[1..] == rest;
      if hits[0].ip == ip && hits[0].sub == sub {
        assert From(hits, ip, sub) == [hits[0]] + rest;
      } else {
        assert From(hits, ip, sub) == rest;
      }
    }
  }

  /** An address is allowed on a tunnel exactly what it would be allowed if there were no
      other address and no other tunnel, even tunnels reached from the same address. */
  lemma TenantsDoNotThrottle(c: RateLimit.Config, t: int, gap: nat, hits: seq<Hit>, ip: string, sub: string)
    requires RateLimit.RefillsBeforeEviction(c, gap) && RateLimit.Timely(t, CallsOf(hits), gap)
    requires Addresses(hits) && '|' !in ip
    ensures |RateLimit.Answers(c, RateLimit.EMPTY, CallsOf(hits))| == |hits|
    ensures RateLimit.AnswersTo(CallsOf(hits), RateLimit.Answers(c, RateLimit.EMPTY, CallsOf(hits)), LimiterKey(ip, sub))
         == RateLimit.Answers(c, RateLimit.EMPTY, CallsOf(From(hits, ip, sub)))
  {
    RateLimit.KeysAreIndependent(c, t, gap, CallsOf(hits), LimiterKey(ip, sub));
    OnlyIsFrom(hits, ip, sub);
  }
}
