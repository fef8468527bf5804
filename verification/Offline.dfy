/** What a visitor or a webhook sender gets while the agent is away
    (internal/edge/offline.go), and what becomes of a webhook that was acknowledged. */
module Offline {
  import opened Options
  import opened Events
  import opened Replay
  import Drains
  import QueueRuns
  import Routing
  import Snapshots
  import Banner

  const MAX_WEBHOOK_BODY: nat := 5 * 0x10_0000

  const HEADER_EVENT_ID := "X-Liveurl-Event-Id"

  /** A request body as it comes in: the bytes that arrive, and whether the stream then breaks. */
  datatype Stream = Stream(data: seq<byte>, broken: bool)

  /** A request as Go's server hands it over: it takes the host out of the headers. The body
      of head is empty, and comes as a stream. */
  datatype Incoming = Incoming(head: Request, host: string)

  predicate AsHandedOver(i: Incoming) {
    "Host" !in i.head.headers
  }

  /** Panicked: the handler stopped in the middle, and no answer was written. */
  datatype Reply =
    | BadRequest400
    | TooLarge413
    | InternalError500
    | Accepted202(headers: map<string, string>)
    | Unavailable503
    | Page200(headers: map<string, string>, body: seq<byte>)
    | Panicked

  function Decimal(n: nat): string {
    (if n < 10 then "" else Decimal(n / 10)) + [('0' as int + n % 10) as char]
  }

  // ----- What a decimal is -----

  predicate IsDigit(c: char) { '0' <= c <= '9' }

  /** Digits only, at least one, and no leading zero. */
  predicate IsNumeral(s: string) {
    s != "" && (forall i :: 0 <= i < |s| ==> IsDigit(s[i])) && (|s| > 1 ==> s[0] != '0')
  }

  /** The number that digits stand for, the last one for the ones. */
  function Reading(s: string): int {
    if s == "" then 0 else 10 * Reading(s[..|s| - 1]) + (s[|s| - 1] as int - 48)
  }

  lemma {:induction false} NumeralBounds(s: string)
    requires forall i :: 0 <= i < |s| ==> IsDigit(s[i])
    ensures Reading(s) >= 0 && (s != "" && s[0] != '0' ==> Reading(s) > 0)
  {
    if s != "" {
      NumeralBounds(s[..|s| - 1]);
    }
  }

  lemma {:induction false} DecimalReads(n: nat)
    ensures IsNumeral(Decimal(n)) && Reading(Decimal(n)) == n && (Decimal(n)[0] == '0' ==> n == 0)
  {
    var s := Decimal(n);
    assert s[|s| - 1] == ('0' as int + n % 10) as char;
    if n >= 10 {
      DecimalReads(n / 10);
      assert s[..|s| - 1] == Decimal(n / 10);
    } else {
      assert s[..|s| - 1] == "";
    }
  }

  lemma {:induction false} NumeralIsDecimal(s: string)
    requires IsNumeral(s)
    ensures Reading(s) >= 0 && Decimal(Reading(s)) == s
  {
    var front, d := s[..|s| - 1], s[|s| - 1] as int - 48;
    NumeralBounds(s);
    NumeralBounds(front);
    assert s == front + [s[|s| - 1]];
    if front != "" {
      NumeralIsDecimal(front);
      assert Reading(s) / 10 == Reading(front) && Reading(s) % 10 == d;
    }
  }

  /** The text of a number is the one numeral that reads as that number; so senders can tell
      their events apart by the id they are given. */
  lemma DecimalIff(n: nat, s: string)
    ensures Decimal(n) == s <==> IsNumeral(s) && Reading(s) == n
  {
    DecimalReads(n);
    if IsNumeral(s) { NumeralIsDecimal(s); }
  }

  /** Reads no more than limit bytes; a stream that breaks after them is not noticed. */
  method ReadLimited(s: Stream, limit: nat) returns (body: seq<byte>, failed: bool)
    ensures failed <==> s.broken && |s.data| < limit
    ensures body == if |s.data| < limit then s.data else s.data[..limit]
  {
    body := if |s.data| < limit then s.data else s.data[..limit];
    failed := s.broken && |s.data| < limit;
  }

  /** An acknowledged request is in the table first, with every byte that was sent but not
      with its host; one that is refused leaves the table as it was. */
  method BufferWebhook(st: EventStore, tunnel: nat, incoming: Incoming, stream: Stream, storeUp: bool, now: int)
      returns (reply: Reply)
    requires st.Valid() && AsHandedOver(incoming)
    modifies st
    ensures st.Valid()
    ensures reply.Accepted202? <==> |stream.data| <= 5_242_880 && !stream.broken && storeUp
    ensures reply.TooLarge413? <==> |stream.data| > 5_242_880
    ensures reply.BadRequest400? <==> |stream.data| <= 5_242_880 && stream.broken
    ensures reply.InternalError500? <==> |stream.data| <= 5_242_880 && !stream.broken && !storeUp
    ensures !reply.Accepted202? ==> st.rows == old(st.rows)
    ensures reply.Accepted202? ==>
      var id := old(st.nextId);
      && id !in old(st.rows) && st.nextId == id + 1
      && st.rows == old(st.rows)[id := Fresh(id, tunnel, incoming.head.(body := stream.data), now)]
      && reply.headers == map["X-Liveurl-Buffered" := "true", "X-Liveurl-Event-Id" := Decimal(id)]
  {
    var body, failed := ReadLimited(stream, MAX_WEBHOOK_BODY + 1);
    if failed { return BadRequest400; }
    if |body| > MAX_WEBHOOK_BODY { return TooLarge413; }
    if !storeUp { return InternalError500; }
    var id := st.EnqueueEvent(tunnel, incoming.head.(body := body), now);
    return Accepted202(map[HEADER_BUFFERED := "true", HEADER_EVENT_ID := Decimal(id)]);
  }

  predicate IsHTML(contentType: string) { "text/html" <= contentType }

  /** Whatever follows "text/html", as a charset does, it is HTML; and nothing else is. */
  lemma HTMLIff(contentType: string)
    ensures IsHTML(contentType) <==> exists rest :: contentType == "text/html" + rest
  {
    if IsHTML(contentType) {
      assert contentType == "text/html" + contentType[9..];
    }
  }

  /** text is the stored page cut into characters. Anything but HTML is served as it was
      stored; an HTML page only gains the banner, where module Banner says, and the length
      that it then has. */
  method ServeSnapshot(st: Snapshots.SnapshotStore, key: Snapshots.Key, text: Banner.Text, banner: seq<byte>)
      returns (reply: Reply)
    requires key in st.rows ==> Banner.IsText(text) && Banner.Page(text) == st.rows[key].body
    ensures key !in st.rows ==> reply == Unavailable503
    ensures key in st.rows && !IsHTML(st.rows[key].contentType) ==>
      var page := st.rows[key].body;
      reply == Page200(st.rows[key].headers["Content-Length" := Decimal(|page|)], page)
    ensures key in st.rows && IsHTML(st.rows[key].contentType) ==>
      var page, p := st.rows[key].body, Banner.ChosenPlace(text);
      if p > |page| then reply == Panicked
      else reply == Page200(st.rows[key].headers["Content-Length" := Decimal(|page| + |banner|)], page[..p] + banner + page[p..])
  {
    var got := st.GetSnapshot(key);
    if got.Failure? { return Unavailable503; }
    var snap := got.value;
    var headers := CopyMap(snap.headers);
    var body := snap.body;
    if IsHTML(snap.contentType) {
      var out := Banner.InjectBanner(text, banner);
      if out.Failure? { return Panicked; }
      body := out.value;
    }
    headers := headers["Content-Length" := Decimal(|body|)];
    return Page200(headers, body);
  }

  /** The dispatch. A webhook is acknowledged, under the id of its new row, exactly if it was
      stored whole, and each refusal has one cause; only an acknowledgment changes the queue.
      Any other GET or HEAD gets the page that is stored under its path and query, the rest
      nothing. */
  method ServeOffline(st: EventStore, snaps: Snapshots.SnapshotStore, tunnel: nat, webhook: bool, incoming: Incoming,
      queryHash: string, stream: Stream, storeUp: bool, now: int, text: Banner.Text, banner: seq<byte>) returns (reply: Reply)
    requires st.Valid() && AsHandedOver(incoming)
    requires var key := Snapshots.Key(tunnel, incoming.head.path, queryHash);
      key in snaps.rows ==> Banner.IsText(text) && Banner.Page(text) == snaps.rows[key].body
    modifies st
    ensures st.Valid()
    ensures reply.TooLarge413? <==> webhook && |stream.data| > 5_242_880
    ensures reply.BadRequest400? <==> webhook && |stream.data| <= 5_242_880 && stream.broken
    ensures reply.InternalError500? <==> webhook && |stream.data| <= 5_242_880 && !stream.broken && !storeUp
    ensures reply.Accepted202? <==> webhook && |stream.data| <= 5_242_880 && !stream.broken && storeUp
    ensures !reply.Accepted202? ==> st.rows == old(st.rows)
    ensures reply.Accepted202? ==>
      var id := old(st.nextId);
      && id !in old(st.rows) && st.nextId == id + 1
      && st.rows == old(st.rows)[id := Fresh(id, tunnel, incoming.head.(body := stream.data), now)]
      && reply.headers == map["X-Liveurl-Buffered" := "true", "X-Liveurl-Event-Id" := Decimal(id)]
    ensures var key := Snapshots.Key(tunnel, incoming.head.path, queryHash);
      reply == Unavailable503 <==> !webhook && !(incoming.head.method_ in {"GET", "HEAD"} && key in snaps.rows)
    ensures var key := Snapshots.Key(tunnel, incoming.head.path, queryHash);
      !webhook && incoming.head.method_ in {"GET", "HEAD"} && key in snaps.rows ==>
        var snap, p := snaps.rows[key], Banner.ChosenPlace(text);
        var page := snap.body;
        if !IsHTML(snap.contentType) then reply == Page200(snap.headers["Content-Length" := Decimal(|page|)], page)
        else if p > |page| then reply == Panicked
        else reply == Page200(snap.headers["Content-Length" := Decimal(|page| + |banner|)], page[..p] + banner + page[p..])
  {
    if webhook {
      reply := BufferWebhook(st, tunnel, incoming, stream, storeUp, now);
      return;
    }
    if incoming.head.method_ == "GET" || incoming.head.method_ == "HEAD" {
      reply := ServeSnapshot(snaps, Snapshots.Key(tunnel, incoming.head.path, queryHash), text, banner);
      return;
    }
    return Unavailable503;
  }

  // ----- What an acknowledgment is worth -----

  /** In every run, an event stays what it was until its tunnel's events are cleared. */
  ghost predicate KeptOrCleared(e: Event, w: QueueRuns.World) {
    if e.id in w.rows then
      var f := w.rows[e.id];
      f.id == e.id && f.tunnel == e.tunnel && f.request == e.request && f.receivedAt == e.receivedAt
    else e.id in w.cleared
  }

  lemma StepKeepsEvent(e: Event, w: QueueRuns.World, op: QueueRuns.Op)
    requires Keyed(w.rows, w.nextId) && e.id < w.nextId && KeptOrCleared(e, w)
    ensures var w' := QueueRuns.Step(w, op);
      Keyed(w'.rows, w'.nextId) && e.id < w'.nextId && KeptOrCleared(e, w')
  {
    if op.DrainQueue? && op.tunnel != 0 {
      QueueOrdered(w.rows, op.tunnel);
      Drains.DrainKeepsOrigins(w.rows, QueuedIds(w.rows, op.tunnel), Queue(w.rows, op.tunnel), op.answers);
    }
  }

  lemma {:induction false} RunKeepsEvent(e: Event, w: QueueRuns.World, ops: seq<QueueRuns.Op>)
    requires Keyed(w.rows, w.nextId) && e.id < w.nextId && KeptOrCleared(e, w)
    ensures var w' := QueueRuns.Run(w, ops);
      Keyed(w'.rows, w'.nextId) && e.id < w'.nextId && KeptOrCleared(e, w')
    decreases |ops|
  {
    if ops != [] {
      StepKeepsEvent(e, w, ops[0]);
      RunKeepsEvent(e, QueueRuns.Step(w, ops[0]), ops[1..]);
    }
  }

  lemma {:induction false} RunKeepsKeyed(w: QueueRuns.World, ops: seq<QueueRuns.Op>)
    requires Keyed(w.rows, w.nextId)
    ensures Keyed(QueueRuns.Run(w, ops).rows, QueueRuns.Run(w, ops).nextId)
    decreases |ops|
  {
    if ops != [] {
      var op := ops[0];
      if op.DrainQueue? && op.tunnel != 0 {
        QueueOrdered(w.rows, op.tunnel);
        Drains.DrainKeepsOrigins(w.rows, QueuedIds(w.rows, op.tunnel), Queue(w.rows, op.tunnel), op.answers);
      }
      RunKeepsKeyed(QueueRuns.Step(w, op), ops[1..]);
    }
  }

  /** After any run, then an acknowledged webhook, then any run, failures and manual replays
      included: unless it was cleared, the webhook is in the table as it was stored, and
      whenever a drain sends it, what goes out is what was stored but for the two headers. */
  lemma {:induction false} AcknowledgedReachesApp(before: seq<QueueRuns.Op>, tunnel: nat, request: Request, at: int,
      after: seq<QueueRuns.Op>, answers: seq<Outcome>, rfc3339: int -> string)
    requires tunnel != 0
    ensures var w := QueueRuns.Run(QueueRuns.EMPTY, before);
      var e := Fresh(w.nextId, tunnel, request, at);
      var v := QueueRuns.Run(QueueRuns.Step(w, QueueRuns.Enqueue(tunnel, request, at)), after);
      var q := Queue(v.rows, tunnel);
      var n := OnTheWire(|q|, answers);
      && KeptOrCleared(e, v)
      && |Wires(v.rows, q, rfc3339, n)| == n
      && forall i :: 0 <= i < n && q[i] == e.id ==> Wires(v.rows, q, rfc3339, n)[i] == WireOf(e, rfc3339)
  {
    var w := QueueRuns.Run(QueueRuns.EMPTY, before);
    RunKeepsKeyed(QueueRuns.EMPTY, before);
    var e := Fresh(w.nextId, tunnel, request, at);
    var u := QueueRuns.Step(w, QueueRuns.Enqueue(tunnel, request, at));
    RunKeepsEvent(e, u, after);
    var v := QueueRuns.Run(u, after);
    WiresAt(v.rows, Queue(v.rows, tunnel), rfc3339, OnTheWire(|Queue(v.rows, tunnel)|, answers));
  }

  /** The app sees the request that came in: its line, its host, its body, and all its
      headers but the two that mark a replay. */
  predicate SeenAsSent(w: Wire, i: Incoming, body: seq<byte>) {
    && w.host == i.host
    && w.request.method_ == i.head.method_ && w.request.path == i.head.path && w.request.query == i.head.query
    && w.request.body == body
    && w.request.headers - {HEADER_BUFFERED, HEADER_ORIGINAL_TIMESTAMP} == i.head.headers - {HEADER_BUFFERED, HEADER_ORIGINAL_TIMESTAMP}
  }

  lemma NoHostNoTunnel(base: string)
    ensures Routing.Subdomain("", base) == ""
  {
  }

  /** The host is the one thing that is lost, and it is always lost: it is not among the
      headers that are stored, so the replayed request names none, while the request that came
      in named the host by which it was routed. */
  lemma HostIsLost(id: nat, tunnel: nat, incoming: Incoming, base: string, body: seq<byte>, at: int, rfc3339: int -> string)
    requires AsHandedOver(incoming) && Routing.Subdomain(incoming.host, base) != ""
    ensures var w := WireOf(Fresh(id, tunnel, incoming.head.(body := body), at), rfc3339);
      && w.host == "" && !SeenAsSent(w, incoming, body)
      && SeenAsSent(w.(host := incoming.host), incoming, body)
  {
    var w := WireOf(Fresh(id, tunnel, incoming.head.(body := body), at), rfc3339);
    var marks := {HEADER_BUFFERED, HEADER_ORIGINAL_TIMESTAMP};
    assert w.request.headers - marks == incoming.head.headers - marks;
    NoHostNoTunnel(base);
  }
}
