/** Replaying buffered events: one event over one stream, and the drain that
    runs when an agent connects. Drains here do not overlap; the interleaving
    of several workers is the subject of module Workers. */
module Replay {
  import opened Options
  import opened Events

  const HEADER_BUFFERED := "X-Liveurl-Buffered"
  const HEADER_ORIGINAL_TIMESTAMP := "X-Liveurl-Original-Timestamp"

  /** What one exchange with the agent comes to: no response at all, or the
      local app's status together with the time at which it is recorded. */
  datatype Outcome = OpenFailed | WriteFailed | ReadFailed | Response(status: int, at: int)

  predicate Accepted(o: Outcome) { o.Response? && o.status < 500 }

  predicate ServerError(o: Outcome) { o.Response? && o.status >= 500 }

  // ----- The request that goes out -----

  /** An outgoing request; host is empty when the stored headers name none. */
  datatype Wire = Wire(request: Request, host: string)

  function HostOf(h: Headers): string {
    if "Host" in h && h["Host"] != [] then h["Host"][0] else ""
  }

  /** e as the app must see it: untouched but for the two added headers. */
  function WireOf(e: Event, rfc3339: int -> string): Wire {
    var headers := e.request.headers[HEADER_BUFFERED := ["true"]];
    Wire(e.request.(headers := headers[HEADER_ORIGINAL_TIMESTAMP := [rfc3339(e.receivedAt)]]), HostOf(e.request.headers))
  }

  /** rfc3339 stands for the time library's formatting of the receipt time. */
  method BuildRequest(e: Event, rfc3339: int -> string) returns (w: Wire)
    ensures w.request.(headers := map[]) == e.request.(headers := map[])
    ensures w.host == if "Host" in e.request.headers && e.request.headers["Host"] != [] then e.request.headers["Host"][0] else ""
    ensures w.request.headers.Keys == e.request.headers.Keys + {"X-Liveurl-Buffered", "X-Liveurl-Original-Timestamp"}
    ensures forall k :: k in e.request.headers && k !in {"X-Liveurl-Buffered", "X-Liveurl-Original-Timestamp"} ==>
      w.request.headers[k] == e.request.headers[k]
    ensures w.request.headers["X-Liveurl-Buffered"] == ["true"]
    ensures w.request.headers["X-Liveurl-Original-Timestamp"] == [rfc3339(e.receivedAt)]
    ensures w == WireOf(e, rfc3339)
  {
    var headers := CopyMap(e.request.headers);
    var host := HostOf(headers);
    headers := headers[HEADER_BUFFERED := ["true"]];
    headers := headers[HEADER_ORIGINAL_TIMESTAMP := [rfc3339(e.receivedAt)]];
    w := Wire(e.request.(headers := headers), host);
  }

  /** What the n-th stream comes to when the agent gives these answers and then goes away. */
  function Answer(answers: seq<Outcome>, n: nat): Outcome {
    if n < |answers| then answers[n] else OpenFailed
  }

  /** The connected agent: the answers it still has to give, and the requests it has seen. */
  class Session {
    var answers: seq<Outcome>
    var sent: seq<Wire>
    const rfc3339: int -> string

    constructor (answers: seq<Outcome>, rfc3339: int -> string)
      ensures this.answers == answers && this.rfc3339 == rfc3339 && sent == []
    {
      this.answers, this.rfc3339, sent := answers, rfc3339, [];
    }

    method RoundTrip(w: Wire) returns (o: Outcome)
      modifies this
      ensures o == Answer(old(answers), 0)
      ensures answers == if old(answers) == [] then [] else old(answers)[1..]
      ensures sent == if o.OpenFailed? then old(sent) else old(sent) + [w]
    {
      o := Answer(answers, 0);
      if answers != [] { answers := answers[1..]; }
      if !o.OpenFailed? { sent := sent + [w]; }
    }
  }

  // ----- One event -----

  function ReplayedRow(e: Event, o: Outcome): Event {
    match o
    case Response(status, at) => if status >= 500 then FailedRow(e, status) else DeliveredRow(e, status, at)
    case _ => RequeuedRow(e)
  }

  function ReplayedAt(rows: Table, id: nat, o: Outcome): Table {
    if id in rows then rows[id := ReplayedRow(rows[id], o)] else rows
  }

  datatype ReplayError = Transport | MarkFailedError

  /** What ReplayEvent reports: only transport failures, or a failing mark of a row that is gone, are errors. */
  function Verdict(o: Outcome, present: bool): (int, Option<ReplayError>) {
    match o
    case Response(status, _) => (status, if status >= 500 && !present then Some(MarkFailedError) else None)
    case _ => (0, Some(Transport))
  }

  /** The row ends as ReplayedRow says: the passage through Replaying leaves no trace. */
  method ReplayEvent(st: EventStore, sess: Session, e: Event) returns (status: int, err: Option<ReplayError>)
    requires st.Valid()
    modifies st`rows, sess
    ensures st.Valid()
    ensures var o := Answer(old(sess.answers), 0);
      && st.rows == ReplayedAt(old(st.rows), e.id, o)
      && (status, err) == Verdict(o, e.id in old(st.rows))
      && sess.sent == if o.OpenFailed? then old(sess.sent) else old(sess.sent) + [WireOf(e, sess.rfc3339)]
    ensures sess.answers == if old(sess.answers) == [] then [] else old(sess.answers)[1..]
    ensures var o := Answer(old(sess.answers), 0);
      && status == (if o.Response? then o.status else 0)
      && (err.Some? <==> !o.Response? || (o.status >= 500 && e.id !in old(st.rows)))
    ensures var o := Answer(old(sess.answers), 0);
      e.id in old(st.rows) && o.Response? && o.status < 500 ==>
        var f := old(st.rows)[e.id];
        st.rows[e.id] == Event(f.id, f.tunnel, f.request, f.receivedAt, Delivered, f.attempts + 1, o.status, Some(o.at))
    ensures var o := Answer(old(sess.answers), 0);
      e.id in old(st.rows) && o.Response? && o.status >= 500 ==>
        var f := old(st.rows)[e.id];
        st.rows[e.id] == Event(f.id, f.tunnel, f.request, f.receivedAt, if f.attempts + 1 >= 5 then Dead else Queued,
                               f.attempts + 1, o.status, f.deliveredAt)
    ensures e.id in old(st.rows) && !Answer(old(sess.answers), 0).Response? ==>
      var f := old(st.rows)[e.id];
      st.rows[e.id] == Event(f.id, f.tunnel, f.request, f.receivedAt, Queued, 0, 0, None)
  {
    st.MarkReplaying(e.id);
    var w := BuildRequest(e, sess.rfc3339);
    var o := sess.RoundTrip(w);
    match o {
      case Response(s, at) =>
        if s >= 500 {
          var r := st.MarkFailed(e.id, s);
          return s, if r.Failure? then Some(MarkFailedError) else None;
        }
        st.MarkDelivered(e.id, s, at);
        return s, None;
      case _ =>
        st.RequeueEvent(e.id);
        return 0, Some(Transport);
    }
  }

  // ----- A drain -----

  /** How many of n events get through before the first that is not accepted. */
  function Reached(n: nat, answers: seq<Outcome>): (k: nat)
    ensures k <= n
    ensures forall i :: 0 <= i < k ==> Accepted(Answer(answers, i))
    ensures k < n ==> !Accepted(Answer(answers, k))
  {
    if n == 0 then 0 else
      var k := Reached(n - 1, answers);
      if k == n - 1 && Accepted(Answer(answers, k)) then n else k
  }

  /** The event after the last one accepted is tried too, and ends the drain. */
  function Tried(n: nat, answers: seq<Outcome>): (k: nat)
    ensures k <= n
  {
    var k := Reached(n, answers);
    if k < n then k + 1 else k
  }

  /** The table once the first n events of q have met their outcomes. */
  function Applied(rows: Table, q: seq<nat>, answers: seq<Outcome>, n: nat): Table
    requires n <= |q|
  {
    if n == 0 then rows else ReplayedAt(Applied(rows, q, answers, n - 1), q[n - 1], Answer(answers, n - 1))
  }

  function DrainedBy(rows: Table, q: seq<nat>, answers: seq<Outcome>): Table {
    Applied(rows, q, answers, Tried(|q|, answers))
  }

  function Drained(rows: Table, tunnel: nat, answers: seq<Outcome>): Table {
    if tunnel == 0 then rows else DrainedBy(rows, Queue(rows, tunnel), answers)
  }

  /** Replaying in order changes each row at most once, and only by its own outcome. */
  lemma {:induction false} AppliedMiss(rows: Table, q: seq<nat>, answers: seq<Outcome>, n: nat, id: nat)
    requires n <= |q| && id !in q[..n]
    ensures var t := Applied(rows, q, answers, n);
      if id in rows then id in t && t[id] == rows[id] else id !in t
  {
    if n > 0 {
      assert q[..n] == q[..n - 1] + [q[n - 1]];
      AppliedMiss(rows, q, answers, n - 1, id);
    }
  }

  lemma AppliedKeys(rows: Table, q: seq<nat>, answers: seq<Outcome>, n: nat)
    requires n <= |q|
    ensures Applied(rows, q, answers, n).Keys == rows.Keys
  {
  }

  lemma {:induction false} AppliedHit(rows: Table, q: seq<nat>, answers: seq<Outcome>, n: nat, i: nat)
    requires i < n <= |q| && Distinct(q) && q[i] in rows
    ensures q[i] in Applied(rows, q, answers, n)
    ensures Applied(rows, q, answers, n)[q[i]] == ReplayedRow(rows[q[i]], Answer(answers, i))
  {
    if i == n - 1 {
      AppliedMiss(rows, q, answers, i, q[i]);
    } else {
      AppliedHit(rows, q, answers, n - 1, i);
    }
  }

  lemma StillWaiting(rows: Table, tunnel: nat, answers: seq<Outcome>, i: nat)
    requires i < |Queue(rows, tunnel)|
    ensures Queue(rows, tunnel)[i] in Applied(rows, Queue(rows, tunnel), answers, i)
  {
    var q := Queue(rows, tunnel);
    QueueOrdered(rows, tunnel);
    OrderingDistinct(rows, QueuedIds(rows, tunnel), q);
    AppliedMiss(rows, q, answers, i, q[i]);
  }

  /** The requests for the first n events of q, in order. */
  function Wires(rows: Table, q: seq<nat>, rfc3339: int -> string, n: nat): (ws: seq<Wire>)
    requires n <= |q| && forall i :: 0 <= i < |q| ==> q[i] in rows
  {
    if n == 0 then [] else Wires(rows, q, rfc3339, n - 1) + [WireOf(rows[q[n - 1]], rfc3339)]
  }

  lemma {:induction false} WiresAt(rows: Table, q: seq<nat>, rfc3339: int -> string, n: nat)
    requires n <= |q| && forall i :: 0 <= i < |q| ==> q[i] in rows
    ensures |Wires(rows, q, rfc3339, n)| == n
    ensures forall i :: 0 <= i < n ==> Wires(rows, q, rfc3339, n)[i] == WireOf(rows[q[i]], rfc3339)
  {
    if n > 0 { WiresAt(rows, q, rfc3339, n - 1); }
  }

  /** Every request of a drain is on the wire but one whose stream could not be opened. */
  function OnTheWire(n: nat, answers: seq<Outcome>): (k: nat)
    ensures k <= n
  {
    var k := Reached(n, answers);
    if k < n && !Answer(answers, k).OpenFailed? then k + 1 else k
  }

  lemma StopsHere(n: nat, answers: seq<Outcome>, i: nat)
    requires i < n && i <= Reached(n, answers)
    ensures !Accepted(Answer(answers, i)) <==> Reached(n, answers) == i
    ensures !Accepted(Answer(answers, i)) ==>
      Tried(n, answers) == i + 1 && OnTheWire(n, answers) == if Answer(answers, i).OpenFailed? then i else i + 1
  {
  }

  function AnswersAfter(answers: seq<Outcome>, n: nat): seq<Outcome> {
    if n <= |answers| then answers[n..] else []
  }

  lemma AnswersAfterOne(answers: seq<Outcome>, n: nat)
    ensures var rest := AnswersAfter(answers, n);
      && Answer(rest, 0) == Answer(answers, n)
      && AnswersAfter(answers, n + 1) == if rest == [] then [] else rest[1..]
  {
  }

  /** Where a drain that stops after n events, or runs out of them, leaves table and wire. */
  ghost predicate DrainEnds(rows0: Table, q: seq<nat>, answers: seq<Outcome>, n: nat, sent0: seq<Wire>, rfc3339: int -> string,
      rows: Table, sent: seq<Wire>)
    requires n <= |q| && forall j :: 0 <= j < |q| ==> q[j] in rows0
  {
    && rows == Applied(rows0, q, answers, n)
    && sent == sent0 + Wires(rows0, q, rfc3339,
         if n > 0 && Answer(answers, n - 1).OpenFailed? then n - 1 else n)
  }

  /** One event replayed takes the drain one event further, and says whether it must stop. */
  lemma OneMore(rows0: Table, q: seq<nat>, answers: seq<Outcome>, i: nat, sent0: seq<Wire>, rfc3339: int -> string,
      rows: Table, sent: seq<Wire>)
    requires i < |q| && i <= Reached(|q|, answers) && (forall j :: 0 <= j < |q| ==> q[j] in rows0) && q[i] in rows
    requires DrainEnds(rows0, q, answers, i, sent0, rfc3339, rows, sent)
    ensures var o := Answer(answers, i);
      DrainEnds(rows0, q, answers, i + 1, sent0, rfc3339, ReplayedAt(rows, q[i], o),
        if o.OpenFailed? then sent else sent + [WireOf(rows0[q[i]], rfc3339)])
    ensures var (status, err) := Verdict(Answer(answers, i), true);
      if err.Some? || status >= 500 then Tried(|q|, answers) == i + 1 else i < Reached(|q|, answers)
  {
    StopsHere(|q|, answers, i);
    assert i > 0 ==> Accepted(Answer(answers, i - 1));
  }

  lemma EndsAsSpecified(rows0: Table, q: seq<nat>, answers: seq<Outcome>, sent0: seq<Wire>, rfc3339: int -> string,
      rows: Table, sent: seq<Wire>)
    requires forall j :: 0 <= j < |q| ==> q[j] in rows0
    requires DrainEnds(rows0, q, answers, Tried(|q|, answers), sent0, rfc3339, rows, sent)
    ensures rows == DrainedBy(rows0, q, answers)
    ensures sent == sent0 + Wires(rows0, q, rfc3339, OnTheWire(|q|, answers))
  {
  }

  method Drain(st: EventStore, sess: Session, tunnel: nat)
    requires st.Valid()
    modifies st`rows, sess
    ensures st.Valid()
    ensures st.rows == Drained(old(st.rows), tunnel, old(sess.answers))
    ensures tunnel == 0 ==> sess.sent == old(sess.sent)
    ensures tunnel != 0 ==>
      var q := Queue(old(st.rows), tunnel);
      sess.sent == old(sess.sent) + Wires(old(st.rows), q, sess.rfc3339, OnTheWire(|q|, old(sess.answers)))
  {
    if tunnel == 0 { return; }
    ghost var rows0, answers0, sent0 := st.rows, sess.answers, sess.sent;
    ghost var q := Queue(rows0, tunnel);
    var events := st.QueuedEvents(tunnel);
    for i := 0 to |events|
      invariant i <= Reached(|q|, answers0) && st.Valid()
      invariant sess.answers == AnswersAfter(answers0, i)
      invariant DrainEnds(rows0, q, answers0, i, sent0, sess.rfc3339, st.rows, sess.sent)
    {
      StillWaiting(rows0, tunnel, answers0, i);
      AnswersAfterOne(answers0, i);
      OneMore(rows0, q, answers0, i, sent0, sess.rfc3339, st.rows, sess.sent);
      var status, err := ReplayEvent(st, sess, events[i]);
      if err.Some? {
        EndsAsSpecified(rows0, q, answers0, sent0, sess.rfc3339, st.rows, sess.sent);
        return;
      }
      if status >= 500 {
        EndsAsSpecified(rows0, q, answers0, sent0, sess.rfc3339, st.rows, sess.sent);
        return;
      }
    }
    EndsAsSpecified(rows0, q, answers0, sent0, sess.rfc3339, st.rows, sess.sent);
  }
}
