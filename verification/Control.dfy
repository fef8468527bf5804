/** The control API's manual replay of one event and its clearing of a tunnel's events
    (internal/control/server.go). */
module Control {
  import opened Options
  import opened Events
  import opened Replay
  import Tunnels

  datatype Reply = NotFound404 | Forbidden403 | Queued202 | BadGateway502 | Failed200 | Replayed200

  /** A manual replay wipes the record first, so it revives delivered and dead events
      too; with no agent connected the event just waits in the queue. */
  function ReplayedByHand(rows: Table, id: nat, o: Option<Outcome>): Table {
    if id !in rows then rows
    else rows[id := match o case None => RequeuedRow(rows[id]) case Some(a) => ReplayedRow(RequeuedRow(rows[id]), a)]
  }

  /** owner gives the account of each tunnel; sess is the live session of the event's tunnel, if any. */
  method ReplayNow(st: EventStore, sess: Session?, owner: map<nat, nat>, user: nat, id: nat) returns (reply: Reply)
    requires st.Valid()
    requires id in st.rows ==> st.rows[id].tunnel in owner
    modifies st`rows, sess
    ensures st.Valid()
    ensures reply == NotFound404 <==> id !in old(st.rows)
    ensures reply == Forbidden403 <==> id in old(st.rows) && owner[old(st.rows)[id].tunnel] != user
    // only the owner's call touches anything
    ensures reply in {NotFound404, Forbidden403} ==>
      st.rows == old(st.rows) && (sess != null ==> sess.sent == old(sess.sent) && sess.answers == old(sess.answers))
    ensures reply !in {NotFound404, Forbidden403} ==>
      st.rows == ReplayedByHand(old(st.rows), id, if sess == null then None else Some(Answer(old(sess.answers), 0)))
    // without an agent the event waits with its record wiped
    ensures reply == Queued202 <==> id in old(st.rows) && owner[old(st.rows)[id].tunnel] == user && sess == null
    ensures reply == Queued202 ==>
      var e := old(st.rows)[id];
      st.rows == old(st.rows)[id := Event(e.id, e.tunnel, e.request, e.receivedAt, Queued, 0, 0, None)]
    // with one, the app is sent exactly the stored request with the two marks, unless no stream opens
    ensures id in old(st.rows) && owner[old(st.rows)[id].tunnel] == user && sess != null ==>
      var o := Answer(old(sess.answers), 0);
      && sess.sent == (if o.OpenFailed? then old(sess.sent) else old(sess.sent) + [WireOf(old(st.rows)[id], sess.rfc3339)])
      && (reply == BadGateway502 <==> !o.Response?)
      && (reply == Failed200 <==> o.Response? && o.status >= 500)
      && (reply == Replayed200 <==> o.Response? && o.status < 500)
  {
    var found := st.EventByID(id);
    if found.Failure? { return NotFound404; }
    var event := found.value;
    if owner[event.tunnel] != user { return Forbidden403; }
    st.RequeueEvent(id);
    if sess == null { return Queued202; }
    var status, err := ReplayEvent(st, sess, event);
    if err.Some? { return BadGateway502; }
    if status >= 500 { return Failed200; }
    return Replayed200;
  }

  datatype ClearReply = NoContent204 | BadRequest400 | Unknown404 | NotOwner403

  /** Clearing needs the name of a tunnel of one's own, and takes nothing from any other. */
  method ClearNow(st: EventStore, tunnels: Tunnels.Table, user: nat, name: string) returns (reply: ClearReply)
    requires st.Valid()
    modifies st`rows
    ensures st.Valid()
    ensures reply == NoContent204 <==> name != "" && name in tunnels && tunnels[name].user == user
    ensures reply == NotOwner403 <==> name != "" && name in tunnels && tunnels[name].user != user
    ensures reply == BadRequest400 <==> name == ""
    ensures reply != NoContent204 ==> st.rows == old(st.rows)
    ensures reply == NoContent204 ==>
      && (forall id :: id in st.rows <==> id in old(st.rows) && old(st.rows)[id].tunnel != tunnels[name].id)
      && (forall id :: id in st.rows ==> st.rows[id] == old(st.rows)[id])
  {
    if name == "" { return BadRequest400; }
    if name !in tunnels { return Unknown404; }
    var t := tunnels[name];
    if t.user != user { return NotOwner403; }
    st.ClearEvents(t.id);
    return NoContent204;
  }
}
