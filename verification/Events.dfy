/** The webhook_events table: one row per buffered request, and the SQL
    statements that internal/store/events.go runs against it. */
module Events {
  import opened Options

  const MAX_REPLAY_ATTEMPTS: nat := 5

  type byte = b: int | 0 <= b < 256

  type Headers = map<string, seq<string>>

  datatype Request = Request(method_: string, path: string, query: string, headers: Headers, body: seq<byte>)

  datatype EventState = Queued | Replaying | Delivered | Dead

  datatype Event = Event(
    id: nat, tunnel: nat, request: Request, receivedAt: int,
    state: EventState, attempts: nat, lastStatus: int, deliveredAt: Option<int>)

  type Table = map<nat, Event>

  datatype StoreError = NotFound

  // ----- What each UPDATE does to the row it matches; an id that is gone matches none -----

  function Fresh(id: nat, tunnel: nat, request: Request, at: int): Event {
    Event(id, tunnel, request, at, Queued, 0, 0, None)
  }

  function ReplayingRow(e: Event): Event { e.(state := Replaying) }

  function DeliveredRow(e: Event, status: int, now: int): Event {
    e.(state := Delivered, attempts := e.attempts + 1, lastStatus := status, deliveredAt := Some(now))
  }

  function CountedRow(e: Event, status: int): Event {
    e.(attempts := e.attempts + 1, lastStatus := status)
  }

  function SettledRow(e: Event, attempts: nat): Event {
    e.(state := if attempts >= MAX_REPLAY_ATTEMPTS then Dead else Queued)
  }

  function FailedRow(e: Event, status: int): Event {
    SettledRow(CountedRow(e, status), e.attempts + 1)
  }

  function RequeuedRow(e: Event): Event {
    e.(state := Queued, attempts := 0, lastStatus := 0, deliveredAt := None)
  }

  function Without(rows: Table, tunnel: nat): Table {
    map id | id in rows && rows[id].tunnel != tunnel :: rows[id]
  }

  // ----- SELECT ... WHERE state='queued' ORDER BY received_at, id -----

  /** The order of the queue: by receipt time, ties by id. */
  predicate Before(rows: Table, a: nat, b: nat)
    requires a in rows && b in rows
  {
    rows[a].receivedAt < rows[b].receivedAt || (rows[a].receivedAt == rows[b].receivedAt && a < b)
  }

  function QueuedIds(rows: Table, tunnel: nat): set<nat> {
    set id | id in rows && rows[id].tunnel == tunnel && rows[id].state == Queued
  }

  /** q lists exactly the ids in order, each once. */
  ghost predicate IsOrdering(rows: Table, ids: set<nat>, q: seq<nat>) {
    && ids <= rows.Keys
    && (forall i :: 0 <= i < |q| ==> q[i] in ids)
    && (forall id :: id in ids ==> id in q)
    && (forall i, j :: 0 <= i < j < |q| ==> q[i] in rows && q[j] in rows && Before(rows, q[i], q[j]))
  }

  predicate IsFirst(rows: Table, ids: set<nat>, m: nat)
    requires ids <= rows.Keys
  {
    m in ids && forall x :: x in ids && x != m ==> Before(rows, m, x)
  }

  ghost predicate Distinct(q: seq<nat>) {
    forall i, j :: 0 <= i < j < |q| ==> q[i] != q[j]
  }

  lemma {:induction false} FirstExists(rows: Table, ids: set<nat>)
    requires ids <= rows.Keys && ids != {}
    ensures exists m :: m in ids && IsFirst(rows, ids, m)
    decreases |ids|
  {
    var m :| m in ids;
    var rest := ids - {m};
    if rest == {} {
      assert ids == {m};
      assert IsFirst(rows, ids, m);
    } else {
      FirstExists(rows, rest);
      var n :| n in rest && IsFirst(rows, rest, n);
      if Before(rows, m, n) {
        assert forall x :: x in ids && x != m ==> x in rest;
        assert IsFirst(rows, ids, m);
      } else {
        assert forall x :: x in ids && x != m ==> x in rest;
        assert IsFirst(rows, ids, n);
      }
    }
  }

  function First(rows: Table, ids: set<nat>): (m: nat)
    requires ids <= rows.Keys && ids != {}
    ensures IsFirst(rows, ids, m)
  {
    FirstExists(rows, ids);
    var m :| m in ids && IsFirst(rows, ids, m);
    m
  }

  function Ordering(rows: Table, ids: set<nat>): (q: seq<nat>)
    requires ids <= rows.Keys
    ensures forall i :: 0 <= i < |q| ==> q[i] in ids
    decreases |ids|
  {
    if ids == {} then [] else
      var m := First(rows, ids);
      [m] + Ordering(rows, ids - {m})
  }

  lemma {:induction false} OrderingOrders(rows: Table, ids: set<nat>)
    requires ids <= rows.Keys
    ensures IsOrdering(rows, ids, Ordering(rows, ids))
    decreases |ids|
  {
    if ids != {} {
      OrderingOrders(rows, ids - {First(rows, ids)});
    }
  }

  /** The ids of one tunnel's queued rows, oldest first. */
  function Queue(rows: Table, tunnel: nat): (q: seq<nat>)
    ensures forall i :: 0 <= i < |q| ==> q[i] in rows
  {
    Ordering(rows, QueuedIds(rows, tunnel))
  }

  lemma QueueOrdered(rows: Table, tunnel: nat)
    ensures IsOrdering(rows, QueuedIds(rows, tunnel), Queue(rows, tunnel))
  {
    OrderingOrders(rows, QueuedIds(rows, tunnel));
  }

  /** There is only one ordering of a set of rows: the ORDER BY leaves the engine no choice. */
  lemma {:induction false} OrderingUnique(rows: Table, ids: set<nat>, p: seq<nat>, q: seq<nat>)
    requires IsOrdering(rows, ids, p) && IsOrdering(rows, ids, q)
    ensures p == q
    decreases |ids|
  {
    if ids == {} {
      assert p == q == [];
    } else {
      OrderingHead(rows, ids, p);
      OrderingHead(rows, ids, q);
      OrderingTail(rows, ids, p);
      OrderingTail(rows, ids, q);
      OrderingUnique(rows, ids - {p[0]}, p[1..], q[1..]);
      assert p == [p[0]] + p[1..] && q == [q[0]] + q[1..];
    }
  }

  lemma OrderingHead(rows: Table, ids: set<nat>, q: seq<nat>)
    requires IsOrdering(rows, ids, q) && ids != {}
    ensures q != [] && IsFirst(rows, ids, q[0])
  {
    var x :| x in ids;
    assert x in q;
    forall x | x in ids && x != q[0] ensures Before(rows, q[0], x) {
      var i :| 0 <= i < |q| && q[i] == x;
    }
  }

  lemma OrderingDistinct(rows: Table, ids: set<nat>, q: seq<nat>)
    requires IsOrdering(rows, ids, q)
    ensures Distinct(q)
  {
    assert forall i, j :: 0 <= i < j < |q| ==> Before(rows, q[i], q[j]);
  }

  lemma OrderingTail(rows: Table, ids: set<nat>, q: seq<nat>)
    requires IsOrdering(rows, ids, q) && q != []
    ensures IsOrdering(rows, ids - {q[0]}, q[1..])
  {
    forall id | id in ids - {q[0]} ensures id in q[1..] {
      var i :| 0 <= i < |q| && q[i] == id;
      assert q[1..][i - 1] == id;
    }
  }

  /** Dropping the first n of a queue leaves the ordering of the ids that remain. */
  lemma {:induction false} OrderingDrop(rows: Table, ids: set<nat>, q: seq<nat>, n: nat)
    requires IsOrdering(rows, ids, q) && n <= |q|
    ensures IsOrdering(rows, ids - (set id | id in q[..n]), q[n..])
  {
    var rest := ids - (set id | id in q[..n]);
    forall i | 0 <= i < |q[n..]| ensures q[n..][i] in rest {
      assert q[n..][i] == q[n + i];
      assert forall j :: 0 <= j < n ==> Before(rows, q[j], q[n + i]);
    }
    forall id | id in rest ensures id in q[n..] {
      var i :| 0 <= i < |q| && q[i] == id;
      assert forall j :: 0 <= j < n ==> q[j] in q[..n];
      assert q[n..][i - n] == id;
    }
  }

  /** A table as the id sequence leaves it: keyed by its own ids, all of them below the next one. */
  ghost predicate Keyed(rows: Table, nextId: nat) {
    forall id :: id in rows ==> rows[id].id == id && id < nextId
  }

  /** The table as internal/store/events.go updates it, one method per exported operation. */
  class EventStore {
    var rows: Table
    var nextId: nat

    ghost predicate Valid()
      reads this
    {
      Keyed(rows, nextId)
    }

    constructor ()
      ensures Valid()
      ensures rows == map[] && nextId == 1
    {
      rows, nextId := map[], 1;
    }

    method EnqueueEvent(tunnel: nat, request: Request, now: int) returns (id: nat)
      requires Valid()
      modifies this
      ensures Valid()
      ensures id == old(nextId) && nextId == id + 1
      ensures rows == old(rows)[id := Event(id, tunnel, request, now, Queued, 0, 0, None)]
    {
      id := nextId;
      rows, nextId := rows[id := Fresh(id, tunnel, request, now)], nextId + 1;
    }

    /** The scan loop appends one event per result row, in the order of the result. */
    method QueuedEvents(tunnel: nat) returns (out: seq<Event>)
      requires Valid()
      ensures |out| == |Queue(rows, tunnel)|
      ensures forall i :: 0 <= i < |out| ==>
        var id := Queue(rows, tunnel)[i]; id in rows && out[i] == rows[id] && out[i].id == id
    {
      var result := Queue(rows, tunnel);
      QueueOrdered(rows, tunnel);
      out := [];
      for i := 0 to |result|
        invariant |out| == i
        invariant forall j :: 0 <= j < i ==> result[j] in rows && out[j] == rows[result[j]]
      {
        out := out + [rows[result[i]]];
      }
    }

    method EventByID(id: nat) returns (r: Result<Event, StoreError>)
      ensures r == if id in rows then Success(rows[id]) else Failure(NotFound)
    {
      if id !in rows { return Failure(NotFound); }
      return Success(rows[id]);
    }

    method MarkReplaying(id: nat)
      requires Valid()
      modifies this`rows
      ensures Valid()
      ensures rows == if id in old(rows) then old(rows)[id := ReplayingRow(old(rows)[id])] else old(rows)
      ensures id in old(rows) ==>
        var e := old(rows)[id];
        rows[id] == Event(e.id, e.tunnel, e.request, e.receivedAt, Replaying, e.attempts, e.lastStatus, e.deliveredAt)
    {
      if id in rows { rows := rows[id := ReplayingRow(rows[id])]; }
    }

    method MarkDelivered(id: nat, status: int, now: int)
      requires Valid()
      modifies this`rows
      ensures Valid()
      ensures rows == if id in old(rows) then old(rows)[id := DeliveredRow(old(rows)[id], status, now)] else old(rows)
      ensures id in old(rows) ==>
        var e := old(rows)[id];
        rows[id] == Event(e.id, e.tunnel, e.request, e.receivedAt, Delivered, e.attempts + 1, status, Some(now))
    {
      if id in rows { rows := rows[id := DeliveredRow(rows[id], status, now)]; }
    }

    /** Two statements: the first counts the attempt and returns the count, the second sets the state. */
    method MarkFailed(id: nat, status: int) returns (r: Result<(), StoreError>)
      requires Valid()
      modifies this`rows
      ensures Valid()
      ensures rows == if id in old(rows) then old(rows)[id := FailedRow(old(rows)[id], status)] else old(rows)
      ensures id in old(rows) ==>
        var e := old(rows)[id];
        rows[id] == Event(e.id, e.tunnel, e.request, e.receivedAt, if e.attempts + 1 >= 5 then Dead else Queued,
                          e.attempts + 1, status, e.deliveredAt)
      ensures r == if id in old(rows) then Success(()) else Failure(NotFound)
    {
      if id !in rows { return Failure(NotFound); }
      rows := rows[id := CountedRow(rows[id], status)];
      var attempts := rows[id].attempts;
      rows := rows[id := SettledRow(rows[id], attempts)];
      return Success(());
    }

    method RequeueEvent(id: nat)
      requires Valid()
      modifies this`rows
      ensures Valid()
      ensures rows == if id in old(rows) then old(rows)[id := RequeuedRow(old(rows)[id])] else old(rows)
      ensures id in old(rows) ==>
        var e := old(rows)[id];
        rows[id] == Event(e.id, e.tunnel, e.request, e.receivedAt, Queued, 0, 0, None)
    {
      if id in rows { rows := rows[id := RequeuedRow(rows[id])]; }
    }

    method ClearEvents(tunnel: nat)
      requires Valid()
      modifies this`rows
      ensures Valid()
      ensures rows == Without(old(rows), tunnel)
      ensures forall id :: id in rows <==> id in old(rows) && old(rows)[id].tunnel != tunnel
      ensures forall id :: id in rows ==> rows[id] == old(rows)[id]
    {
      rows := Without(rows, tunnel);
    }
  }
}
