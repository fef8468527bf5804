/** The size-capped snapshot cache (internal/store/snapshots.go). Transactions are
    serialized, and captured_at strictly increases from put to put. */
module Snapshots {
  import opened Options
  import opened Events

  const MAX_SNAPSHOT_BYTES: int := 100 * 0x10_0000

  /** The primary key of the snapshots table. */
  datatype Key = Key(tunnel: nat, path: string, queryHash: string)

  datatype Snapshot = Snapshot(contentType: string, headers: map<string, string>, body: seq<byte>, capturedAt: int)

  type Table = map<Key, Snapshot>

  function KeysOf(rows: Table, tunnel: nat): set<Key> {
    set k | k in rows && k.tunnel == tunnel
  }

  // ----- SELECT SUM(octet_length(body)) -----

  /** Some element of a set, the same one every time. */
  ghost function Pick(ks: set<Key>): (k: Key)
    requires ks != {}
    ensures k in ks
  {
    var k :| k in ks; k
  }

  ghost function Bytes(rows: Table, ks: set<Key>): (n: nat)
    requires ks <= rows.Keys
    decreases |ks|
  {
    if ks == {} then 0 else
      var k := Pick(ks);
      |rows[k].body| + Bytes(rows, ks - {k})
  }

  lemma {:induction false} BytesWithout(rows: Table, ks: set<Key>, k: Key)
    requires ks <= rows.Keys && k in ks
    ensures Bytes(rows, ks) == |rows[k].body| + Bytes(rows, ks - {k})
    decreases |ks|
  {
    var p := Pick(ks);
    if p != k {
      BytesWithout(rows, ks - {p}, k);
      BytesWithout(rows, ks - {k}, p);
      assert ks - {p} - {k} == ks - {k} - {p};
    }
  }

  lemma {:induction false} BytesMonotone(rows: Table, small: set<Key>, large: set<Key>)
    requires small <= large <= rows.Keys
    ensures Bytes(rows, small) <= Bytes(rows, large)
    decreases |large|
  {
    if small != large {
      var k :| k in large && k !in small;
      BytesWithout(rows, large, k);
      BytesMonotone(rows, small, large - {k});
    } else {
      assert small == large;
    }
  }

  lemma {:induction false} BytesSame(rows: Table, other: Table, ks: set<Key>)
    requires ks <= rows.Keys && ks <= other.Keys && forall k :: k in ks ==> rows[k] == other[k]
    ensures Bytes(rows, ks) == Bytes(other, ks)
    decreases |ks|
  {
    if ks != {} {
      BytesSame(rows, other, ks - {Pick(ks)});
    }
  }

  // ----- Eviction -----

  /** No two snapshots of a tunnel were captured at the same time. */
  ghost predicate DistinctTimes(rows: Table) {
    forall j, k :: j in rows && k in rows && j.tunnel == k.tunnel && j != k ==> rows[j].capturedAt != rows[k].capturedAt
  }

  /** k and everything of its tunnel captured after it. */
  function Since(rows: Table, k: Key): set<Key>
    requires k in rows
  {
    set j | j in rows && j.tunnel == k.tunnel && rows[j].capturedAt >= rows[k].capturedAt
  }

  /** A snapshot survives exactly if it fits under the cap together with everything newer. */
  ghost predicate Fits(rows: Table, k: Key)
    requires k in rows
  {
    Bytes(rows, Since(rows, k)) <= MAX_SNAPSHOT_BYTES
  }

  ghost function Evicted(rows: Table, tunnel: nat): Table {
    map k | k in rows && (k.tunnel != tunnel || Fits(rows, k)) :: rows[k]
  }

  predicate IsOldest(rows: Table, tunnel: nat, k: Key) {
    k in KeysOf(rows, tunnel) && forall j :: j in KeysOf(rows, tunnel) ==> rows[k].capturedAt <= rows[j].capturedAt
  }

  lemma {:induction false} OldestExists(rows: Table, ks: set<Key>)
    requires ks <= rows.Keys && ks != {}
    ensures exists k :: k in ks && forall j :: j in ks ==> rows[k].capturedAt <= rows[j].capturedAt
    decreases |ks|
  {
    var x := Pick(ks);
    var rest := ks - {x};
    if rest != {} {
      OldestExists(rows, rest);
      var y :| y in rest && forall j :: j in rest ==> rows[y].capturedAt <= rows[j].capturedAt;
      var m := if rows[x].capturedAt <= rows[y].capturedAt then x else y;
      assert forall j :: j in ks ==> j == x || j in rest;
      assert m in ks && forall j :: j in ks ==> rows[m].capturedAt <= rows[j].capturedAt;
    } else {
      assert ks == {x};
    }
  }

  lemma BytesNone(rows: Table)
    ensures Bytes(rows, {}) == 0
  {
  }

  lemma FitsUpward(rows: Table, k: Key, j: Key)
    requires k in rows && j in rows && j.tunnel == k.tunnel && rows[k].capturedAt <= rows[j].capturedAt && Fits(rows, k)
    ensures Fits(rows, j)
  {
    BytesMonotone(rows, Since(rows, j), Since(rows, k));
  }

  predicate NoOlder(rows: Table, k: Key, j: Key)
    requires k in rows && j in rows
  {
    rows[k].capturedAt <= rows[j].capturedAt
  }

  /** How far the eviction loop has come: what is gone is the older part of the tunnel. */
  ghost predicate PartlyEvicted(before: Table, rows: Table, tunnel: nat) {
    && rows.Keys <= before.Keys && (forall k :: k in rows ==> rows[k] == before[k])
    && (forall k :: k in before && k.tunnel != tunnel ==> k in rows)
    && (forall k {:trigger Fits(before, k)} :: k in before && k !in rows ==> !Fits(before, k))
    && (forall k, j :: k in rows && j in before && j.tunnel == k.tunnel == tunnel && NoOlder(before, k, j) ==> j in rows)
  }

  lemma {:induction false} OldestSeesAll(before: Table, rows: Table, tunnel: nat, k: Key)
    requires PartlyEvicted(before, rows, tunnel) && IsOldest(rows, tunnel, k)
    ensures Since(before, k) == KeysOf(rows, tunnel)
  {
    forall j ensures j in Since(before, k) <==> j in KeysOf(rows, tunnel) {
      if j in before && j.tunnel == tunnel && NoOlder(before, k, j) {
        assert j in rows;
      }
    }
  }

  lemma BytesAfterDelete(rows: Table, tunnel: nat, k: Key)
    requires k in KeysOf(rows, tunnel)
    ensures Bytes(rows - {k}, KeysOf(rows - {k}, tunnel)) == Bytes(rows, KeysOf(rows, tunnel)) - |rows[k].body|
  {
    BytesWithout(rows, KeysOf(rows, tunnel), k);
    assert KeysOf(rows - {k}, tunnel) == KeysOf(rows, tunnel) - {k};
    BytesSame(rows, rows - {k}, KeysOf(rows, tunnel) - {k});
  }

  /** Over the cap, the oldest snapshot that is left does not fit, so evicting it is right. */
  lemma {:induction false} OldestGoes(before: Table, rows: Table, tunnel: nat, k: Key)
    requires DistinctTimes(before) && PartlyEvicted(before, rows, tunnel) && IsOldest(rows, tunnel, k)
    requires Bytes(rows, KeysOf(rows, tunnel)) > MAX_SNAPSHOT_BYTES
    ensures PartlyEvicted(before, rows - {k}, tunnel)
  {
    assert !Fits(before, k) by {
      OldestSeesAll(before, rows, tunnel, k);
      BytesSame(before, rows, KeysOf(rows, tunnel));
    }
    forall i, j | i in rows && i != k && j in before && j.tunnel == i.tunnel == tunnel && NoOlder(before, i, j)
      ensures j in rows - {k}
    {
      assert j in rows;
      assert i in KeysOf(rows, tunnel);
      assert rows[k].capturedAt != rows[i].capturedAt;
    }
  }

  /** Under the cap, what is left fits. */
  lemma {:induction false} RestFits(before: Table, rows: Table, k: Key)
    requires PartlyEvicted(before, rows, k.tunnel) && k in rows
    requires Bytes(rows, KeysOf(rows, k.tunnel)) <= MAX_SNAPSHOT_BYTES
    ensures Fits(before, k)
  {
    forall j | j in Since(before, k) ensures j in KeysOf(rows, k.tunnel) {
      assert NoOlder(before, k, j);
    }
    BytesSame(before, rows, Since(before, k));
    BytesMonotone(rows, Since(before, k), KeysOf(rows, k.tunnel));
  }

  /** The loop stops at the first moment it may. */
  lemma {:induction false} RestStays(before: Table, rows: Table, tunnel: nat)
    requires PartlyEvicted(before, rows, tunnel)
    requires Bytes(rows, KeysOf(rows, tunnel)) <= MAX_SNAPSHOT_BYTES
    ensures rows == Evicted(before, tunnel)
  {
    forall k | k in before ensures k in rows <==> k.tunnel != tunnel || Fits(before, k) {
      if k in rows && k.tunnel == tunnel {
        RestFits(before, rows, k);
      }
    }
  }

  /** The clock has moved on since the last put. */
  ghost predicate AllBefore(rows: Table, now: int) {
    forall k :: k in rows ==> rows[k].capturedAt < now
  }

  lemma UpsertKeepsDistinct(rows: Table, key: Key, snap: Snapshot)
    requires DistinctTimes(rows) && AllBefore(rows, snap.capturedAt)
    ensures DistinctTimes(rows[key := snap]) && PartlyEvicted(rows[key := snap], rows[key := snap], key.tunnel)
  {
  }

  lemma OverCapMeansSome(rows: Table, tunnel: nat)
    requires Bytes(rows, KeysOf(rows, tunnel)) > MAX_SNAPSHOT_BYTES
    ensures KeysOf(rows, tunnel) != {}
  {
    BytesNone(rows);
  }

  /** after is before without one oldest snapshot of the tunnel, of the given size. */
  ghost predicate OldestDeleted(before: Table, after: Table, tunnel: nat, size: nat) {
    exists k :: IsOldest(before, tunnel, k) && after == before - {k} && size == |before[k].body|
  }

  lemma {:induction false} EvictStep(before: Table, was: Table, rows: Table, tunnel: nat, size: nat)
    requires DistinctTimes(before) && PartlyEvicted(before, was, tunnel) && OldestDeleted(was, rows, tunnel, size)
    requires Bytes(was, KeysOf(was, tunnel)) > MAX_SNAPSHOT_BYTES
    ensures PartlyEvicted(before, rows, tunnel) && |rows| < |was|
    ensures Bytes(rows, KeysOf(rows, tunnel)) == Bytes(was, KeysOf(was, tunnel)) - size
  {
    var k :| IsOldest(was, tunnel, k) && rows == was - {k} && size == |was[k].body|;
    OldestGoes(before, was, tunnel, k);
    BytesAfterDelete(was, tunnel, k);
    assert rows.Keys == was.Keys - {k};
  }

  /** What the eviction loop keeps: total is the true sum of what is left. */
  ghost predicate Evicting(before: Table, rows: Table, tunnel: nat, total: int) {
    DistinctTimes(before) && PartlyEvicted(before, rows, tunnel) && total == Bytes(rows, KeysOf(rows, tunnel))
  }

  lemma EvictingStarts(rows: Table, key: Key, snap: Snapshot, total: int)
    requires DistinctTimes(rows) && AllBefore(rows, snap.capturedAt)
    requires total == Bytes(rows[key := snap], KeysOf(rows[key := snap], key.tunnel))
    ensures Evicting(rows[key := snap], rows[key := snap], key.tunnel, total)
  {
    UpsertKeepsDistinct(rows, key, snap);
  }

  lemma EvictingGoesOn(before: Table, was: Table, rows: Table, tunnel: nat, total: int, size: nat)
    requires Evicting(before, was, tunnel, total) && total > MAX_SNAPSHOT_BYTES
    requires OldestDeleted(was, rows, tunnel, size)
    ensures Evicting(before, rows, tunnel, total - size) && |rows| < |was|
  {
    EvictStep(before, was, rows, tunnel, size);
  }

  lemma EvictingNeedsRows(before: Table, rows: Table, tunnel: nat, total: int)
    requires Evicting(before, rows, tunnel, total) && total > MAX_SNAPSHOT_BYTES
    ensures KeysOf(rows, tunnel) != {}
  {
    OverCapMeansSome(rows, tunnel);
  }

  lemma EvictingEnds(before: Table, rows: Table, tunnel: nat, total: int)
    requires Evicting(before, rows, tunnel, total) && total <= MAX_SNAPSHOT_BYTES
    ensures rows == Evicted(before, tunnel) && Bytes(rows, KeysOf(rows, tunnel)) <= MAX_SNAPSHOT_BYTES
  {
    RestStays(before, rows, tunnel);
  }

  class SnapshotStore {
    var rows: Table

    constructor ()
      ensures rows == map[]
    {
      rows := map[];
    }

    method SumBytes(tunnel: nat) returns (total: nat)
      ensures total == Bytes(rows, KeysOf(rows, tunnel))
    {
      total := 0;
      var todo := KeysOf(rows, tunnel);
      while todo != {}
        invariant todo <= KeysOf(rows, tunnel)
        invariant total + Bytes(rows, todo) == Bytes(rows, KeysOf(rows, tunnel))
        decreases |todo|
      {
        var k :| k in todo;
        BytesWithout(rows, todo, k);
        total := total + |rows[k].body|;
        todo := todo - {k};
      }
    }

    /** DELETE of the oldest row, RETURNING its size; None when there is no row. */
    method DeleteOldest(tunnel: nat) returns (r: Option<nat>)
      modifies this
      ensures r.None? ==> rows == old(rows) && KeysOf(rows, tunnel) == {}
      ensures r.Some? ==> OldestDeleted(old(rows), rows, tunnel, r.value)
    {
      if KeysOf(rows, tunnel) == {} { return None; }
      OldestExists(rows, KeysOf(rows, tunnel));
      var k :| k in rows && IsOldest(rows, tunnel, k);
      r := Some(|rows[k].body|);
      rows := rows - {k};
      assert IsOldest(old(rows), tunnel, k) && rows == old(rows) - {k};
    }

    method PutSnapshot(key: Key, contentType: string, headers: map<string, string>, body: seq<byte>, now: int)
      requires DistinctTimes(rows) && AllBefore(rows, now)
      modifies this
      ensures rows == Evicted(old(rows)[key := Snapshot(contentType, headers, body, now)], key.tunnel)
      ensures Bytes(rows, KeysOf(rows, key.tunnel)) <= 104_857_600
    {
      rows := rows[key := Snapshot(contentType, headers, body, now)];
      ghost var before := rows;
      var total := SumBytes(key.tunnel);
      EvictingStarts(old(rows), key, before[key], total);
      while total > MAX_SNAPSHOT_BYTES
        invariant Evicting(before, rows, key.tunnel, total)
        decreases |rows|
      {
        ghost var was := rows;
        EvictingNeedsRows(before, rows, key.tunnel, total);
        var evicted := DeleteOldest(key.tunnel);
        if evicted.None? {
          assert false;
          break;
        }
        EvictingGoesOn(before, was, rows, key.tunnel, total, evicted.value);
        total := total - evicted.value;
      }
      EvictingEnds(before, rows, key.tunnel, total);
    }

    method GetSnapshot(key: Key) returns (r: Result<Snapshot, StoreError>)
      ensures r == if key in rows then Success(rows[key]) else Failure(NotFound)
    {
      if key !in rows { return Failure(NotFound); }
      return Success(rows[key]);
    }

    method SnapshotStats(tunnel: nat) returns (pages: nat, bytes: nat)
      ensures pages == |KeysOf(rows, tunnel)| && bytes == Bytes(rows, KeysOf(rows, tunnel))
    {
      pages := |KeysOf(rows, tunnel)|;
      bytes := SumBytes(tunnel);
    }
  }

  // ----- What eviction keeps -----

  /** Everything of the tunnel that is newer than something in ks is in ks. */
  ghost predicate NewestFirst(rows: Table, tunnel: nat, ks: set<Key>) {
    && ks <= KeysOf(rows, tunnel)
    && forall k, j :: k in ks && j in KeysOf(rows, tunnel) && NoOlder(rows, k, j) ==> j in ks
  }

  /** Of all the ways to drop a tunnel's oldest snapshots until it is under 100 MiB, the
      loop drops the least; other tunnels lose nothing. */
  lemma {:induction false} EvictsAsLittleAsPossible(rows: Table, tunnel: nat)
    ensures var t := Evicted(rows, tunnel);
      && t.Keys <= rows.Keys && (forall k :: k in t ==> t[k] == rows[k])
      && (forall k :: k in rows && k.tunnel != tunnel ==> k in t)
      && NewestFirst(rows, tunnel, KeysOf(t, tunnel))
      && Bytes(rows, KeysOf(t, tunnel)) <= 104_857_600
      && (forall ks :: NewestFirst(rows, tunnel, ks) && Bytes(rows, ks) <= 104_857_600 ==> ks <= KeysOf(t, tunnel))
  {
    var t := Evicted(rows, tunnel);
    var kept := KeysOf(t, tunnel);
    forall k, j | k in kept && j in KeysOf(rows, tunnel) && NoOlder(rows, k, j) ensures j in kept {
      FitsUpward(rows, k, j);
    }
    if kept == {} {
      BytesNone(rows);
    } else {
      OldestExists(rows, kept);
      var k :| k in kept && forall j :: j in kept ==> rows[k].capturedAt <= rows[j].capturedAt;
      BytesMonotone(rows, kept, Since(rows, k));
    }
    forall ks, k | NewestFirst(rows, tunnel, ks) && Bytes(rows, ks) <= MAX_SNAPSHOT_BYTES && k in ks ensures k in kept {
      assert forall j :: j in Since(rows, k) ==> NoOlder(rows, k, j);
      assert Since(rows, k) <= ks;
      BytesMonotone(rows, Since(rows, k), ks);
    }
  }

  /** A snapshot that is itself no larger than the cap survives its own eviction pass. */
  lemma NewestSurvives(rows: Table, key: Key, snap: Snapshot)
    requires AllBefore(rows, snap.capturedAt) && |snap.body| <= MAX_SNAPSHOT_BYTES
    ensures var t := Evicted(rows[key := snap], key.tunnel);
      key in t && t[key] == snap
  {
    var u := rows[key := snap];
    assert Since(u, key) == {key};
    BytesWithout(u, {key}, key);
    assert {key} - {key} == {};
    BytesNone(u);
  }

  // ----- Against the log of writes -----

  datatype Put = Put(key: Key, snap: Snapshot)

  /** Every put of every tunnel, oldest first. */
  type Log = seq<Put>

  ghost predicate Increasing(log: Log) {
    forall i, j :: 0 <= i < j < |log| ==> log[i].snap.capturedAt < log[j].snap.capturedAt
  }

  ghost function Replay(log: Log): Table {
    if log == [] then map[] else
      var last := log[|log| - 1];
      Evicted(Replay(log[..|log| - 1])[last.key := last.snap], last.key.tunnel)
  }

  /** The i-th put is the last one for key. */
  ghost predicate LastWrite(log: Log, key: Key, i: int) {
    0 <= i < |log| && log[i].key == key && forall j :: i < j < |log| ==> log[j].key != key
  }

  ghost predicate HoldsLastWrite(log: Log, t: Table, key: Key)
    requires key in t
  {
    exists i :: LastWrite(log, key, i) && log[i].snap == t[key]
  }

  ghost predicate WrittenAfter(log: Log, j: Key, k: Key) {
    exists i, m :: i < m && LastWrite(log, k, i) && LastWrite(log, j, m)
  }

  /** What is present is its last write, and whatever its tunnel wrote later is present too. */
  ghost predicate AgreesWithLog(log: Log, t: Table) {
    && (forall k :: k in t ==> HoldsLastWrite(log, t, k))
    && (forall k: Key, j: Key :: k in t && j.tunnel == k.tunnel && WrittenAfter(log, j, k) ==> j in t)
  }

  lemma LastWriteBefore(log: Log, key: Key, i: int)
    requires LastWrite(log, key, i) && i < |log| - 1
    ensures LastWrite(log[..|log| - 1], key, i)
  {
  }

  lemma LastWriteAfter(log: Log, key: Key, i: int)
    requires log != [] && LastWrite(log[..|log| - 1], key, i) && log[|log| - 1].key != key
    ensures LastWrite(log, key, i)
  {
    forall j | i < j < |log| ensures log[j].key != key {
      if j < |log| - 1 { assert log[..|log| - 1][j] == log[j]; }
    }
  }

  lemma PutKeepsLastWrites(log: Log, t: Table, k: Key)
    requires log != [] && AgreesWithLog(log[..|log| - 1], t)
    requires var p := log[|log| - 1]; k in Evicted(t[p.key := p.snap], p.key.tunnel)
    ensures var p := log[|log| - 1]; HoldsLastWrite(log, Evicted(t[p.key := p.snap], p.key.tunnel), k)
  {
    var n := |log| - 1;
    if k == log[n].key {
      assert LastWrite(log, k, n);
    } else {
      assert HoldsLastWrite(log[..n], t, k);
      var i :| LastWrite(log[..n], k, i) && log[..n][i].snap == t[k];
      LastWriteAfter(log, k, i);
    }
  }

  lemma PutKeepsSuffix(log: Log, t: Table, k: Key, j: Key)
    requires log != [] && Increasing(log) && AgreesWithLog(log[..|log| - 1], t)
    requires j.tunnel == k.tunnel && WrittenAfter(log, j, k)
    requires var p := log[|log| - 1]; k in Evicted(t[p.key := p.snap], p.key.tunnel)
    ensures var p := log[|log| - 1]; j in Evicted(t[p.key := p.snap], p.key.tunnel)
  {
    var n := |log| - 1;
    var p := log[n];
    var u := t[p.key := p.snap];
    var i, m :| i < m && LastWrite(log, k, i) && LastWrite(log, j, m);
    LastWriteBefore(log, k, i);
    assert HoldsLastWrite(log[..n], t, k);
    var i' :| LastWrite(log[..n], k, i') && log[..n][i'].snap == t[k];
    assert i' == i;
    if m < n {
      LastWriteBefore(log, j, m);
      assert WrittenAfter(log[..n], j, k);
      assert HoldsLastWrite(log[..n], t, j);
      var m' :| LastWrite(log[..n], j, m') && log[..n][m'].snap == t[j];
      assert m' == m;
    }
    assert u[k].capturedAt < u[j].capturedAt;
    if k.tunnel == p.key.tunnel {
      FitsUpward(u, k, j);
    }
  }

  ghost predicate UnderCap(t: Table) {
    forall tunnel: nat :: Bytes(t, KeysOf(t, tunnel)) <= MAX_SNAPSHOT_BYTES
  }

  lemma PutKeepsUnderCap(t: Table, key: Key, snap: Snapshot, tunnel: nat)
    requires UnderCap(t)
    ensures var t' := Evicted(t[key := snap], key.tunnel);
      Bytes(t', KeysOf(t', tunnel)) <= MAX_SNAPSHOT_BYTES
  {
    var u := t[key := snap];
    var t' := Evicted(u, key.tunnel);
    if tunnel == key.tunnel {
      EvictsAsLittleAsPossible(u, tunnel);
      BytesSame(u, t', KeysOf(t', tunnel));
    } else {
      assert KeysOf(t', tunnel) == KeysOf(t, tunnel);
      BytesSame(t, t', KeysOf(t, tunnel));
    }
  }

  /** What every run of puts, over any tunnels, sizes and keys, keeps; the premises of the
      next put are part of it. */
  lemma {:induction false} CacheAgreesWithLog(log: Log)
    requires Increasing(log)
    ensures var t := Replay(log);
      && AgreesWithLog(log, t) && UnderCap(t) && DistinctTimes(t)
      && (log != [] ==> forall k :: k in t ==> t[k].capturedAt <= log[|log| - 1].snap.capturedAt)
    decreases |log|
  {
    var t := Replay(log);
    if log == [] {
      forall tunnel: nat ensures Bytes(t, KeysOf(t, tunnel)) <= MAX_SNAPSHOT_BYTES {
        assert KeysOf(t, tunnel) == {};
        BytesNone(t);
      }
    } else {
      var n := |log| - 1;
      var before := Replay(log[..n]);
      CacheAgreesWithLog(log[..n]);
      assert forall k :: k in before ==> before[k].capturedAt < log[n].snap.capturedAt;
      UpsertKeepsDistinct(before, log[n].key, log[n].snap);
      forall k | k in t ensures HoldsLastWrite(log, t, k) { PutKeepsLastWrites(log, before, k); }
      forall k: Key, j: Key | k in t && j.tunnel == k.tunnel && WrittenAfter(log, j, k) ensures j in t {
        PutKeepsSuffix(log, before, k, j);
      }
      forall tunnel: nat ensures Bytes(t, KeysOf(t, tunnel)) <= MAX_SNAPSHOT_BYTES {
        PutKeepsUnderCap(before, log[n].key, log[n].snap, tunnel);
      }
    }
  }

  /** After any run of puts, a snapshot that is present is the last one written for its key. */
  lemma PresentIsLastWrite(log: Log, key: Key)
    requires Increasing(log) && key in Replay(log)
    ensures HoldsLastWrite(log, Replay(log), key)
  {
    CacheAgreesWithLog(log);
  }

  /** Per tunnel the keys that are present are the most recently written ones. */
  lemma LaterIsPresent(log: Log, k: Key, j: Key)
    requires Increasing(log) && k in Replay(log) && j.tunnel == k.tunnel && WrittenAfter(log, j, k)
    ensures j in Replay(log)
  {
    CacheAgreesWithLog(log);
  }

  /** No tunnel is ever over the cap of 100 MiB. */
  lemma NeverOverCap(log: Log, tunnel: nat)
    requires Increasing(log)
    ensures Bytes(Replay(log), KeysOf(Replay(log), tunnel)) <= 104_857_600
  {
    CacheAgreesWithLog(log);
  }

  /** The very last put is present, if it is no larger than the cap. */
  lemma LastPutIsPresent(log: Log)
    requires Increasing(log) && log != [] && |log[|log| - 1].snap.body| <= 104_857_600
    ensures var last := log[|log| - 1];
      last.key in Replay(log) && Replay(log)[last.key] == last.snap
  {
    var n := |log| - 1;
    CacheAgreesWithLog(log[..n]);
    NewestSurvives(Replay(log[..n]), log[n].key, log[n].snap);
  }
}
