/** The tee in the live proxy (internal/edge/proxy.go): a response streams to the
    client and, if it stays small enough, into the snapshot cache. */
module Tee {
  import opened Events
  import opened Snapshots
  import Routing

  const MAX_TEE_BODY: nat := 20 * 0x10_0000

  function Concat(chunks: seq<seq<byte>>): seq<byte> {
    if chunks == [] then [] else Concat(chunks[..|chunks| - 1]) + chunks[|chunks| - 1]
  }

  lemma {:induction false} ConcatJoins(a: seq<seq<byte>>, b: seq<seq<byte>>)
    ensures Concat(a + b) == Concat(a) + Concat(b)
    ensures |b| == 1 ==> Concat(b) == b[0]
  {
    if b == [] {
      assert a + b == a;
    } else {
      ConcatJoins(a, b[..|b| - 1]);
      assert (a + b)[..|a + b| - 1] == a + b[..|b| - 1];
    }
  }

  class CappedBuffer {
    var buf: seq<byte>
    const limit: nat
    var over: bool

    constructor (limit: nat)
      ensures this.limit == limit && buf == [] && !over
    {
      this.limit, buf, over := limit, [], false;
    }

    /** The buffer after the chunks written so far: all of them, or flagged as over. */
    ghost predicate Holds(written: seq<seq<byte>>)
      reads this
    {
      && (over <==> |Concat(written)| > limit)
      && (!over ==> buf == Concat(written))
    }

    method Write(p: seq<byte>, ghost written: seq<seq<byte>>) returns (n: nat)
      requires Holds(written)
      modifies this
      ensures n == |p| && Holds(written + [p])
    {
      assert (written + [p])[..|written|] == written;
      if !over {
        if |buf| + |p| > limit {
          over := true;
        } else {
          buf := buf + p;
        }
      }
      return |p|;
    }
  }

  // ----- Which headers are kept for later visitors -----

  /** Headers of one connection, and of one visitor. */
  const HOP_BY_HOP: seq<string> := [
    "Connection", "Keep-Alive", "Proxy-Authenticate", "Proxy-Authorization",
    "Te", "Trailer", "Transfer-Encoding", "Upgrade", "Set-Cookie", "Content-Length"
  ]

  predicate IsHopByHop(name: string) {
    exists i :: 0 <= i < |HOP_BY_HOP| && Routing.Lower(HOP_BY_HOP[i]) == Routing.Lower(name)
  }

  function Stored(h: Headers): map<string, string> {
    map k | k in h && !IsHopByHop(k) && h[k] != [] :: h[k][0]
  }

  method StoredHeaders(h: Headers) returns (out: map<string, string>)
    ensures out == Stored(h)
  {
    out := map[];
    var todo := h.Keys;
    while todo != {}
      invariant todo <= h.Keys
      invariant forall k :: k in out <==> k in h && k !in todo && !IsHopByHop(k) && h[k] != []
      invariant forall k :: k in out ==> out[k] == h[k][0]
      decreases |todo|
    {
      var k :| k in todo;
      todo := todo - {k};
      if !IsHopByHop(k) && h[k] != [] {
        out := out[k := h[k][0]];
      }
    }
  }

  /** In any case, one of the names of the headers that are not kept. */
  predicate Dropped(k: string) {
    || Routing.SameName(k, "Connection") || Routing.SameName(k, "Keep-Alive")
    || Routing.SameName(k, "Proxy-Authenticate") || Routing.SameName(k, "Proxy-Authorization")
    || Routing.SameName(k, "Te") || Routing.SameName(k, "Trailer")
    || Routing.SameName(k, "Transfer-Encoding") || Routing.SameName(k, "Upgrade")
    || Routing.SameName(k, "Set-Cookie") || Routing.SameName(k, "Content-Length")
  }

  lemma TenNames()
    ensures |HOP_BY_HOP| == 10
    ensures HOP_BY_HOP[0] == "Connection" && HOP_BY_HOP[1] == "Keep-Alive" && HOP_BY_HOP[2] == "Proxy-Authenticate"
    ensures HOP_BY_HOP[3] == "Proxy-Authorization" && HOP_BY_HOP[4] == "Te" && HOP_BY_HOP[5] == "Trailer"
    ensures HOP_BY_HOP[6] == "Transfer-Encoding" && HOP_BY_HOP[7] == "Upgrade"
    ensures HOP_BY_HOP[8] == "Set-Cookie" && HOP_BY_HOP[9] == "Content-Length"
  {
  }

  predicate NameAt(k: string, i: nat) {
    i < |HOP_BY_HOP| && Routing.SameName(k, HOP_BY_HOP[i])
  }

  lemma HopByHopIff(k: string)
    ensures IsHopByHop(k) <==> exists i :: NameAt(k, i)
  {
    forall i | 0 <= i < |HOP_BY_HOP|
      ensures Routing.Lower(HOP_BY_HOP[i]) == Routing.Lower(k) <==> NameAt(k, i)
    {
      Routing.SameNameIff(k, HOP_BY_HOP[i]);
    }
  }

  lemma DroppedIff(k: string)
    ensures IsHopByHop(k) <==> Dropped(k)
  {
    HopByHopIff(k);
    TenNames();
    if Dropped(k) {
      assert NameAt(k, 0) || NameAt(k, 1) || NameAt(k, 2) || NameAt(k, 3) || NameAt(k, 4)
        || NameAt(k, 5) || NameAt(k, 6) || NameAt(k, 7) || NameAt(k, 8) || NameAt(k, 9);
    }
  }

  /** A header is kept, with its first value, exactly if it has one and its name is none of
      the ten in any case: no cookie and no stale length, however they are spelled, and all
      the rest. */
  lemma KeptIff(h: Headers, k: string)
    ensures k in Stored(h) <==> k in h && h[k] != [] && !Dropped(k)
    ensures k in Stored(h) ==> Stored(h)[k] == h[k][0]
  {
    DroppedIff(k);
  }

  /** The tee branch: broken says that the copy ends in an error after the given chunks. */
  method ForwardAndStore(st: SnapshotStore, cacheable: bool, key: Key, contentType: string, headers: Headers,
      chunks: seq<seq<byte>>, broken: bool, now: int) returns (client: seq<byte>)
    requires DistinctTimes(st.rows) && AllBefore(st.rows, now)
    modifies st
    ensures client == Concat(chunks)
    ensures !cacheable || broken || |Concat(chunks)| > 20_971_520 ==> st.rows == old(st.rows)
    ensures cacheable && !broken && |Concat(chunks)| <= 20_971_520 ==>
      && st.rows == Evicted(old(st.rows)[key := Snapshot(contentType, Stored(headers), Concat(chunks), now)], key.tunnel)
      && key in st.rows && st.rows[key] == Snapshot(contentType, Stored(headers), Concat(chunks), now)
  {
    client := [];
    var cb := new CappedBuffer(MAX_TEE_BODY);
    for i := 0 to |chunks|
      invariant client == Concat(chunks[..i]) && (cacheable ==> cb.Holds(chunks[..i]))
      invariant st.rows == old(st.rows)
    {
      assert chunks[..i] + [chunks[i]] == chunks[..i + 1];
      assert chunks[..i + 1][..i] == chunks[..i];
      client := client + chunks[i];
      if cacheable {
        var _ := cb.Write(chunks[i], chunks[..i]);
      }
    }
    assert chunks[..|chunks|] == chunks;
    if broken || !cacheable { return; }
    if !cb.over {
      var kept := StoredHeaders(headers);
      NewestSurvives(st.rows, key, Snapshot(contentType, kept, cb.buf, now));
      st.PutSnapshot(key, contentType, kept, cb.buf, now);
    }
  }
}
