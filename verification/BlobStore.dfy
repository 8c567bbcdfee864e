/**
 The receive side of blob frames (agent/src/core/blob.cpp:118-200): chunks collected into whole blobs
 in a bounded store that evicts the oldest.
 */
module BlobStore {
  import opened Common
  import opened BlobCodec

  datatype Entry = Entry(data: seq<Byte>, len: nat, complete: bool, first: int, last: int)

  type Entries = map<string, Entry>

  /** The bytes stored. */
  ghost function Total(m: Entries): nat {
    if m == map[] then 0
    else
      var k :| k in m;
      |m[k].data| + Total(m - {k})
  }

  lemma {:induction false} TotalRemove(m: Entries, k: string)
    requires k in m
    ensures Total(m) == |m[k].data| + Total(m - {k})
    decreases |m|
  {
    var j :| j in m && Total(m) == |m[j].data| + Total(m - {j});
    if j != k {
      TotalRemove(m - {j}, k);
      TotalRemove(m - {k}, j);
      assert m - {j} - {k} == m - {k} - {j};
    }
  }

  lemma TotalUpdate(m: Entries, k: string, e: Entry)
    ensures Total(m[k := e]) == |e.data| + Total(m - {k})
  {
    TotalRemove(m[k := e], k);
    assert m[k := e] - {k} == m - {k};
  }

  // ------------------------------------------------------------------ one chunk

  /** The entry a chunk continues, or begins. */
  function Continued(m: Entries, c: Chunk, now: int): Entry {
    if c.id in m then m[c.id] else Entry([], c.len, false, now, now)
  }

  /** A chunk is taken when its blob is not too large and it begins or continues it without a gap. */
  predicate Accepts(m: Entries, c: Chunk, now: int, maxBlob: nat) {
    && c.len <= maxBlob
    && (c.id !in m ==> c.offset == 0)
    && var e := Continued(m, c, now);
       !e.complete && c.len == e.len && c.offset == |e.data|
  }

  function Extended(m: Entries, c: Chunk, now: int): Entry {
    var e := Continued(m, c, now);
    var data := e.data + c.payload;
    e.(data := data, last := now, complete := |data| == e.len)
  }

  /** The blob a chunk completes. */
  function Completed(m: Entries, c: Chunk, now: int, maxBlob: nat): Option<string> {
    if Accepts(m, c, now, maxBlob) && Extended(m, c, now).complete then Some(c.id) else None
  }

  /** The store before any eviction: a chunk that is not taken discards what its blob had, if that is the reason. */
  function Absorbed(m: Entries, c: Chunk, now: int, maxBlob: nat): Entries {
    if Accepts(m, c, now, maxBlob) then m[c.id := Extended(m, c, now)]
    else if c.len > maxBlob then m
    else m - {c.id}
  }

  /** Begun earlier, or at the same time and first in the order of ids. */
  predicate Older(m: Entries, v: string, k: string)
    requires v in m && k in m
  {
    m[v].first < m[k].first || (m[v].first == m[k].first && Before(v, k))
  }

  /** The oldest blob other than the one to keep. */
  ghost predicate Oldest(m: Entries, keep: string, v: string) {
    v in m && v != keep && forall k :: k in m && k != keep && k != v ==> Older(m, v, k)
  }

  ghost function Without(m: Entries, ids: seq<string>): Entries { map k | k in m && k !in ids :: m[k] }

  /** Evicting `ids[i]` after the ones before it: over the limit still, and the oldest one. */
  ghost predicate EvictedAt(m: Entries, keep: string, limit: nat, ids: seq<string>, i: nat)
    requires i < |ids|
  {
    Total(Without(m, ids[..i])) > limit && |Without(m, ids[..i])| > 1 && Oldest(Without(m, ids[..i]), keep, ids[i])
  }

  /** `after` is `before` with oldest blobs evicted, one by one, while it is over the limit. */
  ghost predicate Evicted(before: Entries, keep: string, limit: nat, victims: seq<string>, after: Entries) {
    && (forall i :: 0 <= i < |victims| ==> EvictedAt(before, keep, limit, victims, i))
    && after == Without(before, victims)
    && (Total(after) <= limit || |after| <= 1)
  }

  /** The evicted are not the kept one, and every one of them is older than anything else that stayed. */
  lemma EvictsOldestFirst(before: Entries, keep: string, limit: nat, victims: seq<string>, after: Entries)
    requires Evicted(before, keep, limit, victims, after)
    ensures keep !in victims && (keep in before ==> keep in after && after[keep] == before[keep])
    ensures forall v :: v in victims ==> v in before && v !in after
    ensures forall v, k :: v in victims && k in after && k != keep ==> Older(before, v, k)
  {
    forall v | v in victims
      ensures v in before && v != keep && forall k :: k in after && k != keep ==> Older(before, v, k)
    {
      var i :| 0 <= i < |victims| && victims[i] == v;
      assert EvictedAt(before, keep, limit, victims, i);
      assert forall k :: k in after ==> k in Without(before, victims[..i]);
    }
  }

  lemma Evicting(m: Entries, keep: string, limit: nat, victims: seq<string>, oldest: string)
    requires forall i :: 0 <= i < |victims| ==> EvictedAt(m, keep, limit, victims, i)
    requires var n := Without(m, victims); Total(n) > limit && |n| > 1 && Oldest(n, keep, oldest)
    ensures forall i :: 0 <= i <= |victims| ==> EvictedAt(m, keep, limit, victims + [oldest], i)
    ensures Without(m, victims + [oldest]) == Without(m, victims) - {oldest}
  {
    var vs := victims + [oldest];
    assert vs[..|victims|] == victims;
    forall i | 0 <= i < |victims| ensures EvictedAt(m, keep, limit, vs, i) {
      assert vs[..i] == victims[..i] && EvictedAt(m, keep, limit, victims, i);
    }
  }

  ghost function Expired(m: Entries, now: int, ttl: int): Entries {
    map k | k in m && now - m[k].last <= ttl :: m[k]
  }

  class BlobAssembler {
    const maxBlob: nat
    const limit: nat
    const ttl: int
    var entries: Entries
    var bytes: nat
    var dropped: nat

    /** The byte count is the sum of what is stored. */
    ghost predicate Valid()
      reads this
    {
      bytes == Total(entries)
    }

    constructor (maxBlob: nat, limit: nat, ttl: int)
      ensures Valid() && entries == map[] && dropped == 0
      ensures this.maxBlob == maxBlob && this.limit == limit && this.ttl == ttl
    {
      this.maxBlob, this.limit, this.ttl := maxBlob, limit, ttl;
      entries, bytes, dropped := map[], 0, 0;
    }

    method Erase(id: string)
      requires Valid() && id in entries
      modifies this`entries, this`bytes
      ensures Valid() && entries == old(entries) - {id}
    {
      TotalRemove(entries, id);
      bytes := bytes - |entries[id].data|;
      entries := entries - {id};
    }

    method FindOldest(keep: string) returns (v: string)
      requires keep in entries && |entries| > 1
      ensures Oldest(entries, keep, v)
    {
      var todo := entries.Keys - {keep};
      assert entries.Keys == todo + {keep};
      assert todo == {} ==> |entries.Keys| == |{keep}|;
      v := First(todo);
      todo := todo - {v};
      while todo != {}
        invariant todo <= entries.Keys - {keep} && v in entries && v != keep && v !in todo
        invariant forall k, x :: k in entries && k != keep && k !in todo && x in todo ==> Before(k, x)
        invariant forall k :: k in entries && k != keep && k !in todo && k != v ==> Older(entries, v, k)
      {
        var k := First(todo);
        if entries[k].first < entries[v].first { v := k; }
        todo := todo - {k};
      }
    }

    method Evict(keep: string) returns (ghost victims: seq<string>)
      requires Valid() && keep in entries
      modifies this
      ensures Valid() && Evicted(old(entries), keep, limit, victims, entries)
      ensures dropped == old(dropped) + |victims|
    {
      victims := [];
      while bytes > limit && |entries| > 1
        invariant Valid() && keep in entries && dropped == old(dropped) + |victims|
        invariant entries == Without(old(entries), victims)
        invariant forall i :: 0 <= i < |victims| ==> EvictedAt(old(entries), keep, limit, victims, i)
        decreases |entries|
      {
        var oldest := FindOldest(keep);
        dropped := dropped + 1;
        Evicting(old(entries), keep, limit, victims, oldest);
        victims := victims + [oldest];
        Erase(oldest);
      }
    }

    method OnChunk(c: Chunk, now: int) returns (completed: Option<string>, ghost victims: seq<string>)
      requires Valid()
      modifies this
      ensures Valid()
      ensures var ok := Accepts(old(entries), c, now, maxBlob);
              && (if ok then Evicted(Absorbed(old(entries), c, now, maxBlob), c.id, limit, victims, entries)
                  else entries == Absorbed(old(entries), c, now, maxBlob) && victims == [])
              && dropped == old(dropped) + |victims| + (if ok then 0 else 1)
              && completed == Completed(old(entries), c, now, maxBlob)
    {
      victims := [];
      if c.len > maxBlob {
        dropped := dropped + 1;
        return None, [];
      }
      if c.id !in entries {
        if c.offset != 0 {
          dropped := dropped + 1;
          assert entries - {c.id} == entries;
          return None, [];
        }
        TotalUpdate(entries, c.id, Entry([], c.len, false, now, now));
        assert entries - {c.id} == entries;
        entries := entries[c.id := Entry([], c.len, false, now, now)];
      }
      var e := entries[c.id];
      if e.complete || c.len != e.len || c.offset != |e.data| {
        dropped := dropped + 1;
        Erase(c.id);
        assert entries == old(entries) - {c.id};
        return None, [];
      }
      e := e.(data := e.data + c.payload, last := now);
      e := e.(complete := |e.data| == e.len);
      TotalRemove(entries, c.id);
      TotalUpdate(entries, c.id, e);
      entries := entries[c.id := e];
      bytes := bytes + |c.payload|;
      assert entries == Absorbed(old(entries), c, now, maxBlob);
      victims := Evict(c.id);
      return if e.complete then Some(c.id) else None, victims;
    }

    method Take(id: string) returns (r: Option<seq<Byte>>)
      requires Valid()
      modifies this`entries, this`bytes
      ensures Valid() && entries == if r.Some? then old(entries) - {id} else old(entries)
      ensures r == if id in old(entries) && old(entries)[id].complete then Some(old(entries)[id].data) else None
    {
      if id !in entries || !entries[id].complete { return None; }
      r := Some(entries[id].data);
      Erase(id);
    }

    method Discard(id: string)
      requires Valid()
      modifies this`entries, this`bytes
      ensures Valid() && entries == old(entries) - {id}
    {
      if id in entries { Erase(id); }
    }

    method Expire(now: int)
      requires Valid()
      modifies this
      ensures Valid() && entries == Expired(old(entries), now, ttl)
      ensures dropped == old(dropped) + |old(entries)| - |entries|
    {
      var todo := entries.Keys;
      while todo != {}
        invariant Valid() && todo <= entries.Keys
        invariant forall k :: k in entries ==> k in old(entries) && entries[k] == old(entries)[k]
        invariant forall k :: k in entries ==> k in todo || now - entries[k].last <= ttl
        invariant forall k :: k in old(entries) && k !in entries ==> now - old(entries)[k].last > ttl
        invariant dropped == old(dropped) + |old(entries)| - |entries|
      {
        var k :| k in todo;
        if now - entries[k].last > ttl {
          dropped := dropped + 1;
          Erase(k);
        }
        todo := todo - {k};
      }
    }
  }

  // ------------------------------------------------------------------ over every run

  /** What can happen to the store; a chunk names the blobs its arrival evicts, oldest first. */
  datatype Label =
    | Arrive(chunk: Chunk, now: int, victims: seq<string>)
    | TakeOut(id: string)
    | Drop(id: string)
    | Age(now: int)

  datatype Bounds = Bounds(maxBlob: nat, limit: nat, ttl: int)

  ghost predicate Enabled(m: Entries, l: Label, b: Bounds) {
    match l
    case Arrive(c, now, victims) =>
      if Accepts(m, c, now, b.maxBlob)
      then Evicted(Absorbed(m, c, now, b.maxBlob), c.id, b.limit, victims,
                   Without(Absorbed(m, c, now, b.maxBlob), victims))
      else victims == []
    case _ => true
  }

  ghost function Apply(m: Entries, l: Label, b: Bounds): Entries {
    match l
    case Arrive(c, now, victims) => Without(Absorbed(m, c, now, b.maxBlob), victims)
    case TakeOut(id) => if id in m && m[id].complete then m - {id} else m
    case Drop(id) => m - {id}
    case Age(now) => Expired(m, now, b.ttl)
  }

  ghost function After(ls: seq<Label>, b: Bounds): Option<Entries> {
    if ls == [] then Some(map[])
    else
      var before := After(ls[..|ls| - 1], b);
      if before.Some? && Enabled(before.value, ls[|ls| - 1], b) then Some(Apply(before.value, ls[|ls| - 1], b))
      else None
  }

  /** A chunk that really is a slice of the blob of its name. */
  ghost predicate IsSlice(c: Chunk, blobs: map<string, seq<Byte>>) {
    && c.id in blobs && c.len == |blobs[c.id]| && c.offset + |c.payload| <= c.len
    && c.payload == blobs[c.id][c.offset..c.offset + |c.payload|]
  }

  ghost predicate StoresPrefixes(m: Entries, blobs: map<string, seq<Byte>>) {
    forall k :: k in m ==>
      k in blobs && m[k].len == |blobs[k]| && m[k].data <= blobs[k] && (m[k].complete <==> |m[k].data| == m[k].len)
  }

  /**
   Whatever was lost, repeated or reordered on the way: what is stored of a blob is a prefix of it,
   and it is complete, so can be taken, exactly when it is the whole.
   */
  lemma {:induction false} OnlyPrefixesStored(ls: seq<Label>, b: Bounds, blobs: map<string, seq<Byte>>)
    requires After(ls, b).Some?
    requires forall i :: 0 <= i < |ls| && ls[i].Arrive? ==> IsSlice(ls[i].chunk, blobs)
    ensures StoresPrefixes(After(ls, b).value, blobs)
    ensures var m := After(ls, b).value; forall k :: k in m && m[k].complete ==> k in blobs && m[k].data == blobs[k]
  {
    if ls != [] {
      var init, l := ls[..|ls| - 1], ls[|ls| - 1];
      OnlyPrefixesStored(init, b, blobs);
      if l.Arrive? {
        var m := After(init, b).value;
        assert IsSlice(l.chunk, blobs);
        if Accepts(m, l.chunk, l.now, b.maxBlob) { ExtendsPrefix(m, l.chunk, l.now, blobs); }
      }
    }
  }

  lemma ExtendsPrefix(m: Entries, c: Chunk, now: int, blobs: map<string, seq<Byte>>)
    requires StoresPrefixes(m, blobs) && IsSlice(c, blobs) && c.offset == |Continued(m, c, now).data|
             && c.len == Continued(m, c, now).len
    ensures Extended(m, c, now).data <= blobs[c.id]
  {
    var blob := blobs[c.id];
    assert blob[..c.offset + |c.payload|] == blob[..c.offset] + blob[c.offset..c.offset + |c.payload|];
  }

  ghost predicate Bounded(m: Entries, b: Bounds) {
    && (Total(m) <= b.limit || |m| <= 1)
    && (forall k :: k in m ==> |m[k].data| <= m[k].len <= b.maxBlob)
  }

  lemma ArriveKeepsBounds(m: Entries, c: Chunk, now: int, victims: seq<string>, b: Bounds)
    requires Bounded(m, b) && Enabled(m, Arrive(c, now, victims), b) && Accepts(m, c, now, b.maxBlob)
    requires c.offset + |c.payload| <= c.len
    ensures Bounded(Apply(m, Arrive(c, now, victims), b), b)
  {
  }

  lemma FewerKeepsBounds(m: Entries, m': Entries, b: Bounds)
    requires Bounded(m, b) && forall k :: k in m' ==> k in m && m'[k] == m[k]
    ensures Bounded(m', b)
  {
    SubsetTotal(m', m);
  }

  lemma StepKeepsBounds(m: Entries, l: Label, b: Bounds)
    requires Bounded(m, b) && Enabled(m, l, b) && (l.Arrive? ==> l.chunk.offset + |l.chunk.payload| <= l.chunk.len)
    ensures Bounded(Apply(m, l, b), b)
  {
    if l.Arrive? && Accepts(m, l.chunk, l.now, b.maxBlob) {
      ArriveKeepsBounds(m, l.chunk, l.now, l.victims, b);
    } else {
      FewerKeepsBounds(m, Apply(m, l, b), b);
    }
  }

  /** The store is within its limit or holds one blob only, and never more than the larger of its two bounds. */
  lemma {:induction false} StoreIsBounded(ls: seq<Label>, b: Bounds)
    requires After(ls, b).Some?
    requires forall i :: 0 <= i < |ls| && ls[i].Arrive?
               ==> ls[i].chunk.offset + |ls[i].chunk.payload| <= ls[i].chunk.len
    ensures Bounded(After(ls, b).value, b)
    ensures Total(After(ls, b).value) <= b.limit || Total(After(ls, b).value) <= b.maxBlob
  {
    if ls != [] {
      StoreIsBounded(ls[..|ls| - 1], b);
      StepKeepsBounds(After(ls[..|ls| - 1], b).value, ls[|ls| - 1], b);
    }
    var m := After(ls, b).value;
    if |m| <= 1 { OneEntryTotal(m, b.maxBlob); }
  }

  lemma {:induction false} SubsetTotal(m: Entries, n: Entries)
    requires forall k :: k in m ==> k in n && m[k] == n[k]
    ensures Total(m) <= Total(n) && |m| <= |n|
    decreases |m|
  {
    assert m.Keys <= n.Keys;
    if k :| k in m {
      TotalRemove(m, k);
      TotalRemove(n, k);
      SubsetTotal(m - {k}, n - {k});
    }
  }

  lemma OneEntryTotal(m: Entries, bound: nat)
    requires |m| <= 1 && forall k :: k in m ==> |m[k].data| <= bound
    ensures Total(m) <= bound
  {
    if k :| k in m {
      TotalRemove(m, k);
      assert m.Keys == {k} by { assert |m.Keys - {k}| == 0; }
      assert m - {k} == map[];
    }
  }

  // ------------------------------------------------------------------ one blob, from the labels alone

  function Stored(m: Entries, id: string): Option<Entry> { if id in m then Some(m[id]) else None }

  /** A blob's own chunk: begun at offset 0, continued exactly where it ends, thrown away by any other. */
  function ChunkTaken(e: Option<Entry>, c: Chunk, now: int, maxBlob: nat): Option<Entry> {
    if c.len > maxBlob then e
    else
      match e
      case None => if c.offset == 0 then Some(Entry(c.payload, c.len, |c.payload| == c.len, now, now)) else None
      case Some(had) =>
        if had.complete || c.len != had.len || c.offset != |had.data| then None
        else Some(Entry(had.data + c.payload, had.len, |had.data| + |c.payload| == had.len, had.first, now))
  }

  function NextOf(e: Option<Entry>, l: Label, b: Bounds, id: string): Option<Entry> {
    match l
    case Arrive(c, now, victims) =>
      if c.id == id then ChunkTaken(e, c, now, b.maxBlob) else if id in victims then None else e
    case TakeOut(k) => if k == id && e.Some? && e.value.complete then None else e
    case Drop(k) => if k == id then None else e
    case Age(now) => if e.Some? && now - e.value.last > b.ttl then None else e
  }

  function StoredAfter(ls: seq<Label>, b: Bounds, id: string): Option<Entry> {
    if ls == [] then None else NextOf(StoredAfter(ls[..|ls| - 1], b, id), ls[|ls| - 1], b, id)
  }

  lemma ArrivalStores(m: Entries, c: Chunk, now: int, victims: seq<string>, b: Bounds, id: string)
    requires Enabled(m, Arrive(c, now, victims), b)
    ensures Stored(Apply(m, Arrive(c, now, victims), b), id)
         == NextOf(Stored(m, id), Arrive(c, now, victims), b, id)
  {
    if Accepts(m, c, now, b.maxBlob) {
      var n := Absorbed(m, c, now, b.maxBlob);
      EvictsOldestFirst(n, c.id, b.limit, victims, Without(n, victims));
      assert [] + c.payload == c.payload;
    }
  }

  /** After any run the store has of every blob what its own chunks, takes, evictions and age leave of it. */
  lemma {:induction false} EveryBlobIsAsItCame(ls: seq<Label>, b: Bounds, id: string)
    requires After(ls, b).Some?
    ensures Stored(After(ls, b).value, id) == StoredAfter(ls, b, id)
  {
    if ls != [] {
      var m, l := After(ls[..|ls| - 1], b).value, ls[|ls| - 1];
      EveryBlobIsAsItCame(ls[..|ls| - 1], b, id);
      if l.Arrive? { ArrivalStores(m, l.chunk, l.now, l.victims, b, id); }
    }
  }
}
