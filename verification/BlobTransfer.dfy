/**
 Blob transfer end to end: the pump, an ordered channel and the store at the other end, over every
 pattern of refusals, cancellations and delays.
 */
module BlobTransfer {
  import opened Common
  import opened BlobCodec
  import opened BlobStore
  import P = BlobPump

  /** A blob as it was enqueued; its index is its ticket. */
  datatype Job = Job(id: string, data: P.Blob)

  /** `lost`: the tickets whose blob the receiver let expire in the middle of receiving it. */
  datatype State = State(pump: P.State, jobs: seq<Job>, seen: nat, store: Entries, lost: set<nat>)

  datatype Link = Link(chunk: nat, bounds: Bounds)

  datatype Label =
    | Pumped(step: P.Label)
    | Deliver(now: int, victims: seq<string>)
    | TakeBlob(id: string)
    | AgeStore(now: int)

  const START := State(P.State([], [], [], 0), [], 0, map[], {})

  function Name(j: Job): string { LowerCase(j.id) }

  /** The next frame of the channel, as the receiver parses it. */
  ghost predicate HasChunk(s: State) { s.seen < |s.pump.wire| && Parsed(s.pump.wire[s.seen].frame).Some? }

  ghost function NextChunk(s: State): Chunk
    requires HasChunk(s)
  {
    Parsed(s.pump.wire[s.seen].frame).value
  }

  /** The blob last received from is not whole, and has had no frame for longer than the time to live. */
  ghost predicate TimesOut(s: State, now: int, k: Link) {
    0 < s.seen <= |s.pump.wire| &&
    var n := s.pump.wire[s.seen - 1].ticket;
    n < |s.jobs| &&
    var x := Name(s.jobs[n]);
    x in s.store && !s.store[x].complete && now - s.store[x].last > k.bounds.ttl
  }

  /** Enqueued ids are uuids, all different whatever their case, and blobs are within the receiver's bound. */
  ghost predicate Enabled(s: State, l: Label, k: Link) {
    match l
    case Pumped(step) =>
      && P.Enabled(s.pump, step, k.chunk)
      && (step.Put? ==>
            && IsUuid(step.id) && |step.data| <= k.bounds.maxBlob
            && forall i :: 0 <= i < |s.jobs| ==> Name(s.jobs[i]) != LowerCase(step.id))
    case Deliver(now, victims) => HasChunk(s)
      && BlobStore.Enabled(s.store, Arrive(NextChunk(s), now, victims), k.bounds)
    case TakeBlob(_) => true
    case AgeStore(_) => true
  }

  ghost function Apply(s: State, l: Label, k: Link): State
    requires Enabled(s, l, k)
  {
    match l
    case Pumped(step) =>
      s.(pump := P.Apply(s.pump, step, k.chunk),
         jobs := if step.Put? then s.jobs + [Job(step.id, step.data)] else s.jobs)
    case Deliver(now, victims) =>
      s.(seen := s.seen + 1, store := BlobStore.Apply(s.store, Arrive(NextChunk(s), now, victims), k.bounds))
    case TakeBlob(id) => s.(store := BlobStore.Apply(s.store, TakeOut(id), k.bounds))
    case AgeStore(now) =>
      s.(store := BlobStore.Apply(s.store, Age(now), k.bounds),
         lost := if TimesOut(s, now, k) then s.lost + {s.pump.wire[s.seen - 1].ticket} else s.lost)
  }

  ghost function After(ls: seq<Label>, k: Link): Option<State> {
    if ls == [] then Some(START)
    else
      var before := After(ls[..|ls| - 1], k);
      if before.Some? && Enabled(before.value, ls[|ls| - 1], k) then Some(Apply(before.value, ls[|ls| - 1], k))
      else None
  }

  // ------------------------------------------------------------------ what is on the wire

  /** The bytes the frames of one ticket carry, in order. */
  function Got(wire: seq<P.Sent>, n: nat): seq<Byte> {
    if wire == [] then []
    else
      var last := wire[|wire| - 1];
      Got(wire[..|wire| - 1], n)
        + if last.ticket == n && Parsed(last.frame).Some? then Parsed(last.frame).value.payload else []
  }

  /**
   Frame `i` continues what the frames before it carried of its blob; frames come in ticket order,
   and a blob has none after it is whole.
   */
  ghost predicate FrameOk(wire: seq<P.Sent>, i: nat, jobs: seq<Job>)
    requires i < |wire|
  {
    var n, got := wire[i].ticket, Got(wire[..i], wire[i].ticket);
    && n < |jobs| && (i > 0 ==> wire[i - 1].ticket <= n)
    && (i > 0 && wire[i - 1].ticket == n ==> |got| < |jobs[n].data|)
    && match Parsed(wire[i].frame)
       case None => false
       case Some(c) =>
         && c.id == Name(jobs[n]) && c.len == |jobs[n].data| && c.offset == |got| && got + c.payload <= jobs[n].data
         && (c.payload == [] ==> jobs[n].data == [])
  }

  ghost predicate WireOk(wire: seq<P.Sent>, jobs: seq<Job>) {
    forall i :: 0 <= i < |wire| ==> FrameOk(wire, i, jobs)
  }

  lemma GotGrows(wire: seq<P.Sent>, sent: P.Sent, n: nat)
    ensures Got(wire + [sent], n)
         == Got(wire, n) + if sent.ticket == n && Parsed(sent.frame).Some? then Parsed(sent.frame).value.payload else []
  {
    assert (wire + [sent])[..|wire|] == wire;
  }

  lemma {:induction false} GotNothing(wire: seq<P.Sent>, n: nat)
    requires forall i :: 0 <= i < |wire| ==> wire[i].ticket != n
    ensures Got(wire, n) == []
  {
    if wire != [] { GotNothing(wire[..|wire| - 1], n); }
  }

  /** Frames come in ticket order. */
  lemma {:induction false} TicketsAscend(wire: seq<P.Sent>, jobs: seq<Job>, i: nat, j: nat)
    requires WireOk(wire, jobs) && i <= j < |wire|
    ensures wire[i].ticket <= wire[j].ticket
    decreases j - i
  {
    assert FrameOk(wire, j, jobs);
    if i < j { TicketsAscend(wire, jobs, i, j - 1); }
  }

  // ------------------------------------------------------------------ the invariant

  /** A transfer waiting in the queue, against what went out of it. */
  ghost predicate Queued(t: P.Transfer, wire: seq<P.Sent>, jobs: seq<Job>) {
    && t.ticket < |jobs| && jobs[t.ticket] == Job(t.id, t.data) && IsUuid(t.id)
    && t.offset <= |t.data| && Got(wire, t.ticket) == t.data[..t.offset]
  }

  ghost predicate PumpOk(s: State) {
    var p := s.pump;
    && p.tickets == |s.jobs|
    && (forall i :: 0 <= i < |p.queue| ==> Queued(p.queue[i], p.wire, s.jobs))
    && (forall i, j :: 0 <= i < j < |p.queue| ==> p.queue[i].ticket < p.queue[j].ticket)
    && (forall i :: 0 < i < |p.queue| ==> !p.queue[i].sentEmpty)
    && (p.queue != [] ==> FrontOk(p.queue[0], p.wire))
  }

  /** Nothing later than the front transfer went out; an empty one went out if it says so. */
  ghost predicate FrontOk(t: P.Transfer, wire: seq<P.Sent>) {
    if wire == [] then !t.sentEmpty
    else
      var last := wire[|wire| - 1].ticket;
      last <= t.ticket && if last == t.ticket then |t.data| > 0 || t.sentEmpty else !t.sentEmpty
  }

  ghost predicate JobsOk(jobs: seq<Job>, maxBlob: nat) {
    && (forall i, j :: 0 <= i < j < |jobs| ==> Name(jobs[i]) != Name(jobs[j]))
    && (forall i :: 0 <= i < |jobs| ==> |jobs[i].data| <= maxBlob)
  }

  ghost predicate Named(jobs: seq<Job>, n: nat, x: string) {
    exists m :: 0 <= m <= n && m < |jobs| && Name(jobs[m]) == x
  }

  /** What the receiver has: the blob in progress as far as it came unless it was lost, and nothing of later ones. */
  ghost predicate StoreOk(s: State) {
    && s.seen <= |s.pump.wire|
    && (s.seen == 0 ==> s.store == map[] && s.lost == {})
    && (s.seen > 0 ==>
          var n := s.pump.wire[s.seen - 1].ticket;
          var got := Got(s.pump.wire[..s.seen], n);
          && n < |s.jobs| && (forall m :: m in s.lost ==> m <= n)
          && (forall x :: x in s.store ==> Named(s.jobs, n, x))
          && (n in s.lost ==> Name(s.jobs[n]) !in s.store)
          && (n !in s.lost && |got| < |s.jobs[n].data| ==>
                && Name(s.jobs[n]) in s.store && s.store[Name(s.jobs[n])].data == got
                && s.store[Name(s.jobs[n])].len == |s.jobs[n].data| && !s.store[Name(s.jobs[n])].complete))
  }

  ghost predicate Inv(s: State, k: Link) {
    WireOk(s.pump.wire, s.jobs) && PumpOk(s) && JobsOk(s.jobs, k.bounds.maxBlob) && StoreOk(s)
  }

  // ------------------------------------------------------------------ every step keeps it

  lemma WireGrows(wire: seq<P.Sent>, sent: P.Sent, jobs: seq<Job>)
    requires WireOk(wire, jobs) && FrameOk(wire + [sent], |wire|, jobs)
    ensures WireOk(wire + [sent], jobs)
  {
    forall i | 0 <= i < |wire| ensures FrameOk(wire + [sent], i, jobs) {
      assert FrameOk(wire, i, jobs) && (wire + [sent])[..i] == wire[..i];
    }
  }

  lemma JobsGrow(wire: seq<P.Sent>, jobs: seq<Job>, j: Job)
    requires WireOk(wire, jobs)
    ensures WireOk(wire, jobs + [j])
  {
    forall i | 0 <= i < |wire| ensures FrameOk(wire, i, jobs + [j]) { assert FrameOk(wire, i, jobs); }
  }

  lemma PutKeepsInv(s: State, step: P.Label, k: Link)
    requires Inv(s, k) && step.Put? && Enabled(s, Pumped(step), k)
    ensures Inv(Apply(s, Pumped(step), k), k)
  {
    JobsGrow(s.pump.wire, s.jobs, Job(step.id, step.data));
    PutPump(s, step, k);
    PutStore(s, step, k);
  }

  lemma PutPump(s: State, step: P.Label, k: Link)
    requires WireOk(s.pump.wire, s.jobs) && PumpOk(s) && step.Put? && Enabled(s, Pumped(step), k)
    ensures PumpOk(Apply(s, Pumped(step), k))
  {
    var wire, q := s.pump.wire, s.pump.queue;
    forall i | 0 <= i < |wire| ensures wire[i].ticket < |s.jobs| { assert FrameOk(wire, i, s.jobs); }
    GotNothing(wire, |s.jobs|);
    QueueGrows(q, wire, s.jobs, P.Transfer(step.id, step.data, 0, false, |s.jobs|));
  }

  lemma QueueGrows(q: seq<P.Transfer>, wire: seq<P.Sent>, jobs: seq<Job>, t: P.Transfer)
    requires forall i :: 0 <= i < |q| ==> Queued(q[i], wire, jobs)
    requires forall i, j :: 0 <= i < j < |q| ==> q[i].ticket < q[j].ticket
    requires t.ticket == |jobs| && t.offset == 0 && IsUuid(t.id) && Got(wire, t.ticket) == []
    ensures forall i :: 0 <= i < |q + [t]| ==> Queued((q + [t])[i], wire, jobs + [Job(t.id, t.data)])
    ensures forall i, j :: 0 <= i < j < |q + [t]| ==> (q + [t])[i].ticket < (q + [t])[j].ticket
  {
    forall i | 0 <= i < |q + [t]| ensures Queued((q + [t])[i], wire, jobs + [Job(t.id, t.data)]) {
      assert i < |q| ==> Queued(q[i], wire, jobs);
    }
    forall i | 0 <= i < |q| ensures q[i].ticket < |jobs| { assert Queued(q[i], wire, jobs); }
  }

  lemma PutStore(s: State, step: P.Label, k: Link)
    requires StoreOk(s) && step.Put? && Enabled(s, Pumped(step), k)
    ensures StoreOk(Apply(s, Pumped(step), k))
  {
    if s.seen > 0 {
      var n := s.pump.wire[s.seen - 1].ticket;
      var jobs := s.jobs + [Job(step.id, step.data)];
      forall x | x in s.store ensures Named(jobs, n, x) {
        var m :| 0 <= m <= n && m < |s.jobs| && Name(s.jobs[m]) == x;
        assert Name(jobs[m]) == x;
      }
    }
  }

  /** The frame the front transfer sends next, as the receiver will parse it. */
  lemma FrontFrame(t: P.Transfer, chunk: nat)
    requires IsUuid(t.id) && t.offset <= |t.data| && P.NextFrame(t, chunk).Ok?
    ensures Parsed(P.NextFrame(t, chunk).value)
         == Some(Chunk(LowerCase(t.id), t.offset, |t.data|, t.data[t.offset..t.offset + P.NextSize(t, chunk)]))
    ensures t.data[..t.offset] + t.data[t.offset..t.offset + P.NextSize(t, chunk)]
            == t.data[..t.offset + P.NextSize(t, chunk)]
  {
    ParseOfEncoded(t.id, t.offset, |t.data|, t.data[t.offset..t.offset + P.NextSize(t, chunk)]);
  }

  lemma SentFrameOk(wire: seq<P.Sent>, frame: seq<Byte>, jobs: seq<Job>, t: P.Transfer, payload: P.Blob)
    requires Queued(t, wire, jobs) && FrontOk(t, wire) && P.HasNext(t)
    requires Parsed(frame) == Some(Chunk(LowerCase(t.id), t.offset, |t.data|, payload))
    requires t.data[..t.offset] + payload <= t.data && (payload == [] ==> t.data == [])
    ensures FrameOk(wire + [P.Sent(t.ticket, frame)], |wire|, jobs)
  {
    assert (wire + [P.Sent(t.ticket, frame)])[..|wire|] == wire;
  }

  lemma FrontWire(wire: seq<P.Sent>, jobs: seq<Job>, t: P.Transfer, chunk: nat)
    requires WireOk(wire, jobs) && Queued(t, wire, jobs) && FrontOk(t, wire)
    requires chunk > 0 && P.HasNext(t) && P.NextFrame(t, chunk).Ok?
    ensures WireOk(wire + [P.Sent(t.ticket, P.NextFrame(t, chunk).value)], jobs)
  {
    var frame := P.NextFrame(t, chunk).value;
    FrontFrame(t, chunk);
    SentFrameOk(wire, frame, jobs, t, t.data[t.offset..t.offset + P.NextSize(t, chunk)]);
    WireGrows(wire, P.Sent(t.ticket, frame), jobs);
  }

  lemma SendWire(s: State, k: Link)
    requires WireOk(s.pump.wire, s.jobs) && PumpOk(s) && k.chunk > 0 && Enabled(s, Pumped(P.Send), k)
    ensures WireOk(Apply(s, Pumped(P.Send), k).pump.wire, s.jobs)
  {
    FrontWire(s.pump.wire, s.jobs, s.pump.queue[0], k.chunk);
  }

  lemma SendQueue(s: State, k: Link)
    requires PumpOk(s) && Enabled(s, Pumped(P.Send), k)
    ensures var s' := Apply(s, Pumped(P.Send), k);
            forall i :: 0 <= i < |s'.pump.queue| ==> Queued(s'.pump.queue[i], s'.pump.wire, s'.jobs)
  {
    var p, t, s' := s.pump, s.pump.queue[0], Apply(s, Pumped(P.Send), k);
    FrontFrame(t, k.chunk);
    var sent := P.Sent(t.ticket, P.NextFrame(t, k.chunk).value);
    forall i | 0 <= i < |p.queue| ensures Queued(s'.pump.queue[i], s'.pump.wire, s'.jobs) {
      assert Queued(p.queue[i], p.wire, s.jobs);
      GotGrows(p.wire, sent, p.queue[i].ticket);
      if i > 0 {
        assert p.queue[0].ticket < p.queue[i].ticket;
        assert Got(p.wire, p.queue[i].ticket) + [] == Got(p.wire, p.queue[i].ticket);
      }
    }
  }

  lemma SendKeepsInv(s: State, k: Link)
    requires Inv(s, k) && k.chunk > 0 && Enabled(s, Pumped(P.Send), k)
    ensures Inv(Apply(s, Pumped(P.Send), k), k)
  {
    SendWire(s, k);
    SendQueue(s, k);
    SendPump(s, k);
    SendStore(s, k);
  }

  lemma SendPump(s: State, k: Link)
    requires PumpOk(s) && k.chunk > 0 && Enabled(s, Pumped(P.Send), k)
    requires var s' := Apply(s, Pumped(P.Send), k);
             forall i :: 0 <= i < |s'.pump.queue| ==> Queued(s'.pump.queue[i], s'.pump.wire, s'.jobs)
    ensures PumpOk(Apply(s, Pumped(P.Send), k))
  {
    var p, p' := s.pump, Apply(s, Pumped(P.Send), k).pump;
    assert forall j :: 0 < j < |p'.queue| ==> p'.queue[j] == p.queue[j];
    assert p'.queue[0].ticket == p.queue[0].ticket && p'.queue[0].data == p.queue[0].data;
  }

  lemma SendStore(s: State, k: Link)
    requires StoreOk(s) && Enabled(s, Pumped(P.Send), k)
    ensures StoreOk(Apply(s, Pumped(P.Send), k))
  {
    assert Apply(s, Pumped(P.Send), k).pump.wire[..s.seen] == s.pump.wire[..s.seen];
  }

  lemma LeaveQueue(s: State, step: P.Label, k: Link)
    requires (step.Finish? || step.CancelAt?) && Enabled(s, Pumped(step), k)
    ensures var q, q' := s.pump.queue, Apply(s, Pumped(step), k).pump.queue;
            var cut := if step.Finish? then 0 else step.index;
            |q'| == |q| - 1 && forall i :: 0 <= i < |q'| ==> q'[i] == q[if i < cut then i else i + 1]
  {
  }

  lemma QueueCut(q: seq<P.Transfer>, q': seq<P.Transfer>, cut: nat, wire: seq<P.Sent>, jobs: seq<Job>)
    requires cut < |q| && |q'| == |q| - 1 && forall i :: 0 <= i < |q'| ==> q'[i] == q[if i < cut then i else i + 1]
    requires forall i :: 0 <= i < |q| ==> Queued(q[i], wire, jobs)
    requires forall i, j :: 0 <= i < j < |q| ==> q[i].ticket < q[j].ticket
    requires forall i :: 0 < i < |q| ==> !q[i].sentEmpty
    ensures forall i :: 0 <= i < |q'| ==> Queued(q'[i], wire, jobs)
    ensures forall i, j :: 0 <= i < j < |q'| ==> q'[i].ticket < q'[j].ticket
    ensures forall i :: 0 < i < |q'| ==> !q'[i].sentEmpty
  {
  }

  lemma NextInFront(t: P.Transfer, u: P.Transfer, wire: seq<P.Sent>)
    requires FrontOk(t, wire) && t.ticket < u.ticket && !u.sentEmpty
    ensures FrontOk(u, wire)
  {
  }

  lemma CutKeepsPump(s: State, s': State, cut: nat)
    requires PumpOk(s) && s'.jobs == s.jobs && s'.pump.tickets == s.pump.tickets && s'.pump.wire == s.pump.wire
    requires var q, q' := s.pump.queue, s'.pump.queue;
             cut < |q| && |q'| == |q| - 1 && forall i :: 0 <= i < |q'| ==> q'[i] == q[if i < cut then i else i + 1]
    ensures PumpOk(s')
  {
    var q := s.pump.queue;
    QueueCut(q, s'.pump.queue, cut, s.pump.wire, s.jobs);
    if cut == 0 && |q| > 1 { NextInFront(q[0], q[1], s.pump.wire); }
  }

  lemma LeavePump(s: State, step: P.Label, k: Link)
    requires PumpOk(s) && (step.Finish? || step.CancelAt?) && Enabled(s, Pumped(step), k)
    ensures PumpOk(Apply(s, Pumped(step), k))
  {
    LeaveQueue(s, step, k);
    CutKeepsPump(s, Apply(s, Pumped(step), k), if step.Finish? then 0 else step.index);
  }

  lemma LeaveKeepsInv(s: State, step: P.Label, k: Link)
    requires Inv(s, k) && (step.Finish? || step.CancelAt?) && Enabled(s, Pumped(step), k)
    ensures Inv(Apply(s, Pumped(step), k), k)
  {
    LeavePump(s, step, k);
    StoreKept(s, Apply(s, Pumped(step), k));
  }

  lemma StoreKept(s: State, s': State)
    requires StoreOk(s) && s'.pump.wire == s.pump.wire && s'.jobs == s.jobs && s'.seen == s.seen && s'.lost == s.lost
    requires s'.store.Keys <= s.store.Keys
    requires forall x :: x in s.store && !s.store[x].complete ==> x in s'.store && s'.store[x] == s.store[x]
    ensures StoreOk(s')
  {
  }

  /** The first frame of a blob comes after frames of earlier ones only. */
  lemma FirstOfItsBlob(wire: seq<P.Sent>, i: nat, jobs: seq<Job>)
    requires WireOk(wire, jobs) && i < |wire| && (i > 0 ==> wire[i - 1].ticket != wire[i].ticket)
    ensures Got(wire[..i], wire[i].ticket) == [] && (i > 0 ==> wire[i - 1].ticket < wire[i].ticket)
  {
    assert FrameOk(wire, i, jobs);
    forall j | 0 <= j < i ensures wire[j].ticket != wire[i].ticket { TicketsAscend(wire, jobs, j, i - 1); }
    GotNothing(wire[..i], wire[i].ticket);
  }

  lemma NotStoredYet(s: State, n: nat)
    requires StoreOk(s) && n < |s.jobs| && (s.seen > 0 ==> s.pump.wire[s.seen - 1].ticket < n)
    requires forall i, j :: 0 <= i < j < |s.jobs| ==> Name(s.jobs[i]) != Name(s.jobs[j])
    ensures Name(s.jobs[n]) !in s.store && n !in s.lost
  {
  }

  lemma GotNext(wire: seq<P.Sent>, i: nat, jobs: seq<Job>)
    requires WireOk(wire, jobs) && i < |wire|
    ensures var n := wire[i].ticket;
            && n < |jobs| && Parsed(wire[i].frame).Some?
            && Got(wire[..i + 1], n) == Got(wire[..i], n) + Parsed(wire[i].frame).value.payload <= jobs[n].data
            && (jobs[n].data != [] ==> Got(wire[..i + 1], n) != [])
  {
    assert FrameOk(wire, i, jobs);
    assert wire[..i + 1] == wire[..i] + [wire[i]];
    GotGrows(wire[..i], wire[i], wire[i].ticket);
  }

  /** What the next frame says, as it was sent. */
  lemma NextSays(s: State)
    requires WireOk(s.pump.wire, s.jobs) && HasChunk(s)
    ensures var n := s.pump.wire[s.seen].ticket;
            && n < |s.jobs| && NextChunk(s).id == Name(s.jobs[n]) && NextChunk(s).len == |s.jobs[n].data|
            && NextChunk(s).offset == |Got(s.pump.wire[..s.seen], n)|
            && (s.seen > 0 && s.pump.wire[s.seen - 1].ticket == n ==>
                  0 < |Got(s.pump.wire[..s.seen], n)| < |s.jobs[n].data|)
  {
    assert FrameOk(s.pump.wire, s.seen, s.jobs);
    if s.seen > 0 { GotNext(s.pump.wire, s.seen - 1, s.jobs); }
  }

  /** A frame of a blob in the store so far, of a new one, and of one the store let go. */
  lemma FrameIsAccepted(m: Entries, c: Chunk, now: int, maxBlob: nat, got: seq<Byte>)
    requires c.len <= maxBlob && c.offset == |got|
    requires c.id in m ==> m[c.id].data == got && m[c.id].len == c.len && !m[c.id].complete
    ensures Accepts(m, c, now, maxBlob) <==> c.id in m || got == []
    ensures c.id in m || got == [] ==> Continued(m, c, now).data == got && Continued(m, c, now).len == c.len
  {
  }

  /**
   The next frame is taken unless its blob was lost: it begins a blob the store knows nothing of, or
   continues the one in progress.  If it was lost the frame changes nothing.
   */
  lemma NextIsAccepted(s: State, k: Link, now: int)
    requires Inv(s, k) && HasChunk(s)
    ensures var n := s.pump.wire[s.seen].ticket;
            && n < |s.jobs| && NextChunk(s).id == Name(s.jobs[n]) && NextChunk(s).len == |s.jobs[n].data|
            && (Accepts(s.store, NextChunk(s), now, k.bounds.maxBlob) <==> n !in s.lost)
            && (n in s.lost ==> Name(s.jobs[n]) !in s.store)
            && (n !in s.lost ==>
                  && Continued(s.store, NextChunk(s), now).data == Got(s.pump.wire[..s.seen], n)
                  && Continued(s.store, NextChunk(s), now).len == |s.jobs[n].data|)
  {
    var wire, n := s.pump.wire, s.pump.wire[s.seen].ticket;
    NextSays(s);
    if s.seen == 0 || wire[s.seen - 1].ticket != n {
      FirstOfItsBlob(wire, s.seen, s.jobs);
      NotStoredYet(s, n);
    }
    FrameIsAccepted(s.store, NextChunk(s), now, k.bounds.maxBlob, Got(wire[..s.seen], n));
  }

  /** The next frame taken in, before any eviction. */
  lemma NextIsAbsorbed(s: State, k: Link, now: int)
    requires Inv(s, k) && HasChunk(s) && s.pump.wire[s.seen].ticket !in s.lost
    ensures Accepts(s.store, NextChunk(s), now, k.bounds.maxBlob)
    ensures var m := Absorbed(s.store, NextChunk(s), now, k.bounds.maxBlob);
            var n := s.pump.wire[s.seen].ticket;
            && n < |s.jobs| && NextChunk(s).id == Name(s.jobs[n]) && Name(s.jobs[n]) in m
            && m[Name(s.jobs[n])].data == Got(s.pump.wire[..s.seen + 1], n) <= s.jobs[n].data
            && m[Name(s.jobs[n])].len == |s.jobs[n].data|
            && (m[Name(s.jobs[n])].complete <==> |Got(s.pump.wire[..s.seen + 1], n)| == |s.jobs[n].data|)
            && (forall x :: x in m && x != Name(s.jobs[n]) ==> x in s.store)
  {
    NextIsAccepted(s, k, now);
    GotNext(s.pump.wire, s.seen, s.jobs);
  }

  lemma AllOfIt(got: seq<Byte>, data: seq<Byte>)
    requires got <= data
    ensures |got| == |data| <==> got == data
  {
  }

  /** Eviction spares the blob that was extended. */
  lemma Spared(s: State, k: Link, now: int, victims: seq<string>)
    requires Enabled(s, Deliver(now, victims), k) && Accepts(s.store, NextChunk(s), now, k.bounds.maxBlob)
    ensures var m := Absorbed(s.store, NextChunk(s), now, k.bounds.maxBlob);
            var t := Apply(s, Deliver(now, victims), k).store;
            && NextChunk(s).id in t && t[NextChunk(s).id] == m[NextChunk(s).id] && (forall x :: x in t ==> x in m)
  {
    var m := Absorbed(s.store, NextChunk(s), now, k.bounds.maxBlob);
    EvictsOldestFirst(m, NextChunk(s).id, k.bounds.limit, victims, Without(m, victims));
  }

  /**
   `store` after frame `i`: what its blob has so far, complete exactly when that is all of it; or
   nothing of it, if it was lost.
   */
  ghost predicate StoredNext(wire: seq<P.Sent>, i: nat, jobs: seq<Job>, lost: set<nat>, before: Entries, store: Entries)
    requires i < |wire|
  {
    var n := wire[i].ticket;
    n < |jobs| &&
    var x, got := Name(jobs[n]), Got(wire[..i + 1], n);
    && (n in lost ==> x !in store)
    && (n !in lost ==>
          && x in store && got <= jobs[n].data
          && store[x].data == got && store[x].len == |jobs[n].data| && (store[x].complete <==> got == jobs[n].data))
    && (forall y :: y in store && y != x ==> y in before)
  }

  lemma NextIsStored(s: State, k: Link, now: int, victims: seq<string>)
    requires Inv(s, k) && Enabled(s, Deliver(now, victims), k)
    ensures StoredNext(s.pump.wire, s.seen, s.jobs, s.lost, s.store, Apply(s, Deliver(now, victims), k).store)
  {
    var n := s.pump.wire[s.seen].ticket;
    if n in s.lost {
      NextIsDropped(s, k, now, victims);
    } else {
      NextIsAbsorbed(s, k, now);
      Spared(s, k, now, victims);
      AllOfIt(Got(s.pump.wire[..s.seen + 1], n), s.jobs[n].data);
    }
  }

  lemma NextIsDropped(s: State, k: Link, now: int, victims: seq<string>)
    requires Inv(s, k) && Enabled(s, Deliver(now, victims), k) && s.pump.wire[s.seen].ticket in s.lost
    ensures var n := s.pump.wire[s.seen].ticket;
            n < |s.jobs| && Apply(s, Deliver(now, victims), k).store == s.store && Name(s.jobs[n]) !in s.store
  {
    NextIsAccepted(s, k, now);
    assert Without(s.store, []) == s.store;
    assert s.store - {NextChunk(s).id} == s.store;
  }

  lemma DeliverStore(s: State, k: Link, now: int, victims: seq<string>)
    requires Inv(s, k) && Enabled(s, Deliver(now, victims), k)
    ensures StoreOk(Apply(s, Deliver(now, victims), k))
  {
    NextIsStored(s, k, now, victims);
    StoredMeansOk(s, Apply(s, Deliver(now, victims), k));
  }

  lemma StoredMeansOk(s: State, t: State)
    requires StoreOk(s) && WireOk(s.pump.wire, s.jobs) && s.seen < |s.pump.wire|
    requires StoredNext(s.pump.wire, s.seen, s.jobs, s.lost, s.store, t.store)
             && t == s.(seen := s.seen + 1, store := t.store)
    ensures StoreOk(t)
  {
    assert FrameOk(s.pump.wire, s.seen, s.jobs);
    StillNamed(s, s.pump.wire[s.seen].ticket, t.store);
  }

  lemma StillNamed(s: State, n: nat, store: Entries)
    requires StoreOk(s) && WireOk(s.pump.wire, s.jobs) && s.seen < |s.pump.wire|
             && n == s.pump.wire[s.seen].ticket < |s.jobs|
    requires forall x :: x in store && x != Name(s.jobs[n]) ==> x in s.store
    ensures forall x :: x in store ==> Named(s.jobs, n, x)
  {
    assert FrameOk(s.pump.wire, s.seen, s.jobs);
    forall x | x in store ensures Named(s.jobs, n, x) {
      if x != Name(s.jobs[n]) { NamedLater(s.jobs, s.pump.wire[s.seen - 1].ticket, n, x); }
    }
  }

  lemma NamedLater(jobs: seq<Job>, n: nat, m: nat, x: string)
    requires Named(jobs, n, x) && n <= m
    ensures Named(jobs, m, x)
  {
  }

  lemma DeliverKeepsInv(s: State, k: Link, now: int, victims: seq<string>)
    requires Inv(s, k) && Enabled(s, Deliver(now, victims), k)
    ensures Inv(Apply(s, Deliver(now, victims), k), k)
  {
    DeliverStore(s, k, now, victims);
    var s' := Apply(s, Deliver(now, victims), k);
    assert s'.pump == s.pump && s'.jobs == s.jobs;
  }

  lemma TakeKeepsInv(s: State, id: string, k: Link)
    requires Inv(s, k)
    ensures Inv(Apply(s, TakeBlob(id), k), k)
  {
    StoreKept(s, Apply(s, TakeBlob(id), k));
  }

  /** Ageing loses the blob in progress exactly when it takes it out of the store. */
  lemma AgeKeepsStore(s: State, now: int, k: Link)
    requires StoreOk(s)
    ensures StoreOk(Apply(s, AgeStore(now), k))
  {
  }

  lemma AgeKeepsInv(s: State, now: int, k: Link)
    requires Inv(s, k)
    ensures Inv(Apply(s, AgeStore(now), k), k)
  {
    AgeKeepsStore(s, now, k);
    var t := Apply(s, AgeStore(now), k);
    assert t.pump == s.pump && t.jobs == s.jobs;
  }

  lemma StepKeepsInv(s: State, l: Label, k: Link)
    requires Inv(s, k) && k.chunk > 0 && Enabled(s, l, k)
    ensures Inv(Apply(s, l, k), k)
  {
    match l
    case Pumped(step) =>
      if step.Put? { PutKeepsInv(s, step, k); }
      else if step.Send? { SendKeepsInv(s, k); }
      else { LeaveKeepsInv(s, step, k); }
    case Deliver(now, victims) => DeliverKeepsInv(s, k, now, victims);
    case TakeBlob(id) => TakeKeepsInv(s, id, k);
    case AgeStore(now) => AgeKeepsInv(s, now, k);
  }

  lemma {:induction false} RunsKeepInv(ls: seq<Label>, k: Link)
    requires k.chunk > 0 && After(ls, k).Some?
    ensures Inv(After(ls, k).value, k)
  {
    if ls != [] {
      RunsKeepInv(ls[..|ls| - 1], k);
      StepKeepsInv(After(ls[..|ls| - 1], k).value, ls[|ls| - 1], k);
    }
  }

  // ------------------------------------------------------------------ `done` once per transfer

  function Tickets(q: seq<P.Transfer>): seq<nat> { seq(|q|, i requires 0 <= i < |q| => q[i].ticket) }

  function Told(r: seq<P.Report>): seq<nat> { seq(|r|, i requires 0 <= i < |r| => r[i].ticket) }

  /** Every ticket handed out, once each. */
  function Upto(n: nat): multiset<nat> { if n == 0 then multiset{} else Upto(n - 1) + multiset{n - 1} }

  ghost predicate HasFrame(wire: seq<P.Sent>, n: nat) { exists i :: 0 <= i < |wire| && wire[i].ticket == n }

  ghost predicate Whole(s: State, n: nat) {
    n < |s.jobs| && HasFrame(s.pump.wire, n) && Got(s.pump.wire, n) == s.jobs[n].data
  }

  ghost predicate ReportsOk(s: State) {
    && multiset(Tickets(s.pump.queue)) + multiset(Told(s.pump.reports)) == Upto(s.pump.tickets)
    && forall i :: 0 <= i < |s.pump.reports| && s.pump.reports[i].ok ==> Whole(s, s.pump.reports[i].ticket)
  }

  lemma {:induction false} UptoCounts(n: nat, x: nat)
    ensures Upto(n)[x] == if x < n then 1 else 0
  {
    if n > 0 { UptoCounts(n - 1, x); }
  }

  lemma CutCounts(ts: seq<nat>, told: seq<nat>, c: nat)
    requires c < |ts|
    ensures multiset(ts[..c] + ts[c + 1..]) + multiset(told + [ts[c]]) == multiset(ts) + multiset(told)
  {
    assert ts == ts[..c] + [ts[c]] + ts[c + 1..];
  }

  lemma TicketsCut(q: seq<P.Transfer>, q': seq<P.Transfer>, c: nat)
    requires c < |q| && |q'| == |q| - 1 && forall i :: 0 <= i < |q'| ==> q'[i] == q[if i < c then i else i + 1]
    ensures Tickets(q') == Tickets(q)[..c] + Tickets(q)[c + 1..]
  {
  }

  lemma LeaveCounts(s: State, step: P.Label, k: Link)
    requires (step.Finish? || step.CancelAt?) && Enabled(s, Pumped(step), k)
    ensures var p, p' := s.pump, Apply(s, Pumped(step), k).pump;
            multiset(Tickets(p'.queue)) + multiset(Told(p'.reports))
              == multiset(Tickets(p.queue)) + multiset(Told(p.reports))
  {
    var p, p' := s.pump, Apply(s, Pumped(step), k).pump;
    var c := if step.Finish? then 0 else step.index;
    LeaveQueue(s, step, k);
    TicketsCut(p.queue, p'.queue, c);
    assert Told(p'.reports) == Told(p.reports) + [Tickets(p.queue)[c]];
    CutCounts(Tickets(p.queue), Told(p.reports), c);
  }

  lemma ReportsStep(s: State, l: Label, k: Link)
    requires PumpOk(s) && ReportsOk(s) && Enabled(s, l, k)
    ensures ReportsOk(Apply(s, l, k))
  {
    if l.Pumped? {
      match l.step
      case Put(id, data) => PutReports(s, id, data, k);
      case Send => SendReports(s, k);
      case Finish => FinishReports(s, k);
      case CancelAt(i) => CancelReports(s, i, k);
    }
  }

  lemma StillWhole(s: State, s': State, n: nat)
    requires Whole(s, n) && s.jobs <= s'.jobs && s'.pump.wire == s.pump.wire
    ensures Whole(s', n)
  {
  }

  lemma PutReports(s: State, id: string, data: P.Blob, k: Link)
    requires ReportsOk(s) && Enabled(s, Pumped(P.Put(id, data)), k)
    ensures ReportsOk(Apply(s, Pumped(P.Put(id, data)), k))
  {
    var s' := Apply(s, Pumped(P.Put(id, data)), k);
    assert Tickets(s'.pump.queue) == Tickets(s.pump.queue) + [s.pump.tickets];
    forall i | 0 <= i < |s.pump.reports| && s.pump.reports[i].ok ensures Whole(s', s.pump.reports[i].ticket) {
      StillWhole(s, s', s.pump.reports[i].ticket);
    }
  }

  lemma CancelReports(s: State, i: nat, k: Link)
    requires ReportsOk(s) && Enabled(s, Pumped(P.CancelAt(i)), k)
    ensures ReportsOk(Apply(s, Pumped(P.CancelAt(i)), k))
  {
    LeaveCounts(s, P.CancelAt(i), k);
    assert forall n :: Whole(s, n) ==> Whole(Apply(s, Pumped(P.CancelAt(i)), k), n);
  }

  lemma GotSomething(wire: seq<P.Sent>, n: nat)
    ensures Got(wire, n) != [] ==> HasFrame(wire, n)
  {
    if !HasFrame(wire, n) { GotNothing(wire, n); }
  }

  lemma FinishReports(s: State, k: Link)
    requires PumpOk(s) && ReportsOk(s) && Enabled(s, Pumped(P.Finish), k)
    ensures ReportsOk(Apply(s, Pumped(P.Finish), k))
  {
    LeaveCounts(s, P.Finish, k);
    var t, wire := s.pump.queue[0], s.pump.wire;
    assert Queued(t, wire, s.jobs) && t.data[..t.offset] == t.data;
    if |t.data| > 0 { GotSomething(wire, t.ticket); } else { assert wire[|wire| - 1].ticket == t.ticket; }
    assert Whole(s, t.ticket);
    assert forall n :: Whole(s, n) ==> Whole(Apply(s, Pumped(P.Finish), k), n);
  }

  lemma SendReports(s: State, k: Link)
    requires ReportsOk(s) && Enabled(s, Pumped(P.Send), k)
    ensures ReportsOk(Apply(s, Pumped(P.Send), k))
  {
    var s' := Apply(s, Pumped(P.Send), k);
    var p, p' := s.pump, s'.pump;
    assert Tickets(p'.queue) == Tickets(p.queue);
    forall i | 0 <= i < |p.reports| && p.reports[i].ok ensures Whole(s', p.reports[i].ticket) {
      var n := p.reports[i].ticket;
      assert Whole(s, n);
      UptoCounts(p.tickets, n);
      assert Tickets(p.queue)[0] in multiset(Tickets(p.queue)) && Told(p.reports)[i] in multiset(Told(p.reports));
      assert p.queue[0].ticket != n;
      GotGrows(p.wire, p'.wire[|p.wire|], n);
      var j :| 0 <= j < |p.wire| && p.wire[j].ticket == n;
      assert p'.wire[j].ticket == n;
    }
  }

  lemma {:induction false} ReportsAlwaysOk(ls: seq<Label>, k: Link)
    requires k.chunk > 0 && After(ls, k).Some?
    ensures ReportsOk(After(ls, k).value)
  {
    if ls != [] {
      ReportsAlwaysOk(ls[..|ls| - 1], k);
      RunsKeepInv(ls[..|ls| - 1], k);
      ReportsStep(After(ls[..|ls| - 1], k).value, ls[|ls| - 1], k);
    }
  }

  /** `done` is called at most once per transfer, and once for each when the queue is empty. */
  lemma DoneExactlyOnce(ls: seq<Label>, k: Link, n: nat)
    requires k.chunk > 0 && After(ls, k).Some?
    ensures var p := After(ls, k).value.pump;
            multiset(Told(p.reports))[n] + multiset(Tickets(p.queue))[n] == if n < p.tickets then 1 else 0
  {
    ReportsAlwaysOk(ls, k);
    UptoCounts(After(ls, k).value.pump.tickets, n);
  }

  /** The last frame of a ticket: after it nothing of its blob is sent. */
  lemma {:induction false} LastFrame(wire: seq<P.Sent>, n: nat, j: nat) returns (i: nat)
    requires j < |wire| && wire[j].ticket == n
    ensures i < |wire| && wire[i].ticket == n && Got(wire[..i + 1], n) == Got(wire, n)
  {
    var init := wire[..|wire| - 1];
    if wire[|wire| - 1].ticket == n {
      i := |wire| - 1;
      assert wire[..i + 1] == wire;
    } else {
      i := LastFrame(init, n, j);
      assert init[..i + 1] == wire[..i + 1];
    }
  }

  /** `done(true)` means the last frame of the blob went out, after all of its bytes. */
  lemma DoneMeansSent(ls: seq<Label>, k: Link, r: P.Report) returns (i: nat)
    requires k.chunk > 0 && After(ls, k).Some? && r in After(ls, k).value.pump.reports && r.ok
    ensures var s := After(ls, k).value;
            && i < |s.pump.wire| && s.pump.wire[i].ticket == r.ticket < |s.jobs|
            && Got(s.pump.wire[..i + 1], r.ticket) == s.jobs[r.ticket].data
  {
    ReportsAlwaysOk(ls, k);
    var s := After(ls, k).value;
    assert Whole(s, r.ticket);
    var j :| 0 <= j < |s.pump.wire| && s.pump.wire[j].ticket == r.ticket;
    i := LastFrame(s.pump.wire, r.ticket, j);
  }

  lemma Grows(s: State, l: Label, k: Link)
    requires Enabled(s, l, k)
    ensures var s' := Apply(s, l, k);
            s.pump.wire <= s'.pump.wire && s.jobs <= s'.jobs && s.seen <= s'.seen <= s.seen + 1
              && (s'.seen > s.seen ==> l.Deliver?)
  {
  }

  /** What the store has of a blob right after its last frame: all of it, or nothing if it was lost. */
  ghost predicate Settled(s: State, n: nat, job: Job) {
    if n in s.lost then Name(job) !in s.store
    else Name(job) in s.store && s.store[Name(job)].complete && s.store[Name(job)].data == job.data
  }

  /** The blob the next frame completes. */
  ghost function Reported(s: State, now: int, k: Link): Option<string>
    requires HasChunk(s)
  {
    Completed(s.store, NextChunk(s), now, k.bounds.maxBlob)
  }

  /** The step by which frame `i`, the last of a blob, was received: what it reported and what the store had then. */
  ghost predicate ReceivedBy(b: Option<State>, l: Label, q: Option<State>, k: Link, i: nat, n: nat, job: Job) {
    && b.Some? && q.Some? && l.Deliver? && b.value.seen == i && q.value.seen == i + 1 && HasChunk(b.value)
    && Settled(q.value, n, job)
    && Reported(b.value, l.now, k) == if n in q.value.lost then None else Some(Name(job))
  }

  lemma StoredMeansSettled(s: State, t: State, i: nat)
    requires i < |s.pump.wire| && StoredNext(s.pump.wire, i, s.jobs, s.lost, s.store, t.store) && t.lost == s.lost
    ensures var n := s.pump.wire[i].ticket;
            n < |s.jobs| && (Got(s.pump.wire[..i + 1], n) == s.jobs[n].data ==> Settled(t, n, s.jobs[n]))
  {
  }

  lemma JustReported(s: State, l: Label, k: Link)
    requires Inv(s, k) && Enabled(s, l, k) && l.Deliver?
    ensures var n := s.pump.wire[s.seen].ticket;
            && n < |s.jobs| && Apply(s, l, k).lost == s.lost
            && (Got(s.pump.wire[..s.seen + 1], n) == s.jobs[n].data ==>
                  Reported(s, l.now, k) == if n in s.lost then None else Some(Name(s.jobs[n])))
  {
    NextIsAccepted(s, k, l.now);
    if s.pump.wire[s.seen].ticket !in s.lost { NextIsAbsorbed(s, k, l.now); }
  }

  lemma JustSettled(s: State, l: Label, k: Link)
    requires Inv(s, k) && Enabled(s, l, k) && l.Deliver?
    ensures var n := s.pump.wire[s.seen].ticket;
            && n < |s.jobs|
            && (Got(s.pump.wire[..s.seen + 1], n) == s.jobs[n].data ==> Settled(Apply(s, l, k), n, s.jobs[n]))
  {
    NextIsStored(s, k, l.now, l.victims);
    StoredMeansSettled(s, Apply(s, l, k), s.seen);
  }

  lemma SettledAndReported(s: State, l: Label, t: State, k: Link, n: nat, job: Job)
    requires l.Deliver? && HasChunk(s) && t.seen == s.seen + 1 && t.lost == s.lost && Settled(t, n, job)
    requires Reported(s, l.now, k) == if n in s.lost then None else Some(Name(job))
    ensures ReceivedBy(Some(s), l, Some(t), k, s.seen, n, job)
  {
  }

  /** The frame just received: if it brings all of its blob, the store has it whole, or nothing of it. */
  lemma JustReceived(s: State, l: Label, k: Link, n: nat)
    requires Inv(s, k) && Enabled(s, l, k) && l.Deliver? && n == s.pump.wire[s.seen].ticket
    ensures n < |s.jobs|
    ensures Got(s.pump.wire[..s.seen + 1], n) == s.jobs[n].data ==>
              ReceivedBy(Some(s), l, Some(Apply(s, l, k)), k, s.seen, n, s.jobs[n])
  {
    JustReported(s, l, k);
    JustSettled(s, l, k);
    if Got(s.pump.wire[..s.seen + 1], n) == s.jobs[n].data {
      SettledAndReported(s, l, Apply(s, l, k), k, n, s.jobs[n]);
    }
  }

  /** Frame `i` was received by the step `l` from `b` to `q`, and `s` is a later state. */
  ghost predicate SeenBy(b: Option<State>, l: Label, q: Option<State>, s: State, k: Link, i: nat) {
    && b.Some? && Enabled(b.value, l, k) && q == Some(Apply(b.value, l, k))
    && l.Deliver? && b.value.seen == i < |b.value.pump.wire| && i < |s.pump.wire|
    && s.pump.wire[i] == b.value.pump.wire[i] && s.pump.wire[..i + 1] == b.value.pump.wire[..i + 1]
    && var n := s.pump.wire[i].ticket; n < |b.value.jobs| <= |s.jobs| && s.jobs[n] == b.value.jobs[n]
  }

  lemma SeenNow(s: State, l: Label, k: Link, i: nat)
    requires Inv(s, k) && Enabled(s, l, k) && s.seen <= i < Apply(s, l, k).seen
    ensures SeenBy(Some(s), l, Some(Apply(s, l, k)), Apply(s, l, k), k, i)
  {
    Grows(s, l, k);
    assert FrameOk(s.pump.wire, i, s.jobs);
  }

  lemma SeenStill(b: Option<State>, l: Label, q: Option<State>, s: State, s': State, k: Link, i: nat)
    requires SeenBy(b, l, q, s, k, i) && s.pump.wire <= s'.pump.wire && s.jobs <= s'.jobs
    ensures SeenBy(b, l, q, s', k, i)
  {
  }

  ghost predicate SeenIn(ls: seq<Label>, p: nat, s: State, k: Link, i: nat)
    requires 0 < p <= |ls|
  {
    SeenBy(After(ls[..p - 1], k), ls[p - 1], After(ls[..p], k), s, k, i)
  }

  lemma SeenEarlier(ls: seq<Label>, p: nat, s: State, k: Link, i: nat)
    requires ls != [] && 0 < p <= |ls| - 1 && SeenIn(ls[..|ls| - 1], p, s, k, i)
    ensures SeenIn(ls, p, s, k, i)
  {
    var init := ls[..|ls| - 1];
    assert init[..p] == ls[..p] && init[..p - 1] == ls[..p - 1];
  }

  lemma SeenLast(ls: seq<Label>, k: Link, i: nat)
    requires k.chunk > 0 && ls != [] && After(ls, k).Some?
    requires After(ls[..|ls| - 1], k).value.seen <= i < After(ls, k).value.seen
    ensures SeenIn(ls, |ls|, After(ls, k).value, k, i)
  {
    RunsKeepInv(ls[..|ls| - 1], k);
    SeenNow(After(ls[..|ls| - 1], k).value, ls[|ls| - 1], k, i);
    assert ls[..|ls|] == ls;
  }

  lemma {:induction false} SeenAt(ls: seq<Label>, k: Link, i: nat) returns (p: nat)
    requires k.chunk > 0 && After(ls, k).Some? && i < After(ls, k).value.seen
    ensures 0 < p <= |ls| && SeenIn(ls, p, After(ls, k).value, k, i)
  {
    var init, l := ls[..|ls| - 1], ls[|ls| - 1];
    var before := After(init, k).value;
    if before.seen > i {
      p := SeenAt(init, k, i);
      SeenEarlier(ls, p, before, k, i);
      Grows(before, l, k);
      SeenStill(After(ls[..p - 1], k), ls[p - 1], After(ls[..p], k), before, After(ls, k).value, k, i);
    } else {
      p := |ls|;
      SeenLast(ls, k, i);
    }
  }

  /**
   End to end.  Once the frame that carries the last bytes of a blob has been received, there was a
   moment, right after that frame, at which `OnChunk` reported the blob and the store held the whole of
   it as complete, so that `Take` returned exactly its bytes.  It held nothing of it then and reported
   nothing if and only if the blob had been let expire between two of its frames.
   */
  lemma ReceivedWhole(ls: seq<Label>, k: Link, i: nat) returns (p: nat)
    requires k.chunk > 0 && After(ls, k).Some? && i < After(ls, k).value.seen <= |After(ls, k).value.pump.wire|
    requires var s := After(ls, k).value; var n := s.pump.wire[i].ticket;
             n < |s.jobs| && Got(s.pump.wire[..i + 1], n) == s.jobs[n].data
    ensures 0 < p <= |ls|
    ensures var s := After(ls, k).value; var n := s.pump.wire[i].ticket;
            ReceivedBy(After(ls[..p - 1], k), ls[p - 1], After(ls[..p], k), k, i, n, s.jobs[n])
  {
    p := SeenAt(ls, k, i);
    RunsKeepInv(ls[..p - 1], k);
    JustReceived(After(ls[..p - 1], k).value, ls[p - 1], k, After(ls, k).value.pump.wire[i].ticket);
  }

  /** Sender to receiver: told true and every frame received, a blob was there whole, or had expired on the way. */
  lemma DoneMeansReceived(ls: seq<Label>, k: Link, r: P.Report) returns (i: nat, p: nat)
    requires k.chunk > 0 && After(ls, k).Some? && r in After(ls, k).value.pump.reports && r.ok
    requires After(ls, k).value.seen == |After(ls, k).value.pump.wire|
    ensures 0 < p <= |ls| && r.ticket < |After(ls, k).value.jobs|
    ensures ReceivedBy(After(ls[..p - 1], k), ls[p - 1], After(ls[..p], k), k, i, r.ticket,
                       After(ls, k).value.jobs[r.ticket])
  {
    i := DoneMeansSent(ls, k, r);
    p := ReceivedWhole(ls, k, i);
  }

  /** The store is aged while blob `n` is the one in progress, and overdue. */
  ghost predicate Loses(b: Option<State>, l: Label, k: Link, n: nat) {
    && b.Some? && l.AgeStore? && TimesOut(b.value, l.now, k)
    && b.value.pump.wire[b.value.seen - 1].ticket == n
  }

  lemma LostStep(s: State, l: Label, k: Link, n: nat)
    requires Enabled(s, l, k)
    ensures n in Apply(s, l, k).lost <==> n in s.lost || Loses(Some(s), l, k, n)
  {
  }

  ghost predicate LosesAt(ls: seq<Label>, j: nat, k: Link, n: nat) {
    j < |ls| && Loses(After(ls[..j], k), ls[j], k, n)
  }

  lemma LosesAtStep(ls: seq<Label>, j: nat, k: Link, n: nat)
    requires ls != [] && j < |ls| - 1
    ensures LosesAt(ls, j, k, n) <==> LosesAt(ls[..|ls| - 1], j, k, n)
  {
    assert ls[..|ls| - 1][..j] == ls[..j];
  }

  lemma LosesEarlier(ls: seq<Label>, init: seq<Label>, k: Link, n: nat)
    requires ls != [] && init == ls[..|ls| - 1] && exists j: nat :: LosesAt(init, j, k, n)
    ensures exists j: nat :: LosesAt(ls, j, k, n)
  {
    var j: nat :| LosesAt(init, j, k, n);
    LosesAtStep(ls, j, k, n);
  }

  lemma LosesLater(ls: seq<Label>, init: seq<Label>, k: Link, n: nat)
    requires ls != [] && init == ls[..|ls| - 1] && exists j: nat :: LosesAt(ls, j, k, n)
    ensures (exists j: nat :: LosesAt(init, j, k, n)) || LosesAt(ls, |ls| - 1, k, n)
  {
    var j: nat :| LosesAt(ls, j, k, n);
    if j < |init| { LosesAtStep(ls, j, k, n); }
  }

  lemma LosesIffStep(ls: seq<Label>, init: seq<Label>, k: Link, n: nat)
    requires ls != [] && init == ls[..|ls| - 1]
    ensures (exists j: nat :: LosesAt(ls, j, k, n)) <==>
            (exists j: nat :: LosesAt(init, j, k, n)) || LosesAt(ls, |ls| - 1, k, n)
  {
    if exists j: nat :: LosesAt(init, j, k, n) { LosesEarlier(ls, init, k, n); }
    if exists j: nat :: LosesAt(ls, j, k, n) { LosesLater(ls, init, k, n); }
  }

  /** A blob is lost exactly by ageing the store while it is in progress and overdue. */
  lemma {:induction false} LostByAgeing(ls: seq<Label>, k: Link, n: nat)
    requires After(ls, k).Some?
    ensures n in After(ls, k).value.lost <==> exists j: nat :: LosesAt(ls, j, k, n)
  {
    if ls != [] {
      var init := ls[..|ls| - 1];
      LostByAgeing(init, k, n);
      LostStep(After(init, k).value, ls[|ls| - 1], k, n);
      LosesIffStep(ls, init, k, n);
    }
  }

  // ------------------------------------------------------------------ a blob that expires on the way

  const SLOW := Link(1, Bounds(2, 2, 10))

  lemma RunGrows(ls: seq<Label>, l: Label, k: Link)
    requires After(ls, k).Some? && Enabled(After(ls, k).value, l, k)
    ensures After(ls + [l], k) == Some(Apply(After(ls, k).value, l, k))
  {
    assert (ls + [l])[..|ls|] == ls;
  }

  /** Two bytes in two frames, the first of them received. */
  function Halfway(id: string): seq<Label> {
    [Pumped(P.Put(id, [1, 2]))] + [Pumped(P.Send)] + [Deliver(0, [])]
  }

  lemma SendsFirst(s: State, id: string, data: P.Blob, k: Link)
    requires IsUuid(id) && |data| == 2 && k.chunk == 1
    requires s.pump.queue == [P.Transfer(id, data, 0, false, 0)] && s.pump.wire == []
    ensures Enabled(s, Pumped(P.Send), k)
    ensures var s' := Apply(s, Pumped(P.Send), k);
            && s'.jobs == s.jobs && s'.store == s.store && s'.seen == s.seen && s'.lost == s.lost
            && |s'.pump.wire| == 1 && s'.pump.wire[0].ticket == 0
            && s'.pump.queue == [P.Transfer(id, data, 1, false, 0)]
  {
    P.EncodesUuids(s.pump.queue[0], k.chunk);
  }

  lemma FirstSent(id: string)
    requires IsUuid(id)
    ensures var ls := [Pumped(P.Put(id, [1, 2]))] + [Pumped(P.Send)];
            && After(ls, SLOW).Some?
            && var s := After(ls, SLOW).value;
               && s.jobs == [Job(id, [1, 2])] && s.store == map[] && s.seen == 0 && s.lost == {}
               && |s.pump.wire| == 1 && s.pump.queue == [P.Transfer(id, [1, 2], 1, false, 0)]
               && s.pump.wire[0].ticket == 0
  {
    var put := Pumped(P.Put(id, [1, 2]));
    assert [] + [put] == [put] && After([], SLOW) == Some(START);
    RunGrows([], put, SLOW);
    SendsFirst(After([put], SLOW).value, id, [1, 2], SLOW);
    RunGrows([put], Pumped(P.Send), SLOW);
  }

  lemma FirstReceived(id: string)
    requires IsUuid(id)
    ensures After(Halfway(id), SLOW).Some?
    ensures var s := After(Halfway(id), SLOW).value;
            && s.jobs == [Job(id, [1, 2])] && s.seen == |s.pump.wire| == 1 && s.lost == {} && s.pump.wire[0].ticket == 0
            && s.pump.queue == [P.Transfer(id, [1, 2], 1, false, 0)]
            && LowerCase(id) in s.store && !s.store[LowerCase(id)].complete && s.store[LowerCase(id)].last == 0
  {
    var ls := [Pumped(P.Put(id, [1, 2]))] + [Pumped(P.Send)];
    FirstSent(id);
    RunsKeepInv(ls, SLOW);
    var s := After(ls, SLOW).value;
    assert FrameOk(s.pump.wire, 0, s.jobs);
    NextIsAbsorbed(s, SLOW, 0);
    var m := Absorbed(s.store, NextChunk(s), 0, 2);
    assert m == map[LowerCase(id) := m[LowerCase(id)]] && Without(m, []) == m;
    RunGrows(ls, Deliver(0, []), SLOW);
    OneOfTwo(s.pump.wire, s.jobs);
  }

  lemma OneOfTwo(wire: seq<P.Sent>, jobs: seq<Job>)
    requires |wire| == 1 && WireOk(wire, jobs) && wire[0].ticket < |jobs| && |jobs[wire[0].ticket].data| == 2
    requires Got(wire, wire[0].ticket) == jobs[wire[0].ticket].data[..1]
    ensures |Got(wire[..1], wire[0].ticket)| == 1
  {
    assert wire[..1] == wire;
  }

  /** The store is aged past the time to live between the two frames: the second is sent, received and useless. */
  lemma ExpiresMidway(id: string)
    requires IsUuid(id)
    ensures var ls := Halfway(id) + [AgeStore(11)] + [Pumped(P.Send)] + [Deliver(11, [])];
            && After(ls, SLOW).Some?
            && var s := After(ls, SLOW).value;
               s.seen == |s.pump.wire| == 2 && 0 in s.lost && LowerCase(id) !in s.store
  {
    FirstReceived(id);
    RunGrows(Halfway(id), AgeStore(11), SLOW);
    var aged := Halfway(id) + [AgeStore(11)];
    P.EncodesUuids(P.Transfer(id, [1, 2], 1, false, 0), 1);
    RunGrows(aged, Pumped(P.Send), SLOW);
    var sent := aged + [Pumped(P.Send)];
    RunsKeepInv(sent, SLOW);
    var s := After(sent, SLOW).value;
    assert FrameOk(s.pump.wire, 1, s.jobs);
    NextIsAccepted(s, SLOW, 11);
    RunGrows(sent, Deliver(11, []), SLOW);
    NextIsDropped(s, SLOW, 11, []);
  }
}
