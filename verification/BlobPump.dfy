/**
 The send side of blob frames (agent/src/core/blob_pump.cpp): queued blobs cut into chunks that go
 out as long as the channel takes them, and resume where it refused one.
 */
module BlobPump {
  import opened Common
  import opened BlobCodec

  type Blob = s: seq<Byte> | |s| < TWO64

  /** A queued blob; `ticket` tells apart the `done` callbacks of transfers. */
  datatype Transfer = Transfer(id: string, data: Blob, offset: nat, sentEmpty: bool, ticket: nat)

  datatype Sent = Sent(ticket: nat, frame: seq<Byte>)

  datatype Report = Report(ticket: nat, ok: bool)

  datatype State = State(queue: seq<Transfer>, wire: seq<Sent>, reports: seq<Report>, tickets: nat)

  /** One thing the pump does: each is a step of `Pump`, `Enqueue`, `Cancel` or `FailAll`. */
  datatype Label =
    | Put(id: string, data: Blob)
    | Send
    | Finish
    | CancelAt(index: nat)

  predicate HasNext(t: Transfer) { (|t.data| == 0 && !t.sentEmpty) || t.offset < |t.data| }

  function NextSize(t: Transfer, chunk: nat): nat {
    if t.offset < |t.data| then Min(chunk, |t.data| - t.offset) else 0
  }

  function NextFrame(t: Transfer, chunk: nat): Result<seq<Byte>, EncodeError>
    requires t.offset <= |t.data|
  {
    Encoded(t.id, t.offset, |t.data|, t.data[t.offset..t.offset + NextSize(t, chunk)])
  }

  function Advanced(t: Transfer, chunk: nat): Transfer {
    if |t.data| == 0 then t.(sentEmpty := true) else t.(offset := t.offset + NextSize(t, chunk))
  }

  predicate Enabled(s: State, l: Label, chunk: nat) {
    match l
    case Put(_, _) => true
    case Send => s.queue != [] && s.queue[0].offset <= |s.queue[0].data| && HasNext(s.queue[0])
      && NextFrame(s.queue[0], chunk).Ok?
    case Finish => s.queue != [] && !HasNext(s.queue[0])
    case CancelAt(i) => i < |s.queue|
  }

  function Apply(s: State, l: Label, chunk: nat): State
    requires Enabled(s, l, chunk)
  {
    match l
    case Put(id, data) => s.(queue := s.queue + [Transfer(id, data, 0, false, s.tickets)], tickets := s.tickets + 1)
    case Send =>
      var t := s.queue[0];
      s.(queue := [Advanced(t, chunk)] + s.queue[1..], wire := s.wire + [Sent(t.ticket, NextFrame(t, chunk).value)])
    case Finish => s.(queue := s.queue[1..], reports := s.reports + [Report(s.queue[0].ticket, true)])
    case CancelAt(i) => s.(queue := s.queue[..i] + s.queue[i + 1..],
                           reports := s.reports + [Report(s.queue[i].ticket, false)])
  }

  function Run(s: State, ls: seq<Label>, chunk: nat): Option<State> {
    if ls == [] then Some(s)
    else
      var before := Run(s, ls[..|ls| - 1], chunk);
      if before.Some? && Enabled(before.value, ls[|ls| - 1], chunk) then Some(Apply(before.value, ls[|ls| - 1], chunk))
      else None
  }

  lemma RunGrows(s: State, ls: seq<Label>, l: Label, chunk: nat)
    requires Run(s, ls, chunk).Some? && Enabled(Run(s, ls, chunk).value, l, chunk)
    ensures Run(s, ls + [l], chunk) == Some(Apply(Run(s, ls, chunk).value, l, chunk))
  {
    assert (ls + [l])[..|ls|] == ls;
  }

  /** Only a malformed id keeps a transfer's frame from being encoded. */
  lemma EncodesUuids(t: Transfer, chunk: nat)
    requires chunk <= MAX_CHUNK_PAYLOAD && t.offset <= |t.data|
    ensures NextFrame(t, chunk).Ok? <==> IsUuid(t.id)
  {
  }

  /** What a `done` callback does, in order, with what the callbacks it causes do in turn. */
  datatype Action = Enqueues(id: string, data: Blob) | Cancels(id: string)

  function Waiting(callbacks: seq<seq<Action>>): nat {
    if callbacks == [] then 0 else |callbacks[0]| + Waiting(callbacks[1..])
  }

  lemma FrontOff(gone: seq<Transfer>, queue: seq<Transfer>)
    requires gone != []
    ensures (gone + queue)[..0] + (gone + queue)[1..] == gone[1..] + queue && (gone + queue)[0] == gone[0]
  {
  }

  lemma CutBehind(ahead: seq<Transfer>, queue: seq<Transfer>, i: nat)
    requires i < |queue|
    ensures (ahead + queue)[..|ahead| + i] + (ahead + queue)[|ahead| + i + 1..] == ahead + (queue[..i] + queue[i + 1..])
  {
  }

  /** Nothing was told but false. */
  predicate ToldFalse(reports: seq<Report>, reports': seq<Report>) {
    reports <= reports' && forall i :: |reports| <= i < |reports'| ==> !reports'[i].ok
  }

  class Pump {
    const chunk: nat
    var queue: seq<Transfer>
    var tickets: nat
    var pumping: bool

    ghost predicate Valid()
      reads this
    {
      chunk <= MAX_CHUNK_PAYLOAD && forall i :: 0 <= i < |queue| ==> queue[i].offset <= |queue[i].data|
    }

    ghost function View(wire: seq<Sent>, reports: seq<Report>): State
      reads this
    {
      State(queue, wire, reports, tickets)
    }

    constructor (chunkPayload: nat)
      ensures Valid() && chunk == Min(chunkPayload, MAX_CHUNK_PAYLOAD) && queue == [] && tickets == 0 && !pumping
    {
      chunk := Min(chunkPayload, MAX_CHUNK_PAYLOAD);
      queue, tickets, pumping := [], 0, false;
    }

    method Enqueue(id: string, data: Blob)
      requires Valid()
      modifies this`queue, this`tickets
      ensures Valid()
      ensures View([], []) == Apply(old(View([], [])), Put(id, data), chunk)
    {
      queue := queue + [Transfer(id, data, 0, false, tickets)];
      tickets := tickets + 1;
    }

    method EncodeNext(t: Transfer) returns (frame: Result<seq<Byte>, EncodeError>)
      requires chunk <= MAX_CHUNK_PAYLOAD && t.offset <= |t.data|
      ensures frame == NextFrame(t, chunk)
    {
      var size := NextSize(t, chunk);
      frame := EncodeChunk(t.id, t.offset, |t.data|, t.data[t.offset..t.offset + size]);
    }

    /** The channel took the front transfer's frame. */
    method Took(frame: seq<Byte>, ghost start: State, ghost ls: seq<Label>, sent: seq<Sent>, ghost reports: seq<Report>)
      returns (sent': seq<Sent>, ghost ls': seq<Label>)
      requires Valid() && queue != [] && HasNext(queue[0]) && NextFrame(queue[0], chunk) == Ok(frame)
      requires Run(start, ls, chunk) == Some(View(sent, reports))
      modifies this`queue
      ensures Valid() && |queue| == old(|queue|) && queue[0] == Advanced(old(queue[0]), chunk)
      ensures Run(start, ls', chunk) == Some(View(sent', reports))
    {
      RunGrows(start, ls, Send, chunk);
      ls' := ls + [Send];
      sent' := sent + [Sent(queue[0].ticket, frame)];
      queue := [Advanced(queue[0], chunk)] + queue[1..];
    }

    /** The front transfer's next frames, until it has none left, one is refused, or one cannot be encoded. */
    method SendFront(answers: seq<bool>, ghost start: State, ghost ls: seq<Label>, sent: seq<Sent>,
                     ghost reports: seq<Report>)
      returns (left: seq<bool>, sent': seq<Sent>, refused: bool, threw: bool, ghost ls': seq<Label>)
      requires Valid() && queue != [] && Run(start, ls, chunk) == Some(View(sent, reports))
      modifies this`queue
      ensures Valid() && |queue| == old(|queue|) && Run(start, ls', chunk) == Some(View(sent', reports))
      ensures !refused && !threw ==> !HasNext(queue[0])
      ensures threw ==> !IsUuid(queue[0].id)
      ensures refused ==> HasNext(queue[0]) && (left == [] || !left[0])
      ensures exists n :: 0 <= n <= |answers| && left == answers[n..] && forall i :: 0 <= i < n ==> answers[i]
    {
      left, sent', refused, threw, ls' := answers, sent, false, false, ls;
      ghost var n := 0;
      while HasNext(queue[0])
        invariant Valid() && |queue| == old(|queue|) && Run(start, ls', chunk) == Some(View(sent', reports))
        invariant 0 <= n <= |answers| && left == answers[n..] && forall i :: 0 <= i < n ==> answers[i]
        decreases |left|
      {
        var frame := EncodeNext(queue[0]);
        if frame.Err? {
          EncodesUuids(queue[0], chunk);
          return left, sent', false, true, ls';
        }
        if left == [] || !left[0] { return left, sent', true, false, ls'; }
        left, n := left[1..], n + 1;
        sent', ls' := Took(frame.value, start, ls', sent', reports);
      }
    }

    method FindId(id: string) returns (i: nat)
      ensures i <= |queue| && (i < |queue| ==> queue[i].id == id) && forall j :: 0 <= j < i ==> queue[j].id != id
    {
      i := 0;
      while i < |queue| && queue[i].id != id
        invariant 0 <= i <= |queue| && forall j :: 0 <= j < i ==> queue[j].id != id
      {
        i := i + 1;
      }
    }

    /** One action of a callback, while `ahead` waits to be told in front of the queue. */
    method ActOnce(a: Action, ghost ahead: seq<Transfer>, ghost start: State, ghost ls: seq<Label>,
                   ghost sent: seq<Sent>, reports: seq<Report>)
      returns (reports': seq<Report>, ghost ls': seq<Label>)
      requires Valid() && Run(start, ls, chunk) == Some(State(ahead + queue, sent, reports, tickets))
      modifies this`queue, this`tickets
      ensures Valid() && Run(start, ls', chunk) == Some(State(ahead + queue, sent, reports', tickets))
      ensures ToldFalse(reports, reports')
      ensures |queue| <= old(|queue|) + 1 && tickets >= old(tickets)
      ensures forall i :: 0 <= i < |queue| ==> queue[i] in old(queue) || queue[i].ticket >= old(tickets)
    {
      reports', ls' := reports, ls;
      match a {
        case Enqueues(id, data) =>
          RunGrows(start, ls, Put(id, data), chunk);
          ls' := ls + [Put(id, data)];
          Regroup(ahead, queue, [Transfer(id, data, 0, false, tickets)]);
          Enqueue(id, data);
        case Cancels(id) =>
          var i := FindId(id);
          if i < |queue| { reports', ls' := CancelOne(i, ahead, start, ls, sent, reports); }
      }
    }

    method CancelOne(i: nat, ghost ahead: seq<Transfer>, ghost start: State, ghost ls: seq<Label>,
                     ghost sent: seq<Sent>, reports: seq<Report>)
      returns (reports': seq<Report>, ghost ls': seq<Label>)
      requires Valid() && i < |queue| && Run(start, ls, chunk) == Some(State(ahead + queue, sent, reports, tickets))
      modifies this`queue
      ensures Valid() && Run(start, ls', chunk) == Some(State(ahead + queue, sent, reports', tickets))
      ensures ToldFalse(reports, reports')
      ensures queue == old(queue)[..i] + old(queue)[i + 1..]
    {
      RunGrows(start, ls, CancelAt(|ahead| + i), chunk);
      CutBehind(ahead, queue, i);
      ls' := ls + [CancelAt(|ahead| + i)];
      reports' := reports + [Report(queue[i].ticket, false)];
      queue := queue[..i] + queue[i + 1..];
    }

    method Act(actions: seq<Action>, ghost ahead: seq<Transfer>, ghost start: State, ghost ls: seq<Label>,
               ghost sent: seq<Sent>, reports: seq<Report>)
      returns (reports': seq<Report>, ghost ls': seq<Label>)
      requires Valid() && Run(start, ls, chunk) == Some(State(ahead + queue, sent, reports, tickets))
      modifies this`queue, this`tickets
      ensures Valid() && Run(start, ls', chunk) == Some(State(ahead + queue, sent, reports', tickets))
      ensures ToldFalse(reports, reports')
      ensures |queue| <= old(|queue|) + |actions| && tickets >= old(tickets)
      ensures forall i :: 0 <= i < |queue| ==> queue[i] in old(queue) || queue[i].ticket >= old(tickets)
    {
      reports', ls' := reports, ls;
      for i := 0 to |actions|
        invariant Valid() && Run(start, ls', chunk) == Some(State(ahead + queue, sent, reports', tickets))
        invariant ToldFalse(reports, reports') && |queue| <= old(|queue|) + i && tickets >= old(tickets)
        invariant forall i :: 0 <= i < |queue| ==> queue[i] in old(queue) || queue[i].ticket >= old(tickets)
      {
        reports', ls' := ActOnce(actions[i], ahead, start, ls', sent, reports');
      }
    }

    /** The front transfer is done: told true, and its callback runs. */
    method FinishFront(actions: seq<Action>, ghost start: State, ghost ls: seq<Label>, ghost sent: seq<Sent>,
                       reports: seq<Report>)
      returns (reports': seq<Report>, ghost ls': seq<Label>)
      requires Valid() && queue != [] && !HasNext(queue[0]) && Run(start, ls, chunk) == Some(View(sent, reports))
      modifies this`queue, this`tickets
      ensures Valid() && |queue| < old(|queue|) + |actions| && Run(start, ls', chunk) == Some(View(sent, reports'))
      ensures |reports'| > |reports| && reports'[|reports|] == Report(old(queue[0].ticket), true)
    {
      RunGrows(start, ls, Finish, chunk);
      ls' := ls + [Finish];
      reports' := reports + [Report(queue[0].ticket, true)];
      queue := queue[1..];
      assert [] + queue == queue;
      reports', ls' := Act(actions, [], start, ls', sent, reports');
      assert [] + queue == queue;
    }

    /**
     `answers`: what the channel says to each frame, refusing when it runs out.  `callbacks`: what the
     n-th `done(true)` does in turn.  The effect is a run of single steps; it ends with the queue empty
     unless a frame was refused, or a malformed id threw, which leaves `pumping` set.
     */
    method DoPump(open: bool, answers: seq<bool>, callbacks: seq<seq<Action>>)
      returns (sent: seq<Sent>, reports: seq<Report>, refused: bool, threw: bool, ghost ls: seq<Label>)
      requires Valid()
      modifies this
      ensures Valid() && Run(old(View([], [])), ls, chunk) == Some(View(sent, reports))
      ensures !open || old(pumping) ==> ls == [] && !refused && !threw && pumping == old(pumping)
      ensures open && !old(pumping) ==> pumping == threw
      ensures open && !old(pumping) && !refused && !threw ==> queue == []
      ensures threw ==> queue != [] && !IsUuid(queue[0].id)
    {
      sent, reports, refused, threw, ls := [], [], false, false, [];
      if !open || pumping { return; }
      pumping := true;
      ghost var start := View([], []);
      var left, todo := answers, callbacks;
      while queue != []
        invariant Valid() && pumping && Run(start, ls, chunk) == Some(View(sent, reports))
        decreases |queue| + Waiting(todo)
      {
        left, sent, refused, threw, ls := SendFront(left, start, ls, sent, reports);
        if threw { return; }
        if refused { break; }
        reports, ls := FinishFront(if todo == [] then [] else todo[0], start, ls, sent, reports);
        if todo != [] { todo := todo[1..]; }
      }
      pumping := false;
    }

    method Cancel(id: string) returns (report: Option<Report>)
      requires Valid()
      modifies this`queue
      ensures Valid()
      ensures report.None? ==> queue == old(queue) && forall i :: 0 <= i < |queue| ==> queue[i].id != id
      ensures report.Some? ==>
                exists i :: && 0 <= i < |old(queue)| && old(queue)[i].id == id
                            && (forall j :: 0 <= j < i ==> old(queue)[j].id != id)
                            && View([], [report.value]) == Apply(old(View([], [])), CancelAt(i), chunk)
    {
      var i := FindId(id);
      if i == |queue| { return None; }
      report := Some(Report(queue[i].ticket, false));
      queue := queue[..i] + queue[i + 1..];
    }

    /** The first of those that fail is told false, and its callback runs. */
    method FailOne(t: Transfer, actions: seq<Action>, ghost rest: seq<Transfer>, ghost start: State,
                   ghost ls: seq<Label>, reports: seq<Report>)
      returns (reports': seq<Report>, ghost ls': seq<Label>)
      requires Valid() && Run(start, ls, chunk) == Some(State([t] + rest + queue, [], reports, tickets))
      modifies this`queue, this`tickets
      ensures Valid() && Run(start, ls', chunk) == Some(State(rest + queue, [], reports', tickets))
      ensures ToldFalse(reports, reports') && Report(t.ticket, false) in reports'
      ensures tickets >= old(tickets)
      ensures forall i :: 0 <= i < |queue| ==> queue[i] in old(queue) || queue[i].ticket >= old(tickets)
    {
      RunGrows(start, ls, CancelAt(0), chunk);
      FrontOff([t] + rest, queue);
      assert ([t] + rest)[1..] == rest;
      ls' := ls + [CancelAt(0)];
      reports' := reports + [Report(t.ticket, false)];
      assert reports'[|reports|] == Report(t.ticket, false);
      reports', ls' := Act(actions, rest, start, ls', [], reports');
    }

    /** Everything queued is told false; what its callbacks enqueue meanwhile stays. */
    method FailAll(callbacks: seq<seq<Action>>) returns (reports: seq<Report>, ghost ls: seq<Label>)
      requires Valid()
      modifies this`queue, this`tickets
      ensures Valid() && Run(old(View([], [])), ls, chunk) == Some(View([], reports))
      ensures ToldFalse([], reports)
      ensures forall i :: 0 <= i < |old(queue)| ==> Report(old(queue)[i].ticket, false) in reports
      ensures forall i :: 0 <= i < |queue| ==> queue[i].ticket >= old(tickets)
    {
      ghost var start := View([], []);
      var gone := queue;
      reports, ls := [], [];
      queue := [];
      assert gone[0..] + queue == gone;
      for i := 0 to |gone|
        invariant Valid() && tickets >= old(tickets) && ToldFalse([], reports)
        invariant forall j :: 0 <= j < i ==> Report(gone[j].ticket, false) in reports
        invariant forall j :: 0 <= j < |queue| ==> queue[j].ticket >= old(tickets)
        invariant Run(start, ls, chunk) == Some(State(gone[i..] + queue, [], reports, tickets))
      {
        assert [gone[i]] + gone[i + 1..] == gone[i..];
        var actions := if i < |callbacks| then callbacks[i] else [];
        reports, ls := FailOne(gone[i], actions, gone[i + 1..], start, ls, reports);
      }
      assert gone[|gone|..] + queue == queue;
    }
  }
}
