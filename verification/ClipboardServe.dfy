/**
 The clipboard the agent owns, pasted by many readers at once (agent/modules/desktop-x11/clipboard.cpp:
 267-345): what is owned may be replaced at any time, each request starts a send of what is owned then,
 and each deletion of a property asks the first send to that property for its next chunk.  Every reader
 reads as `ClipboardIncr` does; its window and property are its place.  Requests, deletions and their
 answers come in any order: a deletion may be answered long after a later request at its place.
 */
module ClipboardServe {
  import opened Common
  import I = ClipboardIncr

  datatype Place = Place(window: nat, property: nat)

  /** A paste being served in chunks; it keeps the bytes owned at its request. */
  datatype Send = Send(place: Place, data: string, offset: nat)

  /** What a place holds: the whole content, the announcement that it comes in chunks, or a chunk. */
  datatype Property = Whole(data: string) | Announce | Chunk(bytes: string)

  /**
   The paste last requested at a place.  `want`: what was owned at its request.  `due`: what the send
   that will answer it had left then, from `base` on.  `quiet`: no deletion that waited at its request
   will be answered by a send.  `incr`: the announcement was read.  `served`: that send did not time
   out, nor the reader delete a property unread.  `chunks`, `takes`, `finished`: what was written and
   read since.
   */
  datatype Reader = Reader(want: string, due: string, base: nat, max: nat, quiet: bool, incr: bool, served: bool,
                           chunks: nat, takes: nat, finished: bool, buffer: string, outcome: Option<Option<string>>)

  /** `asked`: how many deletions at each place were not answered yet. */
  datatype State = State(owned: Option<string>, sends: seq<Send>, properties: map<Place, Property>,
                         asked: map<Place, nat>, readers: map<Place, Reader>)

  function Waits(asked: map<Place, nat>, p: Place): nat { if p in asked then asked[p] else 0 }

  function More(asked: map<Place, nat>, p: Place): map<Place, nat> { asked[p := Waits(asked, p) + 1] }

  function Less(asked: map<Place, nat>, p: Place): map<Place, nat> {
    asked[p := if Waits(asked, p) > 0 then Waits(asked, p) - 1 else 0]
  }

  // ------------------------------------------------------------------ the sends

  /** The position of the first send to a place, or the number of sends. */
  function Find(sends: seq<Send>, p: Place): (i: nat)
    ensures i <= |sends| && (i < |sends| ==> sends[i].place == p) && forall j :: 0 <= j < i ==> sends[j].place != p
  {
    if sends == [] || sends[0].place == p then 0 else 1 + Find(sends[1..], p)
  }

  /** The send that answers at a place. */
  function Front(sends: seq<Send>, p: Place): Option<Send> {
    if Find(sends, p) < |sends| then Some(sends[Find(sends, p)]) else None
  }

  function Removed(sends: seq<Send>, i: nat): seq<Send>
    requires i < |sends|
  {
    sends[..i] + sends[i + 1..]
  }

  lemma FindIs(sends: seq<Send>, p: Place, i: nat)
    requires i <= |sends| && (i < |sends| ==> sends[i].place == p) && forall j :: 0 <= j < i ==> sends[j].place != p
    ensures Find(sends, p) == i
  {
  }

  lemma FrontOfAppended(sends: seq<Send>, s: Send, p: Place)
    ensures Front(sends + [s], p)
         == if Front(sends, p).Some? then Front(sends, p) else if s.place == p then Some(s) else None
  {
    var i, more := Find(sends, p), sends + [s];
    if i < |sends| || s.place == p { FindIs(more, p, i); } else { FindIs(more, p, |more|); }
  }

  lemma FrontOfUpdated(sends: seq<Send>, i: nat, s: Send, p: Place)
    requires i < |sends| && s.place == sends[i].place
    ensures Front(sends[i := s], p) == if i == Find(sends, p) then Some(s) else Front(sends, p)
  {
    FindIs(sends[i := s], p, Find(sends, p));
  }

  lemma RemovedAt(sends: seq<Send>, i: nat, j: nat)
    requires i < |sends| && j < |sends| - 1
    ensures |Removed(sends, i)| == |sends| - 1 && Removed(sends, i)[j] == sends[if j < i then j else j + 1]
  {
  }

  lemma RemovedUpdated(sends: seq<Send>, i: nat, s: Send)
    requires i < |sends|
    ensures Removed(sends[i := s], i) == Removed(sends, i)
  {
  }

  lemma FrontOfRest(sends: seq<Send>, i: nat, p: Place, rest: seq<Send>)
    requires i < |sends| && i != Find(sends, p) && |rest| == |sends| - 1
    requires forall j :: 0 <= j < |rest| ==> rest[j] == sends[if j < i then j else j + 1]
    ensures Front(rest, p) == Front(sends, p)
  {
    var f := Find(sends, p);
    FindIs(rest, p, if i < f then f - 1 else f);
  }

  lemma FrontOfRemoved(sends: seq<Send>, i: nat, p: Place)
    requires i < |sends| && i != Find(sends, p)
    ensures Front(Removed(sends, i), p) == Front(sends, p)
  {
    forall j | 0 <= j < |sends| - 1 ensures Removed(sends, i)[j] == sends[if j < i then j else j + 1] {
      RemovedAt(sends, i, j);
    }
    FrontOfRest(sends, i, p, Removed(sends, i));
  }

  // ------------------------------------------------------------------ the operations

  function Due(sends: seq<Send>, p: Place): string
    requires Front(sends, p).Some? && Front(sends, p).value.offset <= |Front(sends, p).value.data|
  {
    Front(sends, p).value.data[Front(sends, p).value.offset..]
  }

  function Paste(want: string, due: string, base: nat, max: nat, quiet: bool): Reader {
    Reader(want, due, base, max, quiet, false, true, 0, 0, false, "", None)
  }

  /** No deletion waits at a place, or none that a send would answer. */
  predicate Quiet(s: State, p: Place, bytes: string) {
    Waits(s.asked, p) == 0 || (|bytes| <= I.INCR_THRESHOLD && Front(s.sends, p).None?)
  }

  predicate InRange(sends: seq<Send>) { forall i :: 0 <= i < |sends| ==> sends[i].offset <= |sends[i].data| }

  /** A request: refused when nothing is owned, answered whole, or announced and queued. */
  function Requested(s: State, p: Place, max: nat): State
    requires InRange(s.sends)
  {
    match s.owned
    case None => s
    case Some(bytes) =>
      if |bytes| <= I.INCR_THRESHOLD then
        s.(properties := s.properties[p := Whole(bytes)],
           readers := s.readers[p := Paste(bytes, bytes, 0, max, Quiet(s, p, bytes))])
      else
        var sends := s.sends + [Send(p, bytes, 0)];
        FrontOfAppended(s.sends, Send(p, bytes, 0), p);
        s.(sends := sends, properties := s.properties[p := Announce],
           readers := s.readers[p := Paste(bytes, Due(sends, p), Front(sends, p).value.offset, max,
                                           Quiet(s, p, bytes))])
  }

  function InFull(r: Reader, bytes: string): Reader {
    r.(outcome := Some(if |bytes| <= r.max then Some(bytes) else None))
  }

  /** A chunk found where the announcement should be is taken for all there is. */
  function Read(r: Reader, q: Property): Reader {
    match q
    case Whole(data) => InFull(r, data)
    case Announce => r.(incr := true)
    case Chunk(bytes) =>
      if !r.incr then InFull(r, bytes)
      else
        var v := I.Verdict(r.max, r.buffer, bytes);
        r.(takes := r.takes + 1, outcome := v, buffer := if v.None? then r.buffer + bytes else r.buffer)
  }

  predicate Waiting(s: State, p: Place) { p in s.readers && s.readers[p].outcome.None? }

  /** The reader at a place reads its property and deletes it. */
  function Took(s: State, p: Place): State
    requires p in s.properties && Waiting(s, p)
  {
    s.(properties := s.properties - {p}, asked := More(s.asked, p),
       readers := s.readers[p := Read(s.readers[p], s.properties[p])])
  }

  /** A property is deleted unread, by a reader that gives up or by whoever else has the window. */
  function Deleted(s: State, p: Place): State
    requires p in s.properties
  {
    s.(properties := s.properties - {p}, asked := More(s.asked, p),
       readers := if Waiting(s, p) then s.readers[p := s.readers[p].(served := false)] else s.readers)
  }

  function Noted(s: State, p: Place, chunk: string): map<Place, Reader> {
    if Waiting(s, p) then s.readers[p := s.readers[p].(chunks := s.readers[p].chunks + 1, finished := chunk == "")]
    else s.readers
  }

  /** A deletion: the first send to that place, if any, writes its next chunk, and goes after the empty one. */
  function Answered(s: State, p: Place): State
    requires InRange(s.sends)
  {
    var i, t := Find(s.sends, p), s.(asked := Less(s.asked, p));
    if i == |s.sends| then t
    else
      var f := s.sends[i];
      var chunk := I.Next(f.data, f.offset);
      t.(sends := if chunk == "" then Removed(s.sends, i) else s.sends[i := f.(offset := f.offset + |chunk|)],
         properties := s.properties[p := Chunk(chunk)], readers := Noted(s, p, chunk))
  }

  /** A send whose reader stopped asking goes. */
  function Dropped(s: State, i: nat): State
    requires i < |s.sends|
  {
    var p := s.sends[i].place;
    s.(sends := Removed(s.sends, i),
       readers := if i == Find(s.sends, p) && p in s.readers then s.readers[p := s.readers[p].(served := false)]
                  else s.readers)
  }

  // ------------------------------------------------------------------ runs

  datatype Label =
    | Write(bytes: string)
    | LoseSelection
    | Request(place: Place, max: nat)
    | Take(place: Place)
    | Delete(place: Place)
    | Answer(place: Place)
    | TimeOut(index: nat)

  predicate Enabled(s: State, l: Label) {
    InRange(s.sends) &&
    match l
    case Take(p) => p in s.properties && Waiting(s, p)
    case Delete(p) => p in s.properties
    case Answer(p) => Waits(s.asked, p) > 0
    case TimeOut(i) => i < |s.sends|
    case _ => true
  }

  function Apply(s: State, l: Label): State
    requires Enabled(s, l)
  {
    match l
    case Write(bytes) => s.(owned := Some(bytes))
    case LoseSelection => s.(owned := None)
    case Request(p, max) => Requested(s, p, max)
    case Take(p) => Took(s, p)
    case Delete(p) => Deleted(s, p)
    case Answer(p) => Answered(s, p)
    case TimeOut(i) => Dropped(s, i)
  }

  const START := State(None, [], map[], map[], map[])

  function After(ls: seq<Label>): Option<State> {
    if ls == [] then Some(START)
    else
      var before := After(ls[..|ls| - 1]);
      if before.None? || !Enabled(before.value, ls[|ls| - 1]) then None else Some(Apply(before.value, ls[|ls| - 1]))
  }

  // ------------------------------------------------------------------ one place is one transfer

  function InPlace(s: State, p: Place): Option<string> {
    if p in s.properties && s.properties[p].Chunk? then Some(s.properties[p].bytes) else None
  }

  /** What goes on at a place, as a transfer of what was due there. */
  function Transfer(s: State, p: Place): I.Xfer
    requires p in s.readers
  {
    var r := s.readers[p];
    var offset := if !r.finished && Front(s.sends, p).Some? then Front(s.sends, p).value.offset - r.base else |r.due|;
    I.Xfer(r.due, r.max, if offset < 0 then 0 else offset, r.finished, r.chunks, Waits(s.asked, p) > 0, InPlace(s, p),
           r.buffer, r.takes, r.outcome)
  }

  /** The send that answers at a place has what is due there, from its base on. */
  predicate Answers(s: State, p: Place)
    requires p in s.readers
  {
    var f, r := Front(s.sends, p), s.readers[p];
    f.Some? && r.base <= f.value.offset <= |f.value.data| && f.value.data[r.base..] == r.due
  }

  /** How far the paste at a place got: nothing read, the announcement read, or the outcome known. */
  predicate Served(s: State, p: Place)
    requires p in s.readers
  {
    var r := s.readers[p];
    if r.outcome.Some? then
      && r.outcome.value == (if |r.due| <= r.max then Some(r.due) else None)
      && (r.incr && r.outcome.value.Some? ==> r.chunks == I.ChunksFor(|r.due|))
    else if r.incr then
      && I.Inv(Transfer(s, p)) && (r.finished || Answers(s, p)) && Waits(s.asked, p) <= 1
      && (p in s.properties ==> s.properties[p].Chunk?)
    else
      && p in s.properties && r.buffer == "" && r.chunks == 0 && r.takes == 0 && !r.finished
      && ((s.properties[p] == Whole(r.due) && (Waits(s.asked, p) == 0 || Front(s.sends, p).None?))
          || (s.properties[p] == Announce && Waits(s.asked, p) == 0 && Answers(s, p)
              && Front(s.sends, p).value.offset == r.base))
  }

  predicate Follows(r: Reader) { r.quiet && r.served }

  ghost predicate Inv(s: State) {
    InRange(s.sends) && forall p :: p in s.readers && Follows(s.readers[p]) ==> Served(s, p)
  }

  /** A step that leaves a place's property, deletion, answering send and reader alone leaves it served. */
  lemma ElsewhereStaysServed(s: State, t: State, p: Place)
    requires p in s.readers && Served(s, p)
    requires p in t.readers && t.readers[p] == s.readers[p] && Front(t.sends, p) == Front(s.sends, p)
    requires Waits(t.asked, p) == Waits(s.asked, p) && (p in t.properties <==> p in s.properties)
    requires p in s.properties ==> t.properties[p] == s.properties[p]
    ensures Served(t, p)
  {
    assert Transfer(t, p) == Transfer(s, p);
  }

  lemma RequestServes(s: State, p: Place, max: nat)
    requires InRange(s.sends) && s.owned.Some? && Quiet(s, p, s.owned.value)
    ensures Served(Requested(s, p, max), p)
  {
    var bytes := s.owned.value;
    if |bytes| > I.INCR_THRESHOLD { FrontOfAppended(s.sends, Send(p, bytes, 0), p); }
  }

  lemma RequestKeepsInv(s: State, p: Place, max: nat)
    requires Inv(s)
    ensures Inv(Requested(s, p, max))
  {
    var t := Requested(s, p, max);
    if s.owned.Some? {
      if Quiet(s, p, s.owned.value) { RequestServes(s, p, max); }
      forall q | q in t.readers && Follows(t.readers[q]) && q != p ensures Served(t, q) {
        FrontOfAppended(s.sends, Send(p, s.owned.value, 0), q);
        ElsewhereStaysServed(s, t, q);
      }
    }
  }

  /** Reading the announcement begins the transfer of what is due. */
  lemma AnnouncementBegins(s: State, p: Place)
    requires p in s.properties && Waiting(s, p) && Served(s, p) && s.properties[p].Announce?
    ensures Served(Took(s, p), p)
  {
    var t := Took(s, p);
    assert Transfer(t, p) == I.Begin(s.readers[p].due, s.readers[p].max);
    assert s.readers[p].due[..0] == "" && "" + "" == "";
  }

  lemma ChunkIsTaken(s: State, p: Place)
    requires p in s.properties && Waiting(s, p) && Served(s, p) && s.readers[p].incr && s.properties[p].Chunk?
    ensures Served(Took(s, p), p)
  {
    var t, x := Took(s, p), Transfer(s, p);
    I.TakeRight(x);
    assert Transfer(t, p) == I.Taken(x);
    I.ChunkCount(x);
  }

  lemma TakeServes(s: State, p: Place)
    requires p in s.properties && Waiting(s, p) && Served(s, p)
    ensures Served(Took(s, p), p)
  {
    if s.readers[p].incr {
      assert s.properties[p].Chunk?;
      ChunkIsTaken(s, p);
    } else if s.properties[p].Announce? {
      AnnouncementBegins(s, p);
    }
  }

  lemma TakeKeepsInv(s: State, p: Place)
    requires Inv(s) && p in s.properties && Waiting(s, p)
    ensures Inv(Took(s, p))
  {
    var t := Took(s, p);
    forall q | q in t.readers && Follows(t.readers[q]) ensures Served(t, q) {
      if q == p { TakeServes(s, p); } else { ElsewhereStaysServed(s, t, q); }
    }
  }

  /** The next chunk of the answering send is the next chunk of what is due. */
  lemma NextOfRest(data: string, base: nat, offset: nat)
    requires base <= offset <= |data|
    ensures I.Next(data[base..], offset - base) == I.Next(data, offset)
  {
  }

  /** Where an answered place stands: its send one chunk further, or finished with the empty one. */
  lemma AnsweredAt(s: State, p: Place)
    requires InRange(s.sends) && Waiting(s, p) && Front(s.sends, p).Some?
    ensures var t, f := Answered(s, p), Front(s.sends, p).value;
            var chunk := I.Next(f.data, f.offset);
            && t.properties[p] == Chunk(chunk) && t.asked == Less(s.asked, p)
            && t.readers[p] == s.readers[p].(chunks := s.readers[p].chunks + 1, finished := chunk == "")
            && (chunk != "" ==> Front(t.sends, p) == Some(f.(offset := f.offset + |chunk|)))
  {
    var f := Front(s.sends, p).value;
    FrontOfUpdated(s.sends, Find(s.sends, p), f.(offset := f.offset + |I.Next(f.data, f.offset)|), p);
  }

  lemma SentMeansServed(t: State, p: Place, x: I.Xfer)
    requires p in t.readers && t.readers[p].incr && t.readers[p].outcome.None? && p in t.properties
             && t.properties[p].Chunk?
    requires I.Enabled(x, I.Send) && I.Inv(I.Sent(x)) && Transfer(t, p) == I.Sent(x)
             && (t.readers[p].finished || Answers(t, p))
    ensures Served(t, p)
  {
  }

  lemma AnswerSends(s: State, p: Place)
    requires InRange(s.sends) && Waits(s.asked, p) > 0 && Waiting(s, p) && s.readers[p].incr && Served(s, p)
    ensures Served(Answered(s, p), p)
  {
    var x, f := Transfer(s, p), Front(s.sends, p);
    assert x.asked && !x.finished;
    AnsweredAt(s, p);
    NextOfRest(f.value.data, s.readers[p].base, f.value.offset);
    I.SendProgress(x);
    I.SendRight(x);
    SentMeansServed(Answered(s, p), p, x);
  }

  lemma AnswerElsewhere(s: State, p: Place, q: Place)
    requires InRange(s.sends) && q != p
    ensures Front(Answered(s, p).sends, q) == Front(s.sends, q)
  {
    var i := Find(s.sends, p);
    if i < |s.sends| {
      var f := s.sends[i];
      FrontOfRemoved(s.sends, i, q);
      FrontOfUpdated(s.sends, i, f.(offset := f.offset + |I.Next(f.data, f.offset)|), q);
    }
  }

  /** A deletion that no send answers changes nothing for a paste that waits for its whole content. */
  lemma IdleAnswer(s: State, p: Place)
    requires InRange(s.sends) && Waits(s.asked, p) > 0 && Waiting(s, p) && !s.readers[p].incr && Served(s, p)
    ensures Served(Answered(s, p), p)
  {
  }

  lemma AnswerKeepsInv(s: State, p: Place)
    requires Inv(s) && Waits(s.asked, p) > 0
    ensures Inv(Answered(s, p))
  {
    var t := Answered(s, p);
    forall q | q in t.readers && Follows(t.readers[q]) ensures Served(t, q) {
      if q != p {
        AnswerElsewhere(s, p, q);
        ElsewhereStaysServed(s, t, q);
      } else if Waiting(s, p) {
        if s.readers[p].incr { AnswerSends(s, p); } else { IdleAnswer(s, p); }
      }
    }
  }

  lemma DeleteKeepsInv(s: State, p: Place)
    requires Inv(s) && p in s.properties
    ensures Inv(Deleted(s, p))
  {
    var t := Deleted(s, p);
    forall q | q in t.readers && Follows(t.readers[q]) && q != p ensures Served(t, q) {
      ElsewhereStaysServed(s, t, q);
    }
  }

  lemma DropKeepsInv(s: State, i: nat)
    requires Inv(s) && i < |s.sends|
    ensures Inv(Dropped(s, i))
  {
    var t, p := Dropped(s, i), s.sends[i].place;
    forall q | q in t.readers && Follows(t.readers[q]) ensures Served(t, q) {
      FrontOfRemoved(s.sends, i, q);
      ElsewhereStaysServed(s, t, q);
    }
  }

  lemma StepKeepsInv(s: State, l: Label)
    requires Inv(s) && Enabled(s, l)
    ensures Inv(Apply(s, l))
  {
    match l
    case Request(p, max) => RequestKeepsInv(s, p, max);
    case Take(p) => TakeKeepsInv(s, p);
    case Delete(p) => DeleteKeepsInv(s, p);
    case Answer(p) => AnswerKeepsInv(s, p);
    case TimeOut(i) => DropKeepsInv(s, i);
    case _ =>
      forall q | q in s.readers && Follows(s.readers[q]) ensures Served(Apply(s, l), q) {
        ElsewhereStaysServed(s, Apply(s, l), q);
      }
  }

  lemma {:induction false} RunsKeepInv(ls: seq<Label>)
    requires After(ls).Some?
    ensures Inv(After(ls).value)
  {
    if ls != [] {
      RunsKeepInv(ls[..|ls| - 1]);
      StepKeepsInv(After(ls[..|ls| - 1]).value, ls[|ls| - 1]);
    }
  }

  // ------------------------------------------------------------------ over every run

  /**
   However often the clipboard is rewritten or lost meanwhile and whoever else pastes: a paste with no
   deletion waiting at its request, and whose send does not time out, ends with exactly what was due
   then if that fits its limit, after the chunks that needs, and with an error if not.
   */
  lemma EachPasteGetsItsDue(ls: seq<Label>, p: Place)
    requires After(ls).Some? && p in After(ls).value.readers
    requires Follows(After(ls).value.readers[p]) && After(ls).value.readers[p].outcome.Some?
    ensures var r := After(ls).value.readers[p];
            && r.outcome.value == (if |r.due| <= r.max then Some(r.due) else None)
            && (r.incr && |r.due| <= r.max ==> r.chunks == I.ChunksFor(|r.due|))
  {
    RunsKeepInv(ls);
  }

  /**
   What is due at a request is what is owned then, unless it is too large for one property and an
   earlier send to the same place still stands: then it is what that one has left.
   */
  lemma DueAtRequest(s: State, p: Place, max: nat)
    requires Enabled(s, Request(p, max)) && s.owned.Some?
    ensures var r := Apply(s, Request(p, max)).readers[p];
            && r.want == s.owned.value && r.quiet == Quiet(s, p, r.want)
            && r.due == if |s.owned.value| <= I.INCR_THRESHOLD || Front(s.sends, p).None? then s.owned.value
                        else Due(s.sends, p)
  {
    FrontOfAppended(s.sends, Send(p, s.owned.value, 0), p);
  }

  predicate SamePaste(q: Reader, r: Reader) {
    q.want == r.want && q.due == r.due && q.max == r.max && q.quiet == r.quiet
  }

  lemma AnswerKeepsPaste(s: State, p: Place, q: Place)
    requires InRange(s.sends) && q in s.readers
    ensures q in Answered(s, p).readers && SamePaste(Answered(s, p).readers[q], s.readers[q])
  {
  }

  lemma KeepsRequest(s: State, l: Label, p: Place)
    requires Enabled(s, l) && p in Apply(s, l).readers && !(l.Request? && l.place == p && s.owned.Some?)
    ensures p in s.readers && SamePaste(Apply(s, l).readers[p], s.readers[p])
  {
    if l.Answer? && p in s.readers { AnswerKeepsPaste(s, l.place, p); }
  }

  /** The request of a place that a state does not refuse. */
  predicate Begins(s: Option<State>, l: Label, p: Place) {
    s.Some? && s.value.owned.Some? && InRange(s.value.sends) && l.Request? && l.place == p
  }

  /** Where in a run the last request at a place is that was not refused. */
  function LastRequest(ls: seq<Label>, p: Place): (r: Option<nat>)
    ensures r.Some? ==> r.value < |ls|
  {
    if ls == [] then None
    else if Begins(After(ls[..|ls| - 1]), ls[|ls| - 1], p) then Some(|ls| - 1)
    else LastRequest(ls[..|ls| - 1], p)
  }

  /** The request a paste began with: what was owned then, what was due, and whether it was quiet. */
  lemma {:induction false} RequestOf(ls: seq<Label>, p: Place) returns (j: nat)
    requires After(ls).Some? && p in After(ls).value.readers
    ensures LastRequest(ls, p) == Some(j) && Begins(After(ls[..j]), ls[j], p)
    ensures var s, r := After(ls[..j]).value, After(ls).value.readers[p];
            && ls[j] == Request(p, r.max) && s.owned == Some(r.want) && r.quiet == Quiet(s, p, r.want)
            && r.due == if |r.want| <= I.INCR_THRESHOLD || Front(s.sends, p).None? then r.want else Due(s.sends, p)
  {
    var init, l := ls[..|ls| - 1], ls[|ls| - 1];
    var s := After(init).value;
    if l.Request? && l.place == p && s.owned.Some? {
      j := |ls| - 1;
      DueAtRequest(s, p, l.max);
    } else {
      KeepsRequest(s, l, p);
      j := RequestOf(init, p);
      assert init[..j] == ls[..j];
    }
  }

  /**
   The promise and its condition.  Of the last request at a place that was not refused: if no deletion
   waited there, or none that a send would answer, then the paste, served to its end, got the bytes
   owned at the request if and only if they are within its limit and they fitted one property, no
   earlier send to the same place stood, or what that one had left happened to be the same.
   */
  lemma GetsWhatWasOwned(ls: seq<Label>, p: Place) returns (j: nat)
    requires After(ls).Some? && p in After(ls).value.readers
    requires After(ls).value.readers[p].served && After(ls).value.readers[p].outcome.Some?
    ensures LastRequest(ls, p) == Some(j) && Begins(After(ls[..j]), ls[j], p)
    ensures After(ls).value.readers[p].want == After(ls[..j]).value.owned.value
    ensures var s := After(ls[..j]).value; var bytes := s.owned.value;
            Quiet(s, p, bytes) ==>
              (After(ls).value.readers[p].outcome == Some(Some(bytes)) <==>
               && |bytes| <= ls[j].max
               && (|bytes| <= I.INCR_THRESHOLD || Front(s.sends, p).None? || Due(s.sends, p) == bytes))
  {
    j := RequestOf(ls, p);
    if After(ls).value.readers[p].quiet { EachPasteGetsItsDue(ls, p); }
  }

  // ------------------------------------------------------------------ two pastes at one place

  lemma Grows(ls: seq<Label>, l: Label)
    requires After(ls).Some? && Enabled(After(ls).value, l)
    ensures After(ls + [l]) == Some(Apply(After(ls).value, l))
  {
    assert (ls + [l])[..|ls|] == ls;
  }

  /** What a place holds once its send has written a chunk, with the reader as it was before that. */
  predicate Written(t: State, p: Place, f: Send, r: Reader, waits: nat)
    requires f.offset <= |f.data|
  {
    var chunk := I.Next(f.data, f.offset);
    && InRange(t.sends) && Waits(t.asked, p) == waits
    && p in t.properties && t.properties[p] == Chunk(chunk) && p in t.readers
    && t.readers[p] == r.(chunks := r.chunks + 1, finished := chunk == "")
    && (chunk != "" ==> Front(t.sends, p) == Some(f.(offset := f.offset + |chunk|)))
  }

  lemma AnsweredInRange(s: State, p: Place)
    requires InRange(s.sends)
    ensures InRange(Answered(s, p).sends)
  {
  }

  lemma AnswerWrites(s: State, p: Place)
    requires InRange(s.sends) && Waiting(s, p) && Front(s.sends, p).Some? && Waits(s.asked, p) > 0
    ensures Written(Answered(s, p), p, Front(s.sends, p).value, s.readers[p], Waits(s.asked, p) - 1)
  {
    AnsweredAt(s, p);
    AnsweredInRange(s, p);
  }

  lemma TakeThenAnswer(ls: seq<Label>, p: Place)
    requires After(ls).Some? && Enabled(After(ls).value, Take(p))
    ensures After(ls + [Take(p)] + [Answer(p)]) == Some(Answered(Took(After(ls).value, p), p))
  {
    Grows(ls, Take(p));
    Grows(ls + [Take(p)], Answer(p));
  }

  /** A reader that waits on reads its property, and the deletion is answered. */
  lemma Round(ls: seq<Label>, p: Place)
    requires After(ls).Some? && Enabled(After(ls).value, Take(p)) && Front(After(ls).value.sends, p).Some?
    requires var s := After(ls).value; Read(s.readers[p], s.properties[p]).outcome.None?
    ensures var s, t := After(ls).value, After(ls + [Take(p)] + [Answer(p)]);
            t.Some? && Written(t.value, p, Front(s.sends, p).value, Read(s.readers[p], s.properties[p]),
                               Waits(s.asked, p))
  {
    TakeThenAnswer(ls, p);
    AnswerWrites(Took(After(ls).value, p), p);
  }

  predicate Untouched(r: Reader) { r == Paste(r.want, r.due, r.base, r.max, r.quiet) }

  /** Large content requested: announced, and answered by the first send to the place. */
  lemma LargeIsAnnounced(s: State, p: Place, max: nat)
    requires InRange(s.sends) && s.owned.Some? && |s.owned.value| > I.INCR_THRESHOLD
    ensures var t := Requested(s, p, max);
            && InRange(t.sends) && p in t.properties && t.properties[p] == Announce && p in t.readers
            && t.readers[p].want == s.owned.value && t.readers[p].max == max && Untouched(t.readers[p])
            && Front(t.sends, p) == if Front(s.sends, p).Some? then Front(s.sends, p)
                                    else Some(Send(p, s.owned.value, 0))
  {
    FrontOfAppended(s.sends, Send(p, s.owned.value, 0), p);
  }

  /** The first of two pastes at a place, one chunk of it written. */
  function FirstPaste(a: string, p: Place, max: nat): seq<Label> {
    [Write(a)] + [Request(p, max)] + [Take(p)] + [Answer(p)]
  }

  /** The content written and requested by a first paste. */
  lemma FirstIsAsked(a: string, p: Place, max: nat)
    ensures After([Write(a)] + [Request(p, max)]) == Some(Requested(START.(owned := Some(a)), p, max))
  {
    assert [] + [Write(a)] == [Write(a)] && After([]) == Some(START);
    Grows([], Write(a));
    Grows([Write(a)], Request(p, max));
  }

  lemma FirstIsUnderWay(a: string, p: Place, max: nat)
    requires |a| > I.INCR_THRESHOLD
    ensures After(FirstPaste(a, p, max)).Some?
    ensures var s := After(FirstPaste(a, p, max)).value;
            && InRange(s.sends) && Front(s.sends, p) == Some(Send(p, a, I.INCR_THRESHOLD)) && Waits(s.asked, p) == 0
            && p in s.properties && Waiting(s, p)
  {
    FirstIsAsked(a, p, max);
    LargeIsAnnounced(START.(owned := Some(a)), p, max);
    Round([Write(a)] + [Request(p, max)], p);
  }

  /**
   The clipboard is rewritten and pasted again at the same place before the first paste is done: the
   second is owed what the first has left, not what was owned at its request.
   */
  lemma SecondPasteIsOwedTheTail(a: string, b: string, p: Place, max: nat)
    requires |a| == I.INCR_THRESHOLD + 1 && |b| > I.INCR_THRESHOLD
    ensures var ls := FirstPaste(a, p, max) + [Write(b)] + [Request(p, max)];
            && After(ls).Some? && p in After(ls).value.readers
            && var s := After(ls).value; var r := s.readers[p];
               && r.want == b && r.due == a[I.INCR_THRESHOLD..] && |r.due| == 1 && Untouched(r) && r.max == max
               && r.quiet && p in s.properties && s.properties[p] == Announce && InRange(s.sends)
               && Front(s.sends, p) == Some(Send(p, a, I.INCR_THRESHOLD))
  {
    FirstIsUnderWay(a, p, max);
    var ls := FirstPaste(a, p, max);
    Grows(ls, Write(b));
    Grows(ls + [Write(b)], Request(p, max));
    var s := After(ls).value.(owned := Some(b));
    LargeIsAnnounced(s, p, max);
    DueAtRequest(s, p, max);
  }

  /** One byte of the first send left, then the end: a reader at its announcement takes that and is done. */
  lemma TailIsRead(ls: seq<Label>, p: Place)
    requires After(ls).Some? && p in After(ls).value.readers && p in After(ls).value.properties
    requires var s := After(ls).value; var f := Front(s.sends, p);
             && InRange(s.sends) && s.properties[p] == Announce && Untouched(s.readers[p])
             && s.readers[p].max >= 1 && f.Some? && f.value.offset + 1 == |f.value.data|
    ensures var more := ls + [Take(p)] + [Answer(p)] + [Take(p)] + [Answer(p)] + [Take(p)];
            && After(more).Some? && p in After(more).value.readers
            && var r := After(more).value.readers[p];
               r.served && r.outcome.Some? && SamePaste(r, After(ls).value.readers[p])
  {
    Round(ls, p);
    var once := ls + [Take(p)] + [Answer(p)];
    Round(once, p);
    Grows(once + [Take(p)] + [Answer(p)], Take(p));
  }

  /** So it goes to the end: the second paste gets the last byte of the first, and not what was owned. */
  lemma SecondPasteGetsTheTail(a: string, b: string, p: Place, max: nat)
    requires |a| == I.INCR_THRESHOLD + 1 && |b| > I.INCR_THRESHOLD && max >= 1
    ensures var ls := FirstPaste(a, p, max) + [Write(b)] + [Request(p, max)]
                      + [Take(p)] + [Answer(p)] + [Take(p)] + [Answer(p)] + [Take(p)];
            && After(ls).Some? && p in After(ls).value.readers
            && After(ls).value.readers[p].outcome == Some(Some(a[I.INCR_THRESHOLD..]))
  {
    var ls := FirstPaste(a, p, max) + [Write(b)] + [Request(p, max)];
    var more := ls + [Take(p)] + [Answer(p)] + [Take(p)] + [Answer(p)] + [Take(p)];
    SecondPasteIsOwedTheTail(a, b, p, max);
    RunsKeepInv(ls);
    TailIsRead(ls, p);
    EachPasteGetsItsDue(more, p);
  }

  // ------------------------------------------------------------------ a deletion that waits at the request

  /** A paste just requested, and a deletion answered before it is read: the chunk is read in its stead. */
  lemma ChunkIsReadInstead(t: State, p: Place)
    requires InRange(t.sends) && Waiting(t, p) && Untouched(t.readers[p])
    requires Front(t.sends, p).Some? && Waits(t.asked, p) > 0
    ensures Enabled(Answered(t, p), Take(p))
    ensures var f, q := Front(t.sends, p).value, Took(Answered(t, p), p);
            var chunk := I.Next(f.data, f.offset);
            && p in q.readers && SamePaste(q.readers[p], t.readers[p]) && q.readers[p].served
            && q.readers[p].outcome == Some(if |chunk| <= t.readers[p].max then Some(chunk) else None)
  {
    AnswerWrites(t, p);
  }

  /** The send that will answer at a place after a request there. */
  lemma AnswersAfterRequest(s: State, p: Place, max: nat)
    requires InRange(s.sends) && s.owned.Some? && !Quiet(s, p, s.owned.value)
    ensures var t := Requested(s, p, max);
            && InRange(t.sends) && Waits(t.asked, p) > 0 && Waiting(t, p) && Untouched(t.readers[p])
            && t.readers[p].want == s.owned.value && t.readers[p].max == max
            && Front(t.sends, p) == if Front(s.sends, p).Some? then Front(s.sends, p)
                                    else Some(Send(p, s.owned.value, 0))
  {
    if |s.owned.value| > I.INCR_THRESHOLD { LargeIsAnnounced(s, p, max); }
  }

  /**
   And the condition cannot be spared.  After any run, at any request where a deletion waits that a send
   will answer, the paste may end with that send's next chunk: for content too large for one property
   never what was owned, and otherwise only if that is the very chunk.
   */
  lemma WaitingDeletionSpoils(ls: seq<Label>, p: Place, max: nat)
    requires After(ls).Some? && After(ls).value.owned.Some? && !Quiet(After(ls).value, p, After(ls).value.owned.value)
    ensures InRange(After(ls).value.sends)
    ensures var s, more := After(ls).value, After(ls + [Request(p, max)] + [Answer(p)] + [Take(p)]);
            var f := if Front(s.sends, p).Some? then Front(s.sends, p).value else Send(p, s.owned.value, 0);
            var chunk := I.Next(f.data, f.offset);
            && more.Some? && p in more.value.readers
            && var r := more.value.readers[p];
               && r.want == s.owned.value && r.max == max && r.served
               && r.outcome == Some(if |chunk| <= max then Some(chunk) else None)
               && (|r.want| > I.INCR_THRESHOLD ==> r.outcome != Some(Some(r.want)))
  {
    RunsKeepInv(ls);
    var s := After(ls).value;
    var t := Requested(s, p, max);
    AnswersAfterRequest(s, p, max);
    ChunkIsReadInstead(t, p);
    Grows(ls, Request(p, max));
    Grows(ls + [Request(p, max)], Answer(p));
    Grows(ls + [Request(p, max)] + [Answer(p)], Take(p));
  }

  /** One chunk read of the first paste, and the clipboard rewritten before the deletion is answered. */
  function Overtaken(a: string, c: string, p: Place, max: nat): seq<Label> {
    FirstPaste(a, p, max) + [Take(p)] + [Write(c)]
  }

  lemma OvertakenWaits(a: string, c: string, p: Place, max: nat)
    requires |a| > I.INCR_THRESHOLD
    ensures After(Overtaken(a, c, p, max)).Some?
    ensures var s := After(Overtaken(a, c, p, max)).value;
            s.owned == Some(c) && Waits(s.asked, p) == 1 && Front(s.sends, p) == Some(Send(p, a, I.INCR_THRESHOLD))
  {
    FirstIsUnderWay(a, p, max);
    var ls := FirstPaste(a, p, max);
    Grows(ls, Take(p));
    Grows(ls + [Take(p)], Write(c));
  }

  /**
   Such a run: small content is requested and written whole, the deletion is answered over it, and the
   paste gets the end of the first instead.
   */
  lemma WholeIsOverwritten(a: string, c: string, p: Place, max: nat)
    requires |a| == I.INCR_THRESHOLD + 1 && |c| <= I.INCR_THRESHOLD && max >= 1
    ensures var ls := Overtaken(a, c, p, max) + [Request(p, max)] + [Answer(p)] + [Take(p)];
            && After(ls).Some? && p in After(ls).value.readers
            && After(ls).value.readers[p].want == c
            && After(ls).value.readers[p].outcome == Some(Some(a[I.INCR_THRESHOLD..]))
  {
    OvertakenWaits(a, c, p, max);
    assert I.Next(a, I.INCR_THRESHOLD) == a[I.INCR_THRESHOLD..];
    WaitingDeletionSpoils(Overtaken(a, c, p, max), p, max);
  }

  // ------------------------------------------------------------------ the object

  class Owner {
    var owned: Option<string>
    var sends: seq<Send>
    var properties: map<Place, Property>
    ghost var asked: map<Place, nat>
    ghost var readers: map<Place, Reader>

    ghost function View(): State reads this { State(owned, sends, properties, asked, readers) }

    constructor ()
      ensures View() == START
    {
      owned, sends, properties := None, [], map[];
      asked, readers := map[], map[];
    }

    method WriteBytes(bytes: string)
      modifies this`owned
      ensures View() == old(View()).(owned := Some(bytes))
    {
      owned := Some(bytes);
    }

    method OnRequest(p: Place, ghost max: nat)
      requires InRange(sends)
      modifies this
      ensures View() == Requested(old(View()), p, max)
    {
      if owned.None? { return; }
      readers := Requested(View(), p, max).readers;
      if |owned.value| <= I.INCR_THRESHOLD {
        properties := properties[p := Whole(owned.value)];
      } else {
        properties := properties[p := Announce];
        sends := sends + [Send(p, owned.value, 0)];
      }
    }

    method FindSend(p: Place) returns (i: nat)
      ensures i == Find(sends, p)
    {
      i := 0;
      while i < |sends| && sends[i].place != p
        invariant i <= |sends| && forall j :: 0 <= j < i ==> sends[j].place != p
      {
        i := i + 1;
      }
      FindIs(sends, p, i);
    }

    method OnPropertyDeleted(p: Place)
      requires InRange(sends)
      modifies this
      ensures View() == Answered(old(View()), p)
    {
      asked := Less(asked, p);
      var i := FindSend(p);
      if i < |sends| { AnswerWith(i); }
    }

    /** The send at `i` writes its next chunk, and goes if that is the empty one. */
    method AnswerWith(i: nat)
      requires InRange(sends) && i < |sends|
      modifies this`sends, this`properties, this`readers
      ensures var f := old(sends)[i];
              var chunk := I.Next(f.data, f.offset);
              && sends == (if chunk == "" then Removed(old(sends), i)
                           else old(sends)[i := f.(offset := f.offset + |chunk|)])
              && properties == old(properties)[f.place := Chunk(chunk)]
              && readers == Noted(old(View()), f.place, chunk)
    {
      var chunk := SendChunk(i);
      if chunk == "" {
        RemovedUpdated(old(sends), i, sends[i]);
        sends := sends[..i] + sends[i + 1..];
      }
    }

    method SendChunk(i: nat) returns (chunk: string)
      requires InRange(sends) && i < |sends|
      modifies this`sends, this`properties, this`readers
      ensures chunk == I.Next(old(sends)[i].data, old(sends)[i].offset)
      ensures sends == old(sends)[i := old(sends)[i].(offset := old(sends)[i].offset + |chunk|)]
      ensures properties == old(properties)[old(sends)[i].place := Chunk(chunk)]
      ensures readers == Noted(old(View()), old(sends)[i].place, chunk)
    {
      var s := sends[i];
      var n := Min(I.INCR_THRESHOLD, |s.data| - s.offset);
      chunk := s.data[s.offset..s.offset + n];
      readers := Noted(View(), s.place, chunk);
      properties := properties[s.place := Chunk(chunk)];
      sends := sends[i := s.(offset := s.offset + n)];
    }

    method DropSend(i: nat)
      requires i < |sends|
      modifies this
      ensures View() == Dropped(old(View()), i)
    {
      readers := Dropped(View(), i).readers;
      sends := sends[..i] + sends[i + 1..];
    }
  }
}
