/**
 Clipboard contents through X11 properties: whole up to a threshold, in chunks above it (section 2.7.2
 of the ICCCM), as served by on_request and send_chunk and read by take_property and on_incoming_chunk
 (agent/modules/desktop-x11/clipboard.cpp:159-180, 229-247, 311-345).  A property is its bytes.
 */
module ClipboardIncr {
  import opened Common

  const INCR_THRESHOLD: nat := 256 * 1024

  // ------------------------------------------------------------------ one property

  /** What a property holds: bytes, or 16-bit or 32-bit items. */
  datatype Content = Bytes(data: string) | Shorts(halves: seq<nat>) | Longs(words: seq<nat>)

  datatype Reading = Unreadable | TooBig | Whole(content: Content)

  /** Bytes within the limit; items as far as the words asked for reach. */
  predicate Fits(c: Content, max: nat) {
    match c
    case Bytes(data) => |data| <= max
    case Shorts(halves) => |halves| <= 2 * (max / 4 + 1)
    case Longs(words) => |words| <= max / 4 + 1
  }

  /**
   Reads and deletes a property: the server hands out so many 4-byte units of it, whatever its items,
   and says how much is left.  `readable`: it hands out anything.
   */
  method TakeProperty(readable: bool, property: Content, max: nat) returns (r: Reading)
    ensures r == if !readable then Unreadable else if Fits(property, max) then Whole(property) else TooBig
  {
    if !readable { return Unreadable; }
    var words := max / 4 + 1;
    match property {
      case Bytes(data) =>
        var out := data[..Min(|data|, 4 * words)];
        if |data| > |out| || |out| > max { return TooBig; }
        assert out == data;
        return Whole(Bytes(out));
      case Shorts(halves) =>
        var out := halves[..Min(|halves|, 2 * words)];
        if |halves| > |out| { return TooBig; }
        assert out == halves;
        return Whole(Shorts(out));
      case Longs(items) =>
        var out := items[..Min(|items|, words)];
        if |items| > |out| { return TooBig; }
        assert out == items;
        return Whole(Longs(out));
    }
  }

  // ------------------------------------------------------------------ one transfer

  /**
   `asked`: the property was deleted, which asks for a chunk.  `chunks`, `takes`: how many were written
   and read.  `outcome`: the bytes, or nothing for an error.
   */
  datatype Xfer = Xfer(content: string, max: nat,
                       offset: nat, finished: bool, chunks: nat,
                       asked: bool, property: Option<string>,
                       buffer: string, takes: nat, outcome: Option<Option<string>>)

  function Begin(content: string, max: nat): Xfer { Xfer(content, max, 0, false, 0, true, None, "", 0, None) }

  function Next(content: string, offset: nat): (r: string)
    requires offset <= |content|
  {
    content[offset..offset + Min(INCR_THRESHOLD, |content| - offset)]
  }

  function Sent(x: Xfer): Xfer
    requires x.offset <= |x.content|
  {
    var chunk := Next(x.content, x.offset);
    x.(offset := x.offset + |chunk|, finished := chunk == "", chunks := x.chunks + 1, asked := false,
       property := Some(chunk))
  }

  /** What one more chunk `p` settles: too much, the end, or nothing yet. */
  function Verdict(max: nat, buffer: string, p: string): Option<Option<string>> {
    if |p| > max - Min(max, |buffer|) then Some(None) else if p == "" then Some(Some(buffer)) else None
  }

  /** Deleting the property asks for the next chunk, whatever the reader made of this one. */
  function Taken(x: Xfer): Xfer
    requires x.property.Some?
  {
    var v := Verdict(x.max, x.buffer, x.property.value);
    x.(property := None, asked := true, takes := x.takes + 1, outcome := v,
       buffer := if v.None? then x.buffer + x.property.value else x.buffer)
  }

  datatype Label = Send | Take

  predicate Enabled(x: Xfer, l: Label) {
    match l
    case Send => x.asked && !x.finished && x.offset <= |x.content|
    case Take => x.property.Some? && x.outcome.None?
  }

  function Apply(x: Xfer, l: Label): Xfer
    requires Enabled(x, l)
  {
    match l
    case Send => Sent(x)
    case Take => Taken(x)
  }

  function After(content: string, max: nat, ls: seq<Label>): Option<Xfer> {
    if ls == [] then Some(Begin(content, max))
    else
      var before := After(content, max, ls[..|ls| - 1]);
      if before.None? || !Enabled(before.value, ls[|ls| - 1]) then None else Some(Apply(before.value, ls[|ls| - 1]))
  }

  /** How many chunks carry `n` bytes, and the empty one that ends them. */
  function ChunksFor(n: nat): nat { (n + INCR_THRESHOLD - 1) / INCR_THRESHOLD + 1 }

  // ------------------------------------------------------------------ what every step keeps

  predicate Progress(x: Xfer) {
    && x.offset == Min(x.chunks * INCR_THRESHOLD, |x.content|)
    && (x.finished ==> x.chunks >= 1 && (x.chunks - 1) * INCR_THRESHOLD >= |x.content|)
    && (x.chunks >= 2 ==> (x.chunks - 2) * INCR_THRESHOLD < |x.content|)
    && (!x.finished && x.chunks >= 1 ==> (x.chunks - 1) * INCR_THRESHOLD < |x.content|)
  }

  predicate Turns(x: Xfer) {
    && x.asked == x.property.None?
    && x.takes == x.chunks - (if x.property.Some? then 1 else 0)
    && (x.outcome.None? && x.finished ==> x.property == Some(""))
    && (x.outcome.None? && x.property.Some? && !x.finished ==> x.property != Some(""))
  }

  /** What was read and what waits to be read are together what was sent. */
  predicate Together(x: Xfer) {
    && x.offset <= |x.content|
    && x.buffer + (if x.property.Some? then x.property.value else "") == x.content[..x.offset]
    && |x.buffer| <= x.max
  }

  predicate Right(x: Xfer) {
    match x.outcome
    case None => Together(x)
    case Some(Some(b)) => x.finished && b == x.content && |x.content| <= x.max
    case Some(None) => |x.content| > x.max
  }

  predicate Inv(x: Xfer) {
    Progress(x) && Turns(x) && Right(x) && x.offset <= |x.content| && (x.outcome.Some? ==> x.takes >= 1)
  }

  lemma SendProgress(x: Xfer)
    requires Progress(x) && Enabled(x, Send)
    ensures Progress(Sent(x)) && Sent(x).offset <= |x.content|
    ensures Sent(x).finished <==> x.offset == |x.content|
  {
  }

  lemma SendRight(x: Xfer)
    requires Right(x) && Turns(x) && Enabled(x, Send)
    ensures Right(Sent(x)) && Turns(Sent(x))
  {
    if x.outcome.None? {
      var chunk := Next(x.content, x.offset);
      assert x.content[..x.offset] + chunk == x.content[..x.offset + |chunk|];
      assert x.buffer + "" == x.buffer;
    }
  }

  lemma TakeRight(x: Xfer)
    requires Inv(x) && Enabled(x, Take)
    ensures Inv(Taken(x))
  {
    var p := x.property.value;
    assert |x.buffer| + |p| == x.offset;
    if Verdict(x.max, x.buffer, p) != Some(None) {
      if p == "" {
        assert x.content[..x.offset] == x.content;
        assert x.buffer + "" == x.buffer;
      } else {
        assert x.buffer + p + "" == x.buffer + p;
      }
    }
  }

  lemma StepKeepsInv(x: Xfer, l: Label)
    requires Inv(x) && Enabled(x, l)
    ensures Inv(Apply(x, l)) && Apply(x, l).content == x.content && Apply(x, l).max == x.max
  {
    match l
    case Send => SendProgress(x); SendRight(x);
    case Take => TakeRight(x);
  }

  lemma {:induction false} RunsKeepInv(content: string, max: nat, ls: seq<Label>)
    requires After(content, max, ls).Some?
    ensures Inv(After(content, max, ls).value)
    ensures After(content, max, ls).value.content == content && After(content, max, ls).value.max == max
  {
    if ls == [] {
      assert content[..0] == "" && "" + "" == "";
    } else {
      RunsKeepInv(content, max, ls[..|ls| - 1]);
      StepKeepsInv(After(content, max, ls[..|ls| - 1]).value, ls[|ls| - 1]);
    }
  }

  // ------------------------------------------------------------------ over every run

  /** Until it ends: what was read, then the property, is what was sent so far. */
  lemma BufferAndPropertyAreSent(content: string, max: nat, ls: seq<Label>)
    requires After(content, max, ls).Some? && After(content, max, ls).value.outcome.None?
    ensures var x := After(content, max, ls).value;
            && x.offset == Min(x.chunks * INCR_THRESHOLD, |content|)
            && x.buffer + (if x.property.Some? then x.property.value else "") == content[..x.offset]
  {
    RunsKeepInv(content, max, ls);
  }

  /** The reader gets the content after exactly the chunks it needs, if it fits the limit, and an error if not. */
  lemma EndsWithTheContent(content: string, max: nat, ls: seq<Label>)
    requires After(content, max, ls).Some? && After(content, max, ls).value.outcome.Some?
    ensures var x := After(content, max, ls).value;
            if |content| <= max then x.outcome == Some(Some(content)) && x.chunks == ChunksFor(|content|)
            else x.outcome == Some(None) && x.chunks <= ChunksFor(|content|)
  {
    RunsKeepInv(content, max, ls);
    var x := After(content, max, ls).value;
    ChunkCount(x);
  }

  lemma ChunkCount(x: Xfer)
    requires Progress(x)
    ensures x.chunks <= ChunksFor(|x.content|)
    ensures x.finished ==> x.chunks == ChunksFor(|x.content|)
  {
  }

  lemma {:induction false} StepsAreChunksAndTakes(content: string, max: nat, ls: seq<Label>)
    requires After(content, max, ls).Some?
    ensures var x := After(content, max, ls).value; |ls| == x.chunks + x.takes
  {
    if ls != [] { StepsAreChunksAndTakes(content, max, ls[..|ls| - 1]); }
  }

  /** It never stands still before it has ended, with one side to move, and it always ends. */
  lemma AlwaysEnds(content: string, max: nat, ls: seq<Label>)
    requires After(content, max, ls).Some?
    ensures var x := After(content, max, ls).value;
            && (x.outcome.None? ==> (Enabled(x, Send) <==> !Enabled(x, Take)))
            && |ls| <= 2 * ChunksFor(|content|)
  {
    RunsKeepInv(content, max, ls);
    StepsAreChunksAndTakes(content, max, ls);
    ChunkCount(After(content, max, ls).value);
  }

  // ------------------------------------------------------------------ the two objects

  /** One paste being served: it keeps the bytes it began with. */
  class Sending {
    const data: string
    var offset: nat
    var finished: bool

    ghost predicate Valid() reads this { offset <= |data| }

    constructor (data: string)
      ensures this.data == data && offset == 0 && !finished && Valid()
    {
      this.data, offset, finished := data, 0, false;
    }

    method SendChunk() returns (property: string)
      requires Valid()
      modifies this
      ensures Valid() && property == Next(data, old(offset))
      ensures offset == old(offset) + |property| && (finished <==> property == "")
    {
      var n := Min(INCR_THRESHOLD, |data| - offset);
      property := data[offset..offset + n];
      offset := offset + n;
      finished := n == 0;
    }
  }

  /** One fetch that the owner answers in chunks. */
  class Receiving {
    const max: nat
    var buffer: string
    var outcome: Option<Option<string>>

    constructor (max: nat)
      ensures this.max == max && buffer == "" && outcome == None
    {
      this.max, buffer, outcome := max, "", None;
    }

    method OnIncomingChunk(readable: bool, property: string)
      requires outcome.None?
      modifies this
      ensures outcome == if readable then Verdict(max, old(buffer), property) else Some(None)
      ensures buffer == if outcome.None? then old(buffer) + property else old(buffer)
    {
      var raw := TakeProperty(readable, Bytes(property), max - Min(max, |buffer|));
      if !raw.Whole? {
        outcome := Some(None);
      } else if property == "" {
        outcome := Some(Some(buffer));
      } else {
        buffer := buffer + property;
      }
    }
  }

  /** One chunk written and read, when it is the writer's turn. */
  lemma OneRound(content: string, max: nat, ls: seq<Label>)
    requires After(content, max, ls).Some?
    requires After(content, max, ls).value.property.None? && After(content, max, ls).value.outcome.None?
    ensures var x := After(content, max, ls).value;
            && x.max == max && x.content == content && x.offset <= |content|
            && After(content, max, ls + [Send] + [Take]) == Some(Taken(Sent(x)))
    ensures |ls + [Send] + [Take]| <= 2 * ChunksFor(|content|)
  {
    RunsKeepInv(content, max, ls);
    var sent := ls + [Send];
    assert sent[..|ls|] == ls && (sent + [Take])[..|sent|] == sent;
    AlwaysEnds(content, max, sent + [Take]);
  }

  /** Content up to the threshold is one property: read whole if it fits the limit, refused if not. */
  method ServeAndRead(content: string, max: nat) returns (outcome: Option<string>)
    ensures outcome == if |content| <= max then Some(content) else None
  {
    if |content| <= INCR_THRESHOLD {
      var raw := TakeProperty(true, Bytes(content), max);
      return if raw.Whole? then Some(content) else None;
    }
    var s := new Sending(content);
    var r := new Receiving(max);
    ghost var ls: seq<Label> := [];
    while r.outcome.None?
      invariant s.Valid() && s.data == content && r.max == max
      invariant After(content, max, ls).Some?
      invariant var x := After(content, max, ls).value;
                && s.offset == x.offset && s.finished == x.finished && r.buffer == x.buffer && r.outcome == x.outcome
                && x.property.None?
      decreases 2 * ChunksFor(|content|) - |ls|
    {
      OneRound(content, max, ls);
      var property := s.SendChunk();
      r.OnIncomingChunk(true, property);
      ls := ls + [Send] + [Take];
    }
    EndsWithTheContent(content, max, ls);
    outcome := r.outcome.value;
  }
}
