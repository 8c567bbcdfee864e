/**
 The frames of one capture between mutter's buffers and the media pipeline's appsrc
 (agent/modules/desktop-mutter/capture_memory.cpp).  `Core` is the state of one `Frames` object and
 of its release channel; the functions give every operation's new state and what it hands to the
 outside; the class `Frames` updates the same state in place.
 */
module CaptureFrames {
  import opened Common

  type Buffer = nat // the address of one of mutter's buffers, reused once a buffer is removed
  type Memory = nat // a DMA-BUF wrapped when its buffer was added

  datatype Format = Format(video: nat, width: int, height: int, dmabuf: bool, modifier: nat)

  /** One delivery of one buffer: it dies when the last reference to it goes. */
  datatype Token = Token(buffer: Buffer, delivery: nat)

  datatype Slot = Slot(planes: Option<Memory>, delivery: nat, out: bool)

  /** A frame as the appsrc gets it: wrapped memory with its parent token, or a copy of shared memory. */
  datatype Frame =
    | Wrapped(planes: Option<Memory>, token: Token)
    | Copy(serial: nat, made: Format)

  datatype Push = Push(frame: Frame, repeated: bool)

  datatype Delivery = CursorOnly | Copied | Held | Dropped

  datatype Counts = Counts(made: nat, repeated: nat, cursorOnly: nat)

  datatype Core = Core(
    slots: map<Buffer, Slot>,
    deliveries: nat,
    format: Format,
    held: Option<Buffer>,
    heldToken: Option<Token>,
    lastShm: Option<Frame>,
    appsrc: Option<nat>,
    suspended: bool,
    released: seq<Token>,
    counts: Counts)

  const NO_FORMAT := Format(0, 0, 0, false, 0)
  const EMPTY := Core(map[], 0, NO_FORMAT, None, None, None, None, false, [], Counts(0, 0, 0))

  /** What an operation does: the new state, a frame given to the appsrc, a token reference let go. */
  datatype Effect = Effect(core: Core, pushed: Option<Push>, dropped: Option<Token>)

  predicate Feeding(c: Core) { c.appsrc.Some? && !c.suspended }

  /** A frame reaches the appsrc only while there is one and the capture is not suspended. */
  function Pushed(c: Core, f: Frame, repeated: bool): Option<Push> {
    if Feeding(c) then Some(Push(f, repeated)) else None
  }

  function SetFormatTo(c: Core, f: Format, fixed: bool): Effect {
    if !fixed || f.width <= 0 || f.height <= 0 then Effect(c, None, None)
    else if c.format == f then Effect(c, None, None)
    else Effect(c.(format := f, held := None, heldToken := None, lastShm := None), None, c.heldToken)
  }

  function AddTo(c: Core, b: Buffer, planes: Option<Memory>): Core {
    c.(slots := c.slots[b := Slot(planes, 0, false)])
  }

  function RemoveFrom(c: Core, b: Buffer): Effect {
    if b !in c.slots then Effect(c, None, None)
    else if c.held == Some(b)
    then Effect(c.(slots := c.slots - {b}, held := None, heldToken := None), None, c.heldToken)
    else Effect(c.(slots := c.slots - {b}), None, None)
  }

  /** `pixels`: the chunk is non-empty and not corrupted; `copies`: a copy of shared memory could be made. */
  function DeliverTo(c: Core, b: Buffer, pixels: bool, copies: bool): (Effect, Delivery) {
    if !pixels then
      (Effect(c.(counts := c.counts.(cursorOnly := c.counts.cursorOnly + 1)), None, None), CursorOnly)
    else if b in c.slots && c.slots[b].planes.Some? && c.format.dmabuf then
      var token := Token(b, c.deliveries + 1);
      var slot := c.slots[b].(delivery := c.deliveries + 1, out := true);
      var core := c.(slots := c.slots[b := slot], deliveries := c.deliveries + 1, held := Some(b),
                     heldToken := Some(token), counts := c.counts.(made := c.counts.made + 1));
      (Effect(core, Pushed(c, Wrapped(slot.planes, token), false), c.heldToken), Held)
    else if !copies then
      (Effect(c, None, None), Dropped)
    else
      var frame := Copy(c.counts.made, c.format);
      (Effect(c.(lastShm := Some(frame), counts := c.counts.(made := c.counts.made + 1)),
              Pushed(c, frame, false), None), Copied)
  }

  /** The newest frame again, if there is one. */
  function Newest(c: Core): Option<Frame> {
    if c.held.Some? && c.heldToken.Some? then
      if c.held.value in c.slots then Some(Wrapped(c.slots[c.held.value].planes, c.heldToken.value)) else None
    else c.lastShm
  }

  /** `accepted`: the appsrc answered that it took the frame. */
  function RepeatOn(c: Core, accepted: bool): Effect {
    match Newest(c)
    case None => Effect(c, None, None)
    case Some(f) =>
      var took := if Feeding(c) && accepted then 1 else 0;
      Effect(c.(counts := c.counts.(repeated := c.counts.repeated + took)), Pushed(c, f, true), None)
  }

  function AttachTo(c: Core, appsrc: Option<nat>, accepted: bool): Effect {
    if c.appsrc == appsrc then Effect(c, None, None)
    else if appsrc.None? || c.suspended then Effect(c.(appsrc := appsrc), None, None)
    else RepeatOn(c.(appsrc := appsrc), accepted)
  }

  function ResumeFrom(c: Core, accepted: bool): Effect {
    if !c.suspended then Effect(c, None, None)
    else if c.appsrc.None? then Effect(c.(suspended := false), None, None)
    else RepeatOn(c.(suspended := false), accepted)
  }

  /** Whether a posted release is of the delivery its buffer is out for now. */
  predicate GivesBack(c: Core, t: Token) {
    t.buffer in c.slots && c.slots[t.buffer].out && c.slots[t.buffer].delivery == t.delivery
  }

  function DrainOne(c: Core, t: Token): Core {
    if GivesBack(c, t) then c.(slots := c.slots[t.buffer := c.slots[t.buffer].(out := false)]) else c
  }

  /** Every posted release in turn: the state after them and the deliveries given back. */
  function DrainAll(c: Core, posted: seq<Token>): (Core, seq<Token>)
    decreases posted
  {
    if posted == [] then (c, [])
    else
      var rest := DrainAll(DrainOne(c, posted[0]), posted[1..]);
      (rest.0, (if GivesBack(c, posted[0]) then [posted[0]] else []) + rest.1)
  }

  lemma DrainFirst(c: Core, posted: seq<Token>, i: nat)
    requires i < |posted|
    ensures var rest := DrainAll(DrainOne(c, posted[i]), posted[i + 1..]);
            && DrainAll(c, posted[i..]).0 == rest.0
            && DrainAll(c, posted[i..]).1 == (if GivesBack(c, posted[i]) then [posted[i]] else []) + rest.1
  {
    assert posted[i..][0] == posted[i] && posted[i..][1..] == posted[i + 1..];
  }

  class Frames {
    var slots: map<Buffer, Slot>
    var deliveries: nat
    var format: Format
    var held: Option<Buffer>
    var heldToken: Option<Token>
    var lastShm: Option<Frame>
    var appsrc: Option<nat>
    var suspended: bool
    var released: seq<Token>
    var counts: Counts

    ghost function State(): Core
      reads this
    {
      Core(slots, deliveries, format, held, heldToken, lastShm, appsrc, suspended, released, counts)
    }

    constructor ()
      ensures State() == EMPTY
    {
      slots, deliveries, format, held, heldToken, lastShm := map[], 0, NO_FORMAT, None, None, None;
      appsrc, suspended, released, counts := None, false, [], Counts(0, 0, 0);
    }

    method SetFormat(f: Format, fixed: bool) returns (dropped: Option<Token>)
      modifies this
      ensures Effect(State(), None, dropped) == SetFormatTo(old(State()), f, fixed)
    {
      dropped := None;
      if !fixed || f.width <= 0 || f.height <= 0 { return; }
      if format != f {
        dropped, heldToken, held, lastShm := heldToken, None, None, None;
      }
      format := f;
    }

    method AddBuffer(b: Buffer, planes: Option<Memory>)
      modifies this`slots
      ensures State() == AddTo(old(State()), b, planes)
    {
      slots := slots[b := Slot(planes, 0, false)];
    }

    method RemoveBuffer(b: Buffer) returns (dropped: Option<Token>)
      modifies this
      ensures Effect(State(), None, dropped) == RemoveFrom(old(State()), b)
    {
      dropped := None;
      if b !in slots { return; }
      if held == Some(b) {
        dropped, heldToken, held := heldToken, None, None;
      }
      slots := slots - {b};
    }

    method PushFrame(f: Frame, repeated: bool) returns (pushed: Option<Push>)
      ensures pushed == Pushed(State(), f, repeated)
    {
      if appsrc.None? || suspended { return None; }
      return Some(Push(f, repeated));
    }

    method OnBuffer(b: Buffer, pixels: bool, copies: bool)
      returns (d: Delivery, pushed: Option<Push>, dropped: Option<Token>)
      modifies this
      ensures (Effect(State(), pushed, dropped), d) == DeliverTo(old(State()), b, pixels, copies)
    {
      pushed, dropped := None, None;
      if !pixels {
        counts := counts.(cursorOnly := counts.cursorOnly + 1);
        return CursorOnly, None, None;
      }
      if b in slots && slots[b].planes.Some? && format.dmabuf {
        deliveries := deliveries + 1;
        slots := slots[b := slots[b].(out := true, delivery := deliveries)];
        var token := Token(b, deliveries);
        dropped, held, heldToken := heldToken, Some(b), Some(token);
        counts := counts.(made := counts.made + 1);
        pushed := PushFrame(Wrapped(slots[b].planes, token), false);
        return Held, pushed, dropped;
      }
      if !copies { return Dropped, None, None; }
      lastShm := Some(Copy(counts.made, format));
      counts := counts.(made := counts.made + 1);
      pushed := PushFrame(lastShm.value, false);
      return Copied, pushed, None;
    }

    method RepeatNewest(accepted: bool) returns (pushed: Option<Push>)
      modifies this`counts
      ensures Effect(State(), pushed, None) == RepeatOn(old(State()), accepted)
    {
      pushed := None;
      if held.Some? && heldToken.Some? {
        if held.value !in slots { return; }
        pushed := PushFrame(Wrapped(slots[held.value].planes, heldToken.value), true);
      } else if lastShm.Some? {
        pushed := PushFrame(lastShm.value, true);
      }
      if pushed.Some? && accepted { counts := counts.(repeated := counts.repeated + 1); }
    }

    method Keepalive(due: bool, accepted: bool) returns (pushed: Option<Push>)
      modifies this`counts
      ensures Effect(State(), pushed, None)
              == if due then RepeatOn(old(State()), accepted) else Effect(old(State()), None, None)
    {
      if !due { return None; }
      pushed := RepeatNewest(accepted);
    }

    method Attach(a: Option<nat>, accepted: bool) returns (pushed: Option<Push>)
      modifies this
      ensures Effect(State(), pushed, None) == AttachTo(old(State()), a, accepted)
    {
      if appsrc == a { return None; }
      appsrc := a;
      if appsrc.None? || suspended { return None; }
      pushed := RepeatNewest(accepted);
    }

    method Suspend()
      modifies this`suspended
      ensures State() == old(State()).(suspended := true)
    {
      suspended := true;
    }

    method Resume(accepted: bool) returns (pushed: Option<Push>)
      modifies this
      ensures Effect(State(), pushed, None) == ResumeFrom(old(State()), accepted)
    {
      if !suspended { return None; }
      suspended := false;
      if appsrc.None? { return None; }
      pushed := RepeatNewest(accepted);
    }

    method DrainReleases() returns (back: seq<Token>)
      modifies this
      ensures State() == DrainAll(old(State()).(released := []), old(released)).0
      ensures back == DrainAll(old(State()).(released := []), old(released)).1
    {
      var posted := released;
      released := [];
      back := [];
      assert posted[0..] == posted;
      ghost var start := State();
      var i := 0;
      while i < |posted|
        invariant 0 <= i <= |posted|
        invariant DrainAll(start, posted).0 == DrainAll(State(), posted[i..]).0
        invariant DrainAll(start, posted).1 == back + DrainAll(State(), posted[i..]).1
      {
        DrainFirst(State(), posted, i);
        var given := GiveBack(posted[i]);
        if given { back := back + [posted[i]]; }
        i := i + 1;
      }
      assert posted[i..] == [];
    }

    /** The slot is free again, if it still is the one this delivery came from. */
    method GiveBack(t: Token) returns (given: bool)
      modifies this`slots
      ensures State() == DrainOne(old(State()), t) && given == GivesBack(old(State()), t)
    {
      given := t.buffer in slots && slots[t.buffer].out && slots[t.buffer].delivery == t.delivery;
      if given { slots := slots[t.buffer := slots[t.buffer].(out := false)]; }
    }
  }
}
