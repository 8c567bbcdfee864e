/**
 What the media pipeline gets of a capture (agent/modules/desktop-mutter/capture_memory.cpp:315-342,
 441-569): the frames pushed over a run of `FramesProtocol`, against a plain account of them that knows
 nothing of tokens, slots that are out or releases.
 */
module FramesFeed {
  import opened Common
  import opened CaptureFrames
  import opened FramesProtocol

  // ------------------------------------------------------------------ what is pushed

  /** The frame a step gives the appsrc, if any. */
  ghost function Emitted(s: State, l: Label): Option<Push>
    requires Enabled(s, l)
  {
    match l
    case Deliver(b, pixels, copies) => DeliverTo(s.core, b, pixels, copies).0.pushed
    case Keepalive(accepted) => RepeatOn(s.core, accepted).pushed
    case Attach(a, accepted) => AttachTo(s.core, a, accepted).pushed
    case Resume(accepted) => ResumeFrom(s.core, accepted).pushed
    case _ => None
  }

  function Listed(p: Option<Push>): seq<Push> { if p.Some? then [p.value] else [] }

  ghost function Pushes(ls: seq<Label>): seq<Push>
    requires After(ls).Some?
  {
    if ls == [] then []
    else Pushes(ls[..|ls| - 1]) + Listed(Emitted(After(ls[..|ls| - 1]).value, ls[|ls| - 1]))
  }

  // ------------------------------------------------------------------ what is meant

  /**
   `memory`: the buffers there are, each with the memory wrapped for it.  `added`, `delivered`: how many
   were ever added, and delivered without a copy.  `newest`: the frame last made, while its format and
   buffer last.
   */
  datatype Feed = Feed(format: Format, memory: map<Buffer, Option<Memory>>, added: nat, delivered: nat,
                       newest: Option<Frame>, appsrc: Option<nat>, suspended: bool, counts: Counts, pushes: seq<Push>)

  const NOTHING := Feed(NO_FORMAT, map[], 0, 0, None, None, false, Counts(0, 0, 0), [])

  predicate Flows(f: Feed) { f.appsrc.Some? && !f.suspended }

  /** A new frame: the newest from now on, and pushed if there is somebody to push it to. */
  function Shown(f: Feed, frame: Frame): Feed {
    f.(newest := Some(frame), counts := f.counts.(made := f.counts.made + 1),
       pushes := f.pushes + if Flows(f) then [Push(frame, false)] else [])
  }

  /** The newest frame once more, counted if taken. */
  function Again(f: Feed, accepted: bool): Feed {
    if !Flows(f) || f.newest.None? then f
    else f.(pushes := f.pushes + [Push(f.newest.value, true)],
            counts := if accepted then f.counts.(repeated := f.counts.repeated + 1) else f.counts)
  }

  function Fed(f: Feed, l: Label): Feed {
    match l
    case SetFormat(v, fixed) =>
      if fixed && v.width > 0 && v.height > 0 && v != f.format then f.(format := v, newest := None) else f
    case Add(b, wrapped) =>
      f.(memory := f.memory[b := if wrapped then Some(f.added) else None], added := f.added + 1)
    case Remove(b) =>
      f.(memory := f.memory - {b},
         newest := if f.newest.Some? && f.newest.value.Wrapped? && f.newest.value.token.buffer == b then None
                   else f.newest)
    case Deliver(b, pixels, copies) =>
      if !pixels then f.(counts := f.counts.(cursorOnly := f.counts.cursorOnly + 1))
      else if !f.format.dmabuf then (if copies then Shown(f, Copy(f.counts.made, f.format)) else f)
      else if b in f.memory && f.memory[b].Some? then
        Shown(f.(delivered := f.delivered + 1), Wrapped(f.memory[b], Token(b, f.delivered + 1)))
      else f
    case Keepalive(accepted) => Again(f, accepted)
    case Attach(a, accepted) => if a == f.appsrc then f else Again(f.(appsrc := a), accepted)
    case Suspend => f.(suspended := true)
    case Resume(accepted) => if f.suspended then Again(f.(suspended := false), accepted) else f
    case Destroy => f.(memory := map[], newest := None)
    case _ => f
  }

  function FeedAfter(ls: seq<Label>): Feed {
    if ls == [] then NOTHING else Fed(FeedAfter(ls[..|ls| - 1]), ls[|ls| - 1])
  }

  // ------------------------------------------------------------------ the two agree

  ghost predicate SameBuffers(slots: map<Buffer, Slot>, memory: map<Buffer, Option<Memory>>) {
    && (forall b :: b in slots <==> b in memory)
    && (forall b :: b in slots && b in memory ==> slots[b].planes == memory[b])
  }

  /** The capture's state, as far as the pipeline can tell. */
  ghost predicate Agrees(s: State, f: Feed) {
    && s.core.format == f.format && SameBuffers(s.core.slots, f.memory) && |s.wrapped| == f.added
    && s.core.deliveries == f.delivered && s.newest == f.newest && s.core.appsrc == f.appsrc
    && s.core.suspended == f.suspended && s.core.counts == f.counts
  }

  lemma NewestIsKept(s: State)
    requires Inv(s)
    ensures Newest(s.core) == s.newest && s.mutter <= s.core.slots.Keys
  {
  }

  lemma RepeatAgrees(s: State, c: Core, f: Feed, accepted: bool)
    requires Newest(c) == s.newest && Agrees(s.(core := c), f)
    ensures Agrees(AfterRepeat(s, RepeatOn(c, accepted)), Again(f, accepted).(pushes := f.pushes))
    ensures Again(f, accepted).pushes == f.pushes + Listed(RepeatOn(c, accepted).pushed)
  {
    assert f.pushes + [] == f.pushes;
  }

  lemma WrappedAgrees(s: State, b: Buffer, f: Feed)
    requires Agrees(s, f) && b in s.core.slots && s.core.slots[b].planes.Some? && s.core.format.dmabuf
    ensures var r := DeliverTo(s.core, b, true, false);
            && Agrees(AfterDelivery(s, b, r), Fed(f, Deliver(b, true, false)))
            && Fed(f, Deliver(b, true, false)).pushes == f.pushes + Listed(r.0.pushed)
  {
    assert f.pushes + [] == f.pushes;
  }

  lemma UnwrappedAgrees(s: State, b: Buffer, pixels: bool, copies: bool, f: Feed)
    requires Agrees(s, f) && b in s.core.slots && (copies ==> !s.core.format.dmabuf)
    requires !pixels || s.core.slots[b].planes.None? || !s.core.format.dmabuf
    ensures var r := DeliverTo(s.core, b, pixels, copies);
            && Agrees(AfterDelivery(s, b, r), Fed(f, Deliver(b, pixels, copies)))
            && Fed(f, Deliver(b, pixels, copies)).pushes == f.pushes + Listed(r.0.pushed)
  {
    assert f.pushes + [] == f.pushes;
  }

  lemma DeliveryAgrees(s: State, b: Buffer, pixels: bool, copies: bool, f: Feed)
    requires Agrees(s, f) && b in s.core.slots && Enabled(s, Deliver(b, pixels, copies))
    ensures Agrees(Apply(s, Deliver(b, pixels, copies)), Fed(f, Deliver(b, pixels, copies)))
    ensures Fed(f, Deliver(b, pixels, copies)).pushes
            == f.pushes + Listed(DeliverTo(s.core, b, pixels, copies).0.pushed)
  {
    if pixels && s.core.slots[b].planes.Some? && s.core.format.dmabuf {
      WrappedAgrees(s, b, f);
    } else {
      UnwrappedAgrees(s, b, pixels, copies, f);
    }
  }

  lemma AttachRepeats(s: State, a: Option<nat>, accepted: bool, f: Feed)
    requires Newest(s.core) == s.newest && Agrees(s, f) && a != s.core.appsrc && a.Some? && !s.core.suspended
    ensures var e := AttachTo(s.core, a, accepted);
            && Agrees(AfterRepeat(s, e), Fed(f, Attach(a, accepted)))
            && Fed(f, Attach(a, accepted)).pushes == f.pushes + Listed(e.pushed)
  {
    RepeatAgrees(s, s.core.(appsrc := a), f.(appsrc := a), accepted);
  }

  lemma AttachIsQuiet(s: State, a: Option<nat>, accepted: bool, f: Feed)
    requires Agrees(s, f) && (a == s.core.appsrc || a.None? || s.core.suspended)
    ensures var e := AttachTo(s.core, a, accepted);
            && Agrees(AfterRepeat(s, e), Fed(f, Attach(a, accepted)))
            && Fed(f, Attach(a, accepted)).pushes == f.pushes + Listed(e.pushed)
  {
    assert f.pushes + [] == f.pushes;
  }

  /** The newest frame is the same whoever is attached and whether suspended or not. */
  lemma AttachAgrees(s: State, a: Option<nat>, accepted: bool, f: Feed)
    requires Newest(s.core) == s.newest && Agrees(s, f)
    ensures var e := AttachTo(s.core, a, accepted);
            && Agrees(AfterRepeat(s, e), Fed(f, Attach(a, accepted)))
            && Fed(f, Attach(a, accepted)).pushes == f.pushes + Listed(e.pushed)
  {
    if a != s.core.appsrc && a.Some? && !s.core.suspended {
      AttachRepeats(s, a, accepted, f);
    } else {
      AttachIsQuiet(s, a, accepted, f);
    }
  }

  lemma ResumeAgrees(s: State, accepted: bool, f: Feed)
    requires Newest(s.core) == s.newest && Agrees(s, f)
    ensures var e := ResumeFrom(s.core, accepted);
            && Agrees(AfterRepeat(s, e), Fed(f, Resume(accepted)))
            && Fed(f, Resume(accepted)).pushes == f.pushes + Listed(e.pushed)
  {
    RepeatAgrees(s, s.core.(suspended := false), f.(suspended := false), accepted);
    assert f.pushes + [] == f.pushes;
  }

  lemma FormatAgrees(s: State, v: Format, fixed: bool, f: Feed)
    requires Enabled(s, SetFormat(v, fixed)) && Agrees(s, f)
    ensures Agrees(Apply(s, SetFormat(v, fixed)), Fed(f, SetFormat(v, fixed)))
  {
  }

  lemma AddAgrees(s: State, b: Buffer, wrapped: bool, f: Feed)
    requires Enabled(s, Add(b, wrapped)) && Agrees(s, f)
    ensures Agrees(Apply(s, Add(b, wrapped)), Fed(f, Add(b, wrapped)))
  {
  }

  lemma RemoveAgrees(s: State, b: Buffer, f: Feed)
    requires Enabled(s, Remove(b)) && Agrees(s, f)
    ensures Agrees(Apply(s, Remove(b)), Fed(f, Remove(b)))
  {
  }

  lemma BuffersAgree(s: State, l: Label, f: Feed)
    requires Enabled(s, l) && Agrees(s, f) && (l.SetFormat? || l.Add? || l.Remove? || l.Destroy?)
    ensures Agrees(Apply(s, l), Fed(f, l)) && Fed(f, l).pushes == f.pushes
  {
    match l
    case SetFormat(v, fixed) => FormatAgrees(s, v, fixed, f);
    case Add(b, wrapped) => AddAgrees(s, b, wrapped, f);
    case Remove(b) => RemoveAgrees(s, b, f);
    case Destroy =>
  }

  /** References and drains are nothing to the pipeline. */
  lemma ReleasesAgree(s: State, l: Label, f: Feed)
    requires Enabled(s, l) && Agrees(s, f)
    requires l.Suspend? || l.CopyRef? || l.Unref? || l.DrainTake? || l.DrainNext? || l.Requeue?
    ensures Agrees(Apply(s, l), Fed(f, l)) && Fed(f, l).pushes == f.pushes
  {
  }

  lemma QuietStepAgrees(s: State, l: Label, f: Feed)
    requires Enabled(s, l) && Agrees(s, f) && !l.Deliver? && !l.Keepalive? && !l.Attach? && !l.Resume?
    ensures Agrees(Apply(s, l), Fed(f, l)) && Fed(f, l).pushes == f.pushes + Listed(Emitted(s, l))
  {
    assert f.pushes + [] == f.pushes;
    if l.SetFormat? || l.Add? || l.Remove? || l.Destroy? { BuffersAgree(s, l, f); } else { ReleasesAgree(s, l, f); }
  }

  lemma StepAgrees(s: State, l: Label, f: Feed)
    requires Newest(s.core) == s.newest && s.mutter <= s.core.slots.Keys && Enabled(s, l) && Agrees(s, f)
    ensures Agrees(Apply(s, l), Fed(f, l)) && Fed(f, l).pushes == f.pushes + Listed(Emitted(s, l))
  {
    match l
    case Deliver(b, pixels, copies) => DeliveryAgrees(s, b, pixels, copies, f);
    case Keepalive(accepted) => RepeatAgrees(s, s.core, f, accepted);
    case Attach(a, accepted) => AttachAgrees(s, a, accepted, f);
    case Resume(accepted) => ResumeAgrees(s, accepted, f);
    case _ => QuietStepAgrees(s, l, f);
  }

  // ------------------------------------------------------------------ over every run

  /**
   After any run, however buffers were lent and given back, the pipeline got exactly the frames meant
   for it, in order: every new one and every repeat due while it was attached and not suspended.
   */
  lemma {:induction false} PipelineGetsWhatIsMeant(ls: seq<Label>)
    requires After(ls).Some?
    ensures Agrees(After(ls).value, FeedAfter(ls)) && Pushes(ls) == FeedAfter(ls).pushes
  {
    if ls != [] {
      PipelineGetsWhatIsMeant(ls[..|ls| - 1]);
      RunsKeepInv(ls[..|ls| - 1]);
      NewestIsKept(After(ls[..|ls| - 1]).value);
      StepAgrees(After(ls[..|ls| - 1]).value, ls[|ls| - 1], FeedAfter(ls[..|ls| - 1]));
    }
  }

  /** The frame a delivery makes, if it makes one: over its wrapped memory, or a copy of it. */
  function FrameOf(c: Core, b: Buffer, pixels: bool, copies: bool): Option<Frame>
    requires b in c.slots
  {
    if !pixels then None
    else if c.format.dmabuf then
      if c.slots[b].planes.Some? then Some(Wrapped(c.slots[b].planes, Token(b, c.deliveries + 1))) else None
    else if copies then Some(Copy(c.counts.made, c.format))
    else None
  }

  lemma DeliveryEmits(s: State, b: Buffer, pixels: bool, copies: bool)
    requires b in s.core.slots && (copies ==> !s.core.format.dmabuf)
    ensures var frame, r := FrameOf(s.core, b, pixels, copies), DeliverTo(s.core, b, pixels, copies);
            && AfterDelivery(s, b, r).newest == (if frame.Some? then frame else s.newest)
            && r.0.pushed == if frame.Some? && s.core.appsrc.Some? && !s.core.suspended
                             then Some(Push(frame.value, false)) else None
  {
  }

  /**
   After any run a delivery that makes a frame makes it the newest one, and pushes it exactly while a
   pipeline is attached and not suspended.
   */
  lemma NewFramesArePushed(ls: seq<Label>, b: Buffer, pixels: bool, copies: bool)
    requires After(ls).Some? && Enabled(After(ls).value, Deliver(b, pixels, copies))
    ensures b in After(ls).value.core.slots
    ensures var s, l := After(ls).value, Deliver(b, pixels, copies); var frame := FrameOf(s.core, b, pixels, copies);
            && Apply(s, l).newest == (if frame.Some? then frame else s.newest)
            && Emitted(s, l) == if frame.Some? && s.core.appsrc.Some? && !s.core.suspended
                                then Some(Push(frame.value, false)) else None
  {
    RunsKeepInv(ls);
    NewestIsKept(After(ls).value);
    DeliveryEmits(After(ls).value, b, pixels, copies);
  }
}
