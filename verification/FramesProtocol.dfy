/**
 The ownership protocol around `CaptureFrames`: mutter records into buffers it owns and delivers
 them, GStreamer holds, copies and releases frames over them from any thread, and the PipeWire
 thread drains the posted releases and queues buffers back.  A run is a sequence of labels; every
 interleaving of the three parties is one.
 */
module FramesProtocol {
  import opened Common
  import opened CaptureFrames

  /** A reference on a token: a GstBuffer over its memory, or a local variable about to let it go. */
  datatype Ref = Ref(token: Token, planes: Option<Memory>)

  /** What a held delivery was: the buffer, the memory wrapped for it, the format it was made under. */
  datatype Loan = Loan(buffer: Buffer, memory: Memory, format: Format)

  datatype State = State(
    core: Core,
    alive: bool,            // false once the Frames object is gone
    refs: multiset<Ref>,    // everyone's references but the reader's own on the newest frame
    mutter: set<Buffer>,    // the buffers mutter may record into
    draining: seq<Token>,   // releases swapped out of the channel and not looked at yet
    back: seq<Token>,       // deliveries found to be over, not queued back yet
    returned: seq<Token>,   // every delivery given back so far
    posted: multiset<Token>, // the releases posted so far, but for those found stale
    newest: Option<Frame>,  // the frame last made of a delivery, while its format and buffer last
    loans: map<nat, Loan>,  // every held delivery there ever was
    wrapped: seq<Buffer>)   // which buffer each memory was wrapped for

  datatype Label =
    | SetFormat(format: Format, fixed: bool)
    | Add(buffer: Buffer, wrapped: bool)
    | Remove(buffer: Buffer)
    | Deliver(buffer: Buffer, pixels: bool, copies: bool)
    | Keepalive(accepted: bool)
    | Attach(appsrc: Option<nat>, accepted: bool)
    | Suspend
    | Resume(accepted: bool)
    | CopyRef(ref: Ref)
    | Unref(ref: Ref)
    | DrainTake
    | DrainNext
    | Requeue
    | Destroy

  const START := State(EMPTY, true, multiset{}, {}, [], [], [], multiset{}, None, map[], [])

  ghost predicate HasRef(refs: multiset<Ref>, t: Token) { exists r :: r in refs && r.token == t }

  /** Some GstBuffer, some local reference or the reader's own reference stands over this delivery. */
  ghost predicate Live(s: State, t: Token) { s.core.heldToken == Some(t) || HasRef(s.refs, t) }

  /** The references an operation leaves with others. */
  function Handed(e: Effect): multiset<Ref> {
    (if e.pushed.Some? && e.pushed.value.frame.Wrapped?
     then multiset{Ref(e.pushed.value.frame.token, e.pushed.value.frame.planes)} else multiset{})
    + (if e.dropped.Some? then multiset{Ref(e.dropped.value, None)} else multiset{})
  }

  predicate Idle(s: State) { s.alive && s.draining == [] && s.back == [] }

  /**
   The PipeWire thread does one thing at a time.  Mutter delivers only what it owns and adds a buffer
   only at a free address; shared memory comes only under a shared-memory format.
   */
  predicate Enabled(s: State, l: Label) {
    match l
    case SetFormat(_, _) | Remove(_) | DrainTake | Destroy => Idle(s)
    case Add(b, _) => Idle(s) && b !in s.core.slots
    case Deliver(b, _, copies) => Idle(s) && b in s.mutter && (copies ==> !s.core.format.dmabuf)
    case Keepalive(_) | Attach(_, _) | Suspend | Resume(_) => s.alive
    case CopyRef(r) => r in s.refs
    case Unref(r) => r in s.refs
    case DrainNext => s.draining != []
    case Requeue => s.draining == [] && s.back != []
  }

  ghost function Apply(s: State, l: Label): State
    requires Enabled(s, l)
  {
    match l
    case SetFormat(f, fixed) =>
      var e := SetFormatTo(s.core, f, fixed);
      s.(core := e.core, refs := s.refs + Handed(e),
         newest := if e.core.format == s.core.format then s.newest else None)
    case Add(b, wrapped) =>
      s.(core := AddTo(s.core, b, if wrapped then Some(|s.wrapped|) else None),
         mutter := s.mutter + {b}, wrapped := s.wrapped + [b])
    case Remove(b) =>
      var e := RemoveFrom(s.core, b);
      s.(core := e.core, refs := s.refs + Handed(e), mutter := s.mutter - {b},
         newest := if s.newest.Some? && s.newest.value.Wrapped? && s.newest.value.token.buffer == b then None
                   else s.newest)
    case Deliver(b, pixels, copies) => AfterDelivery(s, b, DeliverTo(s.core, b, pixels, copies))
    case Keepalive(accepted) => AfterRepeat(s, RepeatOn(s.core, accepted))
    case Attach(a, accepted) => AfterRepeat(s, AttachTo(s.core, a, accepted))
    case Suspend => s.(core := s.core.(suspended := true))
    case Resume(accepted) => AfterRepeat(s, ResumeFrom(s.core, accepted))
    case CopyRef(r) => s.(refs := s.refs + multiset{r})
    case Unref(r) => AfterUnref(s.(refs := s.refs - multiset{r}), r.token)
    case DrainTake => s.(core := s.core.(released := []), draining := s.core.released)
    case DrainNext =>
      var t := s.draining[0];
      s.(core := DrainOne(s.core, t), draining := s.draining[1..],
         back := if GivesBack(s.core, t) then s.back + [t] else s.back,
         posted := if GivesBack(s.core, t) then s.posted else s.posted - multiset{t})
    case Requeue =>
      s.(mutter := s.mutter + {s.back[0].buffer}, returned := s.returned + [s.back[0]], back := s.back[1..])
    case Destroy =>
      s.(alive := false, mutter := {}, newest := None,
         core := s.core.(slots := map[], held := None, heldToken := None, lastShm := None))
  }

  ghost function AfterRepeat(s: State, e: Effect): State {
    s.(core := e.core, refs := s.refs + Handed(e))
  }

  ghost function AfterDelivery(s: State, b: Buffer, r: (Effect, Delivery)): State {
    var t := AfterRepeat(s, r.0);
    match r.1
    case Held =>
      if b in s.core.slots && s.core.slots[b].planes.Some? then
        var memory := s.core.slots[b].planes.value;
        t.(mutter := s.mutter - {b},
           newest := Some(Wrapped(Some(memory), Token(b, r.0.core.deliveries))),
           loans := s.loans[r.0.core.deliveries := Loan(b, memory, s.core.format)])
      else t
    case Copied => t.(newest := Some(Copy(s.core.counts.made, s.core.format)))
    case _ => t
  }

  /** The last reference on a token posts its release, while there is somebody to post it to. */
  ghost function AfterUnref(s: State, t: Token): State {
    if s.alive && !Live(s, t)
    then s.(core := s.core.(released := s.core.released + [t]), posted := s.posted + multiset{t})
    else s
  }

  // ------------------------------------------------------------------ the invariant

  ghost predicate Known(s: State, t: Token) { KnownIn(s.loans, t) }

  /** The slot a delivery came from is still there: the same buffer, over the same memory. */
  ghost predicate Stands(s: State, t: Token)
    requires Known(s, t)
  {
    t.buffer in s.core.slots && s.core.slots[t.buffer].planes == Some(s.loans[t.delivery].memory)
  }

  /** Not given back and not yet found to be over. */
  ghost predicate Pending(s: State, t: Token) {
    Live(s, t) || t in s.draining || t in s.core.released
  }

  /** Every release posted and not found stale is returned, about to be, being drained or waiting. */
  ghost predicate Tallied(s: State) {
    s.posted == multiset(s.returned) + multiset(s.back) + multiset(s.draining) + multiset(s.core.released)
  }

  ghost predicate KnownIn(loans: map<nat, Loan>, t: Token) {
    t.delivery in loans && loans[t.delivery].buffer == t.buffer
  }

  ghost predicate RefNumbered(loans: map<nat, Loan>, r: Ref) {
    KnownIn(loans, r.token) && (r.planes.Some? ==> r.planes.value == loans[r.token.delivery].memory)
  }

  ghost predicate NumberedIn(loans: map<nat, Loan>, deliveries: nat, refs: multiset<Ref>, held: Option<Token>,
                             posted: multiset<Token>) {
    && (forall d :: d in loans <==> 1 <= d <= deliveries)
    && (forall r :: r in refs ==> RefNumbered(loans, r))
    && (held.Some? ==> KnownIn(loans, held.value))
    && (forall t :: t in posted ==> KnownIn(loans, t))
  }

  ghost predicate Numbered(s: State) { NumberedIn(s.loans, s.core.deliveries, s.refs, s.core.heldToken, s.posted) }

  ghost predicate OnceIn(posted: multiset<Token>, refs: multiset<Ref>, held: Option<Token>) {
    && (forall t :: posted[t] <= 1)
    && (forall t :: t in posted ==> !HasRef(refs, t) && held != Some(t))
  }

  ghost predicate OncePosted(s: State) { OnceIn(s.posted, s.refs, s.core.heldToken) }

  ghost predicate DistinctMemory(s: State) {
    && (forall b :: b in s.core.slots && s.core.slots[b].planes.Some?
          ==> WrappedFor(s.wrapped, s.core.slots[b].planes.value, b))
    && (forall d :: d in s.loans ==> WrappedFor(s.wrapped, s.loans[d].memory, s.loans[d].buffer))
  }

  /** A slot delivered since it was added was lent its own memory. */
  ghost predicate SlotLent(slot: Slot, b: Buffer, loans: map<nat, Loan>) {
    slot.delivery == 0
    || (slot.delivery in loans && loans[slot.delivery].buffer == b && slot.planes == Some(loans[slot.delivery].memory))
  }

  ghost predicate SlotsLent(s: State) {
    forall b :: b in s.core.slots ==> SlotLent(s.core.slots[b], b, s.loans)
  }

  ghost predicate WrappedFor(wrapped: seq<Buffer>, m: Memory, b: Buffer) { m < |wrapped| && wrapped[m] == b }

  ghost predicate OutIsPending(s: State) {
    && (forall t :: Pending(s, t) && Known(s, t) && Stands(s, t) ==> GivesBack(s.core, t))
    && (forall b :: b in s.core.slots && s.core.slots[b].out ==>
          var t := Token(b, s.core.slots[b].delivery);
          Known(s, t) && Stands(s, t) && Pending(s, t))
  }

  ghost predicate InBack(back: seq<Token>, b: Buffer) { exists i :: 0 <= i < |back| && back[i].buffer == b }

  ghost predicate Owned(s: State) {
    && s.mutter <= s.core.slots.Keys
    && (!s.alive ==> s.core.slots == map[] && s.draining == [] && s.back == [])
    && (forall t :: t in s.back ==> t.buffer in s.core.slots && !s.core.slots[t.buffer].out && t.buffer !in s.mutter)
    && (forall i, j :: 0 <= i < j < |s.back| ==> s.back[i].buffer != s.back[j].buffer)
    && (forall b :: b in s.core.slots && !s.core.slots[b].out && b !in s.mutter ==> InBack(s.back, b))
    && (forall b :: b in s.mutter ==> b in s.core.slots && !s.core.slots[b].out)
  }

  ghost predicate NewestHeld(s: State) {
    var c := s.core;
    && c.held.Some? == c.heldToken.Some?
    && (c.held.Some? ==>
          var t := c.heldToken.value;
          && t.buffer == c.held.value && GivesBack(c, t) && Known(s, t)
          && c.format.dmabuf && s.loans[t.delivery].format == c.format
          && s.newest == Some(Wrapped(Some(s.loans[t.delivery].memory), t)))
    && (c.lastShm.Some? ==>
          c.held.None? && c.lastShm.value.Copy? && c.lastShm.value.made == c.format && !c.format.dmabuf
            && s.newest == c.lastShm)
    && (c.held.None? && c.lastShm.None? ==> s.newest.None?)
  }

  ghost predicate Accounts(s: State) { Numbered(s) && OncePosted(s) && DistinctMemory(s) }

  ghost predicate Inv(s: State) { Accounts(s) && SlotsLent(s) && OutIsPending(s) && Owned(s) && NewestHeld(s) }

  // ------------------------------------------------------------------ every step keeps it

  /** References and the newest frame change; slots, releases and ownership do not. */
  ghost predicate SameLoans(s: State, s': State) {
    && s'.alive == s.alive && s'.mutter == s.mutter && s'.draining == s.draining && s'.back == s.back
    && s'.returned == s.returned && s'.posted == s.posted && s'.loans == s.loans && s'.wrapped == s.wrapped
    && s'.core.slots == s.core.slots && s'.core.deliveries == s.core.deliveries && s'.core.released == s.core.released
  }

  lemma LiveIsKept(s: State, s': State, extra: multiset<Ref>)
    requires s'.refs == s.refs + extra
    requires forall r :: r in extra ==> Live(s, r.token)
    requires s'.core.heldToken == s.core.heldToken
          || (s'.core.heldToken.None? && s.core.heldToken.Some? && Ref(s.core.heldToken.value, None) in extra)
    ensures forall t :: Live(s', t) <==> Live(s, t)
  {
    forall t ensures Live(s', t) <==> Live(s, t) {
      if Live(s', t) && s'.core.heldToken != Some(t) {
        var r :| r in s'.refs && r.token == t;
        assert r in s.refs || r in extra;
      }
      if HasRef(s.refs, t) {
        var r :| r in s.refs && r.token == t;
        assert r in s'.refs;
      } else if Live(s, t) && s'.core.heldToken != Some(t) {
        assert Ref(t, None) in s'.refs;
      }
    }
  }

  ghost predicate Extends(s: State, s': State, extra: multiset<Ref>) {
    && s'.refs == s.refs + extra
    && (forall r :: r in extra ==> Live(s, r.token) && RefNumbered(s.loans, r))
    && (s'.core.heldToken == s.core.heldToken
        || (s'.core.heldToken.None? && s.core.heldToken.Some? && Ref(s.core.heldToken.value, None) in extra))
  }

  lemma ReferencesAccounts(s: State, s': State, extra: multiset<Ref>)
    requires Accounts(s) && SameLoans(s, s') && Extends(s, s', extra)
    requires forall t :: Live(s', t) <==> Live(s, t)
    ensures Accounts(s')
  {
    forall r | r in s'.refs ensures RefNumbered(s'.loans, r) { assert r in s.refs || r in extra; }
    assert forall t :: HasRef(s'.refs, t) || s'.core.heldToken == Some(t) ==> Live(s', t);
    OnceSame(s.posted, s.refs, s.core.heldToken, s'.refs, s'.core.heldToken);
  }

  lemma ReferencesOut(s: State, s': State)
    requires OutIsPending(s) && SameLoans(s, s') && forall t :: Live(s', t) <==> Live(s, t)
    ensures OutIsPending(s')
  {
    assert forall t :: Pending(s', t) <==> Pending(s, t);
    OutKept(s, s');
  }

  lemma ReferencesKeepInv(s: State, s': State, extra: multiset<Ref>)
    requires Inv(s) && SameLoans(s, s') && NewestHeld(s') && Extends(s, s', extra)
    ensures Inv(s')
  {
    LiveIsKept(s, s', extra);
    ReferencesAccounts(s, s', extra);
    ReferencesOut(s, s');
  }

  lemma RepeatKeepsInv(s: State, c: Core, accepted: bool)
    requires Inv(s) && c == s.core.(appsrc := c.appsrc, suspended := c.suspended)
    ensures Inv(AfterRepeat(s, RepeatOn(c, accepted)))
  {
    var e := RepeatOn(c, accepted);
    ReferencesKeepInv(s, AfterRepeat(s, e), Handed(e));
  }

  lemma SetFormatKeepsInv(s: State, f: Format, fixed: bool)
    requires Inv(s) && Idle(s)
    ensures Inv(Apply(s, SetFormat(f, fixed)))
  {
    var e := SetFormatTo(s.core, f, fixed);
    ReferencesKeepInv(s, Apply(s, SetFormat(f, fixed)), Handed(e));
  }

  /** Releases move along or lapse; references and loans stay. */
  lemma AccountsKept(s: State, s': State)
    requires Numbered(s) && OncePosted(s)
    requires s'.refs == s.refs && s'.core.heldToken == s.core.heldToken && s'.loans == s.loans
             && s'.core.deliveries == s.core.deliveries
    requires s'.posted <= s.posted
    ensures Numbered(s') && OncePosted(s')
  {
    FewerPosted(s.loans, s.core.deliveries, s.refs, s.core.heldToken, s.posted, s'.posted);
  }

  lemma FewerPosted(loans: map<nat, Loan>, deliveries: nat, refs: multiset<Ref>, held: Option<Token>,
                    posted: multiset<Token>, fewer: multiset<Token>)
    requires NumberedIn(loans, deliveries, refs, held, posted) && OnceIn(posted, refs, held) && fewer <= posted
    ensures NumberedIn(loans, deliveries, refs, held, fewer) && OnceIn(fewer, refs, held)
  {
    forall t ensures fewer[t] <= 1 { assert fewer[t] <= posted[t]; }
    forall t | t in fewer ensures t in posted { assert fewer[t] <= posted[t]; }
  }

  ghost predicate SlotKept(s: State, s': State, b: Buffer)
    requires b in s'.core.slots && s'.loans == s.loans
  {
    || (b in s.core.slots && s'.core.slots[b] == s.core.slots[b])
    || (!s'.core.slots[b].out && forall t :: Pending(s', t) && Known(s, t) && t.buffer == b ==> !Stands(s', t))
  }

  /** Slots stay, go, or become slots over which nothing pending stands. */
  lemma OutKept(s: State, s': State)
    requires OutIsPending(s) && s'.loans == s.loans
    requires forall t :: Pending(s', t) ==> Pending(s, t)
    requires forall b :: b in s'.core.slots ==> SlotKept(s, s', b)
    requires forall b :: b in s'.core.slots && s'.core.slots[b].out ==> Pending(s', Token(b, s'.core.slots[b].delivery))
    ensures OutIsPending(s')
  {
    assert forall t :: Known(s', t) <==> Known(s, t);
  }

  lemma AddKeepsInv(s: State, b: Buffer, wrapped: bool)
    requires Inv(s) && Enabled(s, Add(b, wrapped))
    ensures Inv(Apply(s, Add(b, wrapped)))
  {
    AddAccounts(s, b, wrapped);
    AddOut(s, b, wrapped);
    AddOwned(s, b, wrapped);
    AddLent(s, b, wrapped);
    AddNewest(s, b, wrapped);
  }

  lemma AddLent(s: State, b: Buffer, wrapped: bool)
    requires SlotsLent(s) && Enabled(s, Add(b, wrapped))
    ensures SlotsLent(Apply(s, Add(b, wrapped)))
  {
  }

  lemma AddNewest(s: State, b: Buffer, wrapped: bool)
    requires NewestHeld(s) && Enabled(s, Add(b, wrapped))
    ensures NewestHeld(Apply(s, Add(b, wrapped)))
  {
  }

  lemma AddAccounts(s: State, b: Buffer, wrapped: bool)
    requires Accounts(s) && Enabled(s, Add(b, wrapped))
    ensures Accounts(Apply(s, Add(b, wrapped)))
  {
    var s' := Apply(s, Add(b, wrapped));
    AccountsKept(s, s');
  }

  lemma AddOut(s: State, b: Buffer, wrapped: bool)
    requires Accounts(s) && OutIsPending(s) && Enabled(s, Add(b, wrapped))
    ensures OutIsPending(Apply(s, Add(b, wrapped)))
  {
    var s' := Apply(s, Add(b, wrapped));
    assert forall t :: Pending(s', t) <==> Pending(s, t);
    OutKept(s, s');
  }

  lemma AddOwned(s: State, b: Buffer, wrapped: bool)
    requires Owned(s) && Enabled(s, Add(b, wrapped))
    ensures Owned(Apply(s, Add(b, wrapped)))
  {
  }

  lemma RemoveKeepsInv(s: State, b: Buffer)
    requires Inv(s) && Idle(s)
    ensures Inv(Apply(s, Remove(b)))
  {
    RemoveAccounts(s, b);
    RemoveLive(s, b);
    RemoveOut(s, b);
    RemoveOwned(s, b);
    RemoveNewest(s, b);
    RemoveLent(s, b);
  }

  lemma RemoveLent(s: State, b: Buffer)
    requires SlotsLent(s) && Idle(s)
    ensures SlotsLent(Apply(s, Remove(b)))
  {
  }

  lemma RemoveLive(s: State, b: Buffer)
    ensures Idle(s) ==> forall t :: Live(Apply(s, Remove(b)), t) <==> Live(s, t)
  {
    if Idle(s) { LiveIsKept(s, Apply(s, Remove(b)), Handed(RemoveFrom(s.core, b))); }
  }

  /** Reader references are added over deliveries that are known. */
  lemma NumberedWithReaders(loans: map<nat, Loan>, deliveries: nat, refs: multiset<Ref>, held: Option<Token>,
                            posted: multiset<Token>, extra: multiset<Ref>, held': Option<Token>)
    requires NumberedIn(loans, deliveries, refs, held, posted) && (held' == held || held'.None?)
    requires forall r :: r in extra ==> KnownIn(loans, r.token) && r.planes.None?
    ensures NumberedIn(loans, deliveries, refs + extra, held', posted)
  {
  }

  lemma RemoveDistinct(s: State, b: Buffer)
    requires DistinctMemory(s) && Idle(s)
    ensures DistinctMemory(Apply(s, Remove(b)))
  {
  }

  lemma OnceSame(posted: multiset<Token>, refs: multiset<Ref>, held: Option<Token>, refs': multiset<Ref>,
                 held': Option<Token>)
    requires OnceIn(posted, refs, held)
    requires forall t :: HasRef(refs', t) || held' == Some(t) ==> HasRef(refs, t) || held == Some(t)
    ensures OnceIn(posted, refs', held')
  {
  }

  lemma RemoveReaders(s: State, b: Buffer)
    requires Numbered(s)
    ensures forall r :: r in Handed(RemoveFrom(s.core, b)) ==> KnownIn(s.loans, r.token) && r.planes.None?
  {
  }

  lemma RemoveAccounts(s: State, b: Buffer)
    requires Accounts(s) && Idle(s)
    ensures Accounts(Apply(s, Remove(b)))
  {
    var s' := Apply(s, Remove(b));
    RemoveLive(s, b);
    RemoveReaders(s, b);
    NumberedWithReaders(s.loans, s.core.deliveries, s.refs, s.core.heldToken, s.posted,
                        Handed(RemoveFrom(s.core, b)), s'.core.heldToken);
    assert forall t :: HasRef(s'.refs, t) || s'.core.heldToken == Some(t) ==> Live(s', t);
    OnceSame(s.posted, s.refs, s.core.heldToken, s'.refs, s'.core.heldToken);
    RemoveDistinct(s, b);
  }

  lemma RemoveOut(s: State, b: Buffer)
    requires OutIsPending(s) && Idle(s)
    requires forall t :: Live(Apply(s, Remove(b)), t) <==> Live(s, t)
    ensures OutIsPending(Apply(s, Remove(b)))
  {
    var s' := Apply(s, Remove(b));
    assert forall t :: Pending(s', t) <==> Pending(s, t);
    OutKept(s, s');
  }

  lemma RemoveOwned(s: State, b: Buffer)
    requires Owned(s) && Idle(s)
    ensures Owned(Apply(s, Remove(b)))
  {
  }

  lemma RemoveNewest(s: State, b: Buffer)
    requires NewestHeld(s) && Idle(s)
    ensures NewestHeld(Apply(s, Remove(b)))
  {
  }

  /** Nothing pending stands over a buffer mutter owns. */
  lemma NothingStandsOverMutters(s: State, b: Buffer)
    requires Accounts(s) && OutIsPending(s) && Owned(s) && b in s.mutter
    ensures forall t :: Pending(s, t) && Known(s, t) && Stands(s, t) ==> t.buffer != b
  {
  }

  ghost predicate Holds(s: State, b: Buffer) {
    Enabled(s, Deliver(b, true, false)) && b in s.core.slots && s.core.slots[b].planes.Some? && s.core.format.dmabuf
  }

  lemma HoldLive(s: State, b: Buffer)
    requires Holds(s, b)
    ensures forall t :: Live(Apply(s, Deliver(b, true, false)), t)
              <==> Live(s, t) || t == Token(b, s.core.deliveries + 1)
  {
    var s' := Apply(s, Deliver(b, true, false));
    var e := DeliverTo(s.core, b, true, false).0;
    forall t ensures Live(s', t) <==> Live(s, t) || t == Token(b, s.core.deliveries + 1) {
      if HasRef(s'.refs, t) {
        var r :| r in s'.refs && r.token == t;
        assert r in s.refs || r in Handed(e);
      }
      if HasRef(s.refs, t) {
        var r :| r in s.refs && r.token == t;
        assert r in s'.refs;
      } else if Live(s, t) {
        assert Ref(t, None) in s'.refs;
      }
    }
  }

  lemma HoldAccounts(s: State, b: Buffer)
    requires Accounts(s) && Holds(s, b)
    ensures Accounts(Apply(s, Deliver(b, true, false)))
  {
    HoldNumbered(s, b);
    HoldOnce(s, b);
  }

  lemma HoldNumbered(s: State, b: Buffer)
    requires Numbered(s) && DistinctMemory(s) && Holds(s, b)
    ensures Numbered(Apply(s, Deliver(b, true, false))) && DistinctMemory(Apply(s, Deliver(b, true, false)))
  {
    NumberedAfterLoan(s.loans, s.core.deliveries, s.refs, s.core.heldToken, s.posted,
                      Loan(b, s.core.slots[b].planes.value, s.core.format),
                      Handed(DeliverTo(s.core, b, true, false).0));
    HoldDistinct(s, b);
  }

  lemma HoldDistinct(s: State, b: Buffer)
    requires DistinctMemory(s) && Holds(s, b)
    ensures DistinctMemory(Apply(s, Deliver(b, true, false)))
  {
  }

  lemma NumberedAfterLoan(loans: map<nat, Loan>, deliveries: nat, refs: multiset<Ref>, held: Option<Token>,
                          posted: multiset<Token>, loan: Loan, extra: multiset<Ref>)
    requires NumberedIn(loans, deliveries, refs, held, posted)
    requires forall r :: r in extra ==>
               r == Ref(Token(loan.buffer, deliveries + 1), Some(loan.memory))
                 || (Some(r.token) == held && r.planes.None?)
    ensures NumberedIn(loans[deliveries + 1 := loan], deliveries + 1, refs + extra,
                       Some(Token(loan.buffer, deliveries + 1)), posted)
  {
    var more := loans[deliveries + 1 := loan];
    forall r | r in refs + extra ensures RefNumbered(more, r) { assert r in refs || r in extra; }
  }

  lemma HoldOnce(s: State, b: Buffer)
    requires Numbered(s) && OncePosted(s) && Holds(s, b)
    ensures OncePosted(Apply(s, Deliver(b, true, false)))
  {
    HoldLive(s, b);
    assert !Known(s, Token(b, s.core.deliveries + 1));
  }

  lemma HoldPending(s: State, b: Buffer)
    requires Accounts(s) && OutIsPending(s) && Owned(s) && Holds(s, b)
    ensures forall t :: Pending(Apply(s, Deliver(b, true, false)), t)
              <==> Pending(s, t) || t == Token(b, s.core.deliveries + 1)
    ensures forall t :: Pending(s, t) && Known(s, t) && Stands(s, t) ==> t.buffer != b
  {
    HoldLive(s, b);
    NothingStandsOverMutters(s, b);
  }

  lemma HoldOut(s: State, b: Buffer)
    requires Accounts(s) && OutIsPending(s) && Owned(s) && Holds(s, b)
    ensures OutIsPending(Apply(s, Deliver(b, true, false)))
  {
    HoldPending(s, b);
    OutAfterLoan(s, b, Apply(s, Deliver(b, true, false)));
  }

  lemma OutAfterLoan(s: State, b: Buffer, s': State)
    requires Numbered(s) && OutIsPending(s) && b in s.core.slots && s.core.slots[b].planes.Some?
    requires var d := s.core.deliveries + 1;
             && s'.core.slots == s.core.slots[b := Slot(s.core.slots[b].planes, d, true)]
             && s'.loans == s.loans[d := Loan(b, s.core.slots[b].planes.value, s.core.format)]
             && (forall t :: Pending(s', t) <==> Pending(s, t) || t == Token(b, d))
    requires forall t :: Pending(s, t) && Known(s, t) && Stands(s, t) ==> t.buffer != b
    ensures OutIsPending(s')
  {
    forall t | Pending(s', t) && Known(s', t) && Stands(s', t) ensures GivesBack(s'.core, t) {
      if t != Token(b, s.core.deliveries + 1) { assert Known(s, t) && Stands(s, t); }
    }
    forall c | c in s'.core.slots && s'.core.slots[c].out
      ensures var t := Token(c, s'.core.slots[c].delivery); Known(s', t) && Stands(s', t) && Pending(s', t)
    {
      var t := Token(c, s'.core.slots[c].delivery);
      if c != b { assert Known(s, t) && Stands(s, t) && Pending(s, t); }
    }
  }

  lemma HoldLent(s: State, b: Buffer)
    requires Numbered(s) && SlotsLent(s) && Holds(s, b)
    ensures SlotsLent(Apply(s, Deliver(b, true, false)))
  {
  }

  lemma HoldOwned(s: State, b: Buffer)
    requires Owned(s) && Holds(s, b)
    ensures Owned(Apply(s, Deliver(b, true, false)))
  {
  }

  lemma HoldNewest(s: State, b: Buffer)
    requires NewestHeld(s) && Holds(s, b)
    ensures NewestHeld(Apply(s, Deliver(b, true, false)))
  {
  }

  lemma HoldKeepsInv(s: State, b: Buffer)
    requires Inv(s) && Holds(s, b)
    ensures Inv(Apply(s, Deliver(b, true, false)))
  {
    HoldAccounts(s, b);
    HoldLent(s, b);
    HoldOut(s, b);
    HoldOwned(s, b);
    HoldNewest(s, b);
  }

  lemma HeldWhateverCopies(s: State, b: Buffer, copies: bool)
    requires Holds(s, b) && Enabled(s, Deliver(b, true, copies))
    ensures Apply(s, Deliver(b, true, copies)) == Apply(s, Deliver(b, true, false))
  {
  }

  /** A delivery that is not held: the cursor alone, a copy, or none. */
  lemma PassingKeepsInv(s: State, b: Buffer, pixels: bool, copies: bool)
    requires Inv(s) && Enabled(s, Deliver(b, pixels, copies))
    requires !(pixels && s.core.slots[b].planes.Some? && s.core.format.dmabuf)
    ensures Inv(Apply(s, Deliver(b, pixels, copies)))
  {
    ReferencesKeepInv(s, Apply(s, Deliver(b, pixels, copies)), Handed(DeliverTo(s.core, b, pixels, copies).0));
  }

  lemma DeliverKeepsInv(s: State, b: Buffer, pixels: bool, copies: bool)
    requires Inv(s) && Enabled(s, Deliver(b, pixels, copies))
    ensures Inv(Apply(s, Deliver(b, pixels, copies)))
  {
    if pixels && s.core.slots[b].planes.Some? && s.core.format.dmabuf {
      HoldKeepsInv(s, b);
      HeldWhateverCopies(s, b, copies);
    } else {
      PassingKeepsInv(s, b, pixels, copies);
    }
  }

  lemma UnrefLive(s: State, r: Ref)
    requires r in s.refs
    ensures forall t :: Live(s, t) <==> Live(s.(refs := s.refs - multiset{r}), t) || t == r.token
  {
    var m := s.(refs := s.refs - multiset{r});
    forall t ensures Live(s, t) <==> Live(m, t) || t == r.token {
      if HasRef(m.refs, t) {
        var q :| q in m.refs && q.token == t;
        assert q in s.refs;
      }
      if HasRef(s.refs, t) && t != r.token {
        var q :| q in s.refs && q.token == t;
        assert q in m.refs;
      }
    }
  }

  lemma UnrefPosted(s: State, r: Ref)
    requires r in s.refs
    ensures var m := s.(refs := s.refs - multiset{r});
            && Apply(s, Unref(r)).posted
               == s.posted + (if s.alive && !Live(m, r.token) then multiset{r.token} else multiset{})
            && (forall t :: Live(Apply(s, Unref(r)), t) <==> Live(m, t))
  {
  }

  lemma UnrefAccounts(s: State, r: Ref)
    requires Accounts(s) && r in s.refs
    ensures Accounts(Apply(s, Unref(r)))
  {
    UnrefLive(s, r);
    UnrefPosted(s, r);
    UnrefNumbered(s, r);
    UnrefOnce(s, r);
  }

  lemma UnrefNumbered(s: State, r: Ref)
    requires Numbered(s) && r in s.refs
    requires var m := s.(refs := s.refs - multiset{r});
             Apply(s, Unref(r)).posted
               == s.posted + (if s.alive && !Live(m, r.token) then multiset{r.token} else multiset{})
    ensures Numbered(Apply(s, Unref(r)))
  {
    var more := if s.alive && !Live(s.(refs := s.refs - multiset{r}), r.token) then multiset{r.token} else multiset{};
    NumberedWithout(s.loans, s.core.deliveries, s.refs, s.core.heldToken, s.posted, r, more);
  }

  lemma NumberedWithout(loans: map<nat, Loan>, deliveries: nat, refs: multiset<Ref>, held: Option<Token>,
                        posted: multiset<Token>, r: Ref, more: multiset<Token>)
    requires NumberedIn(loans, deliveries, refs, held, posted) && r in refs && forall t :: t in more ==> t == r.token
    ensures NumberedIn(loans, deliveries, refs - multiset{r}, held, posted + more)
  {
    forall q | q in refs - multiset{r} ensures RefNumbered(loans, q) { assert q in refs; }
  }

  lemma UnrefOnce(s: State, r: Ref)
    requires OncePosted(s) && r in s.refs
    requires var m := s.(refs := s.refs - multiset{r});
             && Apply(s, Unref(r)).posted
                == s.posted + (if s.alive && !Live(m, r.token) then multiset{r.token} else multiset{})
             && (forall t :: Live(Apply(s, Unref(r)), t) <==> Live(m, t))
             && (forall t :: Live(s, t) <==> Live(m, t) || t == r.token)
    ensures OncePosted(Apply(s, Unref(r)))
  {
    assert Live(s, r.token);
    assert r.token !in s.posted;
  }

  lemma UnrefPending(s: State, r: Ref)
    requires r in s.refs && s.alive
    ensures forall t :: Pending(Apply(s, Unref(r)), t) <==> Pending(s, t)
  {
    UnrefLive(s, r);
  }

  lemma UnrefKeepsInv(s: State, r: Ref)
    requires Inv(s) && r in s.refs
    ensures Inv(Apply(s, Unref(r)))
  {
    UnrefAccounts(s, r);
    if s.alive { UnrefPending(s, r); UnrefOut(s, r); } else { NoSlotsNoneOut(Apply(s, Unref(r))); }
    UnrefOwned(s, r);
  }

  lemma NoSlotsNoneOut(s: State)
    requires Numbered(s) && s.core.slots == map[]
    ensures OutIsPending(s)
  {
  }

  lemma UnrefOwned(s: State, r: Ref)
    requires Owned(s) && NewestHeld(s) && r in s.refs
    ensures Owned(Apply(s, Unref(r))) && NewestHeld(Apply(s, Unref(r)))
  {
  }

  lemma UnrefOut(s: State, r: Ref)
    requires OutIsPending(s) && r in s.refs
    requires forall t :: Pending(Apply(s, Unref(r)), t) <==> Pending(s, t)
    ensures OutIsPending(Apply(s, Unref(r)))
  {
    OutKept(s, Apply(s, Unref(r)));
  }

  lemma DrainTakeKeepsInv(s: State)
    requires Inv(s) && Idle(s)
    ensures Inv(Apply(s, DrainTake))
  {
    var s' := Apply(s, DrainTake);
    AccountsKept(s, s');
    DrainTakeOut(s);
  }

  lemma DrainTakeOut(s: State)
    requires OutIsPending(s) && Idle(s)
    ensures OutIsPending(Apply(s, DrainTake))
  {
    assert forall t :: Pending(Apply(s, DrainTake), t) <==> Pending(s, t);
    OutKept(s, Apply(s, DrainTake));
  }

  lemma StandingIffGivenBack(s: State, t: Token)
    requires Accounts(s) && OutIsPending(s) && t in s.posted && (t in s.draining || t in s.core.released)
    ensures Known(s, t) && (GivesBack(s.core, t) <==> Stands(s, t))
  {
    if GivesBack(s.core, t) { assert t == Token(t.buffer, s.core.slots[t.buffer].delivery); }
  }

  /** A posted release is acted on exactly when the slot it was delivered from was not removed. */
  lemma GivenBackIffStanding(s: State, t: Token)
    requires Accounts(s) && Tallied(s) && OutIsPending(s) && (t in s.draining || t in s.core.released)
    ensures Known(s, t) && (GivesBack(s.core, t) <==> Stands(s, t))
  {
    StandingIffGivenBack(s, t);
  }

  lemma MoveToBack(returned: seq<Token>, back: seq<Token>, draining: seq<Token>, released: seq<Token>)
    requires draining != []
    ensures multiset(returned) + multiset(back + [draining[0]]) + multiset(draining[1..]) + multiset(released)
         == multiset(returned) + multiset(back) + multiset(draining) + multiset(released)
    ensures multiset(returned) + multiset(back) + multiset(draining[1..]) + multiset(released)
         == multiset(returned) + multiset(back) + multiset(draining) + multiset(released) - multiset{draining[0]}
  {
    assert draining == [draining[0]] + draining[1..];
    assert multiset(draining) == multiset{draining[0]} + multiset(draining[1..]);
  }

  lemma OnlyAtTheHead(returned: seq<Token>, back: seq<Token>, draining: seq<Token>, released: seq<Token>)
    requires draining != []
    requires (multiset(returned) + multiset(back) + multiset(draining) + multiset(released))[draining[0]] <= 1
    ensures draining[0] !in draining[1..] && draining[0] !in released
  {
    var t, rest := draining[0], multiset(draining[1..]);
    assert draining == [t] + draining[1..];
    assert multiset(draining) == multiset{t} + rest;
    assert rest[t] == 0 && multiset(released)[t] == 0;
  }

  /** The release at the head is over, and is there once. */
  ghost predicate HeadIsOver(s: State) {
    s.draining != [] &&
    var t := s.draining[0];
    t in s.posted && t !in s.draining[1..] && t !in s.core.released && !Live(s, t)
  }

  lemma PostedIsOver(s: State)
    requires OncePosted(s) && Tallied(s) && s.draining != []
    ensures HeadIsOver(s)
  {
    assert s.posted[s.draining[0]] <= 1 && s.draining[0] in s.posted;
    OnlyAtTheHead(s.returned, s.back, s.draining, s.core.released);
  }

  lemma DrainNextAccounts(s: State)
    requires Accounts(s) && s.draining != []
    ensures Accounts(Apply(s, DrainNext))
  {
    var s' := Apply(s, DrainNext);
    assert s'.posted <= s.posted;
    AccountsKept(s, s');
    DrainNextDistinct(s);
  }

  lemma DrainNextDistinct(s: State)
    requires DistinctMemory(s) && s.draining != []
    ensures DistinctMemory(Apply(s, DrainNext))
  {
  }

  lemma DrainNextPending(s: State)
    requires HeadIsOver(s)
    ensures forall t :: Pending(Apply(s, DrainNext), t) <==> Pending(s, t) && t != s.draining[0]
  {
    var s' := Apply(s, DrainNext);
    assert forall u :: Live(s', u) <==> Live(s, u);
    assert s.draining == [s.draining[0]] + s.draining[1..];
  }

  lemma DrainNextOut(s: State)
    requires Accounts(s) && OutIsPending(s) && HeadIsOver(s)
    ensures OutIsPending(Apply(s, DrainNext))
  {
    StandingIffGivenBack(s, s.draining[0]);
    DrainNextPending(s);
    OutKept(s, Apply(s, DrainNext));
  }

  lemma DrainNextOwned(s: State)
    requires Owned(s) && s.draining != []
    ensures Owned(Apply(s, DrainNext))
  {
    var s' := Apply(s, DrainNext);
    if GivesBack(s.core, s.draining[0]) {
      assert s'.back[|s.back|] == s.draining[0];
      assert forall b :: InBack(s.back, b) ==> InBack(s'.back, b) by {
        forall b | InBack(s.back, b) ensures InBack(s'.back, b) {
          var i :| 0 <= i < |s.back| && s.back[i].buffer == b;
          assert s'.back[i].buffer == b;
        }
      }
    }
  }

  lemma DrainNextKeepsInv(s: State)
    requires Inv(s) && HeadIsOver(s)
    ensures Inv(Apply(s, DrainNext))
  {
    DrainNextAccounts(s);
    DrainNextOut(s);
    DrainNextOwned(s);
    DrainNextNewest(s);
    DrainNextLent(s);
  }

  lemma DrainNextLent(s: State)
    requires SlotsLent(s) && s.draining != []
    ensures SlotsLent(Apply(s, DrainNext))
  {
  }

  lemma DrainNextNewest(s: State)
    requires NewestHeld(s) && s.draining != [] && !Live(s, s.draining[0])
    ensures NewestHeld(Apply(s, DrainNext))
  {
  }

  lemma RequeueKeepsInv(s: State)
    requires Inv(s) && Enabled(s, Requeue)
    ensures Inv(Apply(s, Requeue))
  {
    RequeueAccounts(s);
    RequeueOut(s);
    RequeueOwned(s);
  }

  lemma RequeueAccounts(s: State)
    requires Accounts(s) && Enabled(s, Requeue)
    ensures Accounts(Apply(s, Requeue))
  {
    AccountsKept(s, Apply(s, Requeue));
  }

  lemma RequeueOut(s: State)
    requires OutIsPending(s) && Enabled(s, Requeue)
    ensures OutIsPending(Apply(s, Requeue))
  {
    assert forall t :: Pending(Apply(s, Requeue), t) <==> Pending(s, t);
    OutKept(s, Apply(s, Requeue));
  }

  lemma RequeueOwned(s: State)
    requires Owned(s) && Enabled(s, Requeue)
    ensures Owned(Apply(s, Requeue))
  {
    var s' := Apply(s, Requeue);
    forall b | b in s.core.slots && !s.core.slots[b].out && b !in s'.mutter ensures InBack(s'.back, b) {
      var i :| 0 <= i < |s.back| && s.back[i].buffer == b;
      assert s'.back[i - 1].buffer == b;
    }
  }

  lemma DestroyKeepsInv(s: State)
    requires Inv(s) && Idle(s)
    ensures Inv(Apply(s, Destroy))
  {
    DestroyAccounts(s);
    NoSlotsNoneOut(Apply(s, Destroy));
  }

  lemma DestroyAccounts(s: State)
    requires Accounts(s) && Idle(s)
    ensures Accounts(Apply(s, Destroy))
  {
    var s' := Apply(s, Destroy);
    assert forall t :: Live(s', t) ==> Live(s, t);
  }

  lemma StepKeepsTally(s: State, l: Label)
    requires Tallied(s) && Enabled(s, l)
    ensures Tallied(Apply(s, l))
  {
    match l
    case DrainNext => DrainNextTally(s);
    case Requeue => RequeueTally(s);
    case Unref(r) => UnrefTally(s, r);
    case DrainTake => assert multiset(s.draining) == multiset{};
    case _ => OthersPostNothing(s, l);
  }

  lemma OthersPostNothing(s: State, l: Label)
    requires Enabled(s, l) && !l.DrainNext? && !l.Requeue? && !l.Unref? && !l.DrainTake?
    ensures var s' := Apply(s, l);
            && s'.posted == s.posted && s'.returned == s.returned && s'.back == s.back && s'.draining == s.draining
            && s'.core.released == s.core.released
  {
    match l
    case Deliver(b, pixels, copies) => DeliveryReleasesNothing(s, b, pixels, copies);
    case Keepalive(accepted) => RepeatReleasesNothing(s.core, accepted);
    case Attach(a, accepted) => RepeatReleasesNothing(s.core.(appsrc := a), accepted);
    case Resume(accepted) => RepeatReleasesNothing(s.core.(suspended := false), accepted);
    case _ =>
  }

  lemma RepeatReleasesNothing(c: Core, accepted: bool)
    ensures RepeatOn(c, accepted).core.released == c.released
  {
  }

  lemma DeliveryReleasesNothing(s: State, b: Buffer, pixels: bool, copies: bool)
    requires Enabled(s, Deliver(b, pixels, copies))
    ensures var s' := Apply(s, Deliver(b, pixels, copies));
            && s'.posted == s.posted && s'.returned == s.returned && s'.back == s.back && s'.draining == s.draining
            && s'.core.released == s.core.released
  {
  }

  lemma DrainNextTally(s: State)
    requires Tallied(s) && s.draining != []
    ensures Tallied(Apply(s, DrainNext))
  {
    MoveToBack(s.returned, s.back, s.draining, s.core.released);
  }

  lemma RequeueTally(s: State)
    requires Tallied(s) && Enabled(s, Requeue)
    ensures Tallied(Apply(s, Requeue))
  {
    assert s.back == [s.back[0]] + s.back[1..];
  }

  lemma UnrefTally(s: State, r: Ref)
    requires Tallied(s) && r in s.refs
    ensures Tallied(Apply(s, Unref(r)))
  {
  }

  lemma StepKeepsInv(s: State, l: Label)
    requires Inv(s) && Tallied(s) && Enabled(s, l)
    ensures Inv(Apply(s, l))
  {
    match l
    case SetFormat(f, fixed) => SetFormatKeepsInv(s, f, fixed);
    case Add(b, wrapped) => AddKeepsInv(s, b, wrapped);
    case Remove(b) => RemoveKeepsInv(s, b);
    case Deliver(b, pixels, copies) => DeliverKeepsInv(s, b, pixels, copies);
    case Keepalive(accepted) => RepeatKeepsInv(s, s.core, accepted);
    case Attach(a, accepted) => AttachKeepsInv(s, a, accepted);
    case Suspend => ReferencesKeepInv(s, Apply(s, l), multiset{});
    case Resume(accepted) => ResumeKeepsInv(s, accepted);
    case CopyRef(r) => ReferencesKeepInv(s, Apply(s, l), multiset{r});
    case Unref(r) => UnrefKeepsInv(s, r);
    case DrainTake => DrainTakeKeepsInv(s);
    case DrainNext => PostedIsOver(s); DrainNextKeepsInv(s);
    case Requeue => RequeueKeepsInv(s);
    case Destroy => DestroyKeepsInv(s);
  }

  lemma AttachIsRepeat(s: State, a: Option<nat>, accepted: bool)
    requires s.alive
    ensures Apply(s, Attach(a, accepted))
         == if s.core.appsrc == a then s
            else if a.None? || s.core.suspended then s.(core := s.core.(appsrc := a))
            else AfterRepeat(s, RepeatOn(s.core.(appsrc := a), accepted))
  {
  }

  lemma AttachKeepsInv(s: State, a: Option<nat>, accepted: bool)
    requires Inv(s) && s.alive
    ensures Inv(Apply(s, Attach(a, accepted)))
  {
    AttachIsRepeat(s, a, accepted);
    if a.None? || s.core.suspended { PlainKeepsInv(s, s.core.(appsrc := a)); }
    else { RepeatKeepsInv(s, s.core.(appsrc := a), accepted); }
  }

  lemma PlainKeepsInv(s: State, c: Core)
    requires Inv(s) && c == s.core.(appsrc := c.appsrc, suspended := c.suspended)
    ensures Inv(s.(core := c))
  {
    ReferencesKeepInv(s, s.(core := c), multiset{});
  }

  lemma ResumeIsRepeat(s: State, accepted: bool)
    requires s.alive
    ensures Apply(s, Resume(accepted))
         == if !s.core.suspended then s
            else if s.core.appsrc.None? then s.(core := s.core.(suspended := false))
            else AfterRepeat(s, RepeatOn(s.core.(suspended := false), accepted))
  {
  }

  lemma ResumeKeepsInv(s: State, accepted: bool)
    requires Inv(s) && s.alive
    ensures Inv(Apply(s, Resume(accepted)))
  {
    ResumeIsRepeat(s, accepted);
    if s.core.appsrc.None? { PlainKeepsInv(s, s.core.(suspended := false)); }
    else { RepeatKeepsInv(s, s.core.(suspended := false), accepted); }
  }

  // ------------------------------------------------------------------ over every run

  /** The state after a run, if every step was one its party could take. */
  ghost function After(ls: seq<Label>): Option<State> {
    if ls == [] then Some(START)
    else
      var before := After(ls[..|ls| - 1]);
      if before.Some? && Enabled(before.value, ls[|ls| - 1]) then Some(Apply(before.value, ls[|ls| - 1])) else None
  }

  lemma {:induction false} RunsKeepInv(ls: seq<Label>)
    requires After(ls).Some?
    ensures Inv(After(ls).value) && Tallied(After(ls).value)
  {
    if ls != [] {
      var s, l := After(ls[..|ls| - 1]).value, ls[|ls| - 1];
      RunsKeepInv(ls[..|ls| - 1]);
      StepKeepsInv(s, l);
      StepKeepsTally(s, l);
    }
  }

  // A delivery stands, in the sense above, exactly while its buffer was not removed since.

  ghost predicate KeptSince(ls: seq<Label>, b: Buffer, j: nat) {
    forall i :: j <= i < |ls| ==> ls[i] != Remove(b) && ls[i] != Destroy
  }

  lemma RepeatKeepsSlots(c: Core, accepted: bool)
    ensures RepeatOn(c, accepted).core.slots == c.slots
  {
  }

  lemma DeliverStands(s: State, b: Buffer, pixels: bool, copies: bool, t: Token)
    requires Known(s, t) && t.delivery <= s.core.deliveries && Enabled(s, Deliver(b, pixels, copies))
    ensures var s' := Apply(s, Deliver(b, pixels, copies)); Known(s', t) && (Stands(s', t) <==> Stands(s, t))
  {
  }

  lemma RepeatStands(s: State, e: Effect, t: Token)
    requires Known(s, t) && e.core.slots == s.core.slots
    ensures var s' := AfterRepeat(s, e); Known(s', t) && (Stands(s', t) <==> Stands(s, t))
  {
  }

  lemma RepeatingStands(s: State, l: Label, t: Token)
    requires Known(s, t) && Enabled(s, l) && (l.Keepalive? || l.Attach? || l.Resume?)
    ensures Known(Apply(s, l), t) && (Stands(Apply(s, l), t) <==> Stands(s, t))
  {
    match l
    case Keepalive(accepted) =>
      RepeatKeepsSlots(s.core, accepted);
      RepeatStands(s, RepeatOn(s.core, accepted), t);
    case Attach(a, accepted) =>
      RepeatKeepsSlots(s.core.(appsrc := a), accepted);
      RepeatStands(s, AttachTo(s.core, a, accepted), t);
    case Resume(accepted) =>
      RepeatKeepsSlots(s.core.(suspended := false), accepted);
      RepeatStands(s, ResumeFrom(s.core, accepted), t);
  }

  lemma FormatStands(s: State, l: Label, t: Token)
    requires Known(s, t) && Enabled(s, l) && l.SetFormat?
    ensures Known(Apply(s, l), t) && (Stands(Apply(s, l), t) <==> Stands(s, t))
  {
  }

  lemma RemovalStands(s: State, b: Buffer, t: Token)
    requires Known(s, t) && Enabled(s, Remove(b))
    ensures Known(Apply(s, Remove(b)), t) && (Stands(Apply(s, Remove(b)), t) <==> Stands(s, t) && b != t.buffer)
  {
  }

  lemma ReferencesStand(s: State, l: Label, t: Token)
    requires Known(s, t) && Enabled(s, l) && (l.Suspend? || l.CopyRef?)
    ensures Known(Apply(s, l), t) && (Stands(Apply(s, l), t) <==> Stands(s, t))
  {
  }

  /** A buffer added at the same address wraps other memory. */
  lemma AddedStands(s: State, l: Label, t: Token)
    requires DistinctMemory(s) && Known(s, t) && Enabled(s, l) && l.Add?
    ensures Known(Apply(s, l), t) && (Stands(Apply(s, l), t) <==> Stands(s, t))
  {
  }

  lemma DrainingStands(s: State, l: Label, t: Token)
    requires Known(s, t) && Enabled(s, l) && (l.Unref? || l.DrainTake? || l.DrainNext? || l.Requeue? || l.Destroy?)
    ensures Known(Apply(s, l), t) && (Stands(Apply(s, l), t) <==> Stands(s, t) && !l.Destroy?)
  {
  }

  /** No step but a removal ends it. */
  lemma StandsStep(s: State, l: Label, t: Token)
    requires DistinctMemory(s) && Known(s, t) && t.delivery <= s.core.deliveries && Enabled(s, l)
    ensures Known(Apply(s, l), t)
    ensures Stands(Apply(s, l), t) <==> Stands(s, t) && l != Remove(t.buffer) && l != Destroy
  {
    match l
    case Deliver(b, pixels, copies) => DeliverStands(s, b, pixels, copies, t);
    case Keepalive(_) => RepeatingStands(s, l, t);
    case Attach(_, _) => RepeatingStands(s, l, t);
    case Resume(_) => RepeatingStands(s, l, t);
    case Add(_, _) => AddedStands(s, l, t);
    case SetFormat(_, _) => FormatStands(s, l, t);
    case Remove(b) => RemovalStands(s, b, t);
    case Suspend => ReferencesStand(s, l, t);
    case CopyRef(_) => ReferencesStand(s, l, t);
    case _ => DrainingStands(s, l, t);
  }

  /** Step `j` is the delivery a token is of: the one that came to have its number. */
  ghost predicate MadeAt(ls: seq<Label>, t: Token, j: nat) {
    && j < |ls| && ls[j].Deliver? && ls[j].buffer == t.buffer
    && After(ls[..j]).Some? && After(ls[..j]).value.core.deliveries + 1 == t.delivery
    && After(ls[..j + 1]).Some? && After(ls[..j + 1]).value.core.deliveries == t.delivery
  }

  lemma StillMadeAt(ls: seq<Label>, t: Token, j: nat)
    requires ls != [] && MadeAt(ls[..|ls| - 1], t, j)
    ensures MadeAt(ls, t, j)
  {
    assert ls[..|ls| - 1][..j] == ls[..j] && ls[..|ls| - 1][..j + 1] == ls[..j + 1];
  }

  lemma {:induction false} StandsIffNotRemoved(ls: seq<Label>, t: Token) returns (j: nat)
    requires After(ls).Some? && Known(After(ls).value, t)
    ensures MadeAt(ls, t, j) && (Stands(After(ls).value, t) <==> KeptSince(ls, t.buffer, j + 1))
  {
    var init := ls[..|ls| - 1];
    if Known(After(init).value, t) {
      j := StandsIffNotRemoved(init, t);
      StillMadeAt(ls, t, j);
      StandsOnIff(ls, t, j);
    } else {
      j := |ls| - 1;
      StandsAtFirst(ls, t);
    }
  }

  lemma StandsOnIff(ls: seq<Label>, t: Token, j: nat)
    requires ls != [] && After(ls).Some? && Known(After(ls[..|ls| - 1]).value, t) && j < |ls| - 1
    requires Stands(After(ls[..|ls| - 1]).value, t) <==> KeptSince(ls[..|ls| - 1], t.buffer, j + 1)
    ensures Known(After(ls).value, t)
    ensures Stands(After(ls).value, t) <==> KeptSince(ls, t.buffer, j + 1)
  {
    RunsAreNumbered(ls[..|ls| - 1]);
    StandsStep(After(ls[..|ls| - 1]).value, ls[|ls| - 1], t);
    KeptStep(ls, t.buffer, j + 1);
  }

  lemma StandsAtFirst(ls: seq<Label>, t: Token)
    requires ls != [] && After(ls).Some? && Known(After(ls).value, t) && !Known(After(ls[..|ls| - 1]).value, t)
    ensures MadeAt(ls, t, |ls| - 1) && Stands(After(ls).value, t)
  {
    RunsAreNumbered(ls[..|ls| - 1]);
    FirstKnown(After(ls[..|ls| - 1]).value, ls[|ls| - 1], t);
    assert ls[..|ls| - 1 + 1] == ls;
  }

  lemma RunsAreNumbered(ls: seq<Label>)
    requires After(ls).Some?
    ensures Numbered(After(ls).value) && DistinctMemory(After(ls).value)
  {
    RunsKeepInv(ls);
  }

  lemma KeptStep(ls: seq<Label>, b: Buffer, j: nat)
    requires j <= |ls| - 1
    ensures KeptSince(ls, b, j)
            <==> KeptSince(ls[..|ls| - 1], b, j) && ls[|ls| - 1] != Remove(b) && ls[|ls| - 1] != Destroy
  {
    assert forall i :: 0 <= i < |ls| - 1 ==> ls[..|ls| - 1][i] == ls[i];
  }

  lemma RepeatsLendNothing(s: State, e: Effect)
    ensures AfterRepeat(s, e).loans == s.loans
  {
  }

  lemma UnrefLendsNothing(s: State, r: Ref)
    requires r in s.refs
    ensures Apply(s, Unref(r)).loans == s.loans
  {
  }

  lemma DrainingLendsNothing(s: State, l: Label)
    requires Enabled(s, l) && (l.DrainTake? || l.DrainNext? || l.Requeue? || l.Destroy?)
    ensures Apply(s, l).loans == s.loans
  {
  }

  lemma BuffersLendNothing(s: State, l: Label)
    requires Enabled(s, l) && (l.SetFormat? || l.Add? || l.Remove? || l.Suspend? || l.CopyRef?)
    ensures Apply(s, l).loans == s.loans
  {
  }

  lemma OthersLendNothing(s: State, l: Label)
    requires Enabled(s, l) && !l.Deliver?
    ensures Apply(s, l).loans == s.loans
  {
    match l
    case Keepalive(accepted) => RepeatsLendNothing(s, RepeatOn(s.core, accepted));
    case Attach(a, accepted) => RepeatsLendNothing(s, AttachTo(s.core, a, accepted));
    case Resume(accepted) => RepeatsLendNothing(s, ResumeFrom(s.core, accepted));
    case Unref(r) => UnrefLendsNothing(s, r);
    case DrainTake => DrainingLendsNothing(s, l);
    case DrainNext => DrainingLendsNothing(s, l);
    case Requeue => DrainingLendsNothing(s, l);
    case Destroy => DrainingLendsNothing(s, l);
    case _ => BuffersLendNothing(s, l);
  }

  lemma PassingLendsNothing(s: State, b: Buffer, pixels: bool, copies: bool)
    requires Enabled(s, Deliver(b, pixels, copies))
    requires !(pixels && b in s.core.slots && s.core.slots[b].planes.Some? && s.core.format.dmabuf)
    ensures Apply(s, Deliver(b, pixels, copies)).loans == s.loans
  {
  }

  lemma FirstKnown(s: State, l: Label, t: Token)
    requires Numbered(s) && Enabled(s, l) && !Known(s, t) && Known(Apply(s, l), t)
    ensures l.Deliver? && l.buffer == t.buffer && s.core.deliveries + 1 == t.delivery
    ensures Apply(s, l).core.deliveries == t.delivery && Stands(Apply(s, l), t)
  {
    if l.Deliver? { FirstLent(s, l.buffer, l.pixels, l.copies, t); } else { OthersLendNothing(s, l); }
  }

  lemma FirstLent(s: State, b: Buffer, pixels: bool, copies: bool, t: Token)
    requires Numbered(s) && Enabled(s, Deliver(b, pixels, copies)) && !Known(s, t)
             && Known(Apply(s, Deliver(b, pixels, copies)), t)
    ensures b == t.buffer && s.core.deliveries + 1 == t.delivery
    ensures var s' := Apply(s, Deliver(b, pixels, copies)); s'.core.deliveries == t.delivery && Stands(s', t)
  {
    if !(pixels && b in s.core.slots && s.core.slots[b].planes.Some? && s.core.format.dmabuf) {
      PassingLendsNothing(s, b, pixels, copies);
    }
  }

  /** After any run a posted release gives its buffer back exactly when that was not removed since the delivery. */
  lemma GivenBackIffNotRemoved(ls: seq<Label>, t: Token) returns (j: nat)
    requires After(ls).Some? && (t in After(ls).value.draining || t in After(ls).value.core.released)
    ensures MadeAt(ls, t, j) && (GivesBack(After(ls).value.core, t) <==> KeptSince(ls, t.buffer, j + 1))
  {
    RunsKeepInv(ls);
    GivenBackIffStanding(After(ls).value, t);
    j := StandsIffNotRemoved(ls, t);
  }

  /** Mutter never records into memory a live frame, or the frame kept for repeats, is over. */
  lemma NeverRecordedOver(ls: seq<Label>)
    requires After(ls).Some?
    ensures var s := After(ls).value;
            && (forall b :: b in s.mutter ==> b in s.core.slots)
            && (forall b, r :: b in s.mutter && r in s.refs && r.planes.Some? ==> s.core.slots[b].planes != r.planes)
            && (forall b :: b in s.mutter && s.newest.Some? && s.newest.value.Wrapped?
                  ==> s.core.slots[b].planes != s.newest.value.planes)
  {
    RunsKeepInv(ls);
    var s := After(ls).value;
    forall b, r | b in s.mutter && r in s.refs && r.planes.Some? ensures s.core.slots[b].planes != r.planes {
      NothingStandsOverMutters(s, b);
      assert Live(s, r.token);
    }
    forall b | b in s.mutter && s.newest.Some? && s.newest.value.Wrapped?
      ensures s.core.slots[b].planes != s.newest.value.planes {
      NothingStandsOverMutters(s, b);
      assert Live(s, s.newest.value.token);
    }
  }

  lemma OnceMeansDistinct(r: seq<Token>)
    requires forall t :: multiset(r)[t] <= 1
    ensures NoDuplicates(r)
  {
    forall i, j | 0 <= i < j < |r| ensures r[i] != r[j] {
      assert r == r[..j] + [r[j]] + r[j + 1..];
      assert r[i] == r[..j][i];
      assert multiset(r) == multiset(r[..j]) + multiset{r[j]} + multiset(r[j + 1..]);
      assert multiset(r)[r[j]] <= 1;
    }
  }

  /** A delivery is given back at most once, and only when nothing stands over it any more. */
  lemma GivenBackAtMostOnce(ls: seq<Label>)
    requires After(ls).Some?
    ensures var s := After(ls).value;
            NoDuplicates(s.returned) && forall t :: t in s.returned ==> !Live(s, t) && t !in s.core.released
  {
    RunsKeepInv(ls);
    var s := After(ls).value;
    forall t ensures multiset(s.returned)[t] <= 1 { assert s.posted[t] <= 1; }
    OnceMeansDistinct(s.returned);
    forall t | t in s.returned ensures !Live(s, t) && t !in s.core.released {
      assert t in s.posted && s.posted[t] <= 1;
    }
  }

  /** A repeat is the newest frame, made under the format now in force, over memory mutter has not got back. */
  lemma RepeatsAreTheNewestFrame(ls: seq<Label>, accepted: bool)
    requires After(ls).Some?
    ensures var s := After(ls).value;
            && Newest(s.core) == s.newest
            && (RepeatOn(s.core, accepted).pushed.Some?
                ==> Some(RepeatOn(s.core, accepted).pushed.value.frame) == s.newest)
            && match s.newest
               case None => true
               case Some(Copy(_, made)) => made == s.core.format
               case Some(Wrapped(planes, t)) =>
                 && s.core.held == Some(t.buffer) && t.buffer in s.core.slots && t.buffer !in s.mutter
                 && s.core.slots[t.buffer] == Slot(planes, t.delivery, true)
                 && t.delivery in s.loans && planes == Some(s.loans[t.delivery].memory)
                 && s.loans[t.delivery].format == s.core.format
  {
    RunsKeepInv(ls);
    var s := After(ls).value;
    if s.core.held.Some? {
      var t := s.core.heldToken.value;
      assert Live(s, t) && t == Token(t.buffer, s.core.slots[t.buffer].delivery);
    }
  }

  // ------------------------------------------------------------------ a whole drain

  ghost function Standing(s: State, ts: seq<Token>): seq<Token> {
    if ts == [] then []
    else (if Known(s, ts[0]) && Stands(s, ts[0]) then [ts[0]] else []) + Standing(s, ts[1..])
  }

  /** The drain already begun, run to its end with nothing in between. */
  ghost function Drained(s: State): State
    decreases 2 * |s.draining| + |s.back|
  {
    if s.draining != [] then Drained(Apply(s, DrainNext))
    else if s.back != [] then Drained(Apply(s, Requeue))
    else s
  }

  lemma {:induction false} StandingSame(s: State, s': State, ts: seq<Token>)
    requires s'.loans == s.loans && forall t :: Known(s, t) ==> (Stands(s', t) <==> Stands(s, t))
    ensures Standing(s', ts) == Standing(s, ts)
  {
    if ts != [] { StandingSame(s, s', ts[1..]); }
  }

  lemma {:induction false} DrainedFrame(s: State)
    ensures Drained(s).draining == [] && Drained(s).back == []
    ensures Drained(s).refs == s.refs && Drained(s).core.released == s.core.released
    decreases 2 * |s.draining| + |s.back|
  {
    if s.draining != [] {
      DrainedFrame(Apply(s, DrainNext));
    } else if s.back != [] {
      DrainedFrame(Apply(s, Requeue));
    }
  }

  lemma {:induction false} DrainedKeepsInv(s: State)
    requires Inv(s) && Tallied(s)
    ensures Inv(Drained(s))
    decreases 2 * |s.draining| + |s.back|
  {
    if s.draining != [] {
      DrainNextKeepsAll(s);
      DrainedKeepsInv(Apply(s, DrainNext));
    } else if s.back != [] {
      var next := Apply(s, Requeue);
      assert Inv(next) by { RequeueKeepsInv(s); }
      assert Tallied(next) by { StepKeepsTally(s, Requeue); }
      DrainedKeepsInv(next);
    }
  }

  lemma DrainNextKeepsAll(s: State)
    requires Inv(s) && Tallied(s) && s.draining != []
    ensures Inv(Apply(s, DrainNext)) && Tallied(Apply(s, DrainNext))
  {
    PostedIsOver(s);
    DrainNextKeepsInv(s);
    StepKeepsTally(s, DrainNext);
  }

  lemma DrainNextStanding(s: State)
    requires Inv(s) && HeadIsOver(s)
    ensures var s' := Apply(s, DrainNext);
            && Standing(s', s'.draining) == Standing(s, s'.draining)
            && (GivesBack(s.core, s.draining[0]) <==> Known(s, s.draining[0]) && Stands(s, s.draining[0]))
  {
    StandingIffGivenBack(s, s.draining[0]);
    StandingSame(s, Apply(s, DrainNext), s.draining[1..]);
  }

  /** Step by step or in one go as `Frames.DrainReleases` does it: the same state ... */
  lemma {:induction false} DrainedCore(s: State)
    ensures Drained(s).core == DrainAll(s.core, s.draining).0
    decreases 2 * |s.draining| + |s.back|
  {
    if s.draining != [] {
      DrainedCore(Apply(s, DrainNext));
    } else if s.back != [] {
      DrainedCore(Apply(s, Requeue));
    }
  }

  lemma ReturnedAfterNext(s: State)
    requires s.draining != []
    ensures var s' := Apply(s, DrainNext);
            s'.returned + s'.back + DrainAll(s'.core, s'.draining).1
              == s.returned + s.back + DrainAll(s.core, s.draining).1
  {
    var s' := Apply(s, DrainNext);
    var given := if GivesBack(s.core, s.draining[0]) then [s.draining[0]] else [];
    assert s.back + [] == s.back;
    Regroup(s.returned, s.back, given);
    Regroup(s.returned + s.back, given, DrainAll(s'.core, s'.draining).1);
  }

  lemma ReturnedAfterRequeue(a: seq<Token>, b: seq<Token>, c: seq<Token>)
    requires b != []
    ensures a + [b[0]] + b[1..] + c == a + b + c
  {
  }

  /** ... and the same buffers back. */
  lemma {:induction false} DrainedReturned(s: State)
    ensures Drained(s).returned == s.returned + s.back + DrainAll(s.core, s.draining).1
    decreases 2 * |s.draining| + |s.back|
  {
    if s.draining != [] {
      ReturnedAfterNext(s);
      DrainedReturned(Apply(s, DrainNext));
    } else if s.back != [] {
      ReturnedAfterRequeue(s.returned, s.back, DrainAll(s.core, s.draining).1);
      DrainedReturned(Apply(s, Requeue));
    } else {
      NothingReturned(s);
    }
  }

  lemma NothingReturned(s: State)
    requires s.draining == [] && s.back == []
    ensures s.returned + s.back + DrainAll(s.core, s.draining).1 == s.returned
  {
  }

  /** A drain gives back exactly the posted deliveries whose slots were not removed. */
  lemma {:induction false} DrainAllIsStanding(s: State)
    requires Inv(s) && Tallied(s)
    ensures DrainAll(s.core, s.draining).1 == Standing(s, s.draining)
    decreases |s.draining|
  {
    if s.draining != [] {
      PostedIsOver(s);
      DrainNextStanding(s);
      DrainNextKeepsAll(s);
      DrainAllIsStanding(Apply(s, DrainNext));
    }
  }

  lemma {:induction false} ImageNoLarger(ts: set<Token>, bs: set<Buffer>)
    requires forall b :: b in bs ==> exists t :: t in ts && t.buffer == b
    ensures |bs| <= |ts|
    decreases |ts|
  {
    if b :| b in bs {
      var t :| t in ts && t.buffer == b;
      forall c | c in bs - {b} ensures exists u :: u in ts - {t} && u.buffer == c {
        var u :| u in ts && u.buffer == c;
        assert u in ts - {t};
      }
      ImageNoLarger(ts - {t}, bs - {b});
    }
  }

  /** Nothing posted and nothing being drained: what is out is what is live ... */
  lemma OutIsLive(s: State)
    requires Numbered(s) && SlotsLent(s) && OutIsPending(s) && s.core.released == [] && s.draining == []
    ensures forall b :: b in s.core.slots ==> (s.core.slots[b].out <==> Live(s, Token(b, s.core.slots[b].delivery)))
  {
    forall b | b in s.core.slots ensures s.core.slots[b].out <==> Live(s, Token(b, s.core.slots[b].delivery)) {
      var t := Token(b, s.core.slots[b].delivery);
      if s.core.slots[b].out { assert Pending(s, t); }
      if Live(s, t) { LiveSlotIsOut(s, b); }
    }
  }

  lemma LiveSlotIsOut(s: State, b: Buffer)
    requires SlotsLent(s) && Numbered(s) && OutIsPending(s) && b in s.core.slots
             && Live(s, Token(b, s.core.slots[b].delivery))
    ensures s.core.slots[b].out
  {
    assert Known(s, Token(b, s.core.slots[b].delivery));
  }

  /** ... mutter has all the rest ... */
  lemma MutterHasTheRest(s: State)
    requires Owned(s) && s.back == []
    ensures s.mutter == set b | b in s.core.slots && !s.core.slots[b].out
  {
    assert forall b :: !InBack([], b);
  }

  /** ... and that is all but one more than are kept downstream. */
  lemma EnoughForMutter(s: State)
    requires s.mutter == set b | b in s.core.slots && !s.core.slots[b].out
    requires forall b :: b in s.core.slots ==> (s.core.slots[b].out <==> Live(s, Token(b, s.core.slots[b].delivery)))
    ensures |s.mutter| + |Downstream(s)| + 1 >= |s.core.slots|
  {
    var held: set<Token> := if s.core.heldToken.Some? then {s.core.heldToken.value} else {};
    OutHaveTokens(s, held);
    ImageNoLarger(Downstream(s) + held, OutOf(s));
    assert s.core.slots.Keys == s.mutter + OutOf(s);
    assert |s.core.slots| == |s.mutter| + |OutOf(s)|;
  }

  /** The deliveries a frame downstream, or its reader, is over. */
  ghost function Downstream(s: State): set<Token> { set r | r in s.refs :: r.token }

  ghost function OutOf(s: State): set<Buffer> { set b | b in s.core.slots && s.core.slots[b].out }

  lemma OutHaveTokens(s: State, held: set<Token>)
    requires forall b :: b in s.core.slots ==> (s.core.slots[b].out <==> Live(s, Token(b, s.core.slots[b].delivery)))
    requires held == if s.core.heldToken.Some? then {s.core.heldToken.value} else {}
    ensures forall b :: b in OutOf(s) ==> exists t :: t in Downstream(s) + held && t.buffer == b
  {
    forall b | b in OutOf(s) ensures exists t :: t in Downstream(s) + held && t.buffer == b {
      var t := Token(b, s.core.slots[b].delivery);
      assert Live(s, t);
      assert t in Downstream(s) + held;
    }
  }

  lemma TakenReturns(taken: State)
    requires Inv(taken) && Tallied(taken) && taken.back == []
    ensures Drained(taken).returned == taken.returned + Standing(taken, taken.draining)
  {
    DrainAllIsStanding(taken);
    DrainedReturned(taken);
    assert taken.returned + [] == taken.returned;
  }

  lemma DrainReturns(s: State)
    requires Inv(s) && Tallied(s) && Idle(s)
    ensures Drained(Apply(s, DrainTake)).returned == s.returned + Standing(s, s.core.released)
  {
    DrainTakeKeepsAll(s);
    StandingSame(s, Apply(s, DrainTake), s.core.released);
    TakenReturns(Apply(s, DrainTake));
  }

  lemma DrainTakeKeepsAll(s: State)
    requires Inv(s) && Tallied(s) && Idle(s)
    ensures Inv(Apply(s, DrainTake)) && Tallied(Apply(s, DrainTake))
  {
    DrainTakeKeepsInv(s);
    StepKeepsTally(s, DrainTake);
  }

  lemma DrainSettles(s: State)
    requires Inv(s) && Tallied(s) && Idle(s)
    ensures var s' := Drained(Apply(s, DrainTake));
            Inv(s') && s'.refs == s.refs && s'.core.released == [] && s'.draining == [] && s'.back == []
  {
    DrainTakeKeepsAll(s);
    DrainedKeepsInv(Apply(s, DrainTake));
    DrainedFrame(Apply(s, DrainTake));
  }

  /**
   The next drain after any run: it gives back every posted delivery whose slot was not removed and
   nothing else, leaves out exactly what is live, and leaves mutter all but one more buffer than
   there are deliveries kept downstream.
   */
  lemma DrainAfterAnyRun(ls: seq<Label>)
    requires After(ls).Some? && Idle(After(ls).value)
    ensures var s := After(ls).value;
            var s' := Drained(Apply(s, DrainTake));
            && s'.returned == s.returned + Standing(s, s.core.released)
            && (forall b :: b in s'.core.slots
                  ==> (s'.core.slots[b].out <==> Live(s', Token(b, s'.core.slots[b].delivery))))
            && s'.mutter == (set b | b in s'.core.slots && !s'.core.slots[b].out)
            && |s'.mutter| + |Downstream(s)| + 1 >= |s'.core.slots|
  {
    var s := After(ls).value;
    RunsKeepInv(ls);
    DrainReturns(s);
    DrainSettles(s);
    OutIsLive(Drained(Apply(s, DrainTake)));
    MutterHasTheRest(Drained(Apply(s, DrainTake)));
    EnoughForMutter(Drained(Apply(s, DrainTake)));
  }
}
