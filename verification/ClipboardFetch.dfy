/**
 Reading the X11 clipboard, one conversion at a time (agent/modules/desktop-x11/clipboard.cpp:52-66,
 68-84, 111-157, 182-247): the queue of fetches, the timer of the one under way, and the callbacks,
 which may read again while they run.
 */
module ClipboardFetch {
  import opened Common

  /** A read, and the reads its callback makes when it is called. */
  datatype Read = Read(id: nat, onDone: seq<Read>)

  datatype Stage = Targets | Data | Incr

  /** What is being fetched: a read, or the offer of a new owner, which nobody waits for. */
  datatype Fetch = Fetch(what: Option<Read>, stage: Stage)

  /** A fetch that left the queue; `told`: its callback was called. */
  datatype Settled = Settled(what: Option<Read>, told: bool)

  /**
   `queued`, `settled`, `direct`: every fetch queued, settled, and every read answered on the spot.
   `calls`: every callback called.  All in order.
   */
  datatype Clip = Clip(attached: bool, owning: bool, queue: seq<Fetch>, timer: bool,
                       queued: seq<Option<Read>>, settled: seq<Settled>, direct: seq<Read>, calls: seq<Read>)

  // ------------------------------------------------------------------ the operations

  function StartedNext(c: Clip): Clip { if !c.attached || c.timer || c.queue == [] then c else c.(timer := true) }

  function Pushed(c: Clip, what: Option<Read>): Clip {
    StartedNext(c.(queue := c.queue + [Fetch(what, Targets)], queued := c.queued + [what]))
  }

  /** Refused without a display, answered at once from the agent's own content, or queued. */
  function DidRead(c: Clip, r: Read): Clip
    decreases r, |r.onDone| + 1
  {
    if !c.attached || c.owning then CalledBack(c.(direct := c.direct + [r], calls := c.calls + [r]), r, |r.onDone|)
    else Pushed(c, Some(r))
  }

  /** The callback of `r` has made its first `n` reads. */
  function CalledBack(c: Clip, r: Read, n: nat): Clip
    requires n <= |r.onDone|
    decreases r, n
  {
    if n == 0 then c else DidRead(CalledBack(c, r, n - 1), r.onDone[n - 1])
  }

  function Told(c: Clip, what: Option<Read>): Clip {
    if what.Some? then CalledBack(c.(calls := c.calls + [what.value]), what.value, |what.value.onDone|) else c
  }

  /** The front fetch ends: timer off, out of the queue, callback, next one. */
  function Finished(c: Clip): Clip {
    if c.queue == [] then c.(timer := false)
    else
      var f := c.queue[0];
      StartedNext(Told(c.(timer := false, queue := c.queue[1..], settled := c.settled + [Settled(f.what, true)]),
                       f.what))
  }

  /** One fetch settled at a detach. */
  function EndedOne(c: Clip, what: Option<Read>, notify: bool): Clip {
    var s := c.(settled := c.settled + [Settled(what, notify)]);
    if notify then Told(s, what) else s
  }

  /** The display went away: everything queued is settled, in order, told or not. */
  function Ended(c: Clip, pending: seq<Fetch>, notify: bool): Clip
    decreases |pending|
  {
    if pending == [] then c
    else
      var before := Ended(c, pending[..|pending| - 1], notify);
      EndedOne(before, pending[|pending| - 1].what, notify)
  }

  function Detached(c: Clip, notify: bool): Clip {
    Ended(c.(attached := false, timer := false, owning := false, queue := []), c.queue, notify)
  }

  // ------------------------------------------------------------------ runs

  datatype Label =
    | Attach
    | Detach(notify: bool)
    | Own(owning: bool)
    | DoRead(r: Read)
    | OwnerChanged
    | Progress(stage: Stage)
    | Answer
    | TimeOut

  /** The display's events come only while it is attached. */
  predicate Enabled(c: Clip, l: Label) {
    match l
    case Own(_) => c.attached
    case OwnerChanged => c.attached
    case Progress(_) => c.attached && c.queue != []
    case Answer => c.attached && c.queue != []
    case TimeOut => c.timer
    case _ => true
  }

  function Apply(c: Clip, l: Label): Clip
    requires Enabled(c, l)
  {
    match l
    case Attach => c.(attached := true)
    case Detach(notify) => Detached(c, notify)
    case Own(owning) => c.(owning := owning)
    case DoRead(r) => DidRead(c, r)
    case OwnerChanged => Pushed(c, None)
    case Progress(stage) => c.(timer := true, queue := c.queue[0 := c.queue[0].(stage := stage)])
    case Answer => Finished(c)
    case TimeOut => Finished(c)
  }

  const START := Clip(false, false, [], false, [], [], [], [])

  function After(ls: seq<Label>): Option<Clip> {
    if ls == [] then Some(START)
    else
      var before := After(ls[..|ls| - 1]);
      if before.None? || !Enabled(before.value, ls[|ls| - 1]) then None else Some(Apply(before.value, ls[|ls| - 1]))
  }

  // ------------------------------------------------------------------ what every step keeps

  function Whats(q: seq<Fetch>): seq<Option<Read>> { seq(|q|, i requires 0 <= i < |q| => q[i].what) }

  function Ends(s: seq<Settled>): seq<Option<Read>> { seq(|s|, i requires 0 <= i < |s| => s[i].what) }

  /** First in, first out, and nothing twice or lost. */
  ghost predicate InOrder(c: Clip) { c.queued == Ends(c.settled) + Whats(c.queue) }

  /** The timer runs exactly while there is something to wait for. */
  ghost predicate Timed(c: Clip) { if c.attached then c.timer <==> c.queue != [] else !c.timer && c.queue == [] }

  /** The reads whose callbacks settling called. */
  function ToldReads(s: seq<Settled>): seq<Read> {
    if s == [] then []
    else
      var last := s[|s| - 1];
      ToldReads(s[..|s| - 1]) + if last.told && last.what.Some? then [last.what.value] else []
  }

  /** Every callback is called once: on the spot, or when its read is settled and told. */
  ghost predicate CalledOnce(c: Clip) { multiset(c.calls) == multiset(c.direct) + multiset(ToldReads(c.settled)) }

  ghost predicate Inv(c: Clip) { InOrder(c) && Timed(c) && CalledOnce(c) }

  /** Between taking a fetch out and starting the next one the timer may be off. */
  ghost predicate Slack(c: Clip) {
    InOrder(c) && (!c.attached ==> c.queue == []) && (c.timer ==> c.attached && c.queue != [])
  }

  lemma PushKeepsOrder(c: Clip, what: Option<Read>)
    requires InOrder(c)
    ensures InOrder(Pushed(c, what))
  {
    assert Whats(c.queue + [Fetch(what, Targets)]) == Whats(c.queue) + [what];
  }

  /** What a read does, whatever its callbacks read in turn: it never settles anything. */
  lemma {:induction false} ReadKeeps(c: Clip, r: Read)
    requires Slack(c)
    ensures var d := DidRead(c, r);
            && Slack(d) && d.settled == c.settled && d.attached == c.attached && d.owning == c.owning
            && c.queued <= d.queued && c.direct <= d.direct && d.calls == c.calls + d.direct[|c.direct|..]
            && (Timed(c) ==> Timed(d))
            && (!c.attached ==> d.queued == c.queued)
    decreases r, |r.onDone| + 1
  {
    if !c.attached || c.owning {
      var e := c.(direct := c.direct + [r], calls := c.calls + [r]);
      CallbackKeeps(e, r, |r.onDone|);
      var d := DidRead(c, r);
      assert d.direct[|c.direct|..] == [r] + d.direct[|e.direct|..];
    } else {
      PushKeepsOrder(c, Some(r));
    }
  }

  lemma {:induction false} CallbackKeeps(c: Clip, r: Read, n: nat)
    requires Slack(c) && n <= |r.onDone|
    ensures var d := CalledBack(c, r, n);
            && Slack(d) && d.settled == c.settled && d.attached == c.attached && d.owning == c.owning
            && c.queued <= d.queued && c.direct <= d.direct && d.calls == c.calls + d.direct[|c.direct|..]
            && (Timed(c) ==> Timed(d))
            && (!c.attached ==> d.queued == c.queued)
    decreases r, n
  {
    if n > 0 {
      CallbackKeeps(c, r, n - 1);
      var e, d := CalledBack(c, r, n - 1), CalledBack(c, r, n);
      ReadKeeps(e, r.onDone[n - 1]);
      assert d.direct[|c.direct|..] == e.direct[|c.direct|..] + d.direct[|e.direct|..];
    }
  }

  lemma ToldAppend(s: seq<Settled>, x: Settled)
    ensures ToldReads(s + [x]) == ToldReads(s) + CallOf(x)
  {
    assert (s + [x])[..|s|] == s;
  }

  /** As many more callbacks as reads answered on the spot, and one for the fetch itself. */
  lemma CalledMore(c: Clip, d: Clip, x: Settled)
    requires CalledOnce(c) && d.settled == c.settled + [x] && c.direct <= d.direct
    requires d.calls == c.calls + CallOf(x) + d.direct[|c.direct|..]
    ensures CalledOnce(d)
  {
    ToldAppend(c.settled, x);
    assert d.direct == c.direct + d.direct[|c.direct|..];
  }

  function CallOf(x: Settled): seq<Read> { if x.told && x.what.Some? then [x.what.value] else [] }

  lemma TakenOut(c: Clip)
    requires InOrder(c) && c.queue != []
    ensures InOrder(c.(timer := false, queue := c.queue[1..], settled := c.settled + [Settled(c.queue[0].what, true)]))
  {
    var what := c.queue[0].what;
    assert Ends(c.settled + [Settled(what, true)]) == Ends(c.settled) + [what];
    assert Whats(c.queue) == [what] + Whats(c.queue[1..]);
  }

  lemma FinishSettles(c: Clip)
    requires InOrder(c) && Timed(c) && c.queue != []
    ensures var d, x := Finished(c), Settled(c.queue[0].what, true);
            && InOrder(d) && Timed(d) && d.settled == c.settled + [x]
            && c.direct <= d.direct && d.calls == c.calls + CallOf(x) + d.direct[|c.direct|..]
  {
    var f := c.queue[0];
    var d := c.(timer := false, queue := c.queue[1..], settled := c.settled + [Settled(f.what, true)]);
    TakenOut(c);
    if f.what.Some? { CallbackKeeps(d.(calls := d.calls + [f.what.value]), f.what.value, |f.what.value.onDone|); }
  }

  lemma FinishKeepsInv(c: Clip)
    requires Inv(c)
    ensures Inv(Finished(c))
    ensures c.queue != [] ==> Finished(c).settled == c.settled + [Settled(c.queue[0].what, true)]
  {
    if c.queue != [] {
      FinishSettles(c);
      CalledMore(c, Finished(c), Settled(c.queue[0].what, true));
    }
  }

  function Silenced(q: seq<Fetch>, notify: bool): seq<Settled> {
    seq(|q|, i requires 0 <= i < |q| => Settled(q[i].what, notify))
  }

  lemma LastSilenced(pending: seq<Fetch>, notify: bool)
    requires pending != []
    ensures Silenced(pending, notify)
         == Silenced(pending[..|pending| - 1], notify) + [Settled(pending[|pending| - 1].what, notify)]
  {
  }

  lemma EndsSilenced(s: seq<Settled>, q: seq<Fetch>, notify: bool)
    ensures Ends(s + Silenced(q, notify)) == Ends(s) + Whats(q)
  {
  }

  lemma EndOne(c: Clip, what: Option<Read>, notify: bool)
    requires !c.attached
    ensures var d, x := EndedOne(c, what, notify), Settled(what, notify);
            && d == c.(settled := c.settled + [x], direct := d.direct, calls := d.calls)
            && c.direct <= d.direct && d.calls == c.calls + CallOf(x) + d.direct[|c.direct|..]
  {
    var s := c.(settled := c.settled + [Settled(what, notify)]);
    if notify && what.Some? { RefusedOnly(s.(calls := s.calls + [what.value]), what.value, |what.value.onDone|); }
  }

  lemma EndOneCalls(c: Clip, what: Option<Read>, notify: bool)
    requires !c.attached && CalledOnce(c)
    ensures CalledOnce(EndedOne(c, what, notify))
  {
    EndOne(c, what, notify);
    CalledMore(c, EndedOne(c, what, notify), Settled(what, notify));
  }

  /** Settling what was pending at a detach: all of it, in order, and nothing is queued meanwhile. */
  lemma {:induction false} EndedSettles(c: Clip, pending: seq<Fetch>, notify: bool)
    requires !c.attached
    ensures var d := Ended(c, pending, notify);
            d == c.(settled := c.settled + Silenced(pending, notify), direct := d.direct, calls := d.calls)
    decreases |pending|
  {
    if pending == [] {
      assert c.settled + [] == c.settled;
    } else {
      EndedSettles(c, pending[..|pending| - 1], notify);
      EndOne(Ended(c, pending[..|pending| - 1], notify), pending[|pending| - 1].what, notify);
      LastSilenced(pending, notify);
    }
  }

  lemma {:induction false} EndedCalls(c: Clip, pending: seq<Fetch>, notify: bool)
    requires !c.attached && CalledOnce(c)
    ensures CalledOnce(Ended(c, pending, notify))
    decreases |pending|
  {
    if pending != [] {
      EndedCalls(c, pending[..|pending| - 1], notify);
      EndedSettles(c, pending[..|pending| - 1], notify);
      EndOneCalls(Ended(c, pending[..|pending| - 1], notify), pending[|pending| - 1].what, notify);
    }
  }

  /** Without a display the reads of a callback are answered on the spot. */
  lemma {:induction false} RefusedOnly(c: Clip, r: Read, n: nat)
    requires !c.attached && n <= |r.onDone|
    ensures var d := CalledBack(c, r, n);
            && d == c.(direct := d.direct, calls := d.calls)
            && c.direct <= d.direct && d.calls == c.calls + d.direct[|c.direct|..]
    decreases r, n
  {
    if n > 0 {
      RefusedOnly(c, r, n - 1);
      var next := r.onDone[n - 1];
      var b := CalledBack(c, r, n - 1);
      var e := b.(direct := b.direct + [next], calls := b.calls + [next]);
      RefusedOnly(e, next, |next.onDone|);
      var d := CalledBack(c, r, n);
      assert d.direct[|c.direct|..] == b.direct[|c.direct|..] + [next] + d.direct[|e.direct|..];
    }
  }

  lemma DetachKeepsInv(c: Clip, notify: bool)
    requires Inv(c)
    ensures Inv(Detached(c, notify))
  {
    var d := c.(attached := false, timer := false, owning := false, queue := []);
    EndedSettles(d, c.queue, notify);
    EndedCalls(d, c.queue, notify);
    EndsSilenced(c.settled, c.queue, notify);
    assert Whats([]) == [] && Ends(c.settled) + Whats(c.queue) + [] == Ends(c.settled) + Whats(c.queue);
  }

  lemma ReadKeepsInv(c: Clip, r: Read)
    requires Inv(c)
    ensures Inv(DidRead(c, r))
  {
    ReadKeeps(c, r);
    var d := DidRead(c, r);
    assert d.direct == c.direct + d.direct[|c.direct|..];
    assert multiset(d.direct) == multiset(c.direct) + multiset(d.direct[|c.direct|..]);
  }

  lemma ProgressKeepsInv(c: Clip, stage: Stage)
    requires Inv(c) && Enabled(c, Progress(stage))
    ensures Inv(Apply(c, Progress(stage)))
  {
    assert Whats(Apply(c, Progress(stage)).queue) == Whats(c.queue);
  }

  lemma StepKeepsInv(c: Clip, l: Label)
    requires Inv(c) && Enabled(c, l)
    ensures Inv(Apply(c, l))
  {
    match l
    case Attach =>
    case Detach(notify) => DetachKeepsInv(c, notify);
    case Own(_) =>
    case DoRead(r) => ReadKeepsInv(c, r);
    case OwnerChanged => PushKeepsOrder(c, None);
    case Progress(stage) => ProgressKeepsInv(c, stage);
    case Answer => FinishKeepsInv(c);
    case TimeOut => FinishKeepsInv(c);
  }

  lemma {:induction false} RunsKeepInv(ls: seq<Label>)
    requires After(ls).Some?
    ensures Inv(After(ls).value)
  {
    if ls != [] {
      RunsKeepInv(ls[..|ls| - 1]);
      StepKeepsInv(After(ls[..|ls| - 1]).value, ls[|ls| - 1]);
    }
  }

  // ------------------------------------------------------------------ over every run

  lemma TimerRunsWhileWaiting(ls: seq<Label>)
    requires After(ls).Some?
    ensures var c := After(ls).value;
            && (c.attached ==> (c.timer <==> c.queue != []))
            && (!c.attached ==> !c.timer && c.queue == [])
  {
    RunsKeepInv(ls);
  }

  /** The `i`th fetch ever queued is the `i`th settled, or still waits at its place in the queue. */
  lemma AnsweredInOrder(ls: seq<Label>, i: nat)
    requires After(ls).Some? && i < |After(ls).value.queued|
    ensures var c := After(ls).value;
            && |c.queued| == |c.settled| + |c.queue|
            && (i < |c.settled| ==> c.settled[i].what == c.queued[i])
            && (i >= |c.settled| ==> c.queue[i - |c.settled|].what == c.queued[i])
  {
    RunsKeepInv(ls);
    var c := After(ls).value;
    if i < |c.settled| {
      assert Ends(c.settled)[i] == c.settled[i].what;
    } else {
      assert Whats(c.queue)[i - |c.settled|] == c.queue[i - |c.settled|].what;
    }
  }

  /** Every step settles fetches for good: what was settled stays, with whether it was told. */
  lemma SettledStays(c: Clip, l: Label)
    requires Inv(c) && Enabled(c, l)
    ensures c.settled <= Apply(c, l).settled
    ensures |c.settled| < |Apply(c, l).settled| ==>
              if l.Detach? then Apply(c, l).settled == c.settled + Silenced(c.queue, l.notify)
              else c.queue != [] && Apply(c, l).settled == c.settled + [Settled(c.queue[0].what, true)]
  {
    match l
    case Detach(notify) =>
      var d := c.(attached := false, timer := false, owning := false, queue := []);
      EndedSettles(d, c.queue, notify);
    case DoRead(r) => ReadKeeps(c, r);
    case Answer => FinishKeepsInv(c);
    case TimeOut => FinishKeepsInv(c);
    case _ =>
  }

  /** Unless a display goes silently, every settled read was told, exactly once. */
  lemma {:induction false} ToldUnlessSilent(ls: seq<Label>)
    requires After(ls).Some? && forall i :: 0 <= i < |ls| ==> ls[i] != Detach(false)
    ensures forall i :: 0 <= i < |After(ls).value.settled| ==> After(ls).value.settled[i].told
  {
    if ls != [] {
      var init := ls[..|ls| - 1];
      ToldUnlessSilent(init);
      RunsKeepInv(init);
      SettledStays(After(init).value, ls[|ls| - 1]);
    }
  }

  /** The callbacks called are those of the reads answered on the spot and of those settled and told, each once. */
  lemma EveryCallbackOnce(ls: seq<Label>)
    requires After(ls).Some?
    ensures var c := After(ls).value; multiset(c.calls) == multiset(c.direct) + multiset(ToldReads(c.settled))
  {
    RunsKeepInv(ls);
  }

  // ------------------------------------------------------------------ no read is lost

  // How often something occurs among what was queued, a read among those answered on the spot, and a
  // read among those the callbacks called have made.

  function Queuings(q: seq<Option<Read>>, x: Option<Read>): nat {
    if q == [] then 0 else Queuings(q[..|q| - 1], x) + if q[|q| - 1] == x then 1 else 0
  }

  function Occurs(rs: seq<Read>, x: Option<Read>): nat {
    if rs == [] then 0 else Occurs(rs[..|rs| - 1], x) + if Some(rs[|rs| - 1]) == x then 1 else 0
  }

  function Nested(calls: seq<Read>, x: Option<Read>): nat {
    if calls == [] then 0 else Nested(calls[..|calls| - 1], x) + Occurs(calls[|calls| - 1].onDone, x)
  }

  /** What a step asks for from outside: a read, or the offer of a new owner. */
  predicate Asks(l: Label, x: Option<Read>) { (l.DoRead? && x == Some(l.r)) || (l.OwnerChanged? && x.None?) }

  function Asked(ls: seq<Label>, x: Option<Read>): nat {
    if ls == [] then 0 else Asked(ls[..|ls| - 1], x) + if Asks(ls[|ls| - 1], x) then 1 else 0
  }

  /** A read while attached, with another owner, is queued last; any other is answered and its callback called. */
  lemma ReadIsQueuedOrAnswered(c: Clip, r: Read)
    requires Slack(c)
    ensures var d := DidRead(c, r);
            if c.attached && !c.owning then
              && d.queued == c.queued + [Some(r)] && d.queue == c.queue + [Fetch(Some(r), Targets)] && d.timer
              && d.direct == c.direct && d.calls == c.calls
            else c.direct + [r] <= d.direct && c.calls + [r] <= d.calls
  {
    if !c.attached || c.owning {
      CallbackKeeps(c.(direct := c.direct + [r], calls := c.calls + [r]), r, |r.onDone|);
    }
  }

  /** What became of reads, beyond what the callbacks called account for. */
  function Balance(c: Clip, x: Option<Read>): int {
    Queuings(c.queued, x) + Occurs(c.direct, x) - Nested(c.calls, x)
  }

  lemma {:induction false} ReadIsBalanced(c: Clip, r: Read, x: Option<Read>)
    ensures Balance(DidRead(c, r), x) == Balance(c, x) + if Some(r) == x then 1 else 0
    decreases r, |r.onDone| + 1
  {
    if !c.attached || c.owning {
      var e := c.(direct := c.direct + [r], calls := c.calls + [r]);
      assert e.direct[..|c.direct|] == c.direct && e.calls[..|c.calls|] == c.calls;
      CallbackIsBalanced(e, r, |r.onDone|, x);
      assert r.onDone[..|r.onDone|] == r.onDone;
    } else {
      assert (c.queued + [Some(r)])[..|c.queued|] == c.queued;
    }
  }

  lemma {:induction false} CallbackIsBalanced(c: Clip, r: Read, n: nat, x: Option<Read>)
    requires n <= |r.onDone|
    ensures Balance(CalledBack(c, r, n), x) == Balance(c, x) + Occurs(r.onDone[..n], x)
    decreases r, n
  {
    if n > 0 {
      CallbackIsBalanced(c, r, n - 1, x);
      ReadIsBalanced(CalledBack(c, r, n - 1), r.onDone[n - 1], x);
      assert r.onDone[..n][..n - 1] == r.onDone[..n - 1];
    }
  }

  lemma ToldIsBalanced(c: Clip, what: Option<Read>, x: Option<Read>)
    ensures Balance(Told(c, what), x) == Balance(c, x)
  {
    if what.Some? {
      var r := what.value;
      assert (c.calls + [r])[..|c.calls|] == c.calls && r.onDone[..|r.onDone|] == r.onDone;
      CallbackIsBalanced(c.(calls := c.calls + [r]), r, |r.onDone|, x);
    }
  }

  lemma {:induction false} EndedIsBalanced(c: Clip, pending: seq<Fetch>, notify: bool, x: Option<Read>)
    ensures Balance(Ended(c, pending, notify), x) == Balance(c, x)
    decreases |pending|
  {
    if pending != [] {
      var before := Ended(c, pending[..|pending| - 1], notify);
      var what := pending[|pending| - 1].what;
      EndedIsBalanced(c, pending[..|pending| - 1], notify, x);
      ToldIsBalanced(before.(settled := before.settled + [Settled(what, notify)]), what, x);
    }
  }

  lemma FinishIsBalanced(c: Clip, x: Option<Read>)
    ensures Balance(Finished(c), x) == Balance(c, x)
  {
    if c.queue != [] {
      var f := c.queue[0];
      var d := c.(timer := false, queue := c.queue[1..], settled := c.settled + [Settled(f.what, true)]);
      ToldIsBalanced(d, f.what, x);
    }
  }

  lemma StepIsBalanced(c: Clip, l: Label, x: Option<Read>)
    requires Enabled(c, l)
    ensures Balance(Apply(c, l), x) == Balance(c, x) + if Asks(l, x) then 1 else 0
  {
    match l
    case Detach(notify) =>
      EndedIsBalanced(c.(attached := false, timer := false, owning := false, queue := []), c.queue, notify, x);
    case DoRead(r) => ReadIsBalanced(c, r, x);
    case OwnerChanged => assert (c.queued + [None])[..|c.queued|] == c.queued;
    case Answer => FinishIsBalanced(c, x);
    case TimeOut => FinishIsBalanced(c, x);
    case _ =>
  }

  lemma {:induction false} RunsAreBalanced(ls: seq<Label>, x: Option<Read>)
    requires After(ls).Some?
    ensures Balance(After(ls).value, x) == Asked(ls, x)
  {
    if ls != [] {
      RunsAreBalanced(ls[..|ls| - 1], x);
      StepIsBalanced(After(ls[..|ls| - 1]).value, ls[|ls| - 1], x);
    }
  }

  lemma {:induction false} QueuingsAppend(p: seq<Option<Read>>, q: seq<Option<Read>>, x: Option<Read>)
    ensures Queuings(p + q, x) == Queuings(p, x) + Queuings(q, x)
  {
    if q == [] {
      assert p + q == p;
    } else {
      assert (p + q)[..|p + q| - 1] == p + q[..|q| - 1];
      QueuingsAppend(p, q[..|q| - 1], x);
    }
  }

  /**
   After any run every read, as often as it was made from outside or by a callback that was called, was
   answered on the spot, was settled, or waits in the queue; and so was every new owner's offer.
   */
  lemma NoReadIsLost(ls: seq<Label>, x: Option<Read>)
    requires After(ls).Some?
    ensures var c := After(ls).value;
            Asked(ls, x) + Nested(c.calls, x)
            == Occurs(c.direct, x) + Queuings(Ends(c.settled), x) + Queuings(Whats(c.queue), x)
  {
    RunsKeepInv(ls);
    RunsAreBalanced(ls, x);
    QueuingsAppend(Ends(After(ls).value.settled), Whats(After(ls).value.queue), x);
  }

  // ------------------------------------------------------------------ the object

  class Clipboard {
    var attached: bool
    var owning: bool
    var fetches: seq<Fetch>
    var timer: bool
    ghost var queued: seq<Option<Read>>
    ghost var settled: seq<Settled>
    ghost var direct: seq<Read>
    ghost var calls: seq<Read>

    ghost function View(): Clip
      reads this
    {
      Clip(attached, owning, fetches, timer, queued, settled, direct, calls)
    }

    constructor ()
      ensures View() == START
    {
      attached, owning, fetches, timer := false, false, [], false;
      queued, settled, direct, calls := [], [], [], [];
    }

    method StartNext()
      modifies this
      ensures View() == StartedNext(old(View()))
    {
      if !attached || timer || fetches == [] { return; }
      timer := true;
    }

    method Push(what: Option<Read>)
      modifies this
      ensures View() == Pushed(old(View()), what)
    {
      fetches := fetches + [Fetch(what, Targets)];
      queued := queued + [what];
      StartNext();
    }

    method ReadClipboard(r: Read)
      modifies this
      ensures View() == DidRead(old(View()), r)
      decreases r, |r.onDone| + 1
    {
      if !attached || owning {
        direct := direct + [r];
        calls := calls + [r];
        RunCallback(r);
      } else {
        Push(Some(r));
      }
    }

    /** The callback of a read: it may read again. */
    method RunCallback(r: Read)
      modifies this
      ensures View() == CalledBack(old(View()), r, |r.onDone|)
      decreases r, |r.onDone|
    {
      for i := 0 to |r.onDone|
        invariant View() == CalledBack(old(View()), r, i)
      {
        ReadClipboard(r.onDone[i]);
      }
    }

    method Call(what: Option<Read>)
      modifies this
      ensures View() == Told(old(View()), what)
    {
      if what.Some? {
        calls := calls + [what.value];
        RunCallback(what.value);
      }
    }

    method Finish()
      modifies this
      ensures View() == Finished(old(View()))
    {
      timer := false;
      if fetches == [] { return; }
      var f := fetches[0];
      fetches := fetches[1..];
      settled := settled + [Settled(f.what, true)];
      Call(f.what);
      StartNext();
    }

    method DetachDisplay(notify: bool)
      modifies this
      ensures View() == Detached(old(View()), notify)
    {
      attached, timer, owning := false, false, false;
      var pending := fetches;
      fetches := [];
      ghost var start := View();
      for i := 0 to |pending|
        invariant View() == Ended(start, pending[..i], notify)
      {
        assert pending[..i + 1][..i] == pending[..i];
        settled := settled + [Settled(pending[i].what, notify)];
        if notify { Call(pending[i].what); }
      }
      assert pending[..|pending|] == pending;
    }
  }
}
