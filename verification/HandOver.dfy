/**
 Input on the desktop from many sessions of many operators: the core's gate and its changes of holder
 (agent/src/core/session_manager.cpp:92-179, agent/src/core/session.cpp:780-826, 1200-1235), the
 desktop's record of whose input is down (agent/src/capabilities/desktop_capability.cpp:527-593) and
 the input device.  Every session here was granted the desktop capability, and the device is usable.
 */
module HandOver {
  import opened Common
  import opened EisInput
  import CD = ControlDomains

  const DESKTOP := "desktop"

  datatype Phase = Open | Closing | Closed

  datatype Peer = Peer(op: string, viewOnly: bool, phase: Phase)

  /** `Other`: pointer motion, wheel, clipboard, monitors and refused payloads: no key and no button. */
  datatype Message =
    | Other
    | SendButton(code: nat, down: bool)
    | SendKey(code: nat, down: bool)
    | Combo(codes: seq<nat>)
    | Text(text: seq<nat>, keymap: Option<Keymap>)

  /** `credits[i]`: the session whose message made event `i`; "" for releases the agent makes. */
  datatype Desk = Desk(sessions: map<string, Peer>, input: Option<string>, eis: Eis, credits: seq<string>,
                       domains: CD.Domains)

  // ------------------------------------------------------------------ who pressed what

  datatype Control = KeyAt(code: nat) | ButtonAt(code: nat)

  function ControlOf(ev: Event): Control { if ev.Key? then KeyAt(ev.code) else ButtonAt(ev.code) }

  /** Each control that is down, with the session credited with its last press. */
  function Owners(trace: seq<Event>, credits: seq<string>): map<Control, string>
    requires |credits| == |trace|
  {
    if trace == [] then map[]
    else
      var last := trace[|trace| - 1];
      var before := Owners(trace[..|trace| - 1], credits[..|trace| - 1]);
      if last.down then before[ControlOf(last) := credits[|trace| - 1]] else before - {ControlOf(last)}
  }

  predicate IsDown(trace: seq<Event>, c: Control) {
    if c.KeyAt? then c.code in KeysDown(trace) else c.code in ButtonsDown(trace)
  }

  lemma {:induction false} OwnersAreDown(trace: seq<Event>, credits: seq<string>)
    requires |credits| == |trace|
    ensures forall c :: c in Owners(trace, credits) <==> IsDown(trace, c)
  {
    if trace != [] { OwnersAreDown(trace[..|trace| - 1], credits[..|trace| - 1]); }
  }

  ghost predicate AllBy(trace: seq<Event>, credits: seq<string>, who: Option<string>)
    requires |credits| == |trace|
  {
    forall c :: c in Owners(trace, credits) ==> who == Some(Owners(trace, credits)[c])
  }

  function Times(who: string, n: int): seq<string> { if n <= 0 then [] else seq(n, _ => who) }

  lemma {:induction false} StillAllBy(trace: seq<Event>, credits: seq<string>, more: seq<Event>, who: string)
    requires |credits| == |trace| && AllBy(trace, credits, Some(who))
    ensures AllBy(trace + more, credits + Times(who, |more|), Some(who))
  {
    if more == [] {
      assert trace + more == trace && credits + [] == credits;
    } else {
      var init := more[..|more| - 1];
      StillAllBy(trace, credits, init, who);
      assert (trace + more)[..|trace + more| - 1] == trace + init;
      assert (credits + Times(who, |more|))[..|trace + more| - 1] == credits + Times(who, |init|);
    }
  }

  // ------------------------------------------------------------------ the operations

  ghost function Credit(d: Desk, e: Eis, who: string): Desk {
    d.(eis := e, credits := d.credits + Times(who, |e.trace| - |d.eis.trace|))
  }

  ghost function LetGo(d: Desk): Desk { Credit(d, ReleasedAll(d.eis), "").(input := None) }

  /** release_all_input: another session's input is not this session's to release. */
  predicate MayRelease(d: Desk, id: string) { d.input.None? || d.input == Some(id) }

  ghost function ReleasedBy(d: Desk, id: string): Desk { if MayRelease(d, id) then LetGo(d) else d }

  /** Every session of the named operator releases the desktop's input. */
  predicate Concerns(d: Desk, op: string) { exists s :: s in d.sessions && d.sessions[s].op == op && MayRelease(d, s) }

  ghost function Heeded(d: Desk, release: Option<string>): Desk {
    if release.Some? && Concerns(d, release.value) then LetGo(d) else d
  }

  ghost function Acted(e: Eis, m: Message): Eis {
    match m
    case Other => e
    case SendButton(code, down) => ButtonOn(e, code, down)
    case SendKey(code, down) => KeyOn(e, code, down)
    case Combo(codes) => KeysOn(KeysOn(e, codes, true), Reversed(codes), false)
    case Text(text, keymap) => TypedText(e, keymap, text)
  }

  ghost function Claimed(d: Desk, id: string): Desk {
    (if d.input.Some? && d.input != Some(id) then LetGo(d) else d).(input := Some(id))
  }

  ghost function Delivered(d: Desk, id: string, m: Message): Desk {
    var c := Claimed(d, id);
    Credit(c, Acted(c.eis, m), id)
  }

  function StaleHolder(d: CD.Domains, now: int): Option<string> {
    if DESKTOP in d.held && CD.IsStale(d.held[DESKTOP], now) then Some(d.held[DESKTOP].op) else None
  }

  ghost function Ticked(d: Desk, now: int): Desk {
    Heeded(d.(domains := CD.Expired(d.domains, now)), StaleHolder(d.domains, now))
  }

  ghost function Changed(d: Desk, domains: CD.Domains, c: Option<CD.Change>): Desk {
    Heeded(d.(domains := domains), if c.Some? then c.value.release else None)
  }

  /** The gate: expiry first, then the claim, then the release it asks for. */
  ghost function Gated(d: Desk, id: string, now: int, ms: int): (Desk, bool)
    requires id in d.sessions
  {
    if d.sessions[id].viewOnly then (d, false)
    else
      var t := Ticked(d, now);
      var r := CD.Inputted(t.domains, DESKTOP, d.sessions[id].op, now, ms);
      (Changed(t, r.0, r.2), r.1)
  }

  ghost function TakenBy(d: Desk, id: string, now: int, ms: int): Desk
    requires id in d.sessions
  {
    if d.sessions[id].viewOnly then d
    else
      var t := Ticked(d, now);
      var r := CD.Taken(t.domains, DESKTOP, d.sessions[id].op, now, ms);
      Changed(t, r.0, r.1)
  }

  function Phased(d: Desk, id: string, phase: Phase): Desk
    requires id in d.sessions
  {
    d.(sessions := d.sessions[id := d.sessions[id].(phase := phase)])
  }

  /** Someone of the operator is still there, or is expected back. */
  predicate Live(d: Desk, op: string, keep: Option<string>) {
    keep == Some(op) || exists s :: s in d.sessions && d.sessions[s].op == op && d.sessions[s].phase != Closed
  }

  function Erased(d: Desk, id: string, retry: bool): Desk
    requires id in d.sessions
  {
    var e := d.(sessions := d.sessions - {id});
    if DESKTOP !in e.domains.held then e
    else
      var holder := e.domains.held[DESKTOP].op;
      if Live(e, holder, if retry then Some(d.sessions[id].op) else None) then e
      else e.(domains := CD.Left(e.domains, DESKTOP, holder).0)
  }

  // ------------------------------------------------------------------ runs

  datatype Label =
    | Attach(id: string, op: string, viewOnly: bool)
    | Input(id: string, m: Message, now: int, ms: int)
    | Unknown(id: string)
    | ReleaseAll(id: string)
    | TakeControl(id: string, now: int, ms: int)
    | ReleaseControl(id: string)
    | Ping(id: string, now: int)
    | Tick(now: int)
    | Close(id: string)
    | Finish(id: string)
    | Erase(id: string, retry: bool)

  /** A closing session's messages are dropped. */
  predicate Enabled(d: Desk, l: Label) {
    match l
    case Attach(id, _, _) => id !in d.sessions
    case Tick(_) => true
    case Finish(id) => id in d.sessions && d.sessions[id].phase == Closing
    case Erase(id, _) => id in d.sessions && d.sessions[id].phase == Closed
    case _ => l.id in d.sessions && d.sessions[l.id].phase == Open
  }

  ghost function Apply(d: Desk, l: Label): Desk
    requires Enabled(d, l)
  {
    match l
    case Attach(id, op, viewOnly) => d.(sessions := d.sessions[id := Peer(op, viewOnly, Open)])
    case Input(id, m, now, ms) => var g := Gated(d, id, now, ms); if g.1 then Delivered(g.0, id, m) else g.0
    case Unknown(id) => Delivered(d, id, Other)
    case ReleaseAll(id) => ReleasedBy(d, id)
    case TakeControl(id, now, ms) => TakenBy(d, id, now, ms)
    case ReleaseControl(id) => var r := CD.Freed(d.domains, DESKTOP, d.sessions[id].op); Changed(d, r.0, r.1)
    case Ping(id, now) => d.(domains := CD.Beat(d.domains, d.sessions[id].op, now))
    case Tick(now) => Ticked(d, now)
    case Close(id) =>
      var r := ReleasedBy(d, id);
      Phased(if r.input == Some(id) then r.(input := None) else r, id, Closing)
    case Finish(id) => Phased(d, id, Closed)
    case Erase(id, retry) => Erased(d, id, retry)
  }

  const START := Desk(map[], None, Eis({}, {}, true, true, []), [], CD.NOBODY)

  ghost function After(ls: seq<Label>): Option<Desk> {
    if ls == [] then Some(START)
    else
      var before := After(ls[..|ls| - 1]);
      if before.None? || !Enabled(before.value, ls[|ls| - 1]) then None else Some(Apply(before.value, ls[|ls| - 1]))
  }

  // ------------------------------------------------------------------ what every step keeps

  predicate Quiet(e: Eis) { e.keys == {} && e.buttons == {} }

  /** The device is in step, and everything down was pressed by the session recorded. */
  ghost predicate Sound(d: Desk) {
    && InStep(d.eis) && d.eis.keyboard && d.eis.pointer && |d.credits| == |d.eis.trace|
    && AllBy(d.eis.trace, d.credits, d.input)
  }

  /** With something down, the session recorded is there and open, and its operator is the one to blame. */
  ghost predicate Blamed(d: Desk, suspect: Option<string>) {
    Quiet(d.eis) ||
    (d.input.Some? && d.input.value in d.sessions && d.sessions[d.input.value].phase == Open
     && suspect == Some(d.sessions[d.input.value].op))
  }

  ghost predicate Inv(d: Desk) {
    Sound(d) && CD.Disjoint(d.domains) && Blamed(d, CD.Suspect(d.domains, DESKTOP))
  }

  lemma QuietOwners(trace: seq<Event>, credits: seq<string>, who: Option<string>)
    requires |credits| == |trace| && KeysDown(trace) == {} && ButtonsDown(trace) == {}
    ensures AllBy(trace, credits, who)
  {
    OwnersAreDown(trace, credits);
  }

  lemma LetGoIsSound(d: Desk, input: Option<string>)
    requires Sound(d)
    ensures Sound(LetGo(d).(input := input)) && Quiet(LetGo(d).eis)
  {
    ReleaseAllReleases(d.eis);
    ReleasedDevices(d.eis);
    ReleasedExtends(d.eis);
    var r := LetGo(d);
    QuietOwners(r.eis.trace, r.credits, input);
  }

  lemma ReleasedExtends(e: Eis)
    ensures e.trace <= ReleasedAll(e).trace
  {
    var k := KeysOn(e, Order(e.keys), false);
    KeysOnExtends(e, Order(e.keys), false);
    ButtonsOffExtends(k, Order(e.buttons));
  }

  lemma {:induction false} ButtonsOffExtends(e: Eis, codes: seq<nat>)
    ensures e.trace <= ButtonsOff(e, codes).trace
  {
    if codes != [] { ButtonsOffExtends(e, codes[..|codes| - 1]); }
  }

  lemma TextStaysInStep(e: Eis, keymap: Option<Keymap>, text: seq<nat>)
    requires InStep(e) && e.keyboard && e.pointer
    ensures var r := TypedText(e, keymap, text); InStep(r) && r.keyboard && r.pointer && e.trace <= r.trace
  {
    if keymap.Some? && Untypable(keymap.value, text) == [] {
      var start, strokes := ReleasedAll(e), Strokes(keymap.value, text);
      ReleaseAllReleases(e);
      ReleasedDevices(e);
      ReleasedExtends(e);
      TypedStaysInStep(start, strokes);
    }
  }

  lemma ComboStaysInStep(e: Eis, codes: seq<nat>)
    requires InStep(e) && e.keyboard && e.pointer
    ensures var r := Acted(e, Combo(codes)); InStep(r) && r.keyboard && r.pointer && e.trace <= r.trace
  {
    var pressed := KeysOn(e, codes, true);
    KeysStayInStep(e, codes, true);
    KeysOnFrame(e, codes, true);
    KeysOnExtends(e, codes, true);
    KeysStayInStep(pressed, Reversed(codes), false);
    KeysOnFrame(pressed, Reversed(codes), false);
    KeysOnExtends(pressed, Reversed(codes), false);
  }

  lemma ActedStaysInStep(e: Eis, m: Message)
    requires InStep(e) && e.keyboard && e.pointer
    ensures var r := Acted(e, m); InStep(r) && r.keyboard && r.pointer && e.trace <= r.trace
  {
    match m
    case Other =>
    case SendButton(code, down) => ButtonStaysInStep(e, code, down);
    case SendKey(code, down) => KeyStaysInStep(e, code, down);
    case Combo(codes) => ComboStaysInStep(e, codes);
    case Text(text, keymap) => TextStaysInStep(e, keymap, text);
  }

  lemma ClaimedIsSound(d: Desk, id: string)
    requires Sound(d)
    ensures Sound(Claimed(d, id))
  {
    if d.input.Some? && d.input != Some(id) {
      LetGoIsSound(d, Some(id));
    } else {
      assert AllBy(d.eis.trace, d.credits, Some(id));
    }
  }

  lemma CreditedIsSound(d: Desk, e: Eis, id: string)
    requires Sound(d) && d.input == Some(id) && InStep(e) && e.keyboard && e.pointer && d.eis.trace <= e.trace
    ensures Sound(Credit(d, e, id))
  {
    var more := e.trace[|d.eis.trace|..];
    assert d.eis.trace + more == e.trace;
    StillAllBy(d.eis.trace, d.credits, more, id);
  }

  lemma DeliveredIsSound(d: Desk, id: string, m: Message)
    requires Sound(d)
    ensures Sound(Delivered(d, id, m)) && Delivered(d, id, m).input == Some(id)
  {
    var c := Claimed(d, id);
    ClaimedIsSound(d, id);
    ActedStaysInStep(c.eis, m);
    CreditedIsSound(c, Acted(c.eis, m), id);
  }

  /** A change of suspect is safe when the change names the old one. */
  lemma HeededIsBlamed(d: Desk, release: Option<string>, was: Option<string>, next: Option<string>)
    requires Sound(d) && Blamed(d, was) && (was == next || was == release || was.None?)
    ensures Sound(Heeded(d, release)) && Blamed(Heeded(d, release), next)
    ensures Heeded(d, release).domains == d.domains && Heeded(d, release).sessions == d.sessions
  {
    LetGoIsSound(d, None);
    if !Quiet(d.eis) && was == release {
      assert MayRelease(d, d.input.value);
      assert Concerns(d, release.value);
    }
  }

  lemma TickedKeepsInv(d: Desk, now: int)
    requires Inv(d)
    ensures Inv(Ticked(d, now)) && Ticked(d, now).sessions == d.sessions
    ensures Ticked(d, now).domains == CD.Expired(d.domains, now)
  {
    CD.ExpiredSuspect(d.domains, now, DESKTOP);
    var suspect := CD.Suspect(d.domains, DESKTOP);
    HeededIsBlamed(d.(domains := CD.Expired(d.domains, now)), StaleHolder(d.domains, now), suspect,
                   CD.Suspect(CD.Expired(d.domains, now), DESKTOP));
  }

  lemma GatedKeepsInv(d: Desk, id: string, now: int, ms: int)
    requires Inv(d) && id in d.sessions
    ensures var g := Gated(d, id, now, ms);
            && Inv(g.0) && g.0.sessions == d.sessions
            && (g.1 ==> CD.Suspect(g.0.domains, DESKTOP) == Some(d.sessions[id].op))
  {
    if !d.sessions[id].viewOnly {
      TickedKeepsInv(d, now);
      var t := Ticked(d, now);
      var r := CD.Inputted(t.domains, DESKTOP, d.sessions[id].op, now, ms);
      HeededIsBlamed(t.(domains := r.0), if r.2.Some? then r.2.value.release else None,
                     CD.Suspect(t.domains, DESKTOP), CD.Suspect(r.0, DESKTOP));
    }
  }

  lemma TakenKeepsInv(d: Desk, id: string, now: int, ms: int)
    requires Inv(d) && id in d.sessions
    ensures Inv(TakenBy(d, id, now, ms))
  {
    if !d.sessions[id].viewOnly {
      TickedKeepsInv(d, now);
      var t := Ticked(d, now);
      var r := CD.Taken(t.domains, DESKTOP, d.sessions[id].op, now, ms);
      HeededIsBlamed(t.(domains := r.0), if r.1.Some? then r.1.value.release else None,
                     CD.Suspect(t.domains, DESKTOP), CD.Suspect(r.0, DESKTOP));
    }
  }

  lemma FreedKeepsInv(d: Desk, op: string)
    requires Inv(d)
    ensures var r := CD.Freed(d.domains, DESKTOP, op); Inv(Changed(d, r.0, r.1))
  {
    var r := CD.Freed(d.domains, DESKTOP, op);
    HeededIsBlamed(d.(domains := r.0), if r.1.Some? then r.1.value.release else None,
                   CD.Suspect(d.domains, DESKTOP), CD.Suspect(r.0, DESKTOP));
  }

  lemma InputKeepsInv(d: Desk, id: string, m: Message, now: int, ms: int)
    requires Inv(d) && Enabled(d, Input(id, m, now, ms))
    ensures Inv(Apply(d, Input(id, m, now, ms)))
  {
    GatedKeepsInv(d, id, now, ms);
    var g := Gated(d, id, now, ms);
    if g.1 { DeliveredIsSound(g.0, id, m); }
  }

  /** A message the core does not count as input moves the record, but presses nothing. */
  lemma UnknownKeepsInv(d: Desk, id: string)
    requires Inv(d) && Enabled(d, Unknown(id))
    ensures Inv(Apply(d, Unknown(id)))
  {
    DeliveredIsSound(d, id, Other);
    LetGoIsSound(d, Some(id));
  }

  lemma CloseKeepsInv(d: Desk, id: string)
    requires Inv(d) && Enabled(d, Close(id))
    ensures Inv(Apply(d, Close(id)))
  {
    LetGoIsSound(d, None);
  }

  lemma ErasedKeepsInv(d: Desk, id: string, retry: bool)
    requires Inv(d) && Enabled(d, Erase(id, retry))
    ensures Inv(Apply(d, Erase(id, retry)))
  {
    var e := d.(sessions := d.sessions - {id});
    assert Inv(e);
    if DESKTOP in e.domains.held { PressedMeansLive(e, if retry then Some(d.sessions[id].op) else None); }
  }

  lemma PressedMeansLive(d: Desk, keep: Option<string>)
    requires DESKTOP in d.domains.held && Blamed(d, CD.Suspect(d.domains, DESKTOP))
    ensures Quiet(d.eis) || Live(d, d.domains.held[DESKTOP].op, keep)
  {
    if !Quiet(d.eis) { assert d.sessions[d.input.value].op == d.domains.held[DESKTOP].op; }
  }

  lemma PingKeepsInv(d: Desk, op: string, now: int)
    requires Inv(d)
    ensures Inv(d.(domains := CD.Beat(d.domains, op, now)))
  {
    assert CD.Suspect(CD.Beat(d.domains, op, now), DESKTOP) == CD.Suspect(d.domains, DESKTOP);
  }

  lemma StepKeepsInv(d: Desk, l: Label)
    requires Inv(d) && Enabled(d, l)
    ensures Inv(Apply(d, l))
  {
    match l
    case Attach(id, op, viewOnly) =>
    case Input(id, m, now, ms) => InputKeepsInv(d, id, m, now, ms);
    case Unknown(id) => UnknownKeepsInv(d, id);
    case ReleaseAll(id) => LetGoIsSound(d, None);
    case TakeControl(id, now, ms) => TakenKeepsInv(d, id, now, ms);
    case ReleaseControl(id) => FreedKeepsInv(d, d.sessions[id].op);
    case Ping(id, now) => PingKeepsInv(d, d.sessions[id].op, now);
    case Tick(now) => TickedKeepsInv(d, now);
    case Close(id) => CloseKeepsInv(d, id);
    case Finish(id) =>
    case Erase(id, retry) => ErasedKeepsInv(d, id, retry);
  }

  lemma {:induction false} RunsKeepInv(ls: seq<Label>)
    requires After(ls).Some?
    ensures Inv(After(ls).value)
  {
    if ls == [] {
      assert Alternates([]);
    } else {
      RunsKeepInv(ls[..|ls| - 1]);
      StepKeepsInv(After(ls[..|ls| - 1]).value, ls[|ls| - 1]);
    }
  }

  // ------------------------------------------------------------------ over every run

  /** Everything down at the compositor was pressed by the session recorded, which is still there. */
  lemma DownWasPressedByInputSession(ls: seq<Label>, c: Control)
    requires After(ls).Some? && IsDown(After(ls).value.eis.trace, c)
    ensures var d := After(ls).value;
            && |d.credits| == |d.eis.trace|
            && c in Owners(d.eis.trace, d.credits)
            && d.input == Some(Owners(d.eis.trace, d.credits)[c])
            && d.input.value in d.sessions && d.sessions[d.input.value].phase == Open
  {
    RunsKeepInv(ls);
    var d := After(ls).value;
    OwnersAreDown(d.eis.trace, d.credits);
  }

  /** Per key and per button, presses and releases alternate over the whole run. */
  lemma EventsAlternate(ls: seq<Label>)
    requires After(ls).Some?
    ensures Alternates(After(ls).value.eis.trace)
  {
    RunsKeepInv(ls);
  }

  /**
   When a session's input is let through, everything still down was pressed by a session of its own
   operator; once the message has been acted on, everything down was pressed by that session itself.
   */
  lemma AdmittedAlone(ls: seq<Label>, id: string, m: Message, now: int, ms: int, c: Control)
    requires After(ls).Some? && Enabled(After(ls).value, Input(id, m, now, ms)) && Gated(After(ls).value, id, now, ms).1
    ensures var d := After(ls).value; var g := Gated(d, id, now, ms).0;
            && |g.credits| == |g.eis.trace|
            && (IsDown(g.eis.trace, c) ==>
                  && c in Owners(g.eis.trace, g.credits)
                  && Owners(g.eis.trace, g.credits)[c] in g.sessions
                  && g.sessions[Owners(g.eis.trace, g.credits)[c]].op == d.sessions[id].op)
    ensures var r := Delivered(Gated(After(ls).value, id, now, ms).0, id, m);
            && |r.credits| == |r.eis.trace|
            && (IsDown(r.eis.trace, c)
                ==> c in Owners(r.eis.trace, r.credits) && Owners(r.eis.trace, r.credits)[c] == id)
  {
    RunsKeepInv(ls);
    var d := After(ls).value;
    GatedKeepsInv(d, id, now, ms);
    var g := Gated(d, id, now, ms).0;
    OwnersAreDown(g.eis.trace, g.credits);
    DeliveredIsSound(g, id, m);
    var r := Delivered(g, id, m);
    OwnersAreDown(r.eis.trace, r.credits);
  }

  /** Another operator's claim on the desktop is still good at a time. */
  predicate AnotherHolds(d: CD.Domains, op: string, now: int) {
    && DESKTOP in d.held && d.held[DESKTOP].op != op
    && now - d.held[DESKTOP].lastHeartbeat <= CD.STALE && now - d.held[DESKTOP].lastInput <= CD.DESKTOP_IDLE
  }

  /**
   After any run a session's input is admitted exactly when it may send any and no other operator's
   claim on the desktop is still good; admitted, the desktop is its operator's from now on.
   */
  lemma AdmittedIffNobodyElse(ls: seq<Label>, id: string, now: int, ms: int)
    requires After(ls).Some? && id in After(ls).value.sessions
    ensures var d := After(ls).value; var g, op := Gated(d, id, now, ms), d.sessions[id].op;
            && (g.1 <==> !d.sessions[id].viewOnly && !AnotherHolds(d.domains, op, now))
            && (g.1 ==> CD.HeldBy(g.0.domains, DESKTOP, op) && g.0.domains.held[DESKTOP].lastInput == now)
            && (!g.1 ==> g.0.domains == if d.sessions[id].viewOnly then d.domains else CD.Expired(d.domains, now))
  {
    RunsKeepInv(ls);
    var d := After(ls).value;
    TickedKeepsInv(d, now);
    CD.ExpiredHoldersAreFresh(d.domains, now);
    CD.RefusedIffAnothers(Ticked(d, now).domains, DESKTOP, d.sessions[id].op, now, ms);
  }

  /** A combination has all its keys down at once, and none of them after. */
  lemma ComboTapsEach(e: Eis, codes: seq<nat>)
    requires InStep(e) && e.keyboard && e.pointer
    ensures var mid := KeysOn(e, codes, true); var r := Acted(e, Combo(codes));
            && mid.trace <= r.trace && KeysDown(mid.trace) == KeysDown(e.trace) + SetOf(codes)
            && KeysDown(r.trace) == KeysDown(e.trace) - SetOf(codes) && ButtonsDown(r.trace) == ButtonsDown(e.trace)
  {
    var mid := KeysOn(e, codes, true);
    KeysStayInStep(e, codes, true);
    KeysOnFrame(e, codes, true);
    KeysStayInStep(mid, Reversed(codes), false);
    KeysOnFrame(mid, Reversed(codes), false);
    KeysOnExtends(mid, Reversed(codes), false);
    ReversedMembers(codes);
  }

  /** A click moves its button at the compositor and nothing else, with one event if that changes anything. */
  lemma ClickIsMade(e: Eis, c: nat, down: bool)
    requires InStep(e) && e.pointer
    ensures var r, held := Acted(e, SendButton(c, down)), ButtonsDown(e.trace);
            && r.trace == e.trace + (if down == (c in held) then [] else [Button(c, down)])
            && ButtonsDown(r.trace) == (if down then held + {c} else held - {c})
            && KeysDown(r.trace) == KeysDown(e.trace)
  {
    ButtonStaysInStep(e, c, down);
    assert (e.trace + [Button(c, down)])[..|e.trace|] == e.trace && e.trace + [] == e.trace;
  }

  lemma KeyIsMade(e: Eis, c: nat, down: bool)
    requires InStep(e) && e.keyboard
    ensures var r, held := Acted(e, SendKey(c, down)), KeysDown(e.trace);
            && r.trace == e.trace + (if down == (c in held) then [] else [Key(c, down)])
            && KeysDown(r.trace) == (if down then held + {c} else held - {c})
            && ButtonsDown(r.trace) == ButtonsDown(e.trace)
  {
    KeyStaysInStep(e, c, down);
    assert e.trace + [] == e.trace;
  }

  /** A text whose every character has a stroke is typed after a release, one stroke a character; any other is not. */
  lemma TextIsMade(e: Eis, keymap: Keymap, text: seq<nat>)
    requires InStep(e) && e.keyboard
    ensures var r := Acted(e, Text(text, Some(keymap)));
            if forall c :: c in text ==> c in keymap then
              && ReleasedAll(e).trace <= r.trace && KeysDown(r.trace) == {}
              && (AsAsked(r.trace[|ReleasedAll(e).trace|..], Strokes(keymap, text)) <==>
                  forall c :: c in text ==> Typable(keymap[c]))
            else r == e
  {
    TextIsTypedWhole(e, keymap, text);
  }

  /** After any run a session that releases its input leaves nothing down, unless what is down is another's. */
  lemma ReleasedIsUp(ls: seq<Label>, id: string, c: Control)
    requires After(ls).Some? && Enabled(After(ls).value, ReleaseAll(id))
    requires After(ls).value.input.None? || After(ls).value.input == Some(id)
    ensures !IsDown(Apply(After(ls).value, ReleaseAll(id)).eis.trace, c)
  {
    RunsKeepInv(ls);
    LetGoIsSound(After(ls).value, None);
  }

  /** After any run the desktop is whose session takes it, and nobody else's input is down. */
  lemma TakerHasTheDesktop(ls: seq<Label>, id: string, now: int, ms: int)
    requires After(ls).Some? && Enabled(After(ls).value, TakeControl(id, now, ms))
    requires !After(ls).value.sessions[id].viewOnly
    ensures var d := After(ls).value; var r := Apply(d, TakeControl(id, now, ms));
            && CD.HeldBy(r.domains, DESKTOP, d.sessions[id].op) && r.domains.held[DESKTOP].lastInput == now
            && (!Quiet(r.eis) ==> r.input.Some? && r.input.value in r.sessions
                                  && r.sessions[r.input.value].op == d.sessions[id].op)
  {
    RunsKeepInv(ls);
    TakenKeepsInv(After(ls).value, id, now, ms);
  }

  /** After any run an operator who gives the desktop up has it no more, and left nothing down. */
  lemma GiverLeavesNothing(ls: seq<Label>, id: string)
    requires After(ls).Some? && Enabled(After(ls).value, ReleaseControl(id))
    ensures var d := After(ls).value; var r := Apply(d, ReleaseControl(id)); var op := d.sessions[id].op;
            && !CD.HeldBy(r.domains, DESKTOP, op) && (CD.HeldBy(d.domains, DESKTOP, op) ==> Quiet(r.eis))
            && (!CD.HeldBy(d.domains, DESKTOP, op) ==> r == d)
  {
    RunsKeepInv(ls);
    FreedKeepsInv(After(ls).value, After(ls).value.sessions[id].op);
  }

  /** Once its last session is gone and none is expected back, an operator holds the desktop no more. */
  lemma GoneHoldNothing(ls: seq<Label>, id: string, retry: bool)
    requires After(ls).Some? && Enabled(After(ls).value, Erase(id, retry))
    ensures var d := After(ls).value; var r := Apply(d, Erase(id, retry));
            && id !in r.sessions
            && (DESKTOP in r.domains.held ==>
                  Live(r, r.domains.held[DESKTOP].op, if retry then Some(d.sessions[id].op) else None))
            && (DESKTOP in d.domains.held && DESKTOP !in r.domains.held ==>
                  !Live(r, d.domains.held[DESKTOP].op, if retry then Some(d.sessions[id].op) else None))
  {
  }

  lemma HeededLetsGoOrNot(d: Desk, release: Option<string>)
    requires Sound(d)
    ensures var h := Heeded(d, release); Sound(h) && ((h.input == d.input && h.eis == d.eis) || Quiet(h.eis))
  {
    LetGoIsSound(d, None);
  }

  /** The gate leaves what is down and its record alone, or lets everything go. */
  lemma GatedLetsGoOrNot(d: Desk, id: string, now: int, ms: int)
    requires Sound(d) && id in d.sessions
    ensures var g := Gated(d, id, now, ms).0; (g.input == d.input && g.eis == d.eis) || Quiet(g.eis)
  {
    if !d.sessions[id].viewOnly {
      HeededLetsGoOrNot(d.(domains := CD.Expired(d.domains, now)), StaleHolder(d.domains, now));
      var t := Ticked(d, now);
      var r := CD.Inputted(t.domains, DESKTOP, d.sessions[id].op, now, ms);
      HeededLetsGoOrNot(t.(domains := r.0), if r.2.Some? then r.2.value.release else None);
    }
  }

  /** After any run a message that is admitted reaches the compositor, with what was down of others let go first. */
  lemma AdmittedIsDone(ls: seq<Label>, id: string, m: Message, now: int, ms: int)
    requires After(ls).Some? && Enabled(After(ls).value, Input(id, m, now, ms)) && Gated(After(ls).value, id, now, ms).1
    ensures var d := After(ls).value; var c := Claimed(Gated(d, id, now, ms).0, id);
            && InStep(c.eis) && c.eis.keyboard && c.eis.pointer
            && Apply(d, Input(id, m, now, ms)).eis == Acted(c.eis, m)
            && Apply(d, Input(id, m, now, ms)).input == Some(id)
            && (d.input != Some(id) && d.input.Some? ==> Quiet(c.eis))
  {
    RunsKeepInv(ls);
    var d := After(ls).value;
    GatedKeepsInv(d, id, now, ms);
    var g := Gated(d, id, now, ms).0;
    LetGoIsSound(g, Some(id));
    GatedLetsGoOrNot(d, id, now, ms);
  }

  // ------------------------------------------------------------------ a takeover

  lemma Grows(ls: seq<Label>, l: Label)
    requires After(ls).Some? && Enabled(After(ls).value, l)
    ensures After(ls + [l]) == Some(Apply(After(ls).value, l))
  {
    assert (ls + [l])[..|ls|] == ls;
  }

  const ANNS := CD.Domains(map[DESKTOP := CD.Holder("ann", 0, 0, 0)], map[])

  /** One session of Ann's, with a key down. */
  const PRESSED := Desk(map["a" := Peer("ann", false, Open)], Some("a"), Eis({30}, {}, true, true, [Key(30, true)]),
                        ["a"], ANNS)

  lemma AnnPresses()
    ensures After([Attach("a", "ann", false)] + [Input("a", SendKey(30, true), 0, 0)]) == Some(PRESSED)
  {
    assert [] + [Attach("a", "ann", false)] == [Attach("a", "ann", false)];
    Grows([], Attach("a", "ann", false));
    var d := After([Attach("a", "ann", false)]).value;
    assert CD.Expired(CD.NOBODY, 0) == CD.NOBODY;
    assert Ticked(d, 0) == d;
    assert CD.Claimed(CD.NOBODY, DESKTOP, "ann", 0, 0) == ANNS;
    assert Gated(d, "a", 0, 0) == (d.(domains := ANNS), true);
    assert [] + Times("a", 1) == ["a"] && [] + [Key(30, true)] == [Key(30, true)];
    var c := Claimed(d.(domains := ANNS), "a");
    assert {} + {30} == {30} && Acted(c.eis, SendKey(30, true)) == PRESSED.eis;
    assert Credit(c, PRESSED.eis, "a") == PRESSED;
    Grows([Attach("a", "ann", false)], Input("a", SendKey(30, true), 0, 0));
  }

  /** Bob takes the desktop from Ann, whose key is down: it is let go, and the desktop is Bob's. */
  lemma BobTakesOver()
    ensures var ls := [Attach("a", "ann", false)] + [Input("a", SendKey(30, true), 0, 0)];
            && After(ls).Some? && IsDown(After(ls).value.eis.trace, KeyAt(30))
            && var later := ls + [Attach("b", "bob", false)] + [TakeControl("b", 1, 1)];
               && After(later).Some? && Quiet(After(later).value.eis)
               && !IsDown(After(later).value.eis.trace, KeyAt(30))
               && After(later).value.input == None && CD.HeldBy(After(later).value.domains, DESKTOP, "bob")
  {
    var ls := [Attach("a", "ann", false)] + [Input("a", SendKey(30, true), 0, 0)];
    AnnPresses();
    RunsKeepInv(ls);
    Grows(ls, Attach("b", "bob", false));
    var d := After(ls + [Attach("b", "bob", false)]).value;
    assert CD.Expired(ANNS, 1) == ANNS;
    assert Ticked(d, 1) == d;
    assert d.sessions["a"].op == "ann" && Concerns(d, "ann");
    Grows(ls + [Attach("b", "bob", false)], TakeControl("b", 1, 1));
    LetGoIsSound(d.(domains := CD.Claimed(ANNS, DESKTOP, "bob", 1, 1)), None);
    RunsKeepInv(ls + [Attach("b", "bob", false)] + [TakeControl("b", 1, 1)]);
  }

  // ------------------------------------------------------------------ the object

  lemma LetGoTwice(d: Desk)
    ensures LetGo(LetGo(d)) == LetGo(d)
  {
    ReleasedDevices(d.eis);
    var e := ReleasedAll(d.eis);
    AscendingIsUnique({}, Order({}), []);
    assert ReleasedAll(e) == e;
    assert LetGo(d).credits + [] == LetGo(d).credits;
  }

  class Desktop {
    var sessions: map<string, Peer>
    var inputSession: Option<string>
    ghost var credits: seq<string>
    const device: Device
    const control: CD.Control

    ghost function View(): Desk
      reads this, device, control
    {
      Desk(sessions, inputSession, device.View(), credits, control.View())
    }

    constructor (device: Device, control: CD.Control)
      ensures this.device == device && this.control == control
      ensures View() == Desk(map[], None, device.View(), [], control.View())
    {
      sessions, inputSession, credits := map[], None, [];
      this.device, this.control := device, control;
    }

    method LetAllGo()
      modifies this, device
      ensures View() == LetGo(old(View()))
    {
      ghost var n := |device.sent|;
      device.ReleaseAll();
      credits := credits + Times("", |device.sent| - n);
      inputSession := None;
    }

    method ReleaseAllInput(id: string)
      modifies this, device
      ensures View() == ReleasedBy(old(View()), id)
    {
      if inputSession.Some? && inputSession.value != id { return; }
      LetAllGo();
    }

    /** Every session of the named operator is asked to release, in turn. */
    method Heed(release: Option<string>)
      modifies this, device
      ensures View() == Heeded(old(View()), release)
    {
      if release.None? { return; }
      ghost var was := View();
      LetGoTwice(was);
      var rest := sessions.Keys;
      while rest != {}
        invariant rest <= sessions.Keys && sessions == was.sessions
        invariant View() == was || (View() == LetGo(was) && Concerns(was, release.value))
        invariant View() == was ==>
                    LetGo(was) == was ||
                    forall s :: s in was.sessions && s !in rest && was.sessions[s].op == release.value
                      ==> !MayRelease(was, s)
        decreases rest
      {
        var s :| s in rest;
        if sessions[s].op == release.value { ReleaseAllInput(s); }
        rest := rest - {s};
      }
    }

    method Act(id: string, m: Message)
      modifies this, device
      ensures View() == Credit(old(View()), Acted(old(View()).eis, m), id)
    {
      ghost var n := |device.sent|;
      match m {
        case Other =>
        case SendButton(code, down) => device.PressButton(code, down);
        case SendKey(code, down) => device.PressKey(code, down);
        case Combo(codes) => device.PressKeys(codes, true); device.PressKeys(Reversed(codes), false);
        case Text(text, keymap) => var untypable, error := device.TypeText(text, keymap);
      }
      credits := credits + Times(id, |device.sent| - n);
    }

    /** A message of the desktop capability that the gate let through. */
    method OnMessage(id: string, m: Message)
      modifies this, device
      ensures View() == Delivered(old(View()), id, m)
    {
      if inputSession.Some? && inputSession.value != id { LetAllGo(); }
      inputSession := Some(id);
      Act(id, m);
    }

    method ControlTick(now: int)
      modifies this, device, control
      ensures View() == Ticked(old(View()), now)
    {
      ghost var was := View();
      var changes := control.Expire(now);
      ghost var expired := View();
      assert expired == was.(domains := CD.Expired(was.domains, now));
      CD.ReportedOnce(was.domains, now, changes, DESKTOP);
      for i := 0 to |changes|
        invariant (exists j :: 0 <= j < i && changes[j].domain == DESKTOP)
                  ==> View() == Heeded(expired, StaleHolder(was.domains, now))
        invariant (forall j :: 0 <= j < i ==> changes[j].domain != DESKTOP) ==> View() == expired
      {
        if changes[i].domain == DESKTOP {
          assert changes[i].release == StaleHolder(was.domains, now);
          Heed(changes[i].release);
        }
      }
    }

    method ControlInput(id: string, now: int, ms: int) returns (allowed: bool)
      requires id in sessions
      modifies this, device, control
      ensures View() == Gated(old(View()), id, now, ms).0
      ensures allowed == Gated(old(View()), id, now, ms).1
    {
      var peer := sessions[id];
      if peer.viewOnly { return false; }
      ControlTick(now);
      var ok, change := control.Input(DESKTOP, peer.op, now, ms);
      if change.Some? { Heed(change.value.release); }
      return ok;
    }

    method SessionDetached(id: string)
      modifies this
      ensures View() == if old(inputSession) == Some(id) then old(View()).(input := None) else old(View())
    {
      if inputSession == Some(id) { inputSession := None; }
    }

    method CloseSession(id: string)
      requires id in sessions
      modifies this, device
      ensures var r := ReleasedBy(old(View()), id);
              View() == Phased(if r.input == Some(id) then r.(input := None) else r, id, Closing)
    {
      ReleaseAllInput(id);
      SessionDetached(id);
      sessions := sessions[id := sessions[id].(phase := Closing)];
    }
  }
}
