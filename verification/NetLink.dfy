/**
 The tunnel's one link (agent/src/capabilities/net_capability.cpp:156-182, 266-310, 312-415): who holds
 it, what passes in either direction, and what the counters say.
 */
module NetLink {
  import opened Common
  import opened NetAddressing

  datatype Config = Config(self: Word, peer: Word, mtu: nat, ports: seq<nat>)

  datatype Counters = Counters(tx: nat, rx: nat, txBytes: nat, rxBytes: nat, noPeer: nat, policy: nat, queue: nat,
                               mtu: nat)

  const ZERO := Counters(0, 0, 0, 0, 0, 0, 0, 0)

  /** A packet that passed: the session it came from or went to, and the one holding the link then. */
  datatype Passed = Passed(session: string, holder: string, packet: seq<Byte>)

  /**
   `session`: who holds the link, "" for nobody.  `watch`: whose callback reads the interface.
   `handled`: packets that arrived on either side since the link was last opened.  `inAt`, `outAt`:
   how many had passed when it was.
   */
  datatype Link = Link(device: bool, session: string, watch: string, counters: Counters, handled: nat,
                       toInterface: seq<Passed>, toChannel: seq<Passed>, inAt: nat, outAt: nat)

  // ------------------------------------------------------------------ the operations

  /** A packet from a session; `ok`: the interface took it. */
  function Arrived(l: Link, cfg: Config, id: string, p: seq<Byte>, ok: bool): Link {
    var c, n := l.counters, l.(handled := l.handled + 1);
    if l.session != id || !l.device then n.(counters := c.(noPeer := c.noPeer + 1))
    else if |p| > cfg.mtu then n.(counters := c.(mtu := c.mtu + 1))
    else if !Passes(Inspect(p), cfg.self, cfg.peer, cfg.ports) then n.(counters := c.(policy := c.policy + 1))
    else if !ok then n.(counters := c.(queue := c.queue + 1))
    else n.(counters := c.(rx := c.rx + 1, rxBytes := c.rxBytes + |p|),
            toInterface := l.toInterface + [Passed(id, l.session, p)])
  }

  /** What one read of the interface gives: a packet, and whether the channel would take it. */
  datatype Read = Packet(p: seq<Byte>, ok: bool) | Interrupted | Nothing

  function Took(l: Link, cfg: Config, r: Read): Link {
    match r
    case Nothing => l
    case Interrupted => l
    case Packet(p, ok) =>
      var c, n := l.counters, l.(handled := l.handled + 1);
      if |p| > cfg.mtu then n.(counters := c.(mtu := c.mtu + 1))
      else if !Passes(Inspect(p), cfg.peer, cfg.self, []) then n.(counters := c.(policy := c.policy + 1))
      else if !ok then n.(counters := c.(queue := c.queue + 1))
      else n.(counters := c.(tx := c.tx + 1, txBytes := c.txBytes + |p|),
              toChannel := l.toChannel + [Passed(l.watch, l.session, p)])
  }

  const BATCH := 32

  /** Up to `budget` reads, until there is nothing more; past the end of `got` there is nothing. */
  function Batched(l: Link, cfg: Config, got: seq<Read>, budget: nat): Link
    decreases budget
  {
    if budget == 0 || got == [] || got[0].Nothing? then l else Batched(Took(l, cfg, got[0]), cfg, got[1..], budget - 1)
  }

  lemma BatchedStep(l: Link, cfg: Config, got: seq<Read>, i: nat, budget: nat)
    requires i <= |got| && budget > 0
    ensures Batched(l, cfg, got[i..], budget)
         == if i == |got| || got[i].Nothing? then l else Batched(Took(l, cfg, got[i]), cfg, got[i + 1..], budget - 1)
  {
    if i < |got| { assert got[i..][0] == got[i] && got[i..][1..] == got[i + 1..]; }
  }

  /** The callback of a link that is gone goes too. */
  function Readable(l: Link, cfg: Config, got: seq<Read>): Link {
    if l.session != l.watch then l.(watch := "") else Batched(l, cfg, got, BATCH)
  }

  datatype Answer = Opened | Busy | Unavailable

  function OpenAnswer(l: Link): Answer { if l.session != "" then Busy else if !l.device then Unavailable else Opened }

  /** The counters begin anew, without what was queued before. */
  function OpenedBy(l: Link, id: string): Link {
    if !OpenAnswer(l).Opened? then l
    else l.(session := id, watch := id, counters := ZERO, handled := 0, inAt := |l.toInterface|, outAt := |l.toChannel|)
  }

  function ClosedLink(l: Link): Link { if l.session == "" then l else l.(session := "", watch := "") }

  function ClosedBy(l: Link, id: string): Link { if l.session == id then ClosedLink(l) else l }

  // ------------------------------------------------------------------ runs

  datatype Label =
    | Open(id: string)
    | Close(id: string)
    | Detach(id: string)
    | Binary(id: string, p: seq<Byte>, ok: bool)
    | Wake(got: seq<Read>)
    | Shutdown

  /** A session's name is never empty. */
  predicate Enabled(l: Link, a: Label) {
    match a
    case Wake(_) => l.watch != ""
    case Shutdown => true
    case _ => a.id != ""
  }

  function Apply(l: Link, cfg: Config, a: Label): Link {
    match a
    case Open(id) => OpenedBy(l, id)
    case Close(id) => ClosedBy(l, id)
    case Detach(id) => ClosedBy(l, id)
    case Binary(id, p, ok) => Arrived(l, cfg, id, p, ok)
    case Wake(got) => Readable(l, cfg, got)
    case Shutdown => ClosedLink(l).(device := false)
  }

  function Start(device: bool): Link { Link(device, "", "", ZERO, 0, [], [], 0, 0) }

  function After(cfg: Config, device: bool, ls: seq<Label>): Option<Link> {
    if ls == [] then Some(Start(device))
    else
      var before := After(cfg, device, ls[..|ls| - 1]);
      if before.None? || !Enabled(before.value, ls[|ls| - 1]) then None
      else Some(Apply(before.value, cfg, ls[|ls| - 1]))
  }

  // ------------------------------------------------------------------ what every step keeps

  function Sum(c: Counters): nat { c.tx + c.rx + c.noPeer + c.policy + c.queue + c.mtu }

  function Bytes(ps: seq<Passed>): nat { if ps == [] then 0 else Bytes(ps[..|ps| - 1]) + |ps[|ps| - 1].packet| }

  /** The traffic counters count what passed since the link was opened, in packets and in bytes. */
  predicate Metered(l: Link) {
    && l.inAt <= |l.toInterface| && l.outAt <= |l.toChannel|
    && l.counters.rx == |l.toInterface| - l.inAt && l.counters.rxBytes == Bytes(l.toInterface[l.inAt..])
    && l.counters.tx == |l.toChannel| - l.outAt && l.counters.txBytes == Bytes(l.toChannel[l.outAt..])
  }

  lemma BytesAppend(ps: seq<Passed>, at: nat, x: Passed)
    requires at <= |ps|
    ensures Bytes((ps + [x])[at..]) == Bytes(ps[at..]) + |x.packet|
  {
    assert (ps + [x])[at..] == ps[at..] + [x];
    assert (ps[at..] + [x])[..|ps| - at] == ps[at..];
  }

  lemma TookIsMetered(l: Link, cfg: Config, r: Read)
    requires Metered(l)
    ensures Metered(Took(l, cfg, r))
  {
    if r.Packet? { BytesAppend(l.toChannel, l.outAt, Passed(l.watch, l.session, r.p)); }
  }

  lemma {:induction false} BatchIsMetered(l: Link, cfg: Config, got: seq<Read>, budget: nat)
    requires Metered(l)
    ensures Metered(Batched(l, cfg, got, budget))
    decreases budget
  {
    if budget > 0 && got != [] && !got[0].Nothing? {
      TookIsMetered(l, cfg, got[0]);
      BatchIsMetered(Took(l, cfg, got[0]), cfg, got[1..], budget - 1);
    }
  }

  lemma ArrivedIsMetered(l: Link, cfg: Config, id: string, p: seq<Byte>, ok: bool)
    requires Metered(l)
    ensures Metered(Arrived(l, cfg, id, p, ok))
  {
    BytesAppend(l.toInterface, l.inAt, Passed(id, l.session, p));
  }

  lemma OpenedIsMetered(l: Link, id: string)
    requires Metered(l)
    ensures Metered(OpenedBy(l, id))
  {
    assert l.toInterface[|l.toInterface|..] == [] && l.toChannel[|l.toChannel|..] == [];
  }

  lemma StepIsMetered(l: Link, cfg: Config, a: Label)
    requires Metered(l)
    ensures Metered(Apply(l, cfg, a))
  {
    match a
    case Open(id) => OpenedIsMetered(l, id);
    case Wake(got) => BatchIsMetered(l, cfg, got, BATCH);
    case Binary(id, p, ok) => ArrivedIsMetered(l, cfg, id, p, ok);
    case _ =>
  }

  lemma {:induction false} TrafficIsMetered(cfg: Config, device: bool, ls: seq<Label>)
    requires After(cfg, device, ls).Some?
    ensures Metered(After(cfg, device, ls).value)
  {
    if ls != [] {
      TrafficIsMetered(cfg, device, ls[..|ls| - 1]);
      StepIsMetered(After(cfg, device, ls[..|ls| - 1]).value, cfg, ls[|ls| - 1]);
    }
  }

  /** From the operator, and to this robot on an open port or to a group. */
  predicate ForRobot(cfg: Config, v: View) {
    && v.ipv4 && v.src == cfg.peer
    && (IsMulticast(v.dst)
        || (v.dst == cfg.self && (cfg.ports == [] || (v.port.Some? && v.port.value in cfg.ports))))
  }

  /** From this robot, and to the operator or to a group. */
  predicate ForOperator(cfg: Config, v: View) {
    v.ipv4 && v.src == cfg.self && (IsMulticast(v.dst) || v.dst == cfg.peer)
  }

  predicate Inward(cfg: Config, x: Passed) {
    x.session == x.holder && x.session != "" && |x.packet| <= cfg.mtu && ForRobot(cfg, Inspect(x.packet))
  }

  predicate Outward(cfg: Config, x: Passed) {
    x.session == x.holder && x.session != "" && |x.packet| <= cfg.mtu && ForOperator(cfg, Inspect(x.packet))
  }

  ghost predicate Policed(l: Link, cfg: Config) {
    && (forall i :: 0 <= i < |l.toInterface| ==> Inward(cfg, l.toInterface[i]))
    && (forall i :: 0 <= i < |l.toChannel| ==> Outward(cfg, l.toChannel[i]))
  }

  ghost predicate Inv(l: Link, cfg: Config) {
    Policed(l, cfg) && l.handled == Sum(l.counters) && l.watch == l.session && (l.session != "" ==> l.device)
  }

  lemma TookKeepsInv(l: Link, cfg: Config, r: Read)
    requires Inv(l, cfg) && l.session != ""
    ensures Inv(Took(l, cfg, r), cfg) && Took(l, cfg, r).session == l.session
    ensures Took(l, cfg, r).handled <= l.handled + 1
  {
  }

  lemma {:induction false} BatchKeepsInv(l: Link, cfg: Config, got: seq<Read>, budget: nat)
    requires Inv(l, cfg) && l.session != ""
    ensures var r := Batched(l, cfg, got, budget);
            Inv(r, cfg) && r.session == l.session && l.handled <= r.handled <= l.handled + budget
    decreases budget
  {
    if budget > 0 && got != [] && !got[0].Nothing? {
      TookKeepsInv(l, cfg, got[0]);
      BatchKeepsInv(Took(l, cfg, got[0]), cfg, got[1..], budget - 1);
    }
  }

  lemma StepKeepsInv(l: Link, cfg: Config, a: Label)
    requires Inv(l, cfg) && Enabled(l, a)
    ensures Inv(Apply(l, cfg, a), cfg)
  {
    if a.Wake? { BatchKeepsInv(l, cfg, a.got, BATCH); }
  }

  lemma {:induction false} RunsKeepInv(cfg: Config, device: bool, ls: seq<Label>)
    requires After(cfg, device, ls).Some?
    ensures Inv(After(cfg, device, ls).value, cfg)
  {
    if ls != [] {
      RunsKeepInv(cfg, device, ls[..|ls| - 1]);
      StepKeepsInv(After(cfg, device, ls[..|ls| - 1]).value, cfg, ls[|ls| - 1]);
    }
  }

  // ------------------------------------------------------------------ over every run

  /** What reached the interface came from the holder, fits, and goes from the operator to this robot or a group. */
  lemma InboundIsPoliced(cfg: Config, device: bool, ls: seq<Label>, i: nat)
    requires After(cfg, device, ls).Some? && i < |After(cfg, device, ls).value.toInterface|
    ensures Inward(cfg, After(cfg, device, ls).value.toInterface[i])
  {
    RunsKeepInv(cfg, device, ls);
  }

  /** What reached the channel went to the holder, fits, and goes from this robot to the operator or a group. */
  lemma OutboundIsPoliced(cfg: Config, device: bool, ls: seq<Label>, i: nat)
    requires After(cfg, device, ls).Some? && i < |After(cfg, device, ls).value.toChannel|
    ensures Outward(cfg, After(cfg, device, ls).value.toChannel[i])
  {
    RunsKeepInv(cfg, device, ls);
  }

  /** The packets after a run are counted once each, from the last link opened on. */
  function HandledIn(l: Link, a: Label): nat {
    match a
    case Binary(_, _, _) => 1
    case Wake(got) => if l.session == l.watch then Packets(got, BATCH) else 0
    case _ => 0
  }

  function Packets(got: seq<Read>, budget: nat): nat
    decreases budget
  {
    if budget == 0 || got == [] || got[0].Nothing? then 0
    else (if got[0].Packet? then 1 else 0) + Packets(got[1..], budget - 1)
  }

  /** How many packets arrived since the last open that succeeded. */
  function SinceOpen(cfg: Config, device: bool, ls: seq<Label>): nat {
    if ls == [] then 0
    else
      var before, a := After(cfg, device, ls[..|ls| - 1]), ls[|ls| - 1];
      if before.None? then 0
      else if a.Open? && OpenAnswer(before.value).Opened? then 0
      else SinceOpen(cfg, device, ls[..|ls| - 1]) + HandledIn(before.value, a)
  }

  lemma {:induction false} BatchHandles(l: Link, cfg: Config, got: seq<Read>, budget: nat)
    ensures Batched(l, cfg, got, budget).handled == l.handled + Packets(got, budget)
    decreases budget
  {
    if budget > 0 && got != [] && !got[0].Nothing? { BatchHandles(Took(l, cfg, got[0]), cfg, got[1..], budget - 1); }
  }

  lemma {:induction false} HandledSinceOpen(cfg: Config, device: bool, ls: seq<Label>)
    requires After(cfg, device, ls).Some?
    ensures After(cfg, device, ls).value.handled == SinceOpen(cfg, device, ls)
  {
    if ls != [] {
      var l, a := After(cfg, device, ls[..|ls| - 1]).value, ls[|ls| - 1];
      HandledSinceOpen(cfg, device, ls[..|ls| - 1]);
      if a.Wake? { BatchHandles(l, cfg, a.got, BATCH); }
    }
  }

  /** Every packet since the last open is in exactly one of the two traffic and four drop counters. */
  lemma EveryPacketIsCounted(cfg: Config, device: bool, ls: seq<Label>)
    requires After(cfg, device, ls).Some?
    ensures var c := After(cfg, device, ls).value.counters;
            SinceOpen(cfg, device, ls) == c.tx + c.rx + c.noPeer + c.policy + c.queue + c.mtu
  {
    RunsKeepInv(cfg, device, ls);
    HandledSinceOpen(cfg, device, ls);
  }

  /** While one session holds the link nobody else's open, close or packet changes who, or reaches the interface. */
  lemma OneLinkAtATime(cfg: Config, device: bool, ls: seq<Label>, a: Label)
    requires After(cfg, device, ls).Some? && Enabled(After(cfg, device, ls).value, a)
    requires After(cfg, device, ls).value.session != ""
    requires (a.Open? || a.Close? || a.Detach? || a.Binary?) && a.id != After(cfg, device, ls).value.session
    ensures var l := After(cfg, device, ls).value; var r := Apply(l, cfg, a);
            r.session == l.session && r.toInterface == l.toInterface && r.toChannel == l.toChannel
              && r.watch == l.session
  {
    RunsKeepInv(cfg, device, ls);
  }

  // ------------------------------------------------------------------ what the rules say, from the labels alone

  /** Whether the device is there after a run. */
  predicate Powered(device: bool, ls: seq<Label>) {
    if ls == [] then device else Powered(device, ls[..|ls| - 1]) && !ls[|ls| - 1].Shutdown?
  }

  /** Who holds the link after a run, "" for nobody: whoever asks first, until they close it, leave, or all ends. */
  function Holder(device: bool, ls: seq<Label>): string {
    if ls == [] then ""
    else
      var h := Holder(device, ls[..|ls| - 1]);
      match ls[|ls| - 1]
      case Open(id) => if h == "" && Powered(device, ls[..|ls| - 1]) then id else h
      case Close(id) => if h == id then "" else h
      case Detach(id) => if h == id then "" else h
      case Shutdown => ""
      case _ => h
  }

  /** The last step of a run opens the link. */
  predicate Begins(device: bool, ls: seq<Label>)
    requires ls != []
  {
    ls[|ls| - 1].Open? && Holder(device, ls[..|ls| - 1]) == "" && Powered(device, ls[..|ls| - 1])
  }

  /** What becomes of a packet: through one way or the other, or dropped for the first reason that applies. */
  datatype Fate = Entered | Left | NoPeer | TooBig | Barred | Full

  function InFate(cfg: Config, holder: string, powered: bool, id: string, p: seq<Byte>, ok: bool): Fate {
    if holder != id || !powered then NoPeer
    else if |p| > cfg.mtu then TooBig
    else if !ForRobot(cfg, Inspect(p)) then Barred
    else if !ok then Full
    else Entered
  }

  function OutFate(cfg: Config, p: seq<Byte>, ok: bool): Fate {
    if |p| > cfg.mtu then TooBig
    else if !ForOperator(cfg, Inspect(p)) then Barred
    else if !ok then Full
    else Left
  }

  /** The packets of one batch that go out, in order. */
  function Leaving(cfg: Config, holder: string, got: seq<Read>, budget: nat): seq<Passed>
    decreases budget
  {
    if budget == 0 || got == [] || got[0].Nothing? then []
    else
      (if got[0].Packet? && OutFate(cfg, got[0].p, got[0].ok).Left? then [Passed(holder, holder, got[0].p)] else [])
      + Leaving(cfg, holder, got[1..], budget - 1)
  }

  /** How many packets of one batch meet a fate. */
  function Meeting(cfg: Config, got: seq<Read>, budget: nat, f: Fate): nat
    decreases budget
  {
    if budget == 0 || got == [] || got[0].Nothing? then 0
    else
      (if got[0].Packet? && OutFate(cfg, got[0].p, got[0].ok) == f then 1 else 0)
      + Meeting(cfg, got[1..], budget - 1, f)
  }

  /** Every packet that is to reach the interface over a run, in order. */
  function Inbound(cfg: Config, device: bool, ls: seq<Label>): seq<Passed> {
    if ls == [] then []
    else
      var init, a := ls[..|ls| - 1], ls[|ls| - 1];
      Inbound(cfg, device, init)
      + if a.Binary? && InFate(cfg, Holder(device, init), Powered(device, init), a.id, a.p, a.ok).Entered?
        then [Passed(a.id, a.id, a.p)] else []
  }

  /** Every packet that is to reach the holder's channel. */
  function Outbound(cfg: Config, device: bool, ls: seq<Label>): seq<Passed> {
    if ls == [] then []
    else
      var init, a := ls[..|ls| - 1], ls[|ls| - 1];
      Outbound(cfg, device, init) + if a.Wake? then Leaving(cfg, Holder(device, init), a.got, BATCH) else []
  }

  /** How many packets met a fate since the link was last opened. */
  function Tally(cfg: Config, device: bool, ls: seq<Label>, f: Fate): nat {
    if ls == [] then 0
    else
      var init, a := ls[..|ls| - 1], ls[|ls| - 1];
      if Begins(device, ls) then 0
      else
        Tally(cfg, device, init, f) +
        match a
        case Binary(id, p, ok) =>
          if InFate(cfg, Holder(device, init), Powered(device, init), id, p, ok) == f then 1 else 0
        case Wake(got) => Meeting(cfg, got, BATCH, f)
        case _ => 0
  }

  function CounterOf(c: Counters, f: Fate): nat {
    match f
    case Entered => c.rx
    case Left => c.tx
    case NoPeer => c.noPeer
    case TooBig => c.mtu
    case Barred => c.policy
    case Full => c.queue
  }

  /** A packet from a session meets its fate: it alone is written, or it alone is counted. */
  lemma ArrivedMeetsItsFate(l: Link, cfg: Config, id: string, p: seq<Byte>, ok: bool, f: Fate)
    ensures var r, fate := Arrived(l, cfg, id, p, ok), InFate(cfg, l.session, l.device, id, p, ok);
            && r.toInterface == l.toInterface + (if fate.Entered? then [Passed(id, id, p)] else [])
            && r.toChannel == l.toChannel && r.session == l.session && r.device == l.device
            && CounterOf(r.counters, f) == CounterOf(l.counters, f) + if fate == f then 1 else 0
  {
  }

  lemma TookMeetsItsFate(l: Link, cfg: Config, r: Read, f: Fate)
    requires l.watch == l.session
    ensures var t := Took(l, cfg, r);
            && t.toChannel == l.toChannel + (if r.Packet? && OutFate(cfg, r.p, r.ok).Left?
                                             then [Passed(l.session, l.session, r.p)] else [])
            && t.toInterface == l.toInterface && t.session == l.session && t.device == l.device && t.watch == l.watch
            && CounterOf(t.counters, f)
               == CounterOf(l.counters, f) + if r.Packet? && OutFate(cfg, r.p, r.ok) == f then 1 else 0
  {
  }

  lemma {:induction false} BatchMeetsItsFates(l: Link, cfg: Config, got: seq<Read>, budget: nat, f: Fate)
    requires l.watch == l.session
    ensures var r := Batched(l, cfg, got, budget);
            && r.toChannel == l.toChannel + Leaving(cfg, l.session, got, budget)
            && r.toInterface == l.toInterface && r.session == l.session && r.device == l.device
            && CounterOf(r.counters, f) == CounterOf(l.counters, f) + Meeting(cfg, got, budget, f)
    decreases budget
  {
    if budget == 0 || got == [] || got[0].Nothing? {
      assert l.toChannel + [] == l.toChannel;
    } else {
      TookMeetsItsFate(l, cfg, got[0], f);
      BatchMeetsItsFates(Took(l, cfg, got[0]), cfg, got[1..], budget - 1, f);
    }
  }

  /** The state is what the rules say of the labels so far. */
  ghost predicate Obeys(l: Link, cfg: Config, device: bool, ls: seq<Label>, f: Fate) {
    && l.session == Holder(device, ls) && l.device == Powered(device, ls)
    && l.toInterface == Inbound(cfg, device, ls) && l.toChannel == Outbound(cfg, device, ls)
    && CounterOf(l.counters, f) == Tally(cfg, device, ls, f)
  }

  lemma BinaryObeys(l: Link, cfg: Config, device: bool, ls: seq<Label>, f: Fate)
    requires ls != [] && ls[|ls| - 1].Binary? && Obeys(l, cfg, device, ls[..|ls| - 1], f)
    ensures Obeys(Apply(l, cfg, ls[|ls| - 1]), cfg, device, ls, f)
  {
    var a := ls[|ls| - 1];
    ArrivedMeetsItsFate(l, cfg, a.id, a.p, a.ok, f);
    assert l.toChannel + [] == l.toChannel;
  }

  lemma WakeObeys(l: Link, cfg: Config, device: bool, ls: seq<Label>, f: Fate)
    requires ls != [] && ls[|ls| - 1].Wake? && Obeys(l, cfg, device, ls[..|ls| - 1], f) && l.watch == l.session
    ensures Obeys(Apply(l, cfg, ls[|ls| - 1]), cfg, device, ls, f)
  {
    BatchMeetsItsFates(l, cfg, ls[|ls| - 1].got, BATCH, f);
    assert l.toInterface + [] == l.toInterface;
  }

  lemma HolderObeys(l: Link, cfg: Config, device: bool, ls: seq<Label>, f: Fate)
    requires ls != [] && Obeys(l, cfg, device, ls[..|ls| - 1], f) && Enabled(l, ls[|ls| - 1])
    requires !ls[|ls| - 1].Binary? && !ls[|ls| - 1].Wake?
    ensures Obeys(Apply(l, cfg, ls[|ls| - 1]), cfg, device, ls, f)
  {
    assert l.toInterface + [] == l.toInterface && l.toChannel + [] == l.toChannel;
  }

  lemma StepObeys(l: Link, cfg: Config, device: bool, ls: seq<Label>, f: Fate)
    requires ls != [] && Obeys(l, cfg, device, ls[..|ls| - 1], f) && l.watch == l.session && Enabled(l, ls[|ls| - 1])
    ensures Obeys(Apply(l, cfg, ls[|ls| - 1]), cfg, device, ls, f)
  {
    match ls[|ls| - 1]
    case Binary(_, _, _) => BinaryObeys(l, cfg, device, ls, f);
    case Wake(_) => WakeObeys(l, cfg, device, ls, f);
    case _ => HolderObeys(l, cfg, device, ls, f);
  }

  /**
   After any run the link is whose the rules say, exactly the packets that meet every condition got
   through, each in its turn, and every counter is the number of packets since the last open that met
   its fate: through, or dropped for the first condition unmet.
   */
  lemma {:induction false} LinkObeysTheRules(cfg: Config, device: bool, ls: seq<Label>, f: Fate)
    requires After(cfg, device, ls).Some?
    ensures Obeys(After(cfg, device, ls).value, cfg, device, ls, f)
  {
    if ls != [] {
      LinkObeysTheRules(cfg, device, ls[..|ls| - 1], f);
      RunsKeepInv(cfg, device, ls[..|ls| - 1]);
      StepObeys(After(cfg, device, ls[..|ls| - 1]).value, cfg, device, ls, f);
    }
  }

  // ------------------------------------------------------------------ the object

  class NetCapability {
    const cfg: Config
    var device: bool
    var linkSession: string
    var watch: string
    var counters: Counters
    ghost var handled: nat
    var toInterface: seq<Passed>
    var toChannel: seq<Passed>
    ghost var inAt: nat
    ghost var outAt: nat

    ghost function View(): Link
      reads this
    {
      Link(device, linkSession, watch, counters, handled, toInterface, toChannel, inAt, outAt)
    }

    constructor (cfg: Config, device: bool)
      ensures this.cfg == cfg && View() == Start(device)
    {
      this.cfg, this.device := cfg, device;
      linkSession, watch, counters, handled, toInterface, toChannel := "", "", ZERO, 0, [], [];
      inAt, outAt := 0, 0;
    }

    method CloseLink()
      modifies this
      ensures View() == ClosedLink(old(View()))
    {
      if linkSession == "" { return; }
      linkSession, watch := "", "";
    }

    method SessionDetached(id: string)
      modifies this
      ensures View() == ClosedBy(old(View()), id)
    {
      if linkSession == id { CloseLink(); }
    }

    /** `stale`: how many packets the interface had queued. */
    method OpenLink(id: string, stale: nat) returns (answer: Answer)
      modifies this
      ensures View() == OpenedBy(old(View()), id) && answer == OpenAnswer(old(View()))
    {
      if linkSession != "" { return Busy; }
      if !device { return Unavailable; }
      counters := counters.(noPeer := counters.noPeer + stale);
      counters, handled := ZERO, 0;
      inAt, outAt := |toInterface|, |toChannel|;
      linkSession, watch := id, id;
      return Opened;
    }

    method OnBinary(id: string, p: seq<Byte>, ok: bool)
      modifies this
      ensures View() == Arrived(old(View()), cfg, id, p, ok)
    {
      handled := handled + 1;
      if linkSession != id || !device {
        counters := counters.(noPeer := counters.noPeer + 1);
        return;
      }
      if |p| > cfg.mtu {
        counters := counters.(mtu := counters.mtu + 1);
        return;
      }
      var verdict := Check(Inspect(p), cfg.self, cfg.peer, cfg.ports);
      if verdict != Allow {
        counters := counters.(policy := counters.policy + 1);
        return;
      }
      if !ok {
        counters := counters.(queue := counters.queue + 1);
        return;
      }
      toInterface := toInterface + [Passed(id, linkSession, p)];
      counters := counters.(rx := counters.rx + 1, rxBytes := counters.rxBytes + |p|);
    }

    method Forward(p: seq<Byte>, ok: bool)
      modifies this
      ensures View() == Took(old(View()), cfg, Packet(p, ok))
    {
      handled := handled + 1;
      if |p| > cfg.mtu {
        counters := counters.(mtu := counters.mtu + 1);
        return;
      }
      var verdict := Check(Inspect(p), cfg.peer, cfg.self, []);
      if verdict != Allow {
        counters := counters.(policy := counters.policy + 1);
        return;
      }
      if !ok {
        counters := counters.(queue := counters.queue + 1);
        return;
      }
      toChannel := toChannel + [Passed(watch, linkSession, p)];
      counters := counters.(tx := counters.tx + 1, txBytes := counters.txBytes + |p|);
    }

    /** The interface is readable: a bounded batch, so that nothing else waits for long. */
    method OnReadable(got: seq<Read>)
      modifies this
      ensures View() == Readable(old(View()), cfg, got)
    {
      if linkSession != watch {
        watch := "";
        return;
      }
      ghost var start := View();
      var batch := 0;
      while batch < BATCH
        invariant batch <= BATCH && batch <= |got|
        invariant Batched(View(), cfg, got[batch..], BATCH - batch) == Batched(start, cfg, got, BATCH)
      {
        BatchedStep(View(), cfg, got, batch, BATCH - batch);
        if batch == |got| || got[batch].Nothing? { return; }
        if got[batch].Packet? { Forward(got[batch].p, got[batch].ok); }
        batch := batch + 1;
      }
    }

    method ShutDown()
      modifies this
      ensures View() == ClosedLink(old(View())).(device := false)
    {
      CloseLink();
      device := false;
    }
  }
}
