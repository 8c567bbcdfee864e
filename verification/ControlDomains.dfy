/**
 Who holds each control domain, and whose input must be released when that changes
 (agent/src/core/control_domains.cpp, agent/src/core/control_domains.hpp).  Times are nanoseconds of
 a steady clock and are passed in.
 */
module ControlDomains {
  import opened Common

  const DESKTOP_IDLE := 5_000_000_000
  const STALE := 30_000_000_000

  datatype Why = Claim | Take | Release | Idle | Stale | Gone

  /** `sinceMs` is wall-clock time, told to operators and never compared. */
  datatype Holder = Holder(op: string, sinceMs: int, lastInput: int, lastHeartbeat: int)

  datatype Change = Change(domain: string, release: Option<string>, why: Why)

  /** `idle`: a desktop freed by idleness, and the operator who may still have input down there. */
  datatype Domains = Domains(held: map<string, Holder>, idle: map<string, string>)

  const NOBODY := Domains(map[], map[])

  predicate HeldBy(d: Domains, domain: string, op: string) { domain in d.held && d.held[domain].op == op }

  /** The operator who may have input down in a domain: its holder, or else the idle holder before. */
  function Suspect(d: Domains, domain: string): Option<string> {
    if domain in d.held then Some(d.held[domain].op)
    else if domain in d.idle then Some(d.idle[domain])
    else None
  }

  ghost predicate Disjoint(d: Domains) { d.held.Keys !! d.idle.Keys }

  // ------------------------------------------------------------------ the operations

  function Claimed(d: Domains, domain: string, op: string, now: int, ms: int): Domains {
    Domains(d.held[domain := Holder(op, ms, now, now)], d.idle - {domain})
  }

  /** Whose input a claim by `op` releases. */
  function ClaimReleases(d: Domains, domain: string, op: string): Option<string> {
    if domain in d.held && d.held[domain].op != op then Some(d.held[domain].op)
    else if domain in d.idle && d.idle[domain] != op then Some(d.idle[domain])
    else None
  }

  function Touched(d: Domains, domain: string, now: int): Domains
    requires domain in d.held
  {
    d.(held := d.held[domain := d.held[domain].(lastInput := now)])
  }

  function Inputted(d: Domains, domain: string, op: string, now: int, ms: int): (Domains, bool, Option<Change>) {
    if domain !in d.held then (Claimed(d, domain, op, now, ms), true,
                               Some(Change(domain, ClaimReleases(d, domain, op), Claim)))
    else if d.held[domain].op != op then (d, false, None)
    else (Touched(d, domain, now), true, None)
  }

  function Taken(d: Domains, domain: string, op: string, now: int, ms: int): (Domains, Option<Change>) {
    if HeldBy(d, domain, op) then (Touched(d, domain, now), None)
    else (Claimed(d, domain, op, now, ms), Some(Change(domain, ClaimReleases(d, domain, op), Take)))
  }

  function Freed(d: Domains, domain: string, op: string): (Domains, Option<Change>) {
    if !HeldBy(d, domain, op) then (d, None)
    else (d.(held := d.held - {domain}), Some(Change(domain, Some(op), Release)))
  }

  function Left(d: Domains, domain: string, op: string): (Domains, Option<Change>) {
    var e := if domain in d.idle && d.idle[domain] == op then d.(idle := d.idle - {domain}) else d;
    if !HeldBy(e, domain, op) then (e, None)
    else (e.(held := e.held - {domain}), Some(Change(domain, None, Gone)))
  }

  function Beat(d: Domains, op: string, now: int): Domains {
    d.(held := map k | k in d.held :: if d.held[k].op == op then d.held[k].(lastHeartbeat := now) else d.held[k])
  }

  predicate IsStale(h: Holder, now: int) { now - h.lastHeartbeat > STALE }

  predicate IsIdle(domain: string, h: Holder, now: int) {
    !IsStale(h, now) && domain == "desktop" && now - h.lastInput > DESKTOP_IDLE
  }

  predicate Drops(d: Domains, domain: string, now: int) {
    domain in d.held && (IsStale(d.held[domain], now) || IsIdle(domain, d.held[domain], now))
  }

  function Expired(d: Domains, now: int): Domains {
    Domains(map k | k in d.held && !Drops(d, k, now) :: d.held[k],
            d.idle + map k | k in d.held && IsIdle(k, d.held[k], now) :: d.held[k].op)
  }

  function DropChange(d: Domains, domain: string, now: int): Change
    requires Drops(d, domain, now)
  {
    if IsStale(d.held[domain], now) then Change(domain, Some(d.held[domain].op), Stale) else Change(domain, None, Idle)
  }

  /** In the order of domain names. */
  predicate Ascending(out: seq<Change>) {
    forall i, j :: 0 <= i < j < |out| ==> Before(out[i].domain, out[j].domain)
  }

  /** `out` reports every dropped domain exactly once, in order, and nothing else. */
  ghost predicate ReportsExpiry(d: Domains, now: int, out: seq<Change>) {
    && (forall i :: 0 <= i < |out| ==> Drops(d, out[i].domain, now) && out[i] == DropChange(d, out[i].domain, now))
    && (forall k :: Drops(d, k, now) ==> DropChange(d, k, now) in out)
    && Ascending(out)
  }

  lemma ExpiredHoldersAreFresh(d: Domains, now: int)
    ensures forall k :: k in Expired(d, now).held ==>
              var h := Expired(d, now).held[k];
              && h == d.held[k] && now - h.lastHeartbeat <= STALE
              && (k == "desktop" ==> now - h.lastInput <= DESKTOP_IDLE)
    ensures forall k :: k in d.held ==> (k in Expired(d, now).held <==> !Drops(d, k, now))
  {
  }

  /** Each dropped domain is named by exactly one change, wherever it stands in the report. */
  lemma ReportedOnce(d: Domains, now: int, out: seq<Change>, domain: string)
    requires ReportsExpiry(d, now, out)
    ensures Drops(d, domain, now) <==> exists i :: 0 <= i < |out| && out[i].domain == domain
    ensures forall i, j :: 0 <= i < |out| && 0 <= j < |out| && out[i].domain == out[j].domain ==> i == j
  {
    if Drops(d, domain, now) {
      var i :| 0 <= i < |out| && out[i] == DropChange(d, domain, now);
      assert out[i].domain == domain;
    }
    forall i, j | 0 <= i < |out| && 0 <= j < |out| && out[i].domain == out[j].domain ensures i == j {
      BeforeIsTotal(out[i].domain, out[j].domain);
    }
  }

  // ------------------------------------------------------------------ the object

  class Control {
    var held: map<string, Holder>
    var idlePrevious: map<string, string>

    ghost function View(): Domains reads this { Domains(held, idlePrevious) }

    constructor ()
      ensures View() == NOBODY
    {
      held, idlePrevious := map[], map[];
    }

    method DoClaim(domain: string, op: string, now: int, ms: int, why: Why) returns (c: Change)
      modifies this
      ensures View() == Claimed(old(View()), domain, op, now, ms)
      ensures c == Change(domain, ClaimReleases(old(View()), domain, op), why)
    {
      var release := None;
      if domain in held && held[domain].op != op { release := Some(held[domain].op); }
      if domain in idlePrevious {
        if release.None? && idlePrevious[domain] != op { release := Some(idlePrevious[domain]); }
        idlePrevious := idlePrevious - {domain};
      }
      held := held[domain := Holder(op, ms, now, now)];
      c := Change(domain, release, why);
      assert idlePrevious == old(idlePrevious) - {domain};
    }

    method Input(domain: string, op: string, now: int, ms: int) returns (allowed: bool, c: Option<Change>)
      modifies this
      ensures (View(), allowed, c) == Inputted(old(View()), domain, op, now, ms)
    {
      if domain !in held {
        var change := DoClaim(domain, op, now, ms, Claim);
        return true, Some(change);
      }
      if held[domain].op != op { return false, None; }
      held := held[domain := held[domain].(lastInput := now)];
      return true, None;
    }

    method TakeControl(domain: string, op: string, now: int, ms: int) returns (c: Option<Change>)
      modifies this
      ensures (View(), c) == Taken(old(View()), domain, op, now, ms)
    {
      if domain in held && held[domain].op == op {
        held := held[domain := held[domain].(lastInput := now)];
        return None;
      }
      var change := DoClaim(domain, op, now, ms, Take);
      return Some(change);
    }

    method ReleaseControl(domain: string, op: string) returns (c: Option<Change>)
      modifies this
      ensures (View(), c) == Freed(old(View()), domain, op)
    {
      if domain !in held || held[domain].op != op { return None; }
      held := held - {domain};
      return Some(Change(domain, Some(op), Release));
    }

    method OperatorGone(domain: string, op: string) returns (c: Option<Change>)
      modifies this
      ensures (View(), c) == Left(old(View()), domain, op)
    {
      if domain in idlePrevious && idlePrevious[domain] == op { idlePrevious := idlePrevious - {domain}; }
      if domain !in held || held[domain].op != op { return None; }
      held := held - {domain};
      return Some(Change(domain, None, Gone));
    }

    method Heartbeat(op: string, now: int)
      modifies this
      ensures View() == Beat(old(View()), op, now)
    {
      var rest := held.Keys;
      while rest != {}
        invariant rest <= held.Keys == old(held).Keys && idlePrevious == old(idlePrevious)
        invariant forall k :: k in held ==>
                    held[k] == if k in rest then old(held)[k] else Beat(old(View()), op, now).held[k]
        decreases rest
      {
        var k :| k in rest;
        if held[k].op == op { held := held[k := held[k].(lastHeartbeat := now)]; }
        rest := rest - {k};
      }
    }

    method Expire(now: int) returns (out: seq<Change>)
      modifies this
      ensures View() == Expired(old(View()), now)
      ensures ReportsExpiry(old(View()), now, out)
    {
      ghost var was := View();
      var rest := held.Keys;
      out := [];
      NoneLooked(was, now);
      while rest != {}
        invariant rest <= was.held.Keys
        invariant held == HeldOutside(was, rest, now) && idlePrevious == IdleOutside(was, rest, now)
        invariant ReportsOutside(was, rest, now, out)
        decreases rest
      {
        rest, out := ExpireNext(now, rest, out, was);
      }
      AllLooked(was, now);
    }

    /** The first domain not looked at yet. */
    method ExpireNext(now: int, rest: set<string>, out: seq<Change>, ghost was: Domains)
      returns (rest': set<string>, out': seq<Change>)
      requires rest != {} && rest <= was.held.Keys
      requires held == HeldOutside(was, rest, now) && idlePrevious == IdleOutside(was, rest, now)
      requires ReportsOutside(was, rest, now, out)
      modifies this
      ensures rest' < rest && ReportsOutside(was, rest', now, out')
      ensures held == HeldOutside(was, rest', now) && idlePrevious == IdleOutside(was, rest', now)
    {
      var k := First(rest);
      HeldLooked(was, rest, now, k);
      IdleLooked(was, rest, now, k);
      if Drops(was, k, now) { ReportGrows(was, rest, now, out, k); } else { NothingReported(was, rest, now, out, k); }
      var change := LookAt(k, now);
      rest', out' := rest - {k}, if change.Some? then out + [change.value] else out;
    }

    method LookAt(k: string, now: int) returns (change: Option<Change>)
      requires k in held
      modifies this
      ensures held == if Drops(old(View()), k, now) then old(held) - {k} else old(held)
      ensures idlePrevious
              == if IsIdle(k, old(held)[k], now) then old(idlePrevious)[k := old(held)[k].op] else old(idlePrevious)
      ensures change == if Drops(old(View()), k, now) then Some(DropChange(old(View()), k, now)) else None
    {
      var h := held[k];
      if now - h.lastHeartbeat > STALE {
        held := held - {k};
        return Some(Change(k, Some(h.op), Stale));
      }
      if k == "desktop" && now - h.lastInput > DESKTOP_IDLE {
        idlePrevious := idlePrevious[k := h.op];
        held := held - {k};
        return Some(Change(k, None, Idle));
      }
      return None;
    }
  }

  ghost function HeldOutside(d: Domains, rest: set<string>, now: int): map<string, Holder> {
    map k | k in d.held && (k in rest || !Drops(d, k, now)) :: d.held[k]
  }

  /** The idle predecessors once every domain outside `rest` has been looked at. */
  ghost function IdleOutside(d: Domains, rest: set<string>, now: int): map<string, string> {
    d.idle + map k | k in d.held && k !in rest && IsIdle(k, d.held[k], now) :: d.held[k].op
  }

  ghost predicate ReportsOutside(d: Domains, rest: set<string>, now: int, out: seq<Change>) {
    && (forall i :: 0 <= i < |out| ==>
          out[i].domain !in rest && Drops(d, out[i].domain, now) && out[i] == DropChange(d, out[i].domain, now))
    && (forall k :: k !in rest && Drops(d, k, now) ==> DropChange(d, k, now) in out)
    && Ascending(out) && forall i, x :: 0 <= i < |out| && x in rest ==> Before(out[i].domain, x)
  }

  lemma NoneLooked(d: Domains, now: int)
    ensures HeldOutside(d, d.held.Keys, now) == d.held && IdleOutside(d, d.held.Keys, now) == d.idle
  {
  }

  lemma AllLooked(d: Domains, now: int)
    ensures HeldOutside(d, {}, now) == Expired(d, now).held && IdleOutside(d, {}, now) == Expired(d, now).idle
  {
  }

  // Looking at one more domain.

  lemma HeldLooked(d: Domains, rest: set<string>, now: int, k: string)
    requires k in rest && rest <= d.held.Keys
    ensures HeldOutside(d, rest - {k}, now)
         == if Drops(d, k, now) then HeldOutside(d, rest, now) - {k} else HeldOutside(d, rest, now)
  {
  }

  lemma IdleLooked(d: Domains, rest: set<string>, now: int, k: string)
    requires k in rest && rest <= d.held.Keys
    ensures IdleOutside(d, rest - {k}, now)
         == if IsIdle(k, d.held[k], now) then IdleOutside(d, rest, now)[k := d.held[k].op]
            else IdleOutside(d, rest, now)
  {
  }

  lemma NothingReported(d: Domains, rest: set<string>, now: int, out: seq<Change>, k: string)
    requires ReportsOutside(d, rest, now, out) && k in rest && !Drops(d, k, now)
    ensures ReportsOutside(d, rest - {k}, now, out)
  {
  }

  lemma ReportGrows(d: Domains, rest: set<string>, now: int, out: seq<Change>, k: string)
    requires ReportsOutside(d, rest, now, out) && k in rest && Drops(d, k, now)
    requires forall x :: x in rest && x != k ==> Before(k, x)
    ensures ReportsOutside(d, rest - {k}, now, out + [DropChange(d, k, now)])
  {
    var more := out + [DropChange(d, k, now)];
    forall i | 0 <= i < |more|
      ensures more[i].domain !in rest - {k} && Drops(d, more[i].domain, now)
              && more[i] == DropChange(d, more[i].domain, now)
    {
      assert i < |out| ==> more[i] == out[i];
    }
  }

  // ------------------------------------------------------------------ every run

  /** `down`: the (domain, operator) pairs with input down, as far as input has been let through. */
  datatype State = State(d: Domains, down: set<(string, string)>)

  datatype Label =
    | DoInput(domain: string, op: string, now: int, ms: int)
    | DoTake(domain: string, op: string, now: int, ms: int)
    | DoRelease(domain: string, op: string)
    | DoGone(domain: string, op: string)
    | DoHeartbeat(op: string, now: int)
    | DoExpire(now: int)

  /** An operator is only reported gone once its sessions let go of their own input. */
  predicate Enabled(s: State, l: Label) { l.DoGone? ==> (l.domain, l.op) !in s.down }

  /** The owner of a change does what it says before anything else happens in the domain. */
  function Heed(down: set<(string, string)>, c: Option<Change>): set<(string, string)> {
    if c.Some? && c.value.release.Some? then down - {(c.value.domain, c.value.release.value)} else down
  }

  function Apply(s: State, l: Label): State {
    match l
    case DoInput(domain, op, now, ms) =>
      var (d, allowed, c) := Inputted(s.d, domain, op, now, ms);
      State(d, if allowed then Heed(s.down, c) + {(domain, op)} else s.down)
    case DoTake(domain, op, now, ms) => var (d, c) := Taken(s.d, domain, op, now, ms); State(d, Heed(s.down, c))
    case DoRelease(domain, op) => var (d, c) := Freed(s.d, domain, op); State(d, Heed(s.down, c))
    case DoGone(domain, op) => var (d, c) := Left(s.d, domain, op); State(d, Heed(s.down, c))
    case DoHeartbeat(op, now) => State(Beat(s.d, op, now), s.down)
    case DoExpire(now) =>
      State(Expired(s.d, now),
            set p | p in s.down && !(p.0 in s.d.held && IsStale(s.d.held[p.0], now) && s.d.held[p.0].op == p.1))
  }

  function After(ls: seq<Label>): Option<State> {
    if ls == [] then Some(State(NOBODY, {}))
    else
      var before := After(ls[..|ls| - 1]);
      if before.None? || !Enabled(before.value, ls[|ls| - 1]) then None else Some(Apply(before.value, ls[|ls| - 1]))
  }

  /** Input is down only for the one operator a change would name. */
  ghost predicate Inv(s: State) {
    Disjoint(s.d) && forall p :: p in s.down ==> Suspect(s.d, p.0) == Some(p.1)
  }

  lemma ExpiredSuspect(d: Domains, now: int, domain: string)
    requires Disjoint(d)
    ensures Disjoint(Expired(d, now))
    ensures Suspect(Expired(d, now), domain)
         == if domain in d.held && IsStale(d.held[domain], now) then None else Suspect(d, domain)
  {
  }

  lemma StepKeepsInv(s: State, l: Label)
    requires Inv(s) && Enabled(s, l)
    ensures Inv(Apply(s, l))
  {
    var t := Apply(s, l);
    forall p | p in t.down ensures Suspect(t.d, p.0) == Some(p.1) {
      if l.DoExpire? { ExpiredSuspect(s.d, l.now, p.0); }
    }
    if l.DoExpire? { ExpiredSuspect(s.d, l.now, ""); }
  }

  lemma {:induction false} RunsKeepInv(ls: seq<Label>)
    requires After(ls).Some?
    ensures Inv(After(ls).value)
  {
    if ls != [] {
      RunsKeepInv(ls[..|ls| - 1]);
      StepKeepsInv(After(ls[..|ls| - 1]).value, ls[|ls| - 1]);
    }
  }

  /** After any run: domains held and domains with an idle predecessor are disjoint. */
  lemma HeldAndIdleAreDisjoint(ls: seq<Label>)
    requires After(ls).Some?
    ensures After(ls).value.d.held.Keys !! After(ls).value.d.idle.Keys
  {
    RunsKeepInv(ls);
  }

  /**
   After any run, when an operator's input is allowed in a domain, every other operator with input
   down there is the one the change says to release: after it only this operator has input down.
   */
  lemma AllowedAloneInDomain(ls: seq<Label>, domain: string, op: string, now: int, ms: int)
    requires After(ls).Some? && Inputted(After(ls).value.d, domain, op, now, ms).1
    ensures var s := After(ls).value; var c := Inputted(s.d, domain, op, now, ms).2;
            && (forall x :: (domain, x) in s.down && x != op ==> c.Some? && c.value == Change(domain, Some(x), Claim))
            && (forall x :: (domain, x) in Apply(s, DoInput(domain, op, now, ms)).down ==> x == op)
  {
    RunsKeepInv(ls);
    var t := Apply(After(ls).value, DoInput(domain, op, now, ms));
    StepKeepsInv(After(ls).value, DoInput(domain, op, now, ms));
    forall x | (domain, x) in t.down ensures x == op { assert Suspect(t.d, domain) == Some(x); }
    forall x | (domain, x) in After(ls).value.down && x != op
      ensures var c := Inputted(After(ls).value.d, domain, op, now, ms).2;
              c.Some? && c.value == Change(domain, Some(x), Claim)
    {
      assert Suspect(After(ls).value.d, domain) == Some(x);
    }
  }

  // ------------------------------------------------------------------ one domain, from the labels alone

  /** Who has a domain, with the times of their last input and heartbeat, and who had it before and fell idle. */
  datatype Seat = Seat(holder: Option<Holding>, idle: Option<string>)

  datatype Holding = Holding(op: string, input: int, beat: int)

  predicate Has(s: Seat, op: string) { s.holder.Some? && s.holder.value.op == op }

  function Sit(op: string, now: int): Seat { Seat(Some(Holding(op, now, now)), None) }

  function Seated(ls: seq<Label>, domain: string): Seat {
    if ls == [] then Seat(None, None) else Next(Seated(ls[..|ls| - 1], domain), ls[|ls| - 1], domain)
  }

  function Next(s: Seat, l: Label, domain: string): Seat {
    match l
    case DoInput(k, op, now, _) =>
      if k != domain || (s.holder.Some? && !Has(s, op)) then s else if Has(s, op) then Used(s, now) else Sit(op, now)
    case DoTake(k, op, now, _) => if k != domain then s else if Has(s, op) then Used(s, now) else Sit(op, now)
    case DoRelease(k, op) => if k == domain && Has(s, op) then s.(holder := None) else s
    case DoGone(k, op) =>
      if k != domain then s
      else Seat(if Has(s, op) then None else s.holder, if s.idle == Some(op) then None else s.idle)
    case DoHeartbeat(op, now) => if Has(s, op) then s.(holder := Some(s.holder.value.(beat := now))) else s
    case DoExpire(now) => Aged(s, domain, now)
  }

  function Used(s: Seat, now: int): Seat
    requires s.holder.Some?
  {
    s.(holder := Some(s.holder.value.(input := now)))
  }

  /** Nobody heard from for too long keeps a domain; who only stopped using the desktop is remembered. */
  function Aged(s: Seat, domain: string, now: int): Seat {
    if s.holder.None? then s
    else if now - s.holder.value.beat > STALE then s.(holder := None)
    else if domain == "desktop" && now - s.holder.value.input > DESKTOP_IDLE then Seat(None, Some(s.holder.value.op))
    else s
  }

  function SeatIn(d: Domains, domain: string): Seat {
    Seat(if domain in d.held
         then Some(Holding(d.held[domain].op, d.held[domain].lastInput, d.held[domain].lastHeartbeat)) else None,
         if domain in d.idle then Some(d.idle[domain]) else None)
  }

  lemma SeatLapses(d: Domains, now: int, domain: string)
    requires Disjoint(d)
    ensures SeatIn(Expired(d, now), domain) == Aged(SeatIn(d, domain), domain, now)
  {
    assert domain in d.held ==> (domain in Expired(d, now).held <==> !Drops(d, domain, now));
  }

  lemma SeatMoves(s: State, l: Label, domain: string)
    requires !l.DoExpire?
    ensures SeatIn(Apply(s, l).d, domain) == Next(SeatIn(s.d, domain), l, domain)
  {
  }

  /** After any run every domain is whose its own inputs, takeovers, releases, heartbeats and lapses make it. */
  lemma {:induction false} EveryDomainIsWhoseItIs(ls: seq<Label>, domain: string)
    requires After(ls).Some?
    ensures SeatIn(After(ls).value.d, domain) == Seated(ls, domain)
  {
    if ls != [] {
      EveryDomainIsWhoseItIs(ls[..|ls| - 1], domain);
      RunsKeepInv(ls[..|ls| - 1]);
      var s, l := After(ls[..|ls| - 1]).value, ls[|ls| - 1];
      if l.DoExpire? { SeatLapses(s.d, l.now, domain); } else { SeatMoves(s, l, domain); }
    }
  }

  /** Input is refused exactly when another operator holds the domain; allowed, it is the operator's from now on. */
  lemma RefusedIffAnothers(d: Domains, domain: string, op: string, now: int, ms: int)
    ensures var (e, allowed, _) := Inputted(d, domain, op, now, ms);
            && (!allowed <==> domain in d.held && d.held[domain].op != op)
            && (!allowed ==> e == d)
            && (allowed ==> HeldBy(e, domain, op) && e.held[domain].lastInput == now)
            && (forall k :: k in d.held && k != domain ==> k in e.held && e.held[k] == d.held[k])
  {
  }

  /** After any run, by what happened in it. */
  lemma RefusedAfterRun(ls: seq<Label>, domain: string, op: string, now: int, ms: int)
    requires After(ls).Some?
    ensures var (e, allowed, _) := Inputted(After(ls).value.d, domain, op, now, ms); var seat := Seated(ls, domain);
            && (!allowed <==> seat.holder.Some? && seat.holder.value.op != op)
            && (allowed ==> HeldBy(e, domain, op) && e.held[domain].lastInput == now)
  {
    EveryDomainIsWhoseItIs(ls, domain);
    RefusedIffAnothers(After(ls).value.d, domain, op, now, ms);
  }

  /** A claim or a takeover names `x` for release exactly when `x` is another operator that may have input down. */
  lemma ReleaseNamesTheSuspect(d: Domains, domain: string, op: string, now: int, ms: int, x: string)
    requires Disjoint(d)
    ensures var (_, c) := Taken(d, domain, op, now, ms);
            (c.Some? && c.value.release == Some(x)) <==> Suspect(d, domain) == Some(x) && x != op
    ensures var (_, allowed, c) := Inputted(d, domain, op, now, ms);
            (c.Some? && c.value.release == Some(x)) <==> domain !in d.held && Suspect(d, domain) == Some(x) && x != op
  {
  }
}
