/**
 The desktop's input device (agent/modules/desktop-mutter/eis_input.cpp:145-206): keys and buttons
 sent to the compositor, released together, and text typed through the keymap, against what the
 compositor makes of the events it is sent.
 */
module EisInput {
  import opened Common

  datatype Event = Key(code: nat, down: bool) | Button(code: nat, down: bool)

  /** One character as keys: hold `modifiers`, press and release `key`. */
  datatype Stroke = Stroke(key: nat, modifiers: seq<nat>)

  /** `keyboard`, `pointer`: whether a resumed device with keys, with buttons, is there. */
  datatype Eis = Eis(keys: set<nat>, buttons: set<nat>, keyboard: bool, pointer: bool, trace: seq<Event>)

  // ------------------------------------------------------------------ what the compositor sees

  /** The keys down after a sequence of events. */
  function KeysDown(trace: seq<Event>): set<nat> {
    if trace == [] then {}
    else
      var before := KeysDown(trace[..|trace| - 1]);
      match trace[|trace| - 1]
      case Key(c, down) => if down then before + {c} else before - {c}
      case Button(_, _) => before
  }

  function ButtonsDown(trace: seq<Event>): set<nat> {
    if trace == [] then {}
    else
      var before := ButtonsDown(trace[..|trace| - 1]);
      match trace[|trace| - 1]
      case Button(c, down) => if down then before + {c} else before - {c}
      case Key(_, _) => before
  }

  /** Event `i` changes something: a press of what was up or a release of what was down. */
  predicate Changes(trace: seq<Event>, i: nat)
    requires i < |trace|
  {
    match trace[i]
    case Key(c, down) => down != (c in KeysDown(trace[..i]))
    case Button(c, down) => down != (c in ButtonsDown(trace[..i]))
  }

  /** Per key and per button, presses and releases strictly alternate, beginning with a press. */
  ghost predicate Alternates(trace: seq<Event>) {
    forall i :: 0 <= i < |trace| ==> Changes(trace, i)
  }

  /** The device knows which keys are down at the compositor. */
  ghost predicate KeysInStep(e: Eis) { e.keys == KeysDown(e.trace) && Alternates(e.trace) }

  /** The device knows what is down at the compositor. */
  ghost predicate InStep(e: Eis) { KeysInStep(e) && e.buttons == ButtonsDown(e.trace) }

  // ------------------------------------------------------------------ the operations

  function KeyOn(e: Eis, code: nat, down: bool): Eis {
    if !e.keyboard || down == (code in e.keys) then e
    else e.(trace := e.trace + [Key(code, down)], keys := if down then e.keys + {code} else e.keys - {code})
  }

  function ButtonOn(e: Eis, code: nat, down: bool): Eis {
    if !e.pointer || down == (code in e.buttons) then e
    else e.(trace := e.trace + [Button(code, down)], buttons := if down then e.buttons + {code} else e.buttons - {code})
  }

  function KeysOn(e: Eis, codes: seq<nat>, down: bool): Eis {
    if codes == [] then e else KeyOn(KeysOn(e, codes[..|codes| - 1], down), codes[|codes| - 1], down)
  }

  function ButtonsOff(e: Eis, codes: seq<nat>): Eis {
    if codes == [] then e else ButtonOn(ButtonsOff(e, codes[..|codes| - 1]), codes[|codes| - 1], false)
  }

  /** The elements of a set, smallest first. */
  ghost predicate IsAscending(s: set<nat>, r: seq<nat>) {
    && (forall i :: 0 <= i < |r| ==> r[i] in s)
    && (forall x :: x in s ==> x in r)
    && (forall i, j :: 0 <= i < j < |r| ==> r[i] < r[j])
  }

  method Ascending(s: set<nat>) returns (r: seq<nat>)
    ensures IsAscending(s, r)
  {
    r := [];
    var rest := s;
    while rest != {}
      invariant rest <= s && (forall i :: 0 <= i < |r| ==> r[i] in s && forall x :: x in rest ==> r[i] < x)
      invariant forall x :: x in s ==> x in rest || x in r
      invariant forall i, j :: 0 <= i < j < |r| ==> r[i] < r[j]
      decreases rest
    {
      var m :| m in rest;
      var others := rest - {m};
      while others != {}
        invariant m in rest && others <= rest && forall x :: x in rest && x !in others ==> m <= x
        decreases others
      {
        var x :| x in others;
        if x < m { m := x; }
        others := others - {x};
      }
      r, rest := r + [m], rest - {m};
    }
  }

  lemma {:induction false} AscendingExists(s: set<nat>) returns (r: seq<nat>)
    ensures IsAscending(s, r)
  {
    if s == {} { return []; }
    var m := Greatest(s);
    r := AscendingExists(s - {m});
    forall i | 0 <= i < |r| ensures r[i] < m { assert r[i] in s - {m}; }
    r := r + [m];
  }

  lemma {:induction false} Greatest(s: set<nat>) returns (m: nat)
    requires s != {}
    ensures m in s && forall x :: x in s ==> x <= m
  {
    var some :| some in s;
    m := some;
    if s - {some} != {} {
      var n := Greatest(s - {some});
      m := if n > some then n else some;
    }
    assert forall x :: x in s ==> x == some || x in s - {some};
  }

  lemma {:induction false} AscendingIsUnique(s: set<nat>, r: seq<nat>, q: seq<nat>)
    requires IsAscending(s, r) && IsAscending(s, q)
    ensures r == q
  {
    if r != [] {
      var a, b := r[|r| - 1], q[|q| - 1];
      assert a in q && b in r;
      assert a == b;
      AscendingInit(s, r);
      AscendingInit(s, q);
      AscendingIsUnique(s - {a}, r[..|r| - 1], q[..|q| - 1]);
    }
  }

  lemma AscendingInit(s: set<nat>, r: seq<nat>)
    requires IsAscending(s, r) && r != []
    ensures IsAscending(s - {r[|r| - 1]}, r[..|r| - 1])
  {
    var q := r[..|r| - 1];
    forall x | x in s - {r[|r| - 1]} ensures x in q {
      var i :| 0 <= i < |r| && r[i] == x;
      assert q[i] == x;
    }
  }

  ghost function Order(s: set<nat>): (r: seq<nat>)
    ensures IsAscending(s, r)
  {
    assert exists r :: IsAscending(s, r) by { var q := AscendingExists(s); }
    var r :| IsAscending(s, r);
    r
  }

  /** Release what is held, keys first, smallest code first; then forget it, sent or not. */
  ghost function ReleasedAll(e: Eis): Eis {
    ButtonsOff(KeysOn(e, Order(e.keys), false), Order(e.buttons)).(keys := {}, buttons := {})
  }

  // ------------------------------------------------------------------ staying in step

  lemma TraceGrows(trace: seq<Event>, ev: Event)
    requires Alternates(trace) && Changes(trace + [ev], |trace|)
    ensures Alternates(trace + [ev])
  {
    forall i | 0 <= i < |trace| ensures Changes(trace + [ev], i) {
      assert (trace + [ev])[..i] == trace[..i] && Changes(trace, i);
    }
  }

  lemma KeyStaysInStep(e: Eis, code: nat, down: bool)
    requires KeysInStep(e)
    ensures var r := KeyOn(e, code, down);
            KeysInStep(r) && ButtonsDown(r.trace) == ButtonsDown(e.trace) && (InStep(e) ==> InStep(r))
  {
    assert (e.trace + [Key(code, down)])[..|e.trace|] == e.trace;
    if KeyOn(e, code, down) != e { TraceGrows(e.trace, Key(code, down)); }
  }

  lemma ButtonStaysInStep(e: Eis, code: nat, down: bool)
    requires InStep(e)
    ensures InStep(ButtonOn(e, code, down))
  {
    assert (e.trace + [Button(code, down)])[..|e.trace|] == e.trace;
    if ButtonOn(e, code, down) != e { TraceGrows(e.trace, Button(code, down)); }
  }

  /** What pressing or letting go of keys leaves alone, and which keys it leaves down. */
  lemma {:induction false} KeysOnFrame(e: Eis, codes: seq<nat>, down: bool)
    ensures var r := KeysOn(e, codes, down);
            r.buttons == e.buttons && r.keyboard == e.keyboard && r.pointer == e.pointer
    ensures !e.keyboard ==> KeysOn(e, codes, down) == e
    ensures e.keyboard && !down ==> KeysOn(e, codes, down).keys == set x | x in e.keys && x !in codes
    ensures e.keyboard && down ==> KeysOn(e, codes, down).keys == e.keys + SetOf(codes)
  {
    if codes != [] {
      KeysOnFrame(e, codes[..|codes| - 1], down);
      assert codes == codes[..|codes| - 1] + [codes[|codes| - 1]];
    }
  }

  lemma {:induction false} ButtonsOffFrame(e: Eis, codes: seq<nat>)
    ensures var r := ButtonsOff(e, codes); r.keys == e.keys && r.keyboard == e.keyboard && r.pointer == e.pointer
    ensures !e.pointer ==> ButtonsOff(e, codes) == e
    ensures e.pointer ==> ButtonsOff(e, codes).buttons == set x | x in e.buttons && x !in codes
  {
    if codes != [] {
      ButtonsOffFrame(e, codes[..|codes| - 1]);
      assert codes == codes[..|codes| - 1] + [codes[|codes| - 1]];
    }
  }

  lemma {:induction false} KeysStayInStep(e: Eis, codes: seq<nat>, down: bool)
    requires KeysInStep(e)
    ensures var r := KeysOn(e, codes, down);
            KeysInStep(r) && ButtonsDown(r.trace) == ButtonsDown(e.trace) && (InStep(e) ==> InStep(r))
  {
    if codes != [] {
      KeysStayInStep(e, codes[..|codes| - 1], down);
      KeyStaysInStep(KeysOn(e, codes[..|codes| - 1], down), codes[|codes| - 1], down);
    }
  }

  lemma {:induction false} ButtonsStayInStep(e: Eis, codes: seq<nat>)
    requires InStep(e)
    ensures InStep(ButtonsOff(e, codes))
  {
    if codes != [] {
      ButtonsStayInStep(e, codes[..|codes| - 1]);
      ButtonStaysInStep(ButtonsOff(e, codes[..|codes| - 1]), codes[|codes| - 1], false);
    }
  }

  /**
   After releasing everything nothing is down at the compositor, and the device is in step with it,
   exactly when it had a device for what it held.
   */
  lemma ReleaseAllReleases(e: Eis)
    requires InStep(e)
    ensures var r := ReleasedAll(e);
            var usable := (e.keyboard || e.keys == {}) && (e.pointer || e.buttons == {});
            && (InStep(r) <==> usable)
            && (KeysDown(r.trace) == {} <==> e.keyboard || e.keys == {})
            && (ButtonsDown(r.trace) == {} <==> e.pointer || e.buttons == {})
            && Alternates(r.trace)
  {
    var k := KeysOn(e, Order(e.keys), false);
    KeysStayInStep(e, Order(e.keys), false);
    KeysOnFrame(e, Order(e.keys), false);
    ButtonsStayInStep(k, Order(e.buttons));
    ButtonsOffFrame(k, Order(e.buttons));
    assert forall x :: x in e.keys ==> x in Order(e.keys);
    assert forall x :: x in e.buttons ==> x in Order(e.buttons);
  }

  /** With a key held and no keyboard device, release-all leaves the key down and forgets it. */
  lemma ReleaseAllWithoutDevice()
    ensures var e := Eis({30}, {}, false, true, [Key(30, true)]);
            InStep(e) && ReleasedAll(e).keys == {} && KeysDown(ReleasedAll(e).trace) == {30}
  {
    var e := Eis({30}, {}, false, true, [Key(30, true)]);
    assert e.trace[..0] == [];
    assert KeysDown(e.trace) == {30};
    KeysOnFrame(e, Order(e.keys), false);
    AscendingIsUnique({}, Order({}), []);
  }

  // ------------------------------------------------------------------ typing text

  function SetOf(s: seq<nat>): set<nat> { set c | c in s }

  function Reversed(s: seq<nat>): seq<nat> { seq(|s|, i requires 0 <= i < |s| => s[|s| - 1 - i]) }

  function Events(codes: seq<nat>, down: bool): seq<Event> {
    seq(|codes|, i requires 0 <= i < |codes| => Key(codes[i], down))
  }

  function StrokeOn(e: Eis, s: Stroke): Eis {
    KeysOn(KeyOn(KeyOn(KeysOn(e, s.modifiers, true), s.key, true), s.key, false), Reversed(s.modifiers), false)
  }

  function TypedOn(e: Eis, strokes: seq<Stroke>): Eis {
    if strokes == [] then e else StrokeOn(TypedOn(e, strokes[..|strokes| - 1]), strokes[|strokes| - 1])
  }

  /** Every code where it first appears. */
  function Once(codes: seq<nat>): seq<nat> {
    if codes == [] then []
    else
      var before, last := Once(codes[..|codes| - 1]), codes[|codes| - 1];
      if last in codes[..|codes| - 1] then before else before + [last]
  }

  function StrokeEvents(s: Stroke): seq<Event> {
    Events(Once(s.modifiers), true) + [Key(s.key, true), Key(s.key, false)] + Events(Once(Reversed(s.modifiers)), false)
  }

  function TypedEvents(strokes: seq<Stroke>): seq<Event> {
    if strokes == [] then [] else TypedEvents(strokes[..|strokes| - 1]) + StrokeEvents(strokes[|strokes| - 1])
  }

  /** A stroke whose key is not one of its own modifiers. */
  predicate Typable(s: Stroke) { s.key !in s.modifiers }

  lemma {:induction false} OnceMembers(codes: seq<nat>)
    ensures SetOf(Once(codes)) == SetOf(codes)
  {
    if codes != [] {
      OnceMembers(codes[..|codes| - 1]);
      LastOf(codes);
    }
  }

  lemma LastOf(codes: seq<nat>)
    requires codes != []
    ensures SetOf(codes) == SetOf(codes[..|codes| - 1]) + {codes[|codes| - 1]}
  {
    assert codes == codes[..|codes| - 1] + [codes[|codes| - 1]];
  }

  /** Codes that are all up, or all down: each is changed once, where it first appears. */
  lemma {:induction false} KeysOnTrace(e: Eis, codes: seq<nat>, down: bool)
    requires e.keyboard && forall c :: c in codes ==> down != (c in e.keys)
    ensures KeysOn(e, codes, down)
         == e.(trace := e.trace + Events(Once(codes), down),
               keys := if down then e.keys + SetOf(codes) else e.keys - SetOf(codes))
  {
    if codes == [] {
      assert e.trace + [] == e.trace;
    } else {
      var init, last := codes[..|codes| - 1], codes[|codes| - 1];
      KeysOnTrace(e, init, down);
      LastOf(codes);
      assert last in init <==> last in SetOf(init);
      if last !in init {
        assert Events(Once(codes), down) == Events(Once(init), down) + [Key(last, down)];
        Regroup(e.trace, Events(Once(init), down), [Key(last, down)]);
      }
    }
  }

  lemma ReversedMembers(s: seq<nat>)
    ensures SetOf(Reversed(s)) == SetOf(s)
  {
    forall x | x in s ensures x in Reversed(s) {
      var i :| 0 <= i < |s| && s[i] == x;
      assert Reversed(s)[|s| - 1 - i] == x;
    }
  }

  /** A stroke on an idle keyboard: its modifiers, its key, its modifiers again, and the keyboard idle. */
  lemma StrokeTrace(e: Eis, s: Stroke)
    requires e.keyboard && e.keys == {} && Typable(s)
    ensures StrokeOn(e, s) == e.(trace := e.trace + StrokeEvents(s))
  {
    var downs, tap, ups := Events(Once(s.modifiers), true), [Key(s.key, true), Key(s.key, false)],
      Once(Reversed(s.modifiers));
    KeysOnTrace(e, s.modifiers, true);
    var held := KeysOn(e, s.modifiers, true);
    assert {} + SetOf(s.modifiers) == SetOf(s.modifiers);
    var tapped := KeyOn(KeyOn(held, s.key, true), s.key, false);
    assert held.keys + {s.key} - {s.key} == held.keys;
    assert held.trace + [Key(s.key, true)] + [Key(s.key, false)] == held.trace + tap;
    StrokeReleases(tapped, s);
    Regroup(e.trace, downs, tap);
    Regroup(e.trace, downs + tap, Events(ups, false));
  }

  lemma StrokeReleases(e: Eis, s: Stroke)
    requires e.keyboard && e.keys == SetOf(s.modifiers)
    ensures KeysOn(e, Reversed(s.modifiers), false)
         == e.(trace := e.trace + Events(Once(Reversed(s.modifiers)), false), keys := {})
  {
    ReversedMembers(s.modifiers);
    assert forall c :: c in Reversed(s.modifiers) ==> c in SetOf(Reversed(s.modifiers));
    KeysOnTrace(e, Reversed(s.modifiers), false);
  }

  lemma {:induction false} TypedTrace(e: Eis, strokes: seq<Stroke>)
    requires e.keyboard && e.keys == {} && forall i :: 0 <= i < |strokes| ==> Typable(strokes[i])
    ensures TypedOn(e, strokes) == e.(trace := e.trace + TypedEvents(strokes))
  {
    if strokes == [] {
      assert e.trace + [] == e.trace;
    } else {
      var init := strokes[..|strokes| - 1];
      TypedTrace(e, init);
      StrokeTrace(TypedOn(e, init), strokes[|strokes| - 1]);
      Regroup(e.trace, TypedEvents(init), StrokeEvents(strokes[|strokes| - 1]));
    }
  }

  // ------------------------------------------------------------------ what was typed

  function StepDown(down: set<nat>, ev: Event): set<nat> {
    match ev
    case Key(c, d) => if d then down + {c} else down - {c}
    case Button(_, _) => down
  }

  /** The keys that were pressed and let go at once, each with what was held at the time. */
  function Taps(down: set<nat>, evs: seq<Event>): seq<(nat, set<nat>)>
    decreases evs
  {
    if |evs| < 2 then []
    else (if evs[0].Key? && evs[0].down && evs[1] == Key(evs[0].code, false) then [(evs[0].code, down)] else [])
         + Taps(StepDown(down, evs[0]), evs[1..])
  }

  function DownAfter(down: set<nat>, evs: seq<Event>): set<nat>
    decreases evs
  {
    if evs == [] then down else DownAfter(StepDown(down, evs[0]), evs[1..])
  }

  lemma {:induction false} TapsOfReleases(down: set<nat>, codes: seq<nat>)
    ensures Taps(down, Events(codes, false)) == []
    decreases codes
  {
    if |codes| > 0 {
      assert Events(codes, false)[1..] == Events(codes[1..], false);
      TapsOfReleases(StepDown(down, Key(codes[0], false)), codes[1..]);
    }
  }

  lemma {:induction false} TapsAfterPresses(down: set<nat>, codes: seq<nat>, rest: seq<Event>)
    requires rest != [] && rest[0].Key? && rest[0].down
    ensures Taps(down, Events(codes, true) + rest) == Taps(down + SetOf(codes), rest)
    decreases codes
  {
    var evs := Events(codes, true) + rest;
    if codes == [] {
      assert evs == rest && down + SetOf(codes) == down;
    } else {
      assert evs[1..] == Events(codes[1..], true) + rest;
      TapsAfterPresses(down + {codes[0]}, codes[1..], rest);
      assert down + {codes[0]} + SetOf(codes[1..]) == down + SetOf(codes);
      assert evs[1].down;
    }
  }

  lemma StrokeTaps(s: Stroke)
    ensures Taps({}, StrokeEvents(s)) == [(s.key, SetOf(s.modifiers))]
  {
    var mods, ups := SetOf(s.modifiers), Once(Reversed(s.modifiers));
    var rest := [Key(s.key, true), Key(s.key, false)] + Events(ups, false);
    assert StrokeEvents(s) == Events(Once(s.modifiers), true) + rest;
    OnceMembers(s.modifiers);
    TapsAfterPresses({}, Once(s.modifiers), rest);
    assert {} + mods == mods;
    assert rest[1..] == Events([s.key] + ups, false);
    TapsOfReleases(mods + {s.key}, [s.key] + ups);
  }

  /** Cut after a release, the taps of the two parts are the taps of the whole. */
  lemma {:induction false} TapsAppend(down: set<nat>, a: seq<Event>, b: seq<Event>)
    requires a == [] || !a[|a| - 1].down
    ensures Taps(down, a + b) == Taps(down, a) + Taps(DownAfter(down, a), b)
    decreases a
  {
    if a == [] {
      assert a + b == b;
    } else {
      assert (a + b)[1..] == a[1..] + b;
      TapsAppend(StepDown(down, a[0]), a[1..], b);
    }
  }

  lemma {:induction false} DownAfterAppend(down: set<nat>, a: seq<Event>, b: seq<Event>)
    ensures DownAfter(down, a + b) == DownAfter(DownAfter(down, a), b)
    decreases a
  {
    if a == [] {
      assert a + b == b;
    } else {
      assert (a + b)[1..] == a[1..] + b;
      DownAfterAppend(StepDown(down, a[0]), a[1..], b);
    }
  }

  lemma {:induction false} DownAfterEvents(down: set<nat>, codes: seq<nat>, up: bool)
    ensures DownAfter(down, Events(codes, !up)) == if up then down - SetOf(codes) else down + SetOf(codes)
    decreases codes
  {
    if codes != [] {
      assert Events(codes, !up)[1..] == Events(codes[1..], !up);
      DownAfterEvents(StepDown(down, Key(codes[0], !up)), codes[1..], up);
    }
  }

  lemma TapLeaves(down: set<nat>, key: nat)
    ensures DownAfter(down, [Key(key, true), Key(key, false)]) == down - {key}
  {
    var b := [Key(key, true), Key(key, false)];
    assert b[1..] == [Key(key, false)] && b[1..][1..] == [];
    assert DownAfter(down + {key}, b[1..]) == DownAfter(down + {key} - {key}, []);
    assert down + {key} - {key} == down - {key};
  }

  lemma StrokeLeavesNothing(s: Stroke)
    ensures DownAfter({}, StrokeEvents(s)) == {}
  {
    var downs, ups := Once(s.modifiers), Once(Reversed(s.modifiers));
    var a, b, c := Events(downs, true), [Key(s.key, true), Key(s.key, false)], Events(ups, false);
    DownAfterAppend({}, a + b, c);
    DownAfterAppend({}, a, b);
    DownAfterEvents({}, downs, false);
    DownAfterEvents(DownAfter({}, a + b), ups, true);
    var mods := SetOf(s.modifiers);
    assert {} + mods == mods;
    TapLeaves(mods, s.key);
    ReversedMembers(s.modifiers);
    OnceMembers(s.modifiers);
    OnceMembers(Reversed(s.modifiers));
  }

  /** What is typed: every stroke's key, once, in order, with exactly that stroke's modifiers held. */
  lemma {:induction false} TextIsTyped(strokes: seq<Stroke>)
    ensures |Taps({}, TypedEvents(strokes))| == |strokes|
    ensures forall i :: 0 <= i < |strokes| ==>
              Taps({}, TypedEvents(strokes))[i] == (strokes[i].key, SetOf(strokes[i].modifiers))
    ensures DownAfter({}, TypedEvents(strokes)) == {}
    ensures strokes != [] ==> TypedEvents(strokes) != [] && !TypedEvents(strokes)[|TypedEvents(strokes)| - 1].down
  {
    if strokes != [] {
      var init, last := strokes[..|strokes| - 1], strokes[|strokes| - 1];
      TextIsTyped(init);
      TapsAppend({}, TypedEvents(init), StrokeEvents(last));
      DownAfterAppend({}, TypedEvents(init), StrokeEvents(last));
      StrokeTaps(last);
      StrokeLeavesNothing(last);
    }
  }

  /** A tap reported with its own key among the held ones: what a stroke may ask for and not get. */
  predicate HeldTap(t: (nat, set<nat>)) { t.0 in t.1 }

  /** In an alternating trace nothing is tapped while it is already held. */
  lemma {:induction false} AlternatingTaps(before: seq<Event>, evs: seq<Event>)
    requires Alternates(before + evs)
    ensures forall i :: 0 <= i < |Taps(KeysDown(before), evs)| ==> !HeldTap(Taps(KeysDown(before), evs)[i])
    decreases evs
  {
    if |evs| >= 2 {
      var next := before + [evs[0]];
      assert next + evs[1..] == before + evs;
      assert next[..|before|] == before && (before + evs)[..|before|] == before;
      assert (before + evs)[|before|] == evs[0] && Changes(before + evs, |before|);
      AlternatingTaps(next, evs[1..]);
      assert KeysDown(next) == StepDown(KeysDown(before), evs[0]);
    }
  }

  /** On an idle keyboard a stroke is typed as asked exactly when its key is not one of its modifiers. */
  lemma StrokeIsTypedIff(e: Eis, s: Stroke)
    requires InStep(e) && e.keyboard && e.keys == {}
    ensures var r := StrokeOn(e, s);
            e.trace <= r.trace && (Taps({}, r.trace[|e.trace|..]) == [(s.key, SetOf(s.modifiers))]
                                   <==> s.key !in s.modifiers)
  {
    var r := StrokeOn(e, s);
    StrokeStaysInStep(e, s);
    if s.key !in s.modifiers {
      StrokeTrace(e, s);
      assert r.trace[|e.trace|..] == StrokeEvents(s);
      StrokeTaps(s);
    } else {
      var evs := r.trace[|e.trace|..];
      assert e.trace + evs == r.trace;
      AlternatingTaps(e.trace, evs);
      assert HeldTap((s.key, SetOf(s.modifiers)));
      assert Taps({}, evs) != [] ==> !HeldTap(Taps({}, evs)[0]);
    }
  }

  /** A stroke whose key is its own modifier: the key goes down and up once, with nothing held. */
  lemma StrokeHoldingItsKey()
    ensures var r := StrokeOn(Eis({}, {}, true, true, []), Stroke(42, [42]));
            Taps({}, r.trace) != [(42, {42})]
  {
    var e := Eis({}, {}, true, true, []);
    StrokeIsTypedIff(e, Stroke(42, [42]));
    assert StrokeOn(e, Stroke(42, [42])).trace[0..] == StrokeOn(e, Stroke(42, [42])).trace;
    assert SetOf([42]) == {42};
  }

  lemma {:induction false} KeysOnExtends(e: Eis, codes: seq<nat>, down: bool)
    ensures e.trace <= KeysOn(e, codes, down).trace
  {
    if codes != [] { KeysOnExtends(e, codes[..|codes| - 1], down); }
  }

  /** What a stroke leaves alone, whatever its key and modifiers. */
  lemma StrokeStaysInStep(e: Eis, s: Stroke)
    requires KeysInStep(e)
    ensures var r := StrokeOn(e, s);
            && KeysInStep(r) && ButtonsDown(r.trace) == ButtonsDown(e.trace) && (InStep(e) ==> InStep(r))
            && e.trace <= r.trace && r.buttons == e.buttons && r.keyboard == e.keyboard && r.pointer == e.pointer
  {
    var a := KeysOn(e, s.modifiers, true);
    var b := KeyOn(a, s.key, true);
    var c := KeyOn(b, s.key, false);
    KeysStayInStep(e, s.modifiers, true);
    KeysOnFrame(e, s.modifiers, true);
    KeysOnFrame(c, Reversed(s.modifiers), false);
    KeysOnExtends(e, s.modifiers, true);
    KeyStaysInStep(a, s.key, true);
    KeyStaysInStep(b, s.key, false);
    KeysStayInStep(c, Reversed(s.modifiers), false);
    KeysOnExtends(c, Reversed(s.modifiers), false);
  }

  lemma StrokeHoldsNothing(e: Eis, s: Stroke)
    requires e.keyboard && e.keys == {}
    ensures StrokeOn(e, s).keys == {}
  {
    var a := KeysOn(e, s.modifiers, true);
    var c := KeyOn(KeyOn(a, s.key, true), s.key, false);
    KeysOnFrame(e, s.modifiers, true);
    KeysOnFrame(c, Reversed(s.modifiers), false);
    ReversedMembers(s.modifiers);
    assert forall x :: x in c.keys ==> x in SetOf(s.modifiers);
    assert forall x :: x in SetOf(Reversed(s.modifiers)) ==> x in Reversed(s.modifiers);
  }

  lemma {:induction false} TypedStaysInStep(e: Eis, strokes: seq<Stroke>)
    requires KeysInStep(e)
    ensures var r := TypedOn(e, strokes);
            && KeysInStep(r) && ButtonsDown(r.trace) == ButtonsDown(e.trace) && (InStep(e) ==> InStep(r))
            && e.trace <= r.trace && r.buttons == e.buttons && r.keyboard == e.keyboard && r.pointer == e.pointer
            && (e.keyboard && e.keys == {} ==> r.keys == {})
  {
    if strokes != [] {
      var init, last := strokes[..|strokes| - 1], strokes[|strokes| - 1];
      TypedStaysInStep(e, init);
      StrokeStaysInStep(TypedOn(e, init), last);
      if e.keyboard && e.keys == {} { StrokeHoldsNothing(TypedOn(e, init), last); }
    }
  }

  // ------------------------------------------------------------------ text to strokes

  type Keymap = map<nat, Stroke>

  /** The characters of `text` the keymap has no stroke for, each once, in order of first appearance. */
  function Untypable(keymap: Keymap, text: seq<nat>): seq<nat> {
    if text == [] then []
    else
      var before, c := Untypable(keymap, text[..|text| - 1]), text[|text| - 1];
      if c in keymap || c in before then before else before + [c]
  }

  function Strokes(keymap: Keymap, text: seq<nat>): (r: seq<Stroke>) {
    if text == [] then []
    else
      var before, c := Strokes(keymap, text[..|text| - 1]), text[|text| - 1];
      if c in keymap then before + [keymap[c]] else before
  }

  lemma {:induction false} UntypableMembers(keymap: Keymap, text: seq<nat>)
    ensures NoDuplicates(Untypable(keymap, text))
    ensures forall c :: c in Untypable(keymap, text) <==> c in text && c !in keymap
  {
    if text != [] {
      UntypableMembers(keymap, text[..|text| - 1]);
      assert text == text[..|text| - 1] + [text[|text| - 1]];
    }
  }

  lemma {:induction false} StrokesOfTypable(keymap: Keymap, text: seq<nat>)
    requires Untypable(keymap, text) == []
    ensures |Strokes(keymap, text)| == |text|
    ensures forall i :: 0 <= i < |text| ==> text[i] in keymap && Strokes(keymap, text)[i] == keymap[text[i]]
  {
    if text != [] { StrokesOfTypable(keymap, text[..|text| - 1]); }
  }

  /** What typing `text` does: nothing when it cannot all be typed. */
  ghost function TypedText(e: Eis, keymap: Option<Keymap>, text: seq<nat>): Eis {
    if !e.keyboard || keymap.None? || Untypable(keymap.value, text) != [] then e
    else TypedOn(ReleasedAll(e), Strokes(keymap.value, text))
  }

  /** Every character's key tapped once, in order, with exactly its modifiers held. */
  predicate AsAsked(typed: seq<Event>, strokes: seq<Stroke>) {
    var taps := Taps({}, typed);
    |taps| == |strokes| && forall i :: 0 <= i < |strokes| ==> taps[i] == (strokes[i].key, SetOf(strokes[i].modifiers))
  }

  lemma TypedAsAskedIff(e: Eis, strokes: seq<Stroke>)
    requires KeysInStep(e) && e.keyboard && e.keys == {}
    ensures e.trace <= TypedOn(e, strokes).trace
    ensures AsAsked(TypedOn(e, strokes).trace[|e.trace|..], strokes)
            <==> forall i :: 0 <= i < |strokes| ==> Typable(strokes[i])
  {
    TypedStaysInStep(e, strokes);
    var r := TypedOn(e, strokes);
    var evs := r.trace[|e.trace|..];
    if forall i :: 0 <= i < |strokes| ==> Typable(strokes[i]) {
      TypedTrace(e, strokes);
      assert evs == TypedEvents(strokes);
      TextIsTyped(strokes);
    } else {
      var i :| 0 <= i < |strokes| && !Typable(strokes[i]);
      assert e.trace + evs == r.trace;
      AlternatingTaps(e.trace, evs);
      assert HeldTap((strokes[i].key, SetOf(strokes[i].modifiers)));
      assert i < |Taps({}, evs)| ==> !HeldTap(Taps({}, evs)[i]);
    }
  }

  lemma EachIsTypable(keymap: Keymap, text: seq<nat>, strokes: seq<Stroke>)
    requires |strokes| == |text| && forall i :: 0 <= i < |text| ==> text[i] in keymap && strokes[i] == keymap[text[i]]
    ensures (forall i :: 0 <= i < |strokes| ==> Typable(strokes[i]))
            <==> (forall c :: c in text ==> c in keymap && Typable(keymap[c]))
  {
    forall c | c in text && forall i :: 0 <= i < |strokes| ==> Typable(strokes[i])
      ensures c in keymap && Typable(keymap[c]) {
      var i :| 0 <= i < |text| && text[i] == c;
      assert Typable(strokes[i]);
    }
    forall i | 0 <= i < |strokes| && forall c :: c in text ==> c in keymap && Typable(keymap[c])
      ensures Typable(strokes[i]) {
      assert text[i] in text;
    }
  }

  /**
   A text is typed whole or not at all.  When typed: what was held is let go, no key is down at the
   end, and it is typed as asked exactly when no character's key is one of its own modifiers.
   */
  lemma TextIsTypedWhole(e: Eis, keymap: Keymap, text: seq<nat>)
    requires InStep(e)
    ensures var r := TypedText(e, Some(keymap), text);
            if e.keyboard && forall c :: c in text ==> c in keymap then
              ReleasedAll(e).trace <= r.trace &&
              var typed := r.trace[|ReleasedAll(e).trace|..];
              && |Strokes(keymap, text)| == |text|
              && (forall i :: 0 <= i < |text| ==> Strokes(keymap, text)[i] == keymap[text[i]])
              && (AsAsked(typed, Strokes(keymap, text)) <==> forall c :: c in text ==> Typable(keymap[c]))
              && KeysDown(r.trace) == {} && Alternates(r.trace) && (InStep(r) <==> e.pointer || e.buttons == {})
            else r == e
  {
    UntypableMembers(keymap, text);
    if e.keyboard && Untypable(keymap, text) == [] {
      var start, strokes := ReleasedAll(e), Strokes(keymap, text);
      ReleaseAllReleases(e);
      ReleasedDevices(e);
      StrokesOfTypable(keymap, text);
      TypedAsAskedIff(start, strokes);
      TypedStaysInStep(start, strokes);
      EachIsTypable(keymap, text, strokes);
      assert forall c :: c in text ==> c in keymap;
    } else if e.keyboard {
      assert Untypable(keymap, text)[0] in Untypable(keymap, text);
    }
  }

  lemma ReleasedDevices(e: Eis)
    ensures ReleasedAll(e).keyboard == e.keyboard && ReleasedAll(e).pointer == e.pointer
    ensures ReleasedAll(e).keys == {} && ReleasedAll(e).buttons == {}
  {
    KeysOnFrame(e, Order(e.keys), false);
    ButtonsOffFrame(KeysOn(e, Order(e.keys), false), Order(e.buttons));
  }

  // ------------------------------------------------------------------ the device itself

  class Device {
    var heldKeys: set<nat>
    var heldButtons: set<nat>
    var keyboard: bool
    var pointer: bool
    /** Everything sent to the compositor. */
    var sent: seq<Event>

    ghost function View(): Eis reads this { Eis(heldKeys, heldButtons, keyboard, pointer, sent) }

    constructor (keyboard: bool, pointer: bool)
      ensures View() == Eis({}, {}, keyboard, pointer, []) && InStep(View())
    {
      heldKeys, heldButtons, sent := {}, {}, [];
      this.keyboard, this.pointer := keyboard, pointer;
    }

    method PressKey(code: nat, down: bool)
      modifies this
      ensures View() == KeyOn(old(View()), code, down)
    {
      if !keyboard || down == (code in heldKeys) { return; }
      sent := sent + [Key(code, down)];
      if down { heldKeys := heldKeys + {code}; } else { heldKeys := heldKeys - {code}; }
    }

    method PressButton(code: nat, down: bool)
      modifies this
      ensures View() == ButtonOn(old(View()), code, down)
    {
      if !pointer || down == (code in heldButtons) { return; }
      sent := sent + [Button(code, down)];
      if down { heldButtons := heldButtons + {code}; } else { heldButtons := heldButtons - {code}; }
    }

    method PressKeys(codes: seq<nat>, down: bool)
      modifies this
      ensures View() == KeysOn(old(View()), codes, down)
    {
      for i := 0 to |codes|
        invariant View() == KeysOn(old(View()), codes[..i], down)
      {
        PressKey(codes[i], down);
        assert codes[..i + 1][..i] == codes[..i];
      }
      assert codes[..|codes|] == codes;
    }

    method ReleaseButtons(codes: seq<nat>)
      modifies this
      ensures View() == ButtonsOff(old(View()), codes)
    {
      for i := 0 to |codes|
        invariant View() == ButtonsOff(old(View()), codes[..i])
      {
        PressButton(codes[i], false);
        assert codes[..i + 1][..i] == codes[..i];
      }
      assert codes[..|codes|] == codes;
    }

    /** Release what is held, keys first; the sets are walked in ascending order, from copies. */
    method ReleaseAll()
      modifies this
      ensures View() == ReleasedAll(old(View()))
    {
      var ks := Ascending(heldKeys);
      AscendingIsUnique(heldKeys, ks, Order(heldKeys));
      KeysOnFrame(View(), ks, false);
      PressKeys(ks, false);
      var bs := Ascending(heldButtons);
      AscendingIsUnique(heldButtons, bs, Order(heldButtons));
      ReleaseButtons(bs);
      heldKeys, heldButtons := {}, {};
    }

    /** The strokes of a text, and the characters that have none. */
    method LookUp(text: seq<nat>, keymap: Keymap) returns (strokes: seq<Stroke>, untypable: seq<nat>)
      ensures strokes == Strokes(keymap, text) && untypable == Untypable(keymap, text)
    {
      strokes, untypable := [], [];
      for i := 0 to |text|
        invariant untypable == Untypable(keymap, text[..i]) && strokes == Strokes(keymap, text[..i])
      {
        assert text[..i + 1][..i] == text[..i];
        if text[i] in keymap {
          strokes := strokes + [keymap[text[i]]];
        } else if text[i] !in untypable {
          untypable := untypable + [text[i]];
        }
      }
      assert text[..|text|] == text;
    }

    method TypeStroke(s: Stroke)
      modifies this
      ensures View() == StrokeOn(old(View()), s)
    {
      PressKeys(s.modifiers, true);
      PressKey(s.key, true);
      PressKey(s.key, false);
      PressKeys(Reversed(s.modifiers), false);
    }

    method TypeStrokes(strokes: seq<Stroke>)
      modifies this
      ensures View() == TypedOn(old(View()), strokes)
    {
      for i := 0 to |strokes|
        invariant View() == TypedOn(old(View()), strokes[..i])
      {
        TypeStroke(strokes[i]);
        assert strokes[..i + 1][..i] == strokes[..i];
      }
      assert strokes[..|strokes|] == strokes;
    }

    /** The first error is the missing device or keymap; the second names what cannot be typed. */
    method TypeText(text: seq<nat>, keymap: Option<Keymap>) returns (untypable: seq<nat>, error: bool)
      modifies this
      ensures View() == TypedText(old(View()), keymap, text)
      ensures error <==> !old(keyboard) || keymap.None?
      ensures untypable == if error then [] else Untypable(keymap.value, text)
    {
      if !keyboard || keymap.None? { return [], true; }
      error := false;
      var strokes;
      strokes, untypable := LookUp(text, keymap.value);
      if untypable != [] { return; }
      ReleaseAll();
      TypeStrokes(strokes);
    }
  }
}
