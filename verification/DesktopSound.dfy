/**
 The desktop's sound: the agent's half (agent/modules/common/desktop_sound.cpp:91-216), the helper's
 half (agent/desktop-session/main.cpp:85-150, 274-305) and the two queues between them.  An output is
 its name, "" for none.  Whether PipeWire hands a stream over, and when outputs, listeners, pauses and
 connections change, is up to the environment.
 */
module DesktopSound {
  import opened Common

  /** `fd`: the message brings a descriptor. */
  datatype ToAgent =
    | Hello
    | Speakers(name: string)
    | AudioStarted(id: nat, name: string, fd: bool)
    | AudioFailed(id: nat, noOutput: bool)

  datatype ToHelper = Welcome | StartAudio(id: nat)

  /**
   `made`: the source was asked for.  `id`: the request in flight or answered, 0 for none.
   `reader`: the output being read.  `failed`: that request came to nothing.
   */
  datatype Agent = Agent(made: bool, present: bool, speakers: string, paused: bool, wanted: bool, available: bool,
                         id: nat, nextId: nat, reader: Option<string>, failed: bool)

  datatype Helper = Helper(welcomed: bool, told: Option<string>, sink: string)

  // ------------------------------------------------------------------ the agent's operations

  predicate HasOutput(a: Agent) { a.made && a.present && a.speakers != "" && !a.paused }

  function Updated(a: Agent): Agent { if a.made then a.(available := HasOutput(a)) else a }

  predicate Asks(a: Agent) { a.made && a.wanted && a.available }

  function Requested(a: Agent): Agent {
    if Asks(a) then a.(id := a.nextId, nextId := a.nextId + 1, failed := false) else a
  }

  function Request(a: Agent): seq<ToHelper> { if Asks(a) then [StartAudio(a.nextId)] else [] }

  function Dropped(a: Agent): Agent { if a.made then a.(reader := None, id := 0, failed := false) else a }

  function Made(a: Agent): Agent { if a.made then a else Updated(a.(made := true)) }

  /** The pipeline starts or stops running: only a change is reported. */
  function Listening(a: Agent, running: bool): Agent {
    if !a.made || running == a.wanted then a
    else if running then Requested(a.(wanted := true))
    else a.(wanted := false, reader := None, id := 0, failed := false)
  }

  function ListeningSends(a: Agent, running: bool): seq<ToHelper> {
    if !a.made || running == a.wanted || !running then [] else Request(a.(wanted := true))
  }

  function Present(a: Agent, present: bool): Agent {
    if present == a.present then a
    else if present then Updated(a.(present := true))
    else Updated(Dropped(a.(present := false, speakers := "")))
  }

  function Paused(a: Agent, paused: bool): Agent {
    if paused == a.paused then a
    else if paused then Updated(Dropped(a.(paused := true)))
    else Requested(Updated(a.(paused := false)))
  }

  function PausedSends(a: Agent, paused: bool): seq<ToHelper> {
    if paused == a.paused || paused then [] else Request(Updated(a.(paused := false)))
  }

  function NewOutput(a: Agent, name: string): Agent { Updated(Dropped(a.(speakers := name))) }

  /** A message of the helper; `ok`: the reader could be started. */
  function Handled(a: Agent, m: ToAgent, ok: bool): Agent {
    match m
    case Hello => Present(Paused(a, false), true)
    case Speakers(name) => if name == a.speakers then a else Requested(NewOutput(a, name))
    case AudioStarted(id, name, fd) =>
      if id != a.id || !a.made || !fd then a
      else if ok then a.(reader := Some(name))
      else a.(reader := None, failed := true)
    case AudioFailed(id, _) => if id != a.id then a else a.(id := 0, failed := true)
  }

  function HandledSends(a: Agent, m: ToAgent): seq<ToHelper> {
    match m
    case Hello => [Welcome] + PausedSends(a, false)
    case Speakers(name) => if name == a.speakers then [] else Request(NewOutput(a, name))
    case AudioStarted(_, _, _) => []
    case AudioFailed(_, _) => []
  }

  // ------------------------------------------------------------------ the helper's operations

  function Telling(h: Helper): seq<ToAgent> { if h.welcomed && h.told != Some(h.sink) then [Speakers(h.sink)] else [] }

  function Told(h: Helper): Helper { if h.welcomed then h.(told := Some(h.sink)) else h }

  function Obeyed(h: Helper, m: ToHelper): Helper { if m.Welcome? then Told(h.(welcomed := true)) else h }

  /** `ok`: PipeWire opened a stream on the output. */
  function Answer(h: Helper, m: ToHelper, ok: bool): seq<ToAgent> {
    match m
    case Welcome => Telling(h.(welcomed := true))
    case StartAudio(id) =>
      if !h.welcomed then []
      else if h.sink == "" then [AudioFailed(id, true)]
      else if ok then [AudioStarted(id, h.sink, true)]
      else [AudioFailed(id, false)]
  }

  // ------------------------------------------------------------------ runs

  /** `up`, `there`: the agent's, the helper's end of the connection is open. */
  datatype State = State(a: Agent, h: Helper, up: bool, there: bool, toAgent: seq<ToAgent>, toHelper: seq<ToHelper>)

  datatype Label =
    | MakeSource
    | Listen(running: bool)
    | Pause(paused: bool)
    | ChangeOutput(sink: string)
    | Connect
    | AgentReceives(ok: bool)
    | HelperReceives(ok: bool)
    | HelperLeaves
    | AgentSeesEnd
    | AgentHangsUp
    | HelperSeesEnd

  predicate Enabled(s: State, l: Label) {
    match l
    case Connect => !s.up && !s.there
    case AgentReceives(_) => s.up && s.toAgent != []
    case HelperReceives(_) => s.there && s.toHelper != []
    case HelperLeaves => s.there
    case AgentSeesEnd => s.up && !s.there && s.toAgent == []
    case AgentHangsUp => s.up
    case HelperSeesEnd => s.there && !s.up && s.toHelper == []
    case _ => true
  }

  /** Sending into a connection whose other end is closed goes nowhere. */
  function AgentSends(s: State, ms: seq<ToHelper>): State {
    if s.up && s.there then s.(toHelper := s.toHelper + ms) else s
  }

  function HelperSends(s: State, ms: seq<ToAgent>): State {
    if s.up && s.there then s.(toAgent := s.toAgent + ms) else s
  }

  function HelperGone(s: State): State {
    s.(there := false, toHelper := [], h := s.h.(welcomed := false, told := None))
  }

  function Apply(s: State, l: Label): State
    requires Enabled(s, l)
  {
    match l
    case MakeSource => s.(a := Made(s.a))
    case Listen(running) => AgentSends(s.(a := Listening(s.a, running)), ListeningSends(s.a, running))
    case Pause(paused) => AgentSends(s.(a := Paused(s.a, paused)), PausedSends(s.a, paused))
    case ChangeOutput(sink) => var h := s.h.(sink := sink); HelperSends(s.(h := Told(h)), Telling(h))
    case Connect => s.(up := true, there := true, toAgent := [Hello], toHelper := [])
    case AgentReceives(ok) =>
      AgentSends(s.(a := Handled(s.a, s.toAgent[0], ok), toAgent := s.toAgent[1..]), HandledSends(s.a, s.toAgent[0]))
    case HelperReceives(ok) =>
      HelperSends(s.(h := Obeyed(s.h, s.toHelper[0]), toHelper := s.toHelper[1..]), Answer(s.h, s.toHelper[0], ok))
    case HelperLeaves => HelperGone(s)
    case AgentSeesEnd => s.(up := false, a := Present(s.a, false))
    case AgentHangsUp => s.(up := false, a := Present(s.a, false), toAgent := [])
    case HelperSeesEnd => HelperGone(s)
  }

  const START := State(Agent(false, false, "", false, false, false, 0, 1, None, false),
                       Helper(false, None, ""), false, false, [], [])

  function After(ls: seq<Label>): Option<State> {
    if ls == [] then Some(START)
    else
      var before := After(ls[..|ls| - 1]);
      if before.None? || !Enabled(before.value, ls[|ls| - 1]) then None else Some(Apply(before.value, ls[|ls| - 1]))
  }

  // ------------------------------------------------------------------ what the queues say

  /** The output the agent will know once it has read the queue. */
  function WillKnow(q: seq<ToAgent>, speakers: string): string
    decreases q
  {
    if q == [] then speakers else WillKnow(q[1..], if q[0].Speakers? then q[0].name else speakers)
  }

  /** Every answer in the queue is about the output the agent will know when it reads it. */
  predicate Faithful(q: seq<ToAgent>, speakers: string)
    decreases q
  {
    q == [] ||
    match q[0]
    case Hello => Faithful(q[1..], speakers)
    case Speakers(name) => Faithful(q[1..], name)
    case AudioStarted(_, name, fd) => fd && name == speakers && Faithful(q[1..], speakers)
    case AudioFailed(_, noOutput) => (noOutput ==> speakers == "") && Faithful(q[1..], speakers)
  }

  predicate Answers(m: ToAgent, id: nat) { (m.AudioStarted? || m.AudioFailed?) && m.id == id }

  /** How many answers to, or requests with, an id are on their way. */
  function Coming(q: seq<ToAgent>, id: nat): nat
    decreases q
  {
    if q == [] then 0 else (if Answers(q[0], id) then 1 else 0) + Coming(q[1..], id)
  }

  function Asked(q: seq<ToHelper>, id: nat): nat
    decreases q
  {
    if q == [] then 0 else (if q[0] == StartAudio(id) then 1 else 0) + Asked(q[1..], id)
  }

  lemma {:induction false} WillKnowAppend(q: seq<ToAgent>, m: ToAgent, speakers: string)
    ensures WillKnow(q + [m], speakers) == if m.Speakers? then m.name else WillKnow(q, speakers)
    ensures Faithful(q, speakers) ==>
              (Faithful(q + [m], speakers) <==>
                && (m.AudioStarted? ==> m.fd && m.name == WillKnow(q, speakers))
                && (m.AudioFailed? && m.noOutput ==> WillKnow(q, speakers) == ""))
    decreases q
  {
    if q == [] {
      assert q + [m] == [m] && [m][1..] == [];
    } else {
      assert (q + [m])[1..] == q[1..] + [m];
      WillKnowAppend(q[1..], m, if q[0].Speakers? then q[0].name else speakers);
    }
  }

  lemma {:induction false} ComingAppend(q: seq<ToAgent>, m: ToAgent, id: nat)
    ensures Coming(q + [m], id) == Coming(q, id) + if Answers(m, id) then 1 else 0
    decreases q
  {
    if q == [] {
      assert q + [m] == [m] && [m][1..] == [];
    } else {
      assert (q + [m])[1..] == q[1..] + [m];
      ComingAppend(q[1..], m, id);
    }
  }

  lemma {:induction false} AskedAppend(q: seq<ToHelper>, m: ToHelper, id: nat)
    ensures Asked(q + [m], id) == Asked(q, id) + if m == StartAudio(id) then 1 else 0
    decreases q
  {
    if q == [] {
      assert q + [m] == [m] && [m][1..] == [];
    } else {
      assert (q + [m])[1..] == q[1..] + [m];
      AskedAppend(q[1..], m, id);
    }
  }

  lemma {:induction false} NoneComing(q: seq<ToAgent>, id: nat)
    requires forall m :: m in q ==> !Answers(m, id)
    ensures Coming(q, id) == 0
    decreases q
  {
    if q != [] { NoneComing(q[1..], id); }
  }

  lemma {:induction false} NoneAsked(q: seq<ToHelper>, id: nat)
    requires StartAudio(id) !in q
    ensures Asked(q, id) == 0
    decreases q
  {
    if q != [] { NoneAsked(q[1..], id); }
  }

  // ------------------------------------------------------------------ what every step keeps

  /** Without regard to the queues. */
  ghost predicate AgentInv(a: Agent) {
    && a.available == HasOutput(a)
    && (a.wanted ==> a.made)
    && (!a.present ==> a.speakers == "")
    && (a.id != 0 ==> a.wanted && a.available && a.id == a.nextId - 1)
    && (a.reader.Some? ==> a.id != 0 && a.reader.value == a.speakers && !a.failed)
    && (a.wanted && a.available && a.id == 0 ==> a.failed)
    && (a.failed ==> a.wanted && a.available)
    && a.nextId >= 1
  }

  /** Before the helper is welcomed the agent knows no output and asks for nothing. */
  ghost predicate Greeting(s: State) {
    && (!s.up ==> !s.a.present && s.toAgent == [])
    && (!s.there ==> s.toHelper == [] && !s.h.welcomed)
    && (s.up && s.there && !s.h.welcomed ==>
          s.a.speakers == "" &&
          (if s.a.present then s.toAgent == [] && s.toHelper == [Welcome]
           else s.toAgent == [Hello] && s.toHelper == []))
    && (s.up && s.there && s.h.welcomed ==> s.a.present && Welcome !in s.toHelper && Hello !in s.toAgent)
    && (s.up && s.toAgent != [] && s.toAgent != [Hello] ==> s.a.present)
    && (Hello in s.toAgent ==> s.toAgent == [Hello] && !s.a.present)
  }

  ghost predicate Truthful(s: State) {
    && Faithful(s.toAgent, s.a.speakers)
    && s.h.told == (if s.h.welcomed then Some(s.h.sink) else None)
    && (s.up && s.there && s.h.welcomed ==> WillKnow(s.toAgent, s.a.speakers) == s.h.sink)
  }

  ghost predicate OldIds(s: State) {
    && (forall m :: m in s.toAgent && (m.AudioStarted? || m.AudioFailed?) ==> 1 <= m.id < s.a.nextId)
    && (forall m :: m in s.toHelper && m.StartAudio? ==> 1 <= m.id < s.a.nextId)
  }

  function Outcome(a: Agent): nat { if a.reader.Some? || a.failed then 1 else 0 }

  /** The request in flight is in exactly one place, unless the helper took it with it. */
  ghost predicate Accounted(s: State) {
    s.a.id != 0 ==>
      var n := Coming(s.toAgent, s.a.id) + Asked(s.toHelper, s.a.id) + Outcome(s.a);
      n <= 1 && (s.there && s.up ==> n == 1)
  }

  ghost predicate QueueInv(s: State) { Greeting(s) && Truthful(s) && OldIds(s) && Accounted(s) }

  ghost predicate Inv(s: State) { AgentInv(s.a) && QueueInv(s) }

  // ------------------------------------------------------------------ the agent alone

  lemma AgentSteps(a: Agent, flag: bool)
    requires AgentInv(a)
    ensures AgentInv(Made(a)) && AgentInv(Listening(a, flag)) && AgentInv(Paused(a, flag))
            && AgentInv(Present(a, false))
    ensures a.speakers == "" ==> AgentInv(Present(a, true))
  {
  }

  lemma AgentHandles(a: Agent, m: ToAgent, ok: bool)
    requires AgentInv(a) && (m.Hello? || a.present)
    requires m.AudioStarted? && m.id == a.id ==> m.id != 0 && m.name == a.speakers && Outcome(a) == 0
    requires m.AudioFailed? && m.id == a.id ==> m.id != 0 && Outcome(a) == 0
    requires m.Hello? ==> a.speakers == ""
    ensures AgentInv(Handled(a, m, ok))
  {
    if m.Hello? {
      AgentSteps(a, false);
      AgentSteps(Paused(a, false), false);
    }
  }

  /** Dropping the request, leaving it as it is, or replacing it by a new one. */
  ghost predicate Moves(a: Agent, b: Agent, ms: seq<ToHelper>) {
    && b.speakers == a.speakers && b.present == a.present
    && (|| (ms == [] && b.nextId == a.nextId && (b.id == 0 || (b.id == a.id && Outcome(b) == Outcome(a))))
        || (ms == [StartAudio(a.nextId)] && b.id == a.nextId >= 1 && b.nextId == a.nextId + 1
            && Outcome(b) == 0 && b.speakers != ""))
  }

  lemma MovesKeepAccounts(s: State, b: Agent, ms: seq<ToHelper>)
    requires OldIds(s) && Accounted(s) && Moves(s.a, b, ms)
    ensures OldIds(AgentSends(s.(a := b), ms)) && Accounted(AgentSends(s.(a := b), ms))
  {
    var t := AgentSends(s.(a := b), ms);
    if ms == [] {
      assert s.toHelper + [] == s.toHelper;
    } else {
      NoneComing(s.toAgent, b.id);
      NoneAsked(s.toHelper, b.id);
      AskedAppend(s.toHelper, ms[0], b.id);
    }
  }

  lemma MovesKeepQueues(s: State, b: Agent, ms: seq<ToHelper>)
    requires QueueInv(s) && Moves(s.a, b, ms)
    ensures QueueInv(AgentSends(s.(a := b), ms))
  {
    MovesKeepAccounts(s, b, ms);
    assert s.toHelper + [] == s.toHelper;
  }

  lemma MakeKeepsInv(s: State)
    requires Inv(s)
    ensures Inv(Apply(s, MakeSource))
  {
    AgentSteps(s.a, false);
    MovesKeepQueues(s, Made(s.a), []);
    assert s.toHelper + [] == s.toHelper;
  }

  lemma ListenKeepsInv(s: State, running: bool)
    requires Inv(s)
    ensures Inv(Apply(s, Listen(running)))
  {
    AgentSteps(s.a, running);
    MovesKeepQueues(s, Listening(s.a, running), ListeningSends(s.a, running));
  }

  lemma PauseKeepsInv(s: State, paused: bool)
    requires Inv(s)
    ensures Inv(Apply(s, Pause(paused)))
  {
    AgentSteps(s.a, paused);
    MovesKeepQueues(s, Paused(s.a, paused), PausedSends(s.a, paused));
  }

  // ------------------------------------------------------------------ the agent reads a message

  lemma TailMembers<T>(q: seq<T>)
    requires q != []
    ensures forall m :: m in q[1..] ==> m in q
    ensures q[0] in q
  {
  }

  /** Reading an answer: current, it settles the request; late, it changes nothing. */
  lemma AnswerKeepsQueues(s: State, b: Agent)
    requires QueueInv(s) && s.up && s.toAgent != [] && (s.toAgent[0].AudioStarted? || s.toAgent[0].AudioFailed?)
    requires b.speakers == s.a.speakers && b.present == s.a.present && b.nextId == s.a.nextId
    requires if s.toAgent[0].id == s.a.id then b.id == 0 || (b.id == s.a.id && Outcome(b) == 1) else b == s.a
    ensures QueueInv(s.(a := b, toAgent := s.toAgent[1..]))
  {
    TailMembers(s.toAgent);
  }

  lemma HelloKeepsQueues(s: State)
    requires Inv(s) && s.up && s.toAgent != [] && s.toAgent[0].Hello?
    ensures PausedSends(s.a, false) == [] && s.toAgent == [Hello]
    ensures QueueInv(AgentSends(s.(a := Present(Paused(s.a, false), true), toAgent := []), [Welcome]))
  {
    TailMembers(s.toAgent);
    assert s.there ==> [] + [Welcome] == [Welcome];
  }

  lemma OutputKeepsQueues(s: State)
    requires Inv(s) && s.up && s.toAgent != [] && s.toAgent[0].Speakers? && s.toAgent[0].name != s.a.speakers
    ensures QueueInv(s.(a := NewOutput(s.a, s.toAgent[0].name), toAgent := s.toAgent[1..]))
  {
    TailMembers(s.toAgent);
  }

  lemma SameOutputKeepsQueues(s: State)
    requires QueueInv(s) && s.up && s.toAgent != [] && s.toAgent[0].Speakers? && s.toAgent[0].name == s.a.speakers
    ensures QueueInv(s.(toAgent := s.toAgent[1..]))
  {
    TailMembers(s.toAgent);
  }

  lemma SpeakersKeepQueues(s: State, ok: bool)
    requires Inv(s) && Enabled(s, AgentReceives(ok)) && s.toAgent[0].Speakers?
    ensures QueueInv(Apply(s, AgentReceives(ok)))
  {
    var name := s.toAgent[0].name;
    assert s.toHelper + [] == s.toHelper;
    if name == s.a.speakers {
      SameOutputKeepsQueues(s);
    } else {
      OutputKeepsQueues(s);
      TailMembers(s.toAgent);
      var t := s.(a := NewOutput(s.a, name), toAgent := s.toAgent[1..]);
      MovesKeepQueues(t, Requested(t.a), Request(t.a));
    }
  }

  lemma ReceiveKeepsInv(s: State, ok: bool)
    requires Inv(s) && Enabled(s, AgentReceives(ok))
    ensures Inv(Apply(s, AgentReceives(ok)))
  {
    var m, b := s.toAgent[0], Handled(s.a, s.toAgent[0], ok);
    TailMembers(s.toAgent);
    AgentHandles(s.a, m, ok);
    assert s.toHelper + [] == s.toHelper;
    match m
    case Hello => HelloKeepsQueues(s); assert [Welcome] + [] == [Welcome] && s.toAgent[1..] == [];
    case Speakers(name) => SpeakersKeepQueues(s, ok);
    case AudioStarted(id, name, fd) => AnswerKeepsQueues(s, b);
    case AudioFailed(id, noOutput) => AnswerKeepsQueues(s, b);
  }

  // ------------------------------------------------------------------ the helper

  lemma OutputChangeKeepsInv(s: State, sink: string)
    requires Inv(s)
    ensures Inv(Apply(s, ChangeOutput(sink)))
  {
    WillKnowAppend(s.toAgent, Speakers(sink), s.a.speakers);
    ComingAppend(s.toAgent, Speakers(sink), s.a.id);
    assert s.toAgent + [] == s.toAgent;
  }

  lemma WelcomeKeepsInv(s: State, ok: bool)
    requires Inv(s) && s.there && s.toHelper != [] && s.toHelper[0].Welcome?
    ensures Inv(Apply(s, HelperReceives(ok)))
  {
    TailMembers(s.toHelper);
    if s.up {
      assert s.toHelper[1..] == [] && s.toAgent == [];
      WillKnowAppend([], Speakers(s.h.sink), s.a.speakers);
      ComingAppend([], Speakers(s.h.sink), s.a.id);
      assert [] + [Speakers(s.h.sink)] == [Speakers(s.h.sink)];
    }
  }

  lemma StartKeepsInv(s: State, ok: bool)
    requires Inv(s) && s.there && s.toHelper != [] && s.toHelper[0].StartAudio?
    ensures Inv(Apply(s, HelperReceives(ok)))
  {
    TailMembers(s.toHelper);
    if s.up {
      assert s.h.welcomed;
      var m := Answer(s.h, s.toHelper[0], ok)[0];
      WillKnowAppend(s.toAgent, m, s.a.speakers);
      ComingAppend(s.toAgent, m, s.a.id);
    }
  }

  // ------------------------------------------------------------------ the connection

  lemma ConnectionKeepsInv(s: State, l: Label)
    requires Inv(s) && Enabled(s, l)
    requires l.Connect? || l.HelperLeaves? || l.AgentSeesEnd? || l.AgentHangsUp? || l.HelperSeesEnd?
    ensures Inv(Apply(s, l))
  {
    AgentSteps(s.a, false);
    assert Faithful([Hello], s.a.speakers) by { assert [Hello][1..] == []; }
    assert Coming([Hello], s.a.id) == 0 by { assert [Hello][1..] == []; }
  }

  lemma StepKeepsInv(s: State, l: Label)
    requires Inv(s) && Enabled(s, l)
    ensures Inv(Apply(s, l))
  {
    match l
    case MakeSource => MakeKeepsInv(s);
    case Listen(running) => ListenKeepsInv(s, running);
    case Pause(paused) => PauseKeepsInv(s, paused);
    case ChangeOutput(sink) => OutputChangeKeepsInv(s, sink);
    case AgentReceives(ok) => ReceiveKeepsInv(s, ok);
    case HelperReceives(ok) => if s.toHelper[0].Welcome? { WelcomeKeepsInv(s, ok); } else { StartKeepsInv(s, ok); }
    case _ => ConnectionKeepsInv(s, l);
  }

  lemma {:induction false} RunsKeepInv(ls: seq<Label>)
    requires After(ls).Some?
    ensures Inv(After(ls).value)
  {
    if ls != [] {
      RunsKeepInv(ls[..|ls| - 1]);
      StepKeepsInv(After(ls[..|ls| - 1]).value, ls[|ls| - 1]);
    }
  }

  // ------------------------------------------------------------------ over every run

  /** While there is a reader somebody listens, the sound is available, and it reads the output last heard of. */
  lemma ReaderIsWanted(ls: seq<Label>)
    requires After(ls).Some? && After(ls).value.a.reader.Some?
    ensures var a := After(ls).value.a; a.wanted && a.available && a.reader.value == a.speakers
  {
    RunsKeepInv(ls);
  }

  /** The step reads an answer to the request in flight, and it comes to nothing: refused, or no reader starts. */
  predicate ComesToNothing(s: State, l: Label)
    requires Enabled(s, l)
  {
    && l.AgentReceives? && s.a.id != 0 && Answers(s.toAgent[0], s.a.id)
    && (s.toAgent[0].AudioFailed? || !l.ok)
  }

  /** The agent goes on wanting the sound it asked for: nothing was dropped and nothing asked anew. */
  predicate GoesOn(a: Agent, b: Agent) { b.wanted && b.available && b.nextId == a.nextId }

  /** The last answer read for the sound still wanted came to nothing. */
  predicate Failing(ls: seq<Label>)
    requires After(ls).Some?
  {
    ls != [] &&
    var s, l := After(ls[..|ls| - 1]).value, ls[|ls| - 1];
    ComesToNothing(s, l) || (Failing(ls[..|ls| - 1]) && GoesOn(s.a, After(ls).value.a))
  }

  lemma MessageFails(s: State, ok: bool)
    requires Inv(s) && Enabled(s, AgentReceives(ok))
    ensures var b := Apply(s, AgentReceives(ok)).a;
            b.failed <==> ComesToNothing(s, AgentReceives(ok)) || (s.a.failed && GoesOn(s.a, b))
  {
    TailMembers(s.toAgent);
  }

  lemma StepFails(s: State, l: Label)
    requires Inv(s) && Enabled(s, l)
    ensures var b := Apply(s, l).a; b.failed <==> ComesToNothing(s, l) || (s.a.failed && GoesOn(s.a, b))
  {
    if l.AgentReceives? { MessageFails(s, l.ok); }
  }

  /** After any run a request has failed exactly when its own answer said so, or its reader did not start. */
  lemma {:induction false} FailedIffItCameToNothing(ls: seq<Label>)
    requires After(ls).Some?
    ensures After(ls).value.a.failed <==> Failing(ls)
  {
    if ls != [] {
      FailedIffItCameToNothing(ls[..|ls| - 1]);
      RunsKeepInv(ls[..|ls| - 1]);
      StepFails(After(ls[..|ls| - 1]).value, ls[|ls| - 1]);
    }
  }

  // What the agent and the helper were told, from the labels.

  predicate MadeIn(ls: seq<Label>) { ls != [] && (ls[|ls| - 1].MakeSource? || MadeIn(ls[..|ls| - 1])) }

  predicate WantedIn(ls: seq<Label>) {
    ls != [] &&
    if ls[|ls| - 1].Listen? && MadeIn(ls[..|ls| - 1]) then ls[|ls| - 1].running else WantedIn(ls[..|ls| - 1])
  }

  /** A helper's hello ends a pause. */
  predicate PausedIn(ls: seq<Label>)
    requires After(ls).Some?
  {
    ls != [] &&
    var s, l := After(ls[..|ls| - 1]).value, ls[|ls| - 1];
    if l.Pause? then l.paused
    else if l.AgentReceives? && s.toAgent[0].Hello? then false
    else PausedIn(ls[..|ls| - 1])
  }

  function SinkIn(ls: seq<Label>): string {
    if ls == [] then "" else if ls[|ls| - 1].ChangeOutput? then ls[|ls| - 1].sink else SinkIn(ls[..|ls| - 1])
  }

  lemma PauseIsKnown(a: Agent, paused: bool)
    ensures var b := Paused(a, paused); b.made == a.made && b.wanted == a.wanted && b.paused == paused
  {
  }

  lemma PresenceIsKnown(a: Agent, present: bool)
    ensures var b := Present(a, present); b.made == a.made && b.wanted == a.wanted && b.paused == a.paused
  {
  }

  lemma OutputIsKnown(a: Agent, name: string)
    ensures var b := Requested(NewOutput(a, name)); b.made == a.made && b.wanted == a.wanted && b.paused == a.paused
  {
  }

  lemma HandledIsKnown(a: Agent, m: ToAgent, ok: bool)
    ensures var b := Handled(a, m, ok);
            b.made == a.made && b.wanted == a.wanted && b.paused == (if m.Hello? then false else a.paused)
  {
    match m
    case Hello =>
      PauseIsKnown(a, false);
      PresenceIsKnown(Paused(a, false), true);
    case Speakers(name) => OutputIsKnown(a, name);
    case _ =>
  }

  ghost predicate StepKnown(s: State, l: Label, t: State)
    requires Enabled(s, l)
  {
    && t.a.made == (l.MakeSource? || s.a.made)
    && t.a.wanted == (if l.Listen? && s.a.made then l.running else s.a.wanted)
    && t.a.paused == (if l.Pause? then l.paused
                      else if l.AgentReceives? && s.toAgent[0].Hello? then false else s.a.paused)
    && t.h.sink == if l.ChangeOutput? then l.sink else s.h.sink
  }

  lemma AgentStepIsKnown(s: State, l: Label)
    requires Enabled(s, l) && (l.MakeSource? || l.Listen? || l.Pause? || l.AgentSeesEnd? || l.AgentHangsUp?)
    ensures StepKnown(s, l, Apply(s, l))
  {
  }

  lemma OtherStepIsKnown(s: State, l: Label)
    requires Enabled(s, l)
    requires l.ChangeOutput? || l.Connect? || l.HelperReceives? || l.HelperLeaves? || l.HelperSeesEnd?
    ensures StepKnown(s, l, Apply(s, l))
  {
  }

  lemma StepIsKnown(s: State, l: Label)
    requires Enabled(s, l)
    ensures StepKnown(s, l, Apply(s, l))
  {
    match l
    case AgentReceives(ok) => HandledIsKnown(s.a, s.toAgent[0], ok);
    case MakeSource => AgentStepIsKnown(s, l);
    case Listen(_) => AgentStepIsKnown(s, l);
    case Pause(_) => AgentStepIsKnown(s, l);
    case AgentSeesEnd => AgentStepIsKnown(s, l);
    case AgentHangsUp => AgentStepIsKnown(s, l);
    case _ => OtherStepIsKnown(s, l);
  }

  lemma {:induction false} EverythingIsKnown(ls: seq<Label>)
    requires After(ls).Some?
    ensures var s := After(ls).value;
            s.a.made == MadeIn(ls) && s.a.wanted == WantedIn(ls) && s.a.paused == PausedIn(ls) && s.h.sink == SinkIn(ls)
  {
    if ls != [] {
      EverythingIsKnown(ls[..|ls| - 1]);
      StepIsKnown(After(ls[..|ls| - 1]).value, ls[|ls| - 1]);
    }
  }

  /**
   After any run, with both ends up and nothing on its way: the output last set is being read if somebody
   listens, it is no pause and there is an output, unless that came to nothing; and nothing is otherwise.
   */
  lemma SettledMeansHeard(ls: seq<Label>)
    requires After(ls).Some?
    requires var s := After(ls).value; s.up && s.there && s.toAgent == [] && s.toHelper == []
    ensures After(ls).value.a.reader
         == if WantedIn(ls) && !PausedIn(ls) && SinkIn(ls) != "" && !Failing(ls) then Some(SinkIn(ls)) else None
  {
    RunsKeepInv(ls);
    FailedIffItCameToNothing(ls);
    EverythingIsKnown(ls);
  }

  /** Every stream is handed over and every reader starts. */
  predicate AllWorks(ls: seq<Label>) {
    forall i :: 0 <= i < |ls| ==> (ls[i].AgentReceives? || ls[i].HelperReceives?) ==> ls[i].ok
  }

  ghost predicate NothingFailed(s: State) {
    !s.a.failed && forall m :: m in s.toAgent && m.AudioFailed? ==> m.noOutput
  }

  lemma StepWorks(s: State, l: Label)
    requires Inv(s) && Enabled(s, l) && NothingFailed(s) && ((l.AgentReceives? || l.HelperReceives?) ==> l.ok)
    ensures NothingFailed(Apply(s, l))
  {
    StepFails(s, l);
    if l.AgentReceives? { TailMembers(s.toAgent); }
  }

  lemma {:induction false} NothingFailsWhereAllWorks(ls: seq<Label>)
    requires After(ls).Some? && AllWorks(ls)
    ensures NothingFailed(After(ls).value)
  {
    if ls != [] {
      NothingFailsWhereAllWorks(ls[..|ls| - 1]);
      RunsKeepInv(ls[..|ls| - 1]);
      StepWorks(After(ls[..|ls| - 1]).value, ls[|ls| - 1]);
    }
  }

  /** Where PipeWire and the readers never fail, whoever listens hears the output once nothing is on its way. */
  lemma HeardWhereAllWorks(ls: seq<Label>)
    requires After(ls).Some? && AllWorks(ls)
    requires var s := After(ls).value; s.up && s.there && s.toAgent == [] && s.toHelper == []
    ensures After(ls).value.a.reader
         == if WantedIn(ls) && !PausedIn(ls) && SinkIn(ls) != "" then Some(SinkIn(ls)) else None
  {
    NothingFailsWhereAllWorks(ls);
    FailedIffItCameToNothing(ls);
    SettledMeansHeard(ls);
  }

  /** A refusal for want of an output always comes late: the request in flight never gets one. */
  lemma NoOutputIsNeverCurrent(ls: seq<Label>, ok: bool)
    requires After(ls).Some? && Enabled(After(ls).value, AgentReceives(ok))
    requires var m := After(ls).value.toAgent[0]; m.AudioFailed? && m.noOutput
    ensures Apply(After(ls).value, AgentReceives(ok)).a == After(ls).value.a
  {
    RunsKeepInv(ls);
    TailMembers(After(ls).value.toAgent);
  }

  // ------------------------------------------------------------------ the two objects

  class Sound {
    var made: bool
    var present: bool
    var speakers: string
    var paused: bool
    var wanted: bool
    var available: bool
    var id: nat
    var nextId: nat
    var reader: Option<string>
    ghost var failed: bool
    /** Everything sent to the helper. */
    var sent: seq<ToHelper>

    ghost function View(): Agent
      reads this
    {
      Agent(made, present, speakers, paused, wanted, available, id, nextId, reader, failed)
    }

    constructor ()
      ensures View() == START.a && sent == []
    {
      made, present, speakers, paused, wanted, available := false, false, "", false, false, false;
      id, nextId, reader, failed, sent := 0, 1, None, false, [];
    }

    method Update()
      modifies this`available
      ensures View() == Updated(old(View()))
    {
      if !made { return; }
      if !present { available := false; }
      else if speakers == "" { available := false; }
      else if paused { available := false; }
      else { available := true; }
    }

    method DoRequest()
      modifies this`id, this`nextId, this`failed, this`sent
      ensures View() == Requested(old(View())) && sent == old(sent) + Request(old(View()))
    {
      if !made || !wanted || !available { return; }
      id, nextId, failed := nextId, nextId + 1, false;
      sent := sent + [StartAudio(id)];
    }

    method Drop()
      modifies this`reader, this`id, this`failed
      ensures View() == Dropped(old(View()))
    {
      if !made { return; }
      reader, id, failed := None, 0, false;
    }

    method Source()
      modifies this
      ensures View() == Made(old(View())) && sent == old(sent)
    {
      if !made {
        made := true;
        Update();
      }
    }

    /** The poll of the pipeline: `running` is what it saw. */
    method Check(running: bool)
      modifies this
      ensures View() == Listening(old(View()), running) && sent == old(sent) + ListeningSends(old(View()), running)
    {
      if !made || running == wanted { return; }
      if !running { reader := None; }
      wanted := running;
      if running { DoRequest(); } else { id, failed := 0, false; }
    }

    method SetPresent(now: bool)
      modifies this
      ensures View() == Present(old(View()), now) && sent == old(sent)
    {
      if now == present { return; }
      present := now;
      if !now {
        speakers := "";
        Drop();
      }
      Update();
    }

    method SetPaused(now: bool)
      modifies this
      ensures View() == Paused(old(View()), now) && sent == old(sent) + PausedSends(old(View()), now)
    {
      if now == paused { return; }
      paused := now;
      if now { Drop(); }
      Update();
      if !now { DoRequest(); }
    }

    method Handle(m: ToAgent, ok: bool)
      modifies this
      ensures View() == Handled(old(View()), m, ok)
      ensures sent == old(sent) + HandledSends(old(View()), m)
    {
      match m {
        case Hello => HandleHello();
        case Speakers(name) => HandleSpeakers(name);
        case AudioStarted(i, name, fd) => HandleStarted(i, name, fd, ok);
        case AudioFailed(i, noOutput) => HandleFailed(i, noOutput);
      }
    }

    method HandleHello()
      modifies this
      ensures View() == Handled(old(View()), Hello, true)
      ensures sent == old(sent) + HandledSends(old(View()), Hello)
    {
      sent := sent + [Welcome];
      SetPaused(false);
      SetPresent(true);
    }

    /** A new output restarts a running capture on it. */
    method HandleSpeakers(name: string)
      modifies this
      ensures View() == Handled(old(View()), Speakers(name), true)
      ensures sent == old(sent) + HandledSends(old(View()), Speakers(name))
    {
      if name == speakers { return; }
      speakers := name;
      Drop();
      Update();
      DoRequest();
    }

    method HandleStarted(i: nat, name: string, fd: bool, ok: bool)
      modifies this`reader, this`failed
      ensures View() == Handled(old(View()), AudioStarted(i, name, fd), ok)
    {
      if i != id || !made || !fd { return; }
      if ok { reader := Some(name); } else { reader, failed := None, true; }
    }

    method HandleFailed(i: nat, noOutput: bool)
      modifies this`id, this`failed
      ensures View() == Handled(old(View()), AudioFailed(i, noOutput), true)
    {
      if i != id { return; }
      id, failed := 0, true;
    }
  }

  class Session {
    var welcomed: bool
    var speakersSent: Option<string>
    var sink: string
    /** Everything sent to the agent since it connected. */
    var sent: seq<ToAgent>

    ghost function View(): Helper reads this { Helper(welcomed, speakersSent, sink) }

    constructor ()
      ensures View() == START.h && sent == []
    {
      welcomed, speakersSent, sink, sent := false, None, "", [];
    }

    method SendSpeakers()
      modifies this
      ensures View() == Told(old(View())) && sent == old(sent) + Telling(old(View()))
    {
      if !welcomed { return; }
      if speakersSent.Some? && speakersSent.value == sink { return; }
      speakersSent := Some(sink);
      sent := sent + [Speakers(sink)];
    }

    method OutputChanged(now: string)
      modifies this
      ensures View() == Told(old(View()).(sink := now)) && sent == old(sent) + Telling(old(View()).(sink := now))
    {
      sink := now;
      SendSpeakers();
    }

    method HandleMessage(m: ToHelper, ok: bool)
      modifies this
      ensures View() == Obeyed(old(View()), m) && sent == old(sent) + Answer(old(View()), m, ok)
    {
      match m {
        case Welcome =>
          welcomed := true;
          SendSpeakers();
        case StartAudio(id) =>
          if !welcomed { return; }
          if sink == "" {
            sent := sent + [AudioFailed(id, true)];
          } else if !ok {
            sent := sent + [AudioFailed(id, false)];
          } else {
            sent := sent + [AudioStarted(id, sink, true)];
          }
      }
    }

    method Disconnect()
      modifies this
      ensures View() == old(View()).(welcomed := false, told := None) && sent == []
    {
      welcomed, speakersSent, sent := false, None, [];
    }
  }
}
