/**
 The daemon-down gate: tool calls are answered with guidance until a handshake clears it, and one re-dial at a
 time is shared by everyone who calls meanwhile.
 */
module DaemonGate {
  import opened Wrappers

  datatype Guidance = NotRunning | Unreachable(message: string) | VersionMismatch

  /** What `ipc.connect` is answered with, as far as the gate looks: an object with a reason, or anything else. */
  datatype Reply = Reason(reason: string) | Plain

  predicate Clears(reply: Reply) {
    reply != Reason("version_mismatch")
  }

  /** A call suspended in the gate: it found the gate open, or awaits the re-dial with that number. */
  datatype Suspended = Suspended(call: nat, attempt: Option<nat>)

  datatype Verdict = Forwarded | Refused(guidance: Guidance)

  /** Outside the gate: connections being dialed, handshakes unanswered, connections opened, and what was answered. */
  datatype World = World(dialing: nat, shaking: nat, connections: nat, mismatches: nat, cleared: bool)

  datatype State = State(
    installed: bool,
    daemonDown: Option<Guidance>,
    redialInFlight: Option<nat>,
    attempts: nat,
    nextCall: nat,
    suspended: seq<Suspended>,
    verdicts: seq<(nat, Verdict)>,
    world: World)

  /** Installation begins by dialing; no call comes in before it ends. */
  const INIT := State(false, None, None, 0, 0, [], [], World(1, 0, 0, 0, false))

  datatype Event = DialOk | DialFail(guidance: Guidance) | Answer(reply: Reply) | Call | Resume(i: nat)

  predicate Enabled(s: State, e: Event) {
    match e
    case DialOk => s.world.dialing > 0
    case DialFail(_) => s.world.dialing > 0
    case Answer(_) => s.world.shaking > 0
    case Call => s.installed
    case Resume(i) => i < |s.suspended| && (s.suspended[i].attempt.None? || s.suspended[i].attempt != s.redialInFlight)
  }

  function DoDialOk(s: State): State
    requires s.world.dialing > 0
  {
    s.(world := s.world.(dialing := s.world.dialing - 1, shaking := s.world.shaking + 1,
        connections := s.world.connections + 1))
  }

  /** A failed re-dial keeps the guidance there was; the first dial has none to keep. */
  function DoDialFail(s: State, guidance: Guidance): State
    requires s.world.dialing > 0
  {
    s.(installed := true, redialInFlight := None, daemonDown := if s.installed then s.daemonDown else Some(guidance),
       world := s.world.(dialing := s.world.dialing - 1))
  }

  function DoAnswer(s: State, reply: Reply): State
    requires s.world.shaking > 0
  {
    s.(installed := true, redialInFlight := None, daemonDown := if Clears(reply) then None else Some(VersionMismatch),
       world := s.world.(shaking := s.world.shaking - 1, cleared := s.world.cleared || Clears(reply),
                         mismatches := s.world.mismatches + if Clears(reply) then 0 else 1))
  }

  function DoCall(s: State): State {
    var c, t := s.nextCall, s.(nextCall := s.nextCall + 1);
    if s.daemonDown.None? then t.(suspended := t.suspended + [Suspended(c, None)])
    else if s.redialInFlight.Some? then t.(suspended := t.suspended + [Suspended(c, s.redialInFlight)])
    else
      t.(redialInFlight := Some(s.attempts), attempts := s.attempts + 1,
          world := s.world.(dialing := s.world.dialing + 1),
         suspended := t.suspended + [Suspended(c, Some(s.attempts))])
  }

  function DoResume(s: State, i: nat): State
    requires i < |s.suspended|
  {
    var w := s.suspended[i];
    var verdict := if w.attempt.None? || s.daemonDown.None? then Forwarded else Refused(s.daemonDown.value);
    s.(suspended := s.suspended[..i] + s.suspended[i + 1..], verdicts := s.verdicts + [(w.call, verdict)])
  }

  function Step(s: State, e: Event): State
    requires Enabled(s, e)
  {
    match e
    case DialOk => DoDialOk(s)
    case DialFail(guidance) => DoDialFail(s, guidance)
    case Answer(reply) => DoAnswer(s, reply)
    case Call => DoCall(s)
    case Resume(i) => DoResume(s, i)
  }

  ghost predicate IsRun(run: seq<State>, events: seq<Event>) {
    && |run| == |events| + 1 && run[0] == INIT
    && forall i :: 0 <= i < |events| ==> Enabled(run[i], events[i]) && run[i + 1] == Step(run[i], events[i])
  }

  // ----- the invariant

  /** One dial or handshake at a time, belonging to the installation or to the re-dial in flight. */
  ghost predicate OneRedial(s: State) {
    && s.world.dialing + s.world.shaking == (if s.installed && s.redialInFlight.None? then 0 else 1)
    && (s.redialInFlight.Some? ==> s.installed && s.daemonDown.Some? && s.redialInFlight.value + 1 == s.attempts)
    && (s.installed ==> (s.daemonDown.None? <==> s.world.cleared))
    && (!s.installed ==> s.suspended == [] && s.verdicts == [] && !s.world.cleared)
  }

  /** Callers let through found the gate cleared; the others wait for a re-dial that was made. */
  ghost predicate CallersWaitRightly(s: State) {
    && (forall i :: 0 <= i < |s.suspended| ==>
          match s.suspended[i].attempt case None => s.world.cleared case Some(a) => a < s.attempts)
    && forall i :: 0 <= i < |s.verdicts| && s.verdicts[i].1.Forwarded? ==> s.world.cleared
  }

  /** Each refusal for a version mismatch leaves its connection open; only a cleared gate keeps one for use. */
  ghost predicate ConnectionsAddUp(s: State) {
    s.world.connections == s.world.mismatches + s.world.shaking + (if s.world.cleared then 1 else 0)
  }

  ghost predicate Invariant(s: State) {
    OneRedial(s) && CallersWaitRightly(s) && ConnectionsAddUp(s)
  }

  lemma StepKeepsInvariant(s: State, e: Event)
    requires Invariant(s) && Enabled(s, e)
    ensures Invariant(Step(s, e))
    ensures s.world.cleared ==> Step(s, e).world.cleared && Step(s, e).attempts == s.attempts
  {
  }

  lemma {:induction false} RunKeepsInvariant(run: seq<State>, events: seq<Event>, n: nat)
    requires IsRun(run, events) && n < |run|
    ensures Invariant(run[n])
  {
    if n > 0 {
      RunKeepsInvariant(run, events, n - 1);
      StepKeepsInvariant(run[n - 1], events[n - 1]);
    }
  }

  // ----- the properties

  /** Never two dials at once; and a call that comes while a re-dial is outstanding awaits that one. */
  lemma RedialIsShared(run: seq<State>, events: seq<Event>, n: nat)
    requires IsRun(run, events) && n < |events|
    ensures run[n].world.dialing + run[n].world.shaking <= 1
    ensures events[n].Call? && run[n].redialInFlight.Some? ==>
              run[n + 1].world == run[n].world && run[n + 1].attempts == run[n].attempts &&
              run[n + 1].suspended == run[n].suspended + [Suspended(run[n].nextCall, run[n].redialInFlight)]
  {
    RunKeepsInvariant(run, events, n);
  }

  /** A tool call reaches the daemon only after some handshake was answered with anything but a version mismatch. */
  lemma {:induction false} NothingForwardedUntilCleared(run: seq<State>, events: seq<Event>, n: nat, i: nat)
    requires IsRun(run, events) && n < |run| && i < |run[n].verdicts| && run[n].verdicts[i].1.Forwarded?
    ensures exists m :: 0 <= m < n && events[m].Answer? && Clears(events[m].reply)
  {
    RunKeepsInvariant(run, events, n);
    ClearedByAnAnswer(run, events, n);
  }

  lemma {:induction false} ClearedByAnAnswer(run: seq<State>, events: seq<Event>, n: nat)
    requires IsRun(run, events) && n < |run| && run[n].world.cleared
    ensures exists m :: 0 <= m < n && events[m].Answer? && Clears(events[m].reply)
  {
    if run[n - 1].world.cleared {
      ClearedByAnAnswer(run, events, n - 1);
    } else {
      assert events[n - 1].Answer? && Clears(events[n - 1].reply);
    }
  }

  /** Once cleared the gate stays open, for good, and never dials again. */
  lemma {:induction false} ClearedForGood(run: seq<State>, events: seq<Event>, m: nat, n: nat)
    requires IsRun(run, events) && m <= n < |run| && run[m].world.cleared
    ensures run[n].world.cleared && run[n].daemonDown.None? && run[n].attempts == run[m].attempts
    decreases n
  {
    RunKeepsInvariant(run, events, n);
    if m < n {
      ClearedForGood(run, events, m, n - 1);
      RunKeepsInvariant(run, events, n - 1);
      StepKeepsInvariant(run[n - 1], events[n - 1]);
    }
  }

  /** Only that one reason counts: a call is forwarded although the handshake was answered `ipc_connection_lost`. */
  lemma LostHandshakeClears()
    ensures exists run: seq<State>, events: seq<Event> ::
              IsRun(run, events) && run[|events|].verdicts == [(0, Forwarded)] &&
              forall i :: 0 <= i < |events| && events[i].Answer? ==> events[i].reply == Reason("ipc_connection_lost")
  {
    var e0, e1, e2, e3 := DialOk, Answer(Reason("ipc_connection_lost")), Call, Resume(0);
    var s1 := INIT.(world := World(0, 1, 1, 0, false));
    var s2 := INIT.(installed := true, world := World(0, 0, 1, 0, true));
    var s3 := s2.(nextCall := 1, suspended := [Suspended(0, None)]);
    var s4 := s3.(suspended := [], verdicts := [(0, Forwarded)]);
    LostHandshakeSteps(s1, s2, s3, s4);
    hide Step, Enabled, IsRun;
    FourSteps(s1, s2, s3, s4, e0, e1, e2, e3);
    assert IsRun([INIT, s1, s2, s3, s4], [e0, e1, e2, e3]);
  }

  lemma LostHandshakeSteps(s1: State, s2: State, s3: State, s4: State)
    requires s1 == INIT.(world := World(0, 1, 1, 0, false)) &&
             s2 == INIT.(installed := true, world := World(0, 0, 1, 0, true))
    requires s3 == s2.(nextCall := 1, suspended := [Suspended(0, None)]) &&
             s4 == s3.(suspended := [], verdicts := [(0, Forwarded)])
    ensures Enabled(INIT, DialOk) && Step(INIT, DialOk) == s1
    ensures Enabled(s1, Answer(Reason("ipc_connection_lost"))) && Step(s1, Answer(Reason("ipc_connection_lost"))) == s2
    ensures Enabled(s2, Call) && Step(s2, Call) == s3
    ensures Enabled(s3, Resume(0)) && Step(s3, Resume(0)) == s4
  {
  }

  lemma FourSteps(s1: State, s2: State, s3: State, s4: State, e0: Event, e1: Event, e2: Event, e3: Event)
    requires Enabled(INIT, e0) && s1 == Step(INIT, e0) && Enabled(s1, e1) && s2 == Step(s1, e1)
    requires Enabled(s2, e2) && s3 == Step(s2, e2) && Enabled(s3, e3) && s4 == Step(s3, e3)
    ensures IsRun([INIT, s1, s2, s3, s4], [e0, e1, e2, e3])
  {
    hide Step, Enabled;
  }

  /**
   Connections the gate has opened and not the use of: exactly one for each version mismatch answered. So a
   re-dial never leaves a second connection behind if and only if no handshake was answered with a mismatch.
   */
  lemma OrphansAreMismatches(run: seq<State>, events: seq<Event>, n: nat)
    requires IsRun(run, events) && n < |run|
    ensures run[n].world.connections <= 1 + run[n].world.mismatches
    ensures run[n].world.shaking == 0 ==>
            run[n].world.connections ==
            run[n].world.mismatches + if run[n].daemonDown.None? && run[n].installed then 1 else 0
  {
    RunKeepsInvariant(run, events, n);
  }

  // ----- every call comes to one end

  ghost function Times(suspended: seq<Suspended>, c: nat): nat {
    if suspended == [] then 0 else (if suspended[0].call == c then 1 else 0) + Times(suspended[1..], c)
  }

  ghost function Ends(verdicts: seq<(nat, Verdict)>, c: nat): nat {
    if verdicts == [] then 0
    else (if verdicts[|verdicts| - 1].0 == c then 1 else 0) + Ends(verdicts[..|verdicts| - 1], c)
  }

  lemma {:induction false} TimesConcat(a: seq<Suspended>, b: seq<Suspended>, c: nat)
    ensures Times(a + b, c) == Times(a, c) + Times(b, c)
  {
    if a == [] {
      assert a + b == b;
    } else {
      TimesConcat(a[1..], b, c);
      assert (a + b)[1..] == a[1..] + b;
    }
  }

  lemma StepBalances(s: State, e: Event, c: nat)
    requires Enabled(s, e) && Times(s.suspended, c) + Ends(s.verdicts, c) == (if c < s.nextCall then 1 else 0)
    ensures var t := Step(s, e); Times(t.suspended, c) + Ends(t.verdicts, c) == if c < t.nextCall then 1 else 0
  {
    match e
    case Call =>
      var t := DoCall(s);
      var w := t.suspended[|s.suspended|];
      TimesConcat(s.suspended, [w], c);
      assert [w][1..] == [];
    case Resume(i) =>
      var w := s.suspended[i];
      var verdicts := DoResume(s, i).verdicts;
      TimesConcat(s.suspended[..i], s.suspended[i + 1..], c);
      TimesConcat(s.suspended[..i], s.suspended[i..], c);
      assert s.suspended == s.suspended[..i] + s.suspended[i..] && s.suspended[i..][1..] == s.suspended[i + 1..];
      assert verdicts[..|verdicts| - 1] == s.verdicts;
    case _ =>
  }

  /** Every call made is either still suspended in the gate or has come to exactly one verdict. */
  lemma {:induction false} EachCallEndsOnce(run: seq<State>, events: seq<Event>, n: nat, c: nat)
    requires IsRun(run, events) && n < |run|
    ensures Times(run[n].suspended, c) + Ends(run[n].verdicts, c) == if c < run[n].nextCall then 1 else 0
  {
    if n > 0 {
      EachCallEndsOnce(run, events, n - 1, c);
      StepBalances(run[n - 1], events[n - 1], c);
    }
  }

  // ----- the gate as the object whose variables it closes over

  class Gate {
    var daemonDown: Option<Guidance>
    var redialInFlight: Option<nat>
    var attempts: nat
    var nextCall: nat
    ghost var installed: bool
    ghost var suspended: seq<Suspended>
    ghost var verdicts: seq<(nat, Verdict)>
    ghost var world: World

    ghost function View(): State
      reads this
    {
      State(installed, daemonDown, redialInFlight, attempts, nextCall, suspended, verdicts, world)
    }

    constructor ()
      ensures View() == INIT
    {
      daemonDown, redialInFlight, attempts, nextCall := None, None, 0, 0;
      installed, suspended, verdicts, world := false, [], [], World(1, 0, 0, 0, false);
    }

    /** `ensureDaemon`, up to its first `await`; the result is the re-dial awaited, if any. */
    method EnsureDaemon() returns (attempt: Option<nat>)
      modifies this
      ensures View() == DoCall(old(View()))
      ensures attempt == suspended[|old(suspended)|].attempt
    {
      var c := nextCall;
      nextCall := nextCall + 1;
      if daemonDown.None? {
        attempt := None;
      } else {
        if redialInFlight.None? {
          redialInFlight := Some(attempts);
          attempts := attempts + 1;
          world := world.(dialing := world.dialing + 1);
        }
        attempt := redialInFlight;
      }
      suspended := suspended + [Suspended(c, attempt)];
    }

    method DialFails(guidance: Guidance, installing: bool)
      requires world.dialing > 0 && installing == !installed
      modifies this
      ensures View() == DoDialFail(old(View()), guidance)
    {
      if installing {
        daemonDown := Some(guidance);
      }
      redialInFlight := None;
      installed, world := true, world.(dialing := world.dialing - 1);
    }

    method HandshakeAnswered(reply: Reply)
      requires world.shaking > 0
      modifies this
      ensures View() == DoAnswer(old(View()), reply)
    {
      if reply.Reason? && reply.reason == "version_mismatch" {
        daemonDown := Some(VersionMismatch);
      } else {
        daemonDown := None;
      }
      redialInFlight := None;
      installed := true;
      world := world.(shaking := world.shaking - 1, cleared := world.cleared || Clears(reply),
                      mismatches := world.mismatches + if Clears(reply) then 0 else 1);
    }

    /** The gated `call`, from its `await` on. */
    method FinishCall(i: nat, attempt: Option<nat>) returns (verdict: Verdict)
      requires i < |suspended| && attempt == suspended[i].attempt
      modifies `suspended, `verdicts
      ensures View() == DoResume(old(View()), i) && verdicts == old(verdicts) + [(old(suspended)[i].call, verdict)]
    {
      if attempt.None? || daemonDown.None? {
        verdict := Forwarded;
      } else {
        verdict := Refused(daemonDown.value);
      }
      verdicts := verdicts + [(suspended[i].call, verdict)];
      suspended := suspended[..i] + suspended[i + 1..];
    }
  }
}
