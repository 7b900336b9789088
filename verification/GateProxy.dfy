/**
 The gate on top of the proxy, as one state machine: only the gate calls `connect`, its handshake is a call of the
 proxy's, and what the proxy answers decides the gate. When its repeated `connect` is safe.
 */
module GateProxy {
  import DaemonGate
  import opened LineBuffer
  import opened ProxyAccounting
  import opened ProxyConnect
  import opened ProxyModel
  import opened ProxyReconnect
  import opened ProxyReplay
  import opened ProxySockets
  import opened Wrappers

  /** The request of the gate's handshake. */
  const HELLO := Request("ipc.connect", None)

  /** How far the gate's dial has come: to its socket, its failure, its handshake. */
  datatype Stage = Idle | Dialing(socket: nat) | Failing | Greeting | Shaking(call: nat)

  datatype Joint = Joint(gate: DaemonGate.State, proxy: State, stage: Stage)

  /** Installation begins by calling `connect`. */
  function Start(hasClientType: bool): Joint {
    Joint(DaemonGate.INIT, DoDial(Init(hasClientType)), Dialing(0))
  }

  /**
   A socket or timer event, a continuation of the proxy's, or `close`; a tool call; the gate's continuation after its
   dial failed or succeeded, and after its handshake was answered; a suspended call let through or refused.
   */
  datatype Move =
    | Outside(e: Event)
    | ToolCall
    | GiveUp(guidance: DaemonGate.Guidance)
    | Greet
    | Hear(i: nat)
    | Proceed(i: nat, request: Request)

  /** A tool call finds the gate down and no dial in flight. */
  predicate Redials(gate: DaemonGate.State) {
    gate.daemonDown.Some? && gate.redialInFlight.None?
  }

  predicate LetsThrough(gate: DaemonGate.State, i: nat) {
    i < |gate.suspended| && (gate.suspended[i].attempt.None? || gate.daemonDown.None?)
  }

  function ReplyOf(outcome: Outcome): DaemonGate.Reply {
    if outcome.Object? then DaemonGate.Reason(outcome.reason) else DaemonGate.Plain
  }

  predicate IsAnswered(answers: seq<Answer>, c: nat) {
    exists i :: 0 <= i < |answers| && answers[i].call == c
  }

  /** A continuation of the gate's is due; no socket or timer event comes before it. */
  predicate Urgent(s: Joint) {
    s.stage.Failing? || s.stage.Greeting? || (s.stage.Shaking? && IsAnswered(s.proxy.r.answers, s.stage.call))
  }

  /** What a move is to the proxy. */
  function ProxyEvent(s: Joint, m: Move): Option<Event> {
    match m
    case Outside(e) => Some(e)
    case ToolCall => if Redials(s.gate) then Some(Dial) else None
    case Greet => Some(Call(HELLO))
    case Proceed(i, request) => if LetsThrough(s.gate, i) then Some(Call(request)) else None
    case _ => None
  }

  /** What a move is to the gate. */
  function GateEvent(s: Joint, m: Move): Option<DaemonGate.Event> {
    match m
    case Outside(DialOk(_)) => Some(DaemonGate.DialOk)
    case ToolCall => Some(DaemonGate.Call)
    case GiveUp(guidance) => Some(DaemonGate.DialFail(guidance))
    case Hear(i) =>
      if i < |s.proxy.r.answers| then Some(DaemonGate.Answer(ReplyOf(s.proxy.r.answers[i].outcome))) else None
    case Proceed(i, _) => Some(DaemonGate.Resume(i))
    case _ => None
  }

  function NextStage(s: Joint, m: Move): Stage {
    match m
    case Outside(DialOk(_)) => Greeting
    case Outside(DialFail(_)) => Failing
    case ToolCall => if Redials(s.gate) then Dialing(s.proxy.net.nextSocket) else s.stage
    case Greet => Shaking(s.proxy.r.nextCall)
    case GiveUp(_) => Idle
    case Hear(_) => Idle
    case _ => s.stage
  }

  /** A move comes when what it continues has happened. */
  predicate Timely(s: Joint, m: Move) {
    match m
    case Outside(e) => !e.Dial? && !e.Call? && (Urgent(s) ==> e.Microtask? || e.CloseProxy?)
    case GiveUp(_) => s.stage.Failing?
    case Greet => s.stage.Greeting?
    case Hear(i) => s.stage.Shaking? && i < |s.proxy.r.answers| && s.proxy.r.answers[i].call == s.stage.call
    case _ => true
  }

  predicate CanMove(s: Joint, m: Move) {
    && Timely(s, m)
    && (GateEvent(s, m).Some? ==> DaemonGate.Enabled(s.gate, GateEvent(s, m).value))
    && (ProxyEvent(s, m).Some? ==> Enabled(s.proxy, ProxyEvent(s, m).value))
  }

  function GateAfter(s: Joint, m: Move): DaemonGate.State
    requires CanMove(s, m)
  {
    if GateEvent(s, m).None? then s.gate else DaemonGate.Step(s.gate, GateEvent(s, m).value)
  }

  function ProxyAfter(classify: Classifier, s: Joint, m: Move): State
    requires CanMove(s, m)
  {
    if ProxyEvent(s, m).None? then s.proxy else Step(classify, s.proxy, ProxyEvent(s, m).value)
  }

  function Next(classify: Classifier, s: Joint, m: Move): Joint
    requires CanMove(s, m)
  {
    Joint(GateAfter(s, m), ProxyAfter(classify, s, m), NextStage(s, m))
  }

  ghost predicate IsJointRun(classify: Classifier, run: seq<Joint>, moves: seq<Move>) {
    && |run| == |moves| + 1
    && (run[0] == Start(true) || run[0] == Start(false))
    && forall i :: 0 <= i < |moves| ==> CanMove(run[i], moves[i]) && run[i + 1] == Next(classify, run[i], moves[i])
  }

  // ----- both are runs of their own

  ghost predicate GateReachable(gate: DaemonGate.State) {
    exists run, events :: DaemonGate.IsRun(run, events) && run[|events|] == gate
  }

  lemma GateReachableStep(gate: DaemonGate.State, e: DaemonGate.Event)
    requires GateReachable(gate) && DaemonGate.Enabled(gate, e)
    ensures GateReachable(DaemonGate.Step(gate, e))
  {
    hide DaemonGate.Step, DaemonGate.Enabled;
    var run, events :| DaemonGate.IsRun(run, events) && run[|events|] == gate;
    assert DaemonGate.IsRun(run + [DaemonGate.Step(gate, e)], events + [e]);
  }

  /** Whatever holds in every run of the gate, or of the proxy, holds of the two together. */
  lemma {:induction false} BothAreRuns(classify: Classifier, run: seq<Joint>, moves: seq<Move>, n: nat)
    requires IsJointRun(classify, run, moves) && n < |run|
    ensures GateReachable(run[n].gate) && Reachable(classify, run[n].proxy)
  {
    hide GateReachable, Reachable, DaemonGate.Step, DaemonGate.Enabled, Step, Enabled;
    if n == 0 {
      StartReachable(classify, true);
      StartReachable(classify, false);
    } else {
      BothAreRuns(classify, run, moves, n - 1);
      var s, m := run[n - 1], moves[n - 1];
      if GateEvent(s, m).Some? {
        GateReachableStep(s.gate, GateEvent(s, m).value);
      }
      if ProxyEvent(s, m).Some? {
        ReachableStep(classify, s.proxy, ProxyEvent(s, m).value);
      }
    }
  }

  lemma StartReachable(classify: Classifier, hasClientType: bool)
    ensures GateReachable(DaemonGate.INIT) && Reachable(classify, DoDial(Init(hasClientType)))
  {
    assert DaemonGate.IsRun([DaemonGate.INIT], []);
    ReachableInit(classify, hasClientType);
    hide Reachable;
    ReachableStep(classify, Init(hasClientType), Dial);
  }

  // ----- only handshakes before the gate is cleared

  /** The call that is the gate's handshake, if one is under way. */
  ghost function Owner(stage: Stage): Option<nat> {
    if stage.Shaking? then Some(stage.call) else None
  }

  ghost predicate Greets(p: Purpose, owner: Option<nat>) {
    p.HandshakeConnect? || (p.Tool? && p.request == HELLO && owner == Some(p.call))
  }

  ghost predicate WaiterGreets(w: Waiter, owner: Option<nat>) {
    w.request == HELLO && owner == Some(w.call)
  }

  ghost predicate TaskGreets(t: Task, owner: Option<nat>) {
    match t
    case Resume(p, _) => Greets(p, owner)
    case Wake(w, _) => WaiterGreets(w, owner)
    case ReplayDone => true
    case ReplayFailed => false
  }

  ghost predicate IsHello(p: Purpose) {
    p.HandshakeConnect? || (p.Tool? && p.request == HELLO)
  }

  /** All that is in flight, waiting, awaited or written is a handshake: the gate's own or a reconnect's. */
  ghost predicate OnlyGreets(r: Requests, owner: Option<nat>) {
    && (forall i :: 0 <= i < |r.pending| ==> Greets(r.pending[i].purpose, owner))
    && (forall i :: 0 <= i < |r.waiters| ==> WaiterGreets(r.waiters[i], owner))
    && (forall i :: 0 <= i < |r.tasks| ==> TaskGreets(r.tasks[i], owner))
    && (forall i :: 0 <= i < |r.written| ==> IsHello(r.written[i].purpose))
  }

  lemma AppendTaskGreets(r: Requests, t: Requests, task: Task, owner: Option<nat>)
    requires OnlyGreets(r, owner) && TaskGreets(task, owner)
    requires t.pending == r.pending && t.waiters == r.waiters && t.written == r.written && t.tasks == r.tasks + [task]
    ensures OnlyGreets(t, owner)
  {
    hide Greets, TaskGreets, WaiterGreets, IsHello;
  }

  lemma RawCallGreets(r: Requests, socket: Option<nat>, p: Purpose, owner: Option<nat>)
    requires OnlyGreets(r, owner) && Greets(p, owner)
    ensures OnlyGreets(RawCall(r, socket, p), owner)
  {
    if socket.None? {
      AppendTaskGreets(r, RawCall(r, socket, p), Resume(p, RECONNECTING), owner);
    } else {
      assert IsHello(p);
      hide Greets, TaskGreets, WaiterGreets, IsHello;
    }
  }

  lemma SettleGreets(r: Requests, i: nat, outcome: Outcome, end: End, owner: Option<nat>)
    requires OnlyGreets(r, owner) && i < |r.pending|
    ensures OnlyGreets(Settle(r, i, outcome, end), owner)
  {
    var t := Settle(r, i, outcome, end);
    forall j | 0 <= j < |t.pending|
      ensures Greets(t.pending[j].purpose, owner)
    {
      WithoutIn(r.pending, i, j);
    }
  }

  lemma {:induction false} DispatchAllGreets(classify: Classifier, b: Inbox, lines: seq<string>, owner: Option<nat>)
    requires OnlyGreets(b.r, owner)
    ensures OnlyGreets(DispatchAll(classify, b, lines).r, owner)
    decreases |lines|
  {
    if lines != [] {
      hide OnlyGreets, Settle, Grant;
      var incoming := classify(lines[0]);
      if incoming.Malformed? && b.r.pending != [] {
        SettleGreets(b.r, 0, DESERIALIZATION_ERROR, Replied, owner);
      } else if incoming.Reply? && incoming.id.Some? && IndexOfId(b.r.pending, incoming.id.value) >= 0 {
        SettleGreets(b.r, IndexOfId(b.r.pending, incoming.id.value), incoming.outcome, Replied, owner);
      }
      DispatchAllGreets(classify, Dispatch(b, incoming), lines[1..], owner);
    }
  }

  lemma FailPendingGreets(r: Requests, owner: Option<nat>)
    requires OnlyGreets(r, owner)
    ensures OnlyGreets(FailPending(r), owner)
  {
    FailuresAre(r.pending);
    hide Greets, WaiterGreets, IsHello;
  }

  lemma ReleaseGreets(r: Requests, owner: Option<nat>)
    requires OnlyGreets(r, owner)
    ensures OnlyGreets(ReleaseWaiters(r), owner)
  {
    WakesAre(r.waiters);
    hide Greets, WaiterGreets, IsHello;
  }

  lemma {:induction false} WaiterIn(waiters: seq<Waiter>, i: nat, j: nat)
    requires i < |waiters| && j < |waiters| - 1
    ensures Without(waiters, i)[j] in waiters
  {
    if i > 0 && j > 0 {
      WaiterIn(waiters[1..], i - 1, j - 1);
    }
  }

  lemma GiveUpGreets(r: Requests, i: nat, owner: Option<nat>)
    requires OnlyGreets(r, owner) && i < |r.waiters|
    ensures OnlyGreets(GiveUpWaiting(r, i), owner)
  {
    var t := GiveUpWaiting(r, i);
    forall j | 0 <= j < |t.waiters|
      ensures WaiterGreets(t.waiters[j], owner)
    {
      WaiterIn(r.waiters, i, j);
    }
  }

  lemma DequeuedGreets(s: State, owner: Option<nat>)
    requires OnlyGreets(s.r, owner) && s.r.tasks != []
    ensures OnlyGreets(Dequeued(s).r, owner) && TaskGreets(s.r.tasks[0], owner)
  {
  }

  ghost predicate Shy(s: State, owner: Option<nat>) {
    s.currentAgent.None? && OnlyGreets(s.r, owner)
  }

  lemma ReplaySelectionGreets(s: State, owner: Option<nat>)
    requires Shy(s, owner)
    ensures Shy(ReplaySelection(s), owner)
  {
    AppendTaskGreets(s.r, ReplaySelection(s).r, ReplayDone, owner);
  }

  lemma OpenOkGreets(s: State, owner: Option<nat>)
    requires Shy(s, owner)
    ensures Shy(DoOpenOk(s), owner)
  {
    var t := Opened(s);
    assert Shy(t, owner);
    hide OnlyGreets, RawCall, Opened, ReplaySelection;
    if t.hasClientType {
      RawCallGreets(t.r, t.socket, HandshakeConnect, owner);
    } else {
      ReplaySelectionGreets(t, owner);
    }
  }

  lemma TaskShy(s: State, owner: Option<nat>)
    requires Shy(s, owner) && s.r.tasks != []
    ensures Shy(RunTask(Dequeued(s), s.r.tasks[0]), owner)
  {
    var d, task := Dequeued(s), s.r.tasks[0];
    DequeuedGreets(s, owner);
    hide OnlyGreets, AnswerCall, ReplaySelection, DoWake, ReleaseWaiters, Delay;
    match task
    case Resume(Tool(c, request), outcome) => AnswerShy(d, c, request, outcome, owner);
    case Resume(HandshakeConnect, _) => ReplaySelectionGreets(d, owner);
    case Wake(w, connected) => WakeShy(d, w, connected, owner);
    case ReplayDone => ReleaseGreets(d.r, owner);
  }

  lemma AnswerShy(s: State, c: nat, request: Request, outcome: Outcome, owner: Option<nat>)
    requires Shy(s, owner) && request == HELLO
    ensures Shy(AnswerCall(s, c, request, outcome), owner)
  {
  }

  lemma WakeShy(s: State, w: Waiter, connected: bool, owner: Option<nat>)
    requires Shy(s, owner) && WaiterGreets(w, owner)
    ensures Shy(DoWake(s, w, connected), owner)
  {
    RawCallGreets(s.r, s.socket, Tool(w.call, w.request), owner);
    hide RawCall;
  }

  lemma StepShy(classify: Classifier, s: State, e: Event, owner: Option<nat>)
    requires Shy(s, owner) && Enabled(s, e) && !e.Call?
    ensures Shy(Step(classify, s, e), owner)
  {
    hide OnlyGreets, Settle, GiveUpWaiting, FailPending, ReleaseWaiters, IndexOfId, IndexOfCall, DispatchAll, Lines,
      Rest,  Delay, RunTask, DoOpenOk, TimerCleared;
    match e
    case DialFail(_) => FailPendingGreets(s.r, owner);
    case Data(chunk) => DispatchAllGreets(classify, Inbox(s.r, s.log.granted), Lines(s.buffer + chunk.text), owner);
    case SocketClosed(_) => FailPendingGreets(s.r, owner);
    case OpenOk => OpenOkGreets(s, owner);
    case HandshakeTimeout(id) =>
      SettleGreets(s.r, IndexOfId(s.r.pending, id), RECONNECTING, TimedOut, owner);
    case WaiterTimeout(c) => GiveUpGreets(s.r, IndexOfCall(s.r.waiters, c), owner);
    case CloseProxy => ReleaseGreets(s.r, owner);
    case Microtask => TaskShy(s, owner);
    case _ =>
  }

  /** The gate's handshake comes onto the books. */
  lemma HelloShy(s: State)
    requires Shy(s, None)
    ensures Shy(DoCall(s, HELLO), Some(s.r.nextCall))
  {
    var c, r := s.r.nextCall, s.r.(nextCall := s.r.nextCall + 1);
    OwnerFree(r, c);
    RawCallGreets(r, s.socket, Tool(c, HELLO), Some(c));
    CallOutcomes(s, HELLO);
    hide RawCall, DoCall;
  }

  lemma OwnerFree(r: Requests, c: nat)
    requires OnlyGreets(r, None)
    ensures OnlyGreets(r, Some(c))
  {
  }

  /** An answered call is nowhere else. */
  lemma AnsweredIsGone(r: Requests, i: nat)
    requires i < |r.answers| && Balanced(r, r.answers[i].call) && OnlyGreets(r, Some(r.answers[i].call))
    ensures OnlyGreets(r, None)
  {
    var c := r.answers[i].call;
    if r.waiters != [] {
      TotalHolds(WaiterCall, r.waiters, 0, c);
      TotalHolds(AnswerCallOf, r.answers, i, c);
      assert false;
    }
    TotalHolds(AnswerCallOf, r.answers, i, c);
    forall j | 0 <= j < |r.pending|
      ensures Greets(r.pending[j].purpose, None)
    {
      if r.pending[j].purpose.Tool? {
        TotalHolds(PendingCall, r.pending, j, c);
      }
    }
    forall j | 0 <= j < |r.tasks|
      ensures TaskGreets(r.tasks[j], None)
    {
      if c in TaskCall(r.tasks[j]) {
        TotalHolds(TaskCall, r.tasks, j, c);
      }
    }
  }

  // ----- the invariant of the two together

  /** The stage is what gate and sockets know of the dial. */
  ghost predicate StageFits(s: Joint) {
    && s.gate.world.dialing == (if s.stage.Dialing? || s.stage.Failing? then 1 else 0)
    && s.gate.world.shaking == (if s.stage.Greeting? || s.stage.Shaking? then 1 else 0)
    && s.proxy.net.dialing == if s.stage.Dialing? then {s.stage.socket} else {}
  }

  ghost predicate Joined(s: Joint) {
    && DaemonGate.Invariant(s.gate) && StageFits(s)
    && (!s.gate.world.cleared ==> Shy(s.proxy, Owner(s.stage)))
  }

  /** Only a dial begun or answered changes the sockets being dialed. */
  lemma DialingAfter(classify: Classifier, s: State, e: Event)
    requires Enabled(s, e)
    ensures Step(classify, s, e).net.dialing ==
            match e
            case Dial => s.net.dialing + {s.net.nextSocket}
            case DialOk(k) => s.net.dialing - {k}
            case DialFail(k) => s.net.dialing - {k}
            case _ => s.net.dialing
  {
    hide DoCall, RunTask, IndexOfId, IndexOfCall, RawCall, Delay, FailPending, ReleaseWaiters, Settle, GiveUpWaiting,
      DispatchAll, Lines, Rest;
    match e
    case Call(request) => CallOutcomes(s, request);
    case Microtask => TaskQuiet(Dequeued(s), s.r.tasks[0]);
    case _ =>
  }

  lemma NextFits(classify: Classifier, s: Joint, m: Move)
    requires DaemonGate.Invariant(s.gate) && StageFits(s) && CanMove(s, m)
    ensures StageFits(Next(classify, s, m))
  {
    if ProxyEvent(s, m).Some? {
      DialingAfter(classify, s.proxy, ProxyEvent(s, m).value);
    }
    assert m.Outside? && (m.e.DialOk? || m.e.DialFail?) ==> s.stage == Dialing(m.e.socket);
    hide Step, IndexOfId, IndexOfCall, DaemonGate.CallersWaitRightly, DaemonGate.ConnectionsAddUp;
  }

  lemma NextShy(classify: Classifier, s: Joint, m: Move)
    requires Joined(s) && CanMove(s, m) && !Next(classify, s, m).gate.world.cleared
    requires Books(s.proxy.r)
    ensures !s.gate.world.cleared
    ensures Shy(Next(classify, s, m).proxy, Owner(NextStage(s, m)))
  {
    var t := Next(classify, s, m);
    if GateEvent(s, m).Some? {
      DaemonGate.StepKeepsInvariant(s.gate, GateEvent(s, m).value);
    }
    match m
    case Outside(e) => StepShy(classify, s.proxy, e, Owner(s.stage));
    case ToolCall =>
      if Redials(s.gate) {
        StepShy(classify, s.proxy, Dial, Owner(s.stage));
      }
    case Greet => HelloShy(s.proxy);
    case Hear(i) => AnsweredIsGone(s.proxy.r, i);
    case _ =>
  }

  lemma StartJoined(hasClientType: bool)
    ensures Joined(Start(hasClientType))
  {
  }

  lemma {:induction false} RunJoined(classify: Classifier, run: seq<Joint>, moves: seq<Move>, n: nat)
    requires IsJointRun(classify, run, moves) && n < |run|
    ensures Joined(run[n])
  {
    hide Joined, Next, CanMove;
    if n == 0 {
      StartJoined(true);
      StartJoined(false);
    } else {
      RunJoined(classify, run, moves, n - 1);
      BothAreRuns(classify, run, moves, n - 1);
      ReachableBooks(classify, run[n - 1].proxy);
      NextJoined(classify, run[n - 1], moves[n - 1]);
    }
  }

  lemma NextJoined(classify: Classifier, s: Joint, m: Move)
    requires Joined(s) && CanMove(s, m) && Books(s.proxy.r)
    ensures Joined(Next(classify, s, m))
  {
    NextFits(classify, s, m);
    if GateEvent(s, m).Some? {
      DaemonGate.StepKeepsInvariant(s.gate, GateEvent(s, m).value);
    }
    if !Next(classify, s, m).gate.world.cleared {
      NextShy(classify, s, m);
    }
    hide Shy, StageFits, ProxyAfter, DaemonGate.Invariant, DaemonGate.Step, DaemonGate.Enabled;
  }

  ghost predicate Books(r: Requests) {
    forall c :: Balanced(r, c)
  }

  lemma ReachableBooks(classify: Classifier, s: State)
    requires Reachable(classify, s)
    ensures Books(s.r)
  {
    var run, events :| IsRun(classify, run, events) && run[|events|] == s;
    forall c
      ensures Balanced(s.r, c)
    {
      RunBalanced(classify, run, events, |events|, c);
    }
  }

  lemma ReachableSound(classify: Classifier, s: State)
    requires Reachable(classify, s)
    ensures Sound(s)
  {
    var run, events :| IsRun(classify, run, events) && run[|events|] == s;
    RunSound(classify, run, events, |events|);
  }

  // ----- the properties

  /**
   In every run: as long as no handshake has cleared the gate, nothing but handshakes is written, in flight or waiting,
   and no agent is cached; and there is never more than one socket being dialed by `connect`.
   */
  lemma OnlyHandshakesUntilCleared(classify: Classifier, run: seq<Joint>, moves: seq<Move>, n: nat)
    requires IsJointRun(classify, run, moves) && n < |run|
    ensures |run[n].proxy.net.dialing| <= 1
    ensures !run[n].gate.world.cleared ==>
              run[n].proxy.currentAgent.None? &&
              (forall i :: 0 <= i < |run[n].proxy.r.written| ==> IsHello(run[n].proxy.r.written[i].purpose)) &&
              (forall i :: 0 <= i < |run[n].proxy.r.pending| ==> IsHello(run[n].proxy.r.pending[i].purpose)) &&
              forall i :: 0 <= i < |run[n].proxy.r.waiters| ==> run[n].proxy.r.waiters[i].request == HELLO
  {
    RunJoined(classify, run, moves, n);
  }

  /** A tool call has `connect` called again. */
  ghost predicate IsRedial(s: Joint, m: Move) {
    m.ToolCall? && Redials(s.gate)
  }

  /** Without anything to be cached and with handshakes of reconnects alone in flight, the rule is about these alone. */
  lemma RedialCareful(s: State)
    requires Shy(s, None)
    ensures Careful(s, Dial) <==> HandshakesPending(s.r.pending) == 0
  {
    if s.r.pending != [] {
      assert Greets(s.r.pending[0].purpose, None);
    }
    assert forall i :: 0 <= i < |s.r.tasks| ==> TaskGreets(s.r.tasks[i], None);
  }

  lemma RedialIsIdle(s: Joint)
    requires Joined(s) && s.gate.installed && Redials(s.gate)
    ensures s.stage.Idle? && Shy(s.proxy, None)
  {
    hide Shy;
  }

  /**
   In every run a tool call's re-dial begins by the rule for `connect` if and only if the proxy is open and no
   reconnect's handshake is unanswered.
   */
  lemma RedialBeginsOrderlyExactly(classify: Classifier, run: seq<Joint>, moves: seq<Move>, n: nat)
    requires IsJointRun(classify, run, moves) && n < |moves| && IsRedial(run[n], moves[n])
    ensures Orderly(run[n].proxy, Dial) <==>
            !run[n].proxy.closedByUs && HandshakesPending(run[n].proxy.r.pending) == 0
  {
    RunJoined(classify, run, moves, n);
    hide Shy, Joined;
    RedialIsIdle(run[n]);
    RedialCareful(run[n].proxy);
  }

  /** A reconnect is under way. */
  predicate UnderWay(s: State) {
    s.timer || s.reconnecting
  }

  /** A socket closes after a connection has succeeded: that has a reconnect under way. */
  predicate Loses(s: State, e: Event) {
    e.SocketClosed? && s.everConnected
  }

  /** The end of a replay: no reconnect is under way any more. */
  predicate Recovers(s: State, e: Event) {
    e.Microtask? && s.r.tasks != [] && s.r.tasks[0].ReplayDone?
  }

  lemma UnderWayStep(classify: Classifier, s: State, e: Event)
    requires SingleFlight(s) && Enabled(s, e) && !Step(classify, s, e).closedByUs
    ensures !s.closedByUs
    ensures UnderWay(Step(classify, s, e)) <==> Loses(s, e) || (UnderWay(s) && !Recovers(s, e))
  {
    hide HandshakesPending, AttemptTasks, Settle, GiveUpWaiting, FailPending, ReleaseWaiters, IndexOfId, IndexOfCall,
      DispatchAll, Lines, Rest, RawCall, Delay, DoCall, RunTask;
    match e
    case Call(request) => CallOutcomes(s, request);
    case Microtask => TaskUnderWay(s);
    case _ =>
  }

  lemma TaskUnderWay(s: State)
    requires SingleFlight(s) && s.r.tasks != [] && !RunTask(Dequeued(s), s.r.tasks[0]).closedByUs
    ensures !s.closedByUs
    ensures UnderWay(RunTask(Dequeued(s), s.r.tasks[0])) <==> UnderWay(s) && !s.r.tasks[0].ReplayDone?
  {
    TaskQuiet(Dequeued(s), s.r.tasks[0]);
    if IsAttemptTask(s.r.tasks[0]) {
      AttemptTaskFirst(s.r.tasks);
    }
    hide HandshakesPending, AttemptTasks, ReleaseWaiters, RawCall, Delay, AgentAfter;
  }

  ghost predicate LosesAt(s: Joint, m: Move) {
    m.Outside? && Loses(s.proxy, m.e)
  }

  ghost predicate RecoversAt(s: Joint, m: Move) {
    m.Outside? && Recovers(s.proxy, m.e)
  }

  /** Some socket closed and no replay has come to its end since. */
  ghost predicate Unrecovered(run: seq<Joint>, moves: seq<Move>, n: nat)
    requires n <= |moves| < |run|
  {
    exists i :: 0 <= i < n && LosesAt(run[i], moves[i]) && NoneRecovers(run, moves, i + 1, n)
  }

  ghost predicate NoneRecovers(run: seq<Joint>, moves: seq<Move>, m: nat, n: nat)
    requires n <= |moves| < |run|
  {
    forall j :: m <= j < n ==> !RecoversAt(run[j], moves[j])
  }

  lemma {:induction false} UnderWayExactly(classify: Classifier, run: seq<Joint>, moves: seq<Move>, n: nat)
    requires IsJointRun(classify, run, moves) && n < |run| && !run[n].proxy.closedByUs
    ensures UnderWay(run[n].proxy) <==> Unrecovered(run, moves, n)
  {
    hide UnderWay, Unrecovered, LosesAt, RecoversAt, Next, CanMove, Sound, Reachable, GateReachable;
    if n == 0 {
      NothingUnderWay(run, moves);
    } else {
      BothAreRuns(classify, run, moves, n - 1);
      ReachableSound(classify, run[n - 1].proxy);
      NextUnderWay(classify, run[n - 1], moves[n - 1]);
      UnderWayExactly(classify, run, moves, n - 1);
      UnrecoveredStep(run, moves, n);
    }
  }

  lemma NothingUnderWay(run: seq<Joint>, moves: seq<Move>)
    requires |moves| < |run| && (run[0] == Start(true) || run[0] == Start(false))
    ensures !UnderWay(run[0].proxy) && !Unrecovered(run, moves, 0)
  {
  }

  lemma NextUnderWay(classify: Classifier, s: Joint, m: Move)
    requires Sound(s.proxy) && CanMove(s, m) && !Next(classify, s, m).proxy.closedByUs
    ensures !s.proxy.closedByUs
    ensures UnderWay(Next(classify, s, m).proxy) <==> LosesAt(s, m) || (UnderWay(s.proxy) && !RecoversAt(s, m))
  {
    if ProxyEvent(s, m).Some? {
      UnderWayStep(classify, s.proxy, ProxyEvent(s, m).value);
    }
    hide Step, Enabled, UnderWay, SingleFlight, Numbered;
  }

  lemma UnrecoveredStep(run: seq<Joint>, moves: seq<Move>, n: nat)
    requires 0 < n <= |moves| < |run|
    ensures Unrecovered(run, moves, n) <==>
            LosesAt(run[n - 1], moves[n - 1]) ||
            (Unrecovered(run, moves, n - 1) && !RecoversAt(run[n - 1], moves[n - 1]))
  {
    hide LosesAt, RecoversAt;
    if i :| 0 <= i < n && LosesAt(run[i], moves[i]) && NoneRecovers(run, moves, i + 1, n) {
      if i < n - 1 {
        assert NoneRecovers(run, moves, i + 1, n - 1);
      }
    }
    if LosesAt(run[n - 1], moves[n - 1]) {
      assert NoneRecovers(run, moves, n, n);
    }
    if Unrecovered(run, moves, n - 1) && !RecoversAt(run[n - 1], moves[n - 1]) {
      var i :| 0 <= i < n - 1 && LosesAt(run[i], moves[i]) && NoneRecovers(run, moves, i + 1, n - 1);
      assert NoneRecovers(run, moves, i + 1, n);
    }
  }

  /**
   In every run, on an open proxy, the dial of `connect` succeeds by the rule if and only if every close of a socket
   since a connection first succeeded has been followed by the end of a replay.
   */
  lemma RedialEndsOrderlyExactly(classify: Classifier, run: seq<Joint>, moves: seq<Move>, n: nat, k: nat)
    requires IsJointRun(classify, run, moves) && n < |moves| && moves[n] == Outside(DialOk(k))
    requires !run[n].proxy.closedByUs
    ensures Orderly(run[n].proxy, DialOk(k)) <==> !Unrecovered(run, moves, n)
  {
    UnderWayExactly(classify, run, moves, n);
  }

  // ----- one session

  ghost predicate KeepsSession(run: seq<Joint>, n: nat)
    requires n < |run|
  {
    forall i :: 0 <= i <= n ==> OneSession(run[i].proxy)
  }

  /**
   A re-dial meets no unanswered handshake of a reconnect; a reconnect attaches its socket with no request in flight,
   before the gate is cleared the gate's own handshake; and a replay that fails for want of a result leaves no agent
   cached that is not granted.
   */
  ghost predicate Safe(s: Joint, m: Move) {
    && (IsRedial(s, m) ==> HandshakesPending(s.proxy.r.pending) == 0)
    && (m == Outside(OpenOk) ==> s.proxy.r.pending == [])
    && (m == Outside(Microtask) ==> Careful(s.proxy, Microtask))
  }

  ghost predicate SafeTo(run: seq<Joint>, moves: seq<Move>, n: nat)
    requires n <= |moves| < |run|
  {
    forall i :: 0 <= i < n ==> Safe(run[i], moves[i])
  }

  lemma NextKeepsSessionExactly(classify: Classifier, s: Joint, m: Move)
    requires Joined(s) && Sound(s.proxy) && OneSession(s.proxy) && CanMove(s, m)
    ensures OneSession(Next(classify, s, m).proxy) <==> Safe(s, m)
  {
    if ProxyEvent(s, m).Some? {
      var e := ProxyEvent(s, m).value;
      StepExactly(classify, s.proxy, e);
      assert Careful(s.proxy, e) <==> Safe(s, m) by {
        hide OneSession, Joined, Sound, Step, Enabled, HandshakesPending;
        if IsRedial(s, m) {
          RedialIsIdle(s);
          RedialCareful(s.proxy);
        }
      }
    }
    hide OneSession, Careful, Joined, Sound, Step, Enabled;
  }

  /** Every run of gate and proxy keeps to one session if and only if each of its moves is safe. */
  lemma {:induction false} GateKeepsSessionExactly(classify: Classifier, run: seq<Joint>, moves: seq<Move>, n: nat)
    requires IsJointRun(classify, run, moves) && n < |run|
    ensures KeepsSession(run, n) <==> SafeTo(run, moves, n)
  {
    hide OneSession, Safe, Sound, Joined, Next, CanMove;
    if n == 0 {
      StartKeepsSession(true);
      StartKeepsSession(false);
    } else {
      GateKeepsSessionExactly(classify, run, moves, n - 1);
      BothAreRuns(classify, run, moves, n - 1);
      ReachableSound(classify, run[n - 1].proxy);
      RunJoined(classify, run, moves, n - 1);
      OneMoreMove(run, moves, n);
      if KeepsSession(run, n - 1) {
        assert OneSession(run[n - 1].proxy);
        hide KeepsSession, SafeTo;
        NextKeepsSessionExactly(classify, run[n - 1], moves[n - 1]);
      }
    }
  }

  lemma StartKeepsSession(hasClientType: bool)
    ensures OneSession(Start(hasClientType).proxy)
  {
  }

  lemma OneMoreMove(run: seq<Joint>, moves: seq<Move>, n: nat)
    requires 0 < n <= |moves| < |run|
    ensures KeepsSession(run, n) <==> KeepsSession(run, n - 1) && OneSession(run[n].proxy)
    ensures SafeTo(run, moves, n) <==> SafeTo(run, moves, n - 1) && Safe(run[n - 1], moves[n - 1])
  {
    hide OneSession, Safe;
  }

  // ----- a run in which the re-dial meets a reconnect

  ghost predicate JointReachable(classify: Classifier, s: Joint) {
    exists run, moves :: IsJointRun(classify, run, moves) && run[|moves|] == s
  }

  lemma JointStep(classify: Classifier, s: Joint, m: Move)
    requires JointReachable(classify, s) && CanMove(s, m)
    ensures JointReachable(classify, Next(classify, s, m))
  {
    hide Next, CanMove;
    var run, moves :| IsJointRun(classify, run, moves) && run[|moves|] == s;
    assert IsJointRun(classify, run + [Next(classify, s, m)], moves + [m]);
  }

  const MISMATCH := Object(false, "version_mismatch", "")

  lemma FirstDialed(classify: Classifier) returns (s: Joint)
    ensures JointReachable(classify, s) && s.stage.Greeting?
    ensures s.gate == DaemonGate.INIT.(world := DaemonGate.World(0, 1, 1, 0, false))
    ensures s.proxy == Init(true).(socket := Some(0), connected := true, everConnected := true, net := s.proxy.net,
                                   log := Init(true).log.(session := Some(0)))
    ensures s.proxy.net == Network(1, {0}, {}, {}, false, 0)
  {
    var s0 := Start(true);
    assert IsJointRun(classify, [s0], []);
    hide JointReachable, IsJointRun;
    JointStep(classify, s0, Outside(DialOk(0)));
    s := Next(classify, s0, Outside(DialOk(0)));
  }

  /** The gate has dialed and sent its handshake. */
  lemma HandshakeSent(classify: Classifier) returns (s: Joint)
    ensures JointReachable(classify, s) && s.stage == Shaking(0)
    ensures s.gate == DaemonGate.INIT.(world := DaemonGate.World(0, 1, 1, 0, false))
    ensures s.proxy == Init(true).(socket := Some(0), connected := true, everConnected := true, r := s.proxy.r,
                                   net := s.proxy.net, log := Init(true).log.(session := Some(0)))
    ensures s.proxy.net == Network(1, {0}, {}, {}, false, 0)
    ensures s.proxy.r == Requests(2, 1, [Pending(1, Tool(0, HELLO), 0)], [], [],
                                  [Written(0, 1, Tool(0, HELLO), 0)], [], [])
  {
    hide JointReachable;
    var s1 := FirstDialed(classify);
    JointStep(classify, s1, Greet);
    s := Next(classify, s1, Greet);
  }

  /** A line of the daemon's that is the answer to request 1: a version mismatch. */
  ghost predicate Mismatches(classify: Classifier, line: string) {
    '\n' !in line && |line| < MAX_BUFFER_SIZE && classify(line) == Reply(Some(1), MISMATCH)
  }

  lemma HelloAnswered(classify: Classifier, p: State, line: string)
    requires Mismatches(classify, line) && p.buffer == "" && p.r.pending == [Pending(1, Tool(0, HELLO), 0)]
    ensures var t := DoData(classify, p, Chunk(0, line + "\n"));
            t == p.(r := t.r, log := t.log) && t.log.session == p.log.session &&
            t.r == p.r.(pending := [], tasks := p.r.tasks + [Resume(Tool(0, HELLO), MISMATCH)], settled := t.r.settled)
  {
    FrontLine(line, "");
    assert line + "\n" + "" == line + "\n" && "" + (line + "\n") == line + "\n";
    var b := Inbox(p.r, p.log.granted);
    assert DispatchAll(classify, b, [line]) == Dispatch(b, classify(line)) by {
      assert [line][1..] == [];
    }
    assert Without(p.r.pending, 0) == [];
    hide DispatchAll;
  }

  /** It is answered with a mismatch: the gate stays down, its connection open. */
  lemma Mismatched(classify: Classifier, s: Joint, line: string) returns (t: Joint)
    requires JointReachable(classify, s) && Mismatches(classify, line)
    requires s.stage == Shaking(0) && s.gate == DaemonGate.INIT.(world := DaemonGate.World(0, 1, 1, 0, false))
    requires s.proxy.r == Requests(2, 1, [Pending(1, Tool(0, HELLO), 0)], [], [],
                                   [Written(0, 1, Tool(0, HELLO), 0)], [], [])
    requires s.proxy.net == Network(1, {0}, {}, {}, false, 0) && s.proxy.buffer == "" && s.proxy.currentAgent.None?
    ensures JointReachable(classify, t) && t.stage.Idle? && t.gate.installed && Redials(t.gate)
    ensures t.proxy == s.proxy.(r := t.proxy.r, log := t.proxy.log)
    ensures t.proxy.r.pending == [] && t.proxy.r.tasks == [] && t.proxy.r.waiters == []
    ensures t.proxy.r.nextId == 2 && t.proxy.r.nextCall == 1 && t.proxy.r.answers == [Answer(0, HELLO, MISMATCH)]
  {
    hide JointReachable;
    var m1 := Outside(Data(Chunk(0, line + "\n")));
    HelloAnswered(classify, s.proxy, line);
    hide DoData, Mismatches;
    JointStep(classify, s, m1);
    t := Heard(classify, Next(classify, s, m1));
  }

  lemma Heard(classify: Classifier, s: Joint) returns (t: Joint)
    requires JointReachable(classify, s) && s.stage == Shaking(0)
    requires s.gate == DaemonGate.INIT.(world := DaemonGate.World(0, 1, 1, 0, false))
    requires s.proxy.r.tasks == [Resume(Tool(0, HELLO), MISMATCH)] && s.proxy.r.answers == []
    requires s.proxy.currentAgent.None?
    ensures JointReachable(classify, t) && t.stage.Idle? && t.gate.installed && Redials(t.gate)
    ensures t.proxy == s.proxy.(r := s.proxy.r.(tasks := [], answers := [Answer(0, HELLO, MISMATCH)]))
  {
    hide JointReachable;
    JointStep(classify, s, Outside(Microtask));
    var s1 := Next(classify, s, Outside(Microtask));
    JointStep(classify, s1, Hear(0));
    t := Next(classify, s1, Hear(0));
  }

  /** That connection closes, which arms the timer, and a tool call dials again. */
  lemma RedialedWhileReconnecting(classify: Classifier, s: Joint) returns (t: Joint)
    requires JointReachable(classify, s) && s.stage.Idle? && s.gate.installed && Redials(s.gate)
    requires s.proxy.everConnected && !s.proxy.closedByUs && !UnderWay(s.proxy)
    requires s.proxy.net == Network(1, {0}, {}, {}, false, 0) && s.proxy.r.pending == [] && s.proxy.r.tasks == []
    ensures JointReachable(classify, t) && t.stage == Dialing(1) && t.gate.world.dialing > 0
    ensures t.proxy == s.proxy.(connected := false, socket := Some(1), timer := false, reconnecting := true,
                                attempt := t.proxy.attempt, net := t.proxy.net, r := t.proxy.r, log := t.proxy.log)
    ensures t.proxy.net == Network(2, {1}, {1}, {}, true, 0) && t.proxy.r == s.proxy.r
  {
    hide JointReachable;
    var m1, m2, m3 := Outside(SocketClosed(0)), ToolCall, Outside(TimerFires);
    JointStep(classify, s, m1);
    var s1 := Next(classify, s, m1);
    assert s1.proxy.r == s.proxy.r && s1.proxy.net == Network(1, {}, {}, {}, false, 1);
    JointStep(classify, s1, m2);
    var s2 := Next(classify, s1, m2);
    assert s2.proxy.net == Network(2, {1}, {1}, {}, false, 1);
    JointStep(classify, s2, m3);
    t := Next(classify, s2, m3);
  }

  /**
   The connection of a mismatch closes and a tool call dials again: the dial succeeds while a reconnect is under way,
   which then attaches a socket of its own. Two connections are open, and the gate's handshake is on the one not in use.
   */
  lemma RedialMeetsReconnect(classify: Classifier, line: string)
    requires Mismatches(classify, line)
    ensures exists s ::
              JointReachable(classify, s) && s.proxy.socket == Some(2) && s.proxy.net.Open(1) && s.proxy.net.Open(2) &&
              s.stage == Shaking(1) && !OneSession(s.proxy) &&
              exists i :: 0 <= i < |s.proxy.r.pending| && s.proxy.r.pending[i] == Pending(2, Tool(1, HELLO), 1)
  {
    hide JointReachable, Mismatches;
    var s0 := HandshakeSent(classify);
    var s1 := Mismatched(classify, s0, line);
    var s2 := RedialedWhileReconnecting(classify, s1);
    JointStep(classify, s2, Outside(DialOk(1)));
    var s3 := Next(classify, s2, Outside(DialOk(1)));
    JointStep(classify, s3, Greet);
    var s4 := Next(classify, s3, Greet);
    assert s4.proxy.r.pending == [Pending(2, Tool(1, HELLO), 1)];
    JointStep(classify, s4, Outside(OpenOk));
    var s5 := Next(classify, s4, Outside(OpenOk));
    assert s5.proxy.r.pending[0] == Pending(2, Tool(1, HELLO), 1) && s5.proxy.log.session == Some(2);
    assert JointReachable(classify, s5) && !PendingFits(s5.proxy.r, s5.proxy.log.session);
  }
}
