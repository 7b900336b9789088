/**
 The reconnecting IPC proxy as a state machine: one function per event, on a value that holds the proxy's
 fields, the environment it acts on (sockets, timers, promise continuations) and a history of what it did.

 Node runs one macrotask at a time and drains the queue of promise continuations before the next one. `tasks`
 is that queue; socket and timer events are enabled only while it is empty. Callers may call at any time.
 */
module ProxyModel {
  import opened LineBuffer
  import opened Wrappers

  const RECONNECT_BASE_DELAY_MS := 200
  const RECONNECT_MAX_DELAY_MS := 5000

  /** A value a request is answered with, as far as the proxy looks at it. */
  datatype Outcome = Object(ok: bool, reason: string, body: string) | NullValue | Undefined

  const CONNECTION_LOST := Object(false, "ipc_connection_lost", "lost")
  const RECONNECTING := Object(false, "ipc_connection_lost", "reconnecting")
  const DESERIALIZATION_ERROR := Object(false, "ipc_deserialization_error", "")
  const INVALID_METHOD := Object(false, "invalid_method", "")

  /** A caller's request; `name` is its `name` parameter when that is a string. */
  datatype Request = Request(verb: string, name: Option<string>)

  datatype Purpose = Tool(call: nat, request: Request) | HandshakeConnect | HandshakeUse(wanted: string)

  datatype Pending = Pending(id: nat, purpose: Purpose, socket: nat)
  datatype Waiter = Waiter(call: nat, request: Request)

  /** A promise continuation waiting to run. */
  datatype Task =
    | Resume(purpose: Purpose, outcome: Outcome)
    | Wake(waiter: Waiter, connected: bool)
    | ReplayDone
    | ReplayFailed

  /** What a line of the daemon's stream turns out to be; `id` is none when it is no request number. */
  datatype Incoming =
    | Blank
    | Malformed
    | Notification(frame: string)
    | Reply(id: Option<nat>, outcome: Outcome)

  type Classifier = string -> Incoming

  /** A frame written, with the number of calls answered before it. */
  datatype Written = Written(socket: nat, id: nat, purpose: Purpose, answered: nat)
  datatype Answer = Answer(call: nat, request: Request, outcome: Outcome)

  /**
   How a request's promise got its outcome: from the daemon's stream, from its own timer, together with all that was
   pending when a socket closed or a dial failed, or at once for want of a socket.
   */
  datatype End = Replied | TimedOut | Dropped | Unsent
  datatype Settled = Settled(id: nat, purpose: Purpose, socket: Option<nat>, end: End)

  /** What can come between an attempt's socket and the end of its replay. */
  datatype Disturbance = Drop(socket: nat) | FailedDial(socket: nat) | Closing

  /** A piece of a socket's stream. */
  datatype Chunk = Chunk(socket: nat, text: string)

  /** Requests and callers: the pending map, the waiter queue, the continuations, and what came of them. */
  datatype Requests = Requests(
    nextId: nat,
    nextCall: nat,
    pending: seq<Pending>,
    waiters: seq<Waiter>,
    tasks: seq<Task>,
    written: seq<Written>,
    settled: seq<Settled>,
    answers: seq<Answer>)

  /**
   Sockets and timers outside the proxy: sockets not yet closed, those still dialing or refused, a reconnect being
   opened.
   */
  datatype Network =
    Network(nextSocket: nat, live: set<nat>, dialing: set<nat>, refused: set<nat>, opening: bool, armedTimers: nat)
  {
    /** The connections there are: what can be read from. */
    predicate Open(k: nat) {
      k in live && k !in dialing && k !in refused
    }
  }

  /**
   What happened: the delays scheduled; the chunks and lines since a reconnect last attached a socket, and whether the
   buffer overflowed; the sockets of reconnects in their order, those whose replay is over, and what disturbed the
   replay of which; calls that had to wait; the socket last put in use; and the agents granted, with the socket of the
   request they answer.
   */
  datatype History = History(
    delays: seq<nat>,
    chunks: seq<Chunk>,
    lines: seq<string>,
    overflowed: bool,
    reopened: seq<nat>,
    replayed: set<nat>,
    disturbed: set<(nat, Disturbance)>,
    queued: set<nat>,
    session: Option<nat>,
    granted: set<(nat, string)>)

  datatype State = State(
    hasClientType: bool,
    socket: Option<nat>,
    closedByUs: bool,
    connected: bool,
    everConnected: bool,
    buffer: string,
    timer: bool,
    attempt: nat,
    reconnecting: bool,
    currentAgent: Option<string>,
    r: Requests,
    net: Network,
    log: History)

  function Init(hasClientType: bool): State {
    State(hasClientType, None, false, false, false, "", false, 0, false, None,
          Requests(1, 0, [], [], [], [], [], []),
          Network(0, {}, {}, {}, false, 0),
          History([], [], [], false, [], {}, {}, {}, None, {}))
  }

  datatype Event =
    | Dial
    | DialOk(socket: nat)
    | DialFail(socket: nat)
    | Data(chunk: Chunk)
    | SocketClosed(socket: nat)
    | TimerFires
    | OpenOk
    | OpenFail
    | HandshakeTimeout(id: nat)
    | WaiterTimeout(call: nat)
    | Call(request: Request)
    | CloseProxy
    | Microtask

  predicate Enabled(s: State, e: Event) {
    match e
    case Dial => true
    case Call(_) => true
    case CloseProxy => true
    case Microtask => s.r.tasks != []
    case DialOk(k) => s.r.tasks == [] && k in s.net.dialing
    case DialFail(k) => s.r.tasks == [] && k in s.net.dialing
    case Data(chunk) => s.r.tasks == [] && s.net.Open(chunk.socket)
    case SocketClosed(k) => s.r.tasks == [] && k in s.net.live && k !in s.net.dialing
    case TimerFires => s.r.tasks == [] && s.net.armedTimers > 0
    case OpenOk => s.r.tasks == [] && s.net.opening
    case OpenFail => s.r.tasks == [] && s.net.opening
    case HandshakeTimeout(id) =>
      s.r.tasks == [] && IndexOfId(s.r.pending, id) >= 0 && !s.r.pending[IndexOfId(s.r.pending, id)].purpose.Tool?
    case WaiterTimeout(c) => s.r.tasks == [] && IndexOfCall(s.r.waiters, c) >= 0
  }

  // ----- requests

  /** Writes a request on the current socket; without one the write throws and the request is answered at once. */
  function RawCall(r: Requests, socket: Option<nat>, purpose: Purpose): Requests {
    match socket
    case None =>
      r.(nextId := r.nextId + 1, settled := r.settled + [Settled(r.nextId, purpose, None, Unsent)],
         tasks := r.tasks + [Resume(purpose, RECONNECTING)])
    case Some(k) =>
      r.(nextId := r.nextId + 1, pending := r.pending + [Pending(r.nextId, purpose, k)],
         written := r.written + [Written(k, r.nextId, purpose, |r.answers|)])
  }

  function IndexOfId(pending: seq<Pending>, id: nat): (i: int)
    ensures -1 <= i < |pending|
    ensures i >= 0 ==> pending[i].id == id
    ensures i == -1 ==> forall j :: 0 <= j < |pending| ==> pending[j].id != id
  {
    if pending == [] then -1
    else if pending[0].id == id then 0
    else
      var i := IndexOfId(pending[1..], id);
      if i == -1 then -1 else i + 1
  }

  function Without<T>(xs: seq<T>, i: nat): (r: seq<T>)
    requires i < |xs|
    ensures |r| == |xs| - 1
  {
    if i == 0 then xs[1..] else [xs[0]] + Without(xs[1..], i - 1)
  }

  /** Takes a request out of the pending map and hands its promise an outcome. */
  function Settle(r: Requests, i: nat, outcome: Outcome, end: End): Requests
    requires i < |r.pending|
  {
    r.(pending := Without(r.pending, i), settled := r.settled + [Ended(r.pending[i], end)],
       tasks := r.tasks + [Resume(r.pending[i].purpose, outcome)])
  }

  function Ended(p: Pending, end: End): Settled {
    Settled(p.id, p.purpose, Some(p.socket), end)
  }

  function Drops(pending: seq<Pending>): seq<Settled> {
    if pending == [] then [] else [Ended(pending[0], Dropped)] + Drops(pending[1..])
  }

  function Failures(pending: seq<Pending>): seq<Task> {
    if pending == [] then [] else [Resume(pending[0].purpose, RECONNECTING)] + Failures(pending[1..])
  }

  /** A dropped connection fails every pending request; none is sent again. */
  function FailPending(r: Requests): Requests {
    r.(pending := [], settled := r.settled + Drops(r.pending), tasks := r.tasks + Failures(r.pending))
  }

  function Answered(r: Requests, c: nat, request: Request, outcome: Outcome): Requests {
    r.(answers := r.answers + [Answer(c, request, outcome)])
  }

  function Await(r: Requests, c: nat, request: Request): Requests {
    r.(waiters := r.waiters + [Waiter(c, request)])
  }

  function Wakes(waiters: seq<Waiter>): seq<Task> {
    if waiters == [] then [] else [Wake(waiters[0], true)] + Wakes(waiters[1..])
  }

  function ReleaseWaiters(r: Requests): Requests {
    r.(waiters := [], tasks := r.tasks + Wakes(r.waiters))
  }

  function IndexOfCall(waiters: seq<Waiter>, c: nat): (i: int)
    ensures -1 <= i < |waiters|
    ensures i >= 0 ==> waiters[i].call == c
    ensures i == -1 ==> forall j :: 0 <= j < |waiters| ==> waiters[j].call != c
  {
    if waiters == [] then -1
    else if waiters[0].call == c then 0
    else
      var i := IndexOfCall(waiters[1..], c);
      if i == -1 then -1 else i + 1
  }

  function GiveUpWaiting(r: Requests, i: nat): Requests
    requires i < |r.waiters|
  {
    r.(waiters := Without(r.waiters, i), tasks := r.tasks + [Wake(r.waiters[i], false)])
  }

  function Continue(r: Requests, task: Task): Requests {
    r.(tasks := r.tasks + [task])
  }

  // ----- callers

  function DoCall(s: State, request: Request): State {
    var c, r := s.r.nextCall, s.r.(nextCall := s.r.nextCall + 1);
    if request.verb == "" then s.(r := Answered(r, c, request, INVALID_METHOD))
    else if s.closedByUs then s.(r := Answered(r, c, request, CONNECTION_LOST))
    else if !s.connected then s.(r := Await(r, c, request), log := s.log.(queued := s.log.queued + {c}))
    else s.(r := RawCall(r, s.socket, Tool(c, request)))
  }

  predicate Selects(outcome: Outcome) {
    outcome.Object? && (outcome.ok || outcome.reason == "agent_already_current")
  }

  predicate Succeeds(outcome: Outcome) {
    outcome.Object? && outcome.ok
  }

  predicate IsUse(request: Request) {
    request.verb == "cello_use_agent" && request.name.Some?
  }

  /** The agent cached after a call is answered. */
  function AgentAfter(cached: Option<string>, request: Request, outcome: Outcome): Option<string> {
    var selected := if IsUse(request) && Selects(outcome) then request.name else cached;
    if Succeeds(outcome) && request.verb == "cello_stop_using_agent" then None
    else if Succeeds(outcome) && request.verb == "cello_set_agent_offline" && request.name.Some? &&
        request.name == selected then None
    else selected
  }

  function AnswerCall(s: State, c: nat, request: Request, outcome: Outcome): State {
    s.(currentAgent := AgentAfter(s.currentAgent, request, outcome), r := Answered(s.r, c, request, outcome))
  }

  function DoWake(s: State, w: Waiter, connected: bool): State {
    if connected then s.(r := RawCall(s.r, s.socket, Tool(w.call, w.request)))
    else s.(r := Answered(s.r, w.call, w.request, RECONNECTING))
  }

  function DoWaiterTimeout(s: State, c: nat): State {
    var i := IndexOfCall(s.r.waiters, c);
    if i == -1 then s else s.(r := GiveUpWaiting(s.r, i))
  }

  // ----- connecting

  function DoDial(s: State): State {
    var k := s.net.nextSocket;
    s.(socket := Some(k), net := NetworkDialed(s.net), log := s.log.(session := Some(k)))
  }

  function NetworkDialed(net: Network): Network {
    var k := net.nextSocket;
    net.(nextSocket := k + 1, dialing := net.dialing + {k}, live := net.live + {k})
  }

  function DoDialOk(s: State, k: nat): State {
    s.(connected := true, everConnected := true, attempt := 0, net := s.net.(dialing := s.net.dialing - {k}))
  }

  function DoDialFail(s: State, k: nat): State {
    s.(connected := false, net := NetworkRefused(s.net, k), r := FailPending(s.r), log := Disturbed(s, FailedDial(k)))
  }

  function NetworkRefused(net: Network, k: nat): Network {
    net.(dialing := net.dialing - {k}, refused := net.refused + {k})
  }

  /** The socket a reconnect attached last. */
  function LastReopened(log: History): Option<nat> {
    if log.reopened == [] then None else Some(log.reopened[|log.reopened| - 1])
  }

  /** An attempt has attached its socket and waits for its replay to be over. */
  predicate Replaying(s: State) {
    s.reconnecting && !s.net.opening
  }

  /** What happens while an attempt is replaying is noted against its socket. */
  function Disturbed(s: State, cause: Disturbance): History {
    if Replaying(s) && s.log.reopened != [] then
      s.log.(disturbed := s.log.disturbed + {(LastReopened(s.log).value, cause)})
    else s.log
  }

  function TwoTo(n: nat): nat {
    if n == 0 then 1 else 2 * TwoTo(n - 1)
  }

  function Delay(attempt: nat): nat {
    var d := RECONNECT_BASE_DELAY_MS * TwoTo(attempt);
    if d < RECONNECT_MAX_DELAY_MS then d else RECONNECT_MAX_DELAY_MS
  }

  function ScheduleReconnect(s: State): State {
    if s.closedByUs || s.timer || s.reconnecting then s
    else s.(timer := true, attempt := s.attempt + 1, net := s.net.(armedTimers := s.net.armedTimers + 1),
            log := s.log.(delays := s.log.delays + [Delay(s.attempt)]))
  }

  function Dropping(s: State, k: nat): State {
    s.(connected := false, net := s.net.(live := s.net.live - {k}), r := FailPending(s.r), log := Disturbed(s, Drop(k)))
  }

  function DoSocketClosed(s: State, k: nat): State {
    var t := Dropping(s, k);
    if !t.closedByUs && t.everConnected then ScheduleReconnect(t) else t
  }

  function DoTimerFires(s: State): State
    requires s.net.armedTimers > 0
  {
    var t := s.(timer := false, net := s.net.(armedTimers := s.net.armedTimers - 1));
    if t.closedByUs || t.reconnecting then t else t.(reconnecting := true, net := t.net.(opening := true))
  }

  /** The handshake's second half: replay the selection if there is one. */
  function ReplaySelection(s: State): State {
    if s.currentAgent.Some? && s.currentAgent.value != "" then
      s.(r := RawCall(s.r, s.socket, HandshakeUse(s.currentAgent.value)))
    else s.(r := Continue(s.r, ReplayDone))
  }

  /** The new socket is attached, with an empty buffer. */
  function Opened(s: State): State {
    var k := s.net.nextSocket;
    s.(socket := Some(k), buffer := "", connected := true, everConnected := true,
       net := NetworkOpened(s.net), log := HistoryOpened(s.log, k))
  }

  function NetworkOpened(net: Network): Network {
    net.(nextSocket := net.nextSocket + 1, live := net.live + {net.nextSocket}, opening := false)
  }

  function HistoryOpened(log: History, k: nat): History {
    log.(reopened := log.reopened + [k], session := Some(k), chunks := [], lines := [], overflowed := false)
  }

  function DoOpenOk(s: State): State {
    var t := Opened(s);
    if t.hasClientType then t.(r := RawCall(t.r, t.socket, HandshakeConnect)) else ReplaySelection(t)
  }

  /** The `catch` of a reconnect attempt. */
  function AttemptFailed(s: State): State {
    ScheduleReconnect(s.(connected := false, reconnecting := false))
  }

  function DoOpenFail(s: State): State {
    AttemptFailed(s.(net := s.net.(opening := false)))
  }

  function AfterReplayedUse(s: State, outcome: Outcome): State {
    if outcome.Undefined? then s.(r := Continue(s.r, ReplayFailed))
    else if Selects(outcome) then s.(r := Continue(s.r, ReplayDone))
    else s.(currentAgent := None, r := Continue(s.r, ReplayDone))
  }

  function FinishReplay(s: State): State {
    s.(attempt := 0, reconnecting := false, r := ReleaseWaiters(s.r), log := ReplayOver(s.log))
  }

  function ReplayOver(log: History): History {
    var last := LastReopened(log);
    if last.None? then log else log.(replayed := log.replayed + {last.value})
  }

  function DoHandshakeTimeout(s: State, id: nat): State {
    var i := IndexOfId(s.r.pending, id);
    if i == -1 then s else s.(r := Settle(s.r, i, RECONNECTING, TimedOut))
  }

  function DoCloseProxy(s: State): State {
    s.(closedByUs := true, connected := false, timer := false, socket := None, r := ReleaseWaiters(s.r),
       net := TimerCleared(s.net, s.timer), log := Disturbed(s, Closing))
  }

  function TimerCleared(net: Network, timer: bool): Network {
    if timer && net.armedTimers > 0 then net.(armedTimers := net.armedTimers - 1) else net
  }

  // ----- the daemon's stream

  /** What an answered selection makes known: the daemon gave this connection the agent. */
  function Grant(p: Pending, outcome: Outcome): set<(nat, string)> {
    if !Selects(outcome) then {}
    else
      match p.purpose
      case Tool(_, request) => if IsUse(request) then {(p.socket, request.name.value)} else {}
      case HandshakeConnect => {}
      case HandshakeUse(wanted) => {(p.socket, wanted)}
  }

  /** What reading the stream can change. */
  datatype Inbox = Inbox(r: Requests, granted: set<(nat, string)>)

  function Dispatch(b: Inbox, incoming: Incoming): Inbox {
    match incoming
    case Blank => b
    case Notification(_) => b
    case Malformed => if b.r.pending == [] then b else Inbox(Settle(b.r, 0, DESERIALIZATION_ERROR, Replied), b.granted)
    case Reply(None, _) => b
    case Reply(Some(id), outcome) =>
      var i := IndexOfId(b.r.pending, id);
      if i == -1 then b else Inbox(Settle(b.r, i, outcome, Replied), b.granted + Grant(b.r.pending[i], outcome))
  }

  function DispatchAll(classify: Classifier, b: Inbox, lines: seq<string>): Inbox
    decreases |lines|
  {
    if lines == [] then b else DispatchAll(classify, Dispatch(b, classify(lines[0])), lines[1..])
  }

  /** A chunk that fits: its complete lines leave the buffer and are dispatched. */
  function Received(classify: Classifier, s: State, chunk: Chunk): State {
    var text := s.buffer + chunk.text;
    var b := DispatchAll(classify, Inbox(s.r, s.log.granted), Lines(text));
    s.(buffer := Rest(text), r := b.r,
       log := s.log.(chunks := s.log.chunks + [chunk], lines := s.log.lines + Lines(text), granted := b.granted))
  }

  function DoData(classify: Classifier, s: State, chunk: Chunk): State {
    if |s.buffer + chunk.text| > MAX_BUFFER_SIZE then
      s.(buffer := "", log := s.log.(chunks := s.log.chunks + [chunk], overflowed := true))
    else Received(classify, s, chunk)
  }

  // ----- runs

  function RunTask(s: State, task: Task): State {
    match task
    case Resume(Tool(c, request), outcome) => AnswerCall(s, c, request, outcome)
    case Resume(HandshakeConnect, _) => ReplaySelection(s)
    case Resume(HandshakeUse(_), outcome) => AfterReplayedUse(s, outcome)
    case Wake(w, connected) => DoWake(s, w, connected)
    case ReplayDone => FinishReplay(s)
    case ReplayFailed => AttemptFailed(s)
  }

  /** The state with the first continuation taken off the queue. */
  function Dequeued(s: State): State
    requires s.r.tasks != []
  {
    s.(r := s.r.(tasks := s.r.tasks[1..]))
  }

  function Step(classify: Classifier, s: State, e: Event): State
    requires Enabled(s, e)
  {
    match e
    case Dial => DoDial(s)
    case DialOk(k) => DoDialOk(s, k)
    case DialFail(k) => DoDialFail(s, k)
    case Data(chunk) => DoData(classify, s, chunk)
    case SocketClosed(k) => DoSocketClosed(s, k)
    case TimerFires => DoTimerFires(s)
    case OpenOk => DoOpenOk(s)
    case OpenFail => DoOpenFail(s)
    case HandshakeTimeout(id) => DoHandshakeTimeout(s, id)
    case WaiterTimeout(c) => DoWaiterTimeout(s, c)
    case Call(request) => DoCall(s, request)
    case CloseProxy => DoCloseProxy(s)
    case Microtask => RunTask(Dequeued(s), s.r.tasks[0])
  }

  /** `run` lists the states of a run, one more than its events. */
  ghost predicate IsRun(classify: Classifier, run: seq<State>, events: seq<Event>) {
    && |run| == |events| + 1
    && (run[0] == Init(true) || run[0] == Init(false))
    && forall i :: 0 <= i < |events| ==> Enabled(run[i], events[i]) && run[i + 1] == Step(classify, run[i], events[i])
  }

  /** States at the end of some run. */
  ghost predicate Reachable(classify: Classifier, s: State) {
    exists run, events :: IsRun(classify, run, events) && run[|events|] == s
  }

  lemma ReachableInit(classify: Classifier, hasClientType: bool)
    ensures Reachable(classify, Init(hasClientType))
  {
    assert IsRun(classify, [Init(hasClientType)], []);
  }

  lemma ReachableStep(classify: Classifier, s: State, e: Event)
    requires Reachable(classify, s) && Enabled(s, e)
    ensures Reachable(classify, Step(classify, s, e))
  {
    hide Step, Enabled;
    var run, events :| IsRun(classify, run, events) && run[|events|] == s;
    assert IsRun(classify, run + [Step(classify, s, e)], events + [e]);
  }

  // ----- what an event leaves alone

  /** Of the requests, reading the stream touches only the pending map, the continuations and the settled ids. */
  lemma {:induction false} DispatchAllTouches(classify: Classifier, b: Inbox, lines: seq<string>)
    ensures var r := DispatchAll(classify, b, lines).r;
            r.nextId == b.r.nextId && r.nextCall == b.r.nextCall && r.waiters == b.r.waiters &&
            r.written == b.r.written && r.answers == b.r.answers
    decreases |lines|
  {
    if lines != [] {
      DispatchAllTouches(classify, Dispatch(b, classify(lines[0])), lines[1..]);
    }
  }

  /** A step that writes no frame and answers no caller. */
  ghost predicate Writeless(s: State, t: State) {
    && t.r.written == s.r.written && t.r.answers == s.r.answers && t.r.nextCall == s.r.nextCall
    && t.hasClientType == s.hasClientType && t.currentAgent == s.currentAgent && t.net.nextSocket == s.net.nextSocket
    && t.log.queued == s.log.queued && t.log.replayed == s.log.replayed && t.log.reopened == s.log.reopened
    && (t.socket == s.socket || t.socket.None?)
  }

  lemma ReceivedWriteless(classify: Classifier, s: State, chunk: Chunk)
    ensures Writeless(s, Received(classify, s, chunk))
  {
    var b, text := Inbox(s.r, s.log.granted), s.buffer + chunk.text;
    DispatchAllTouches(classify, b, Lines(text));
    hide DispatchAll, Lines, Rest;
    var t := Received(classify, s, chunk);
    var d := DispatchAll(classify, b, Lines(text));
    assert t.r == d.r;
  }

  lemma DataWriteless(classify: Classifier, s: State, chunk: Chunk)
    ensures Writeless(s, DoData(classify, s, chunk))
  {
    ReceivedWriteless(classify, s, chunk);
    hide Received;
  }

  lemma DialWriteless(s: State, k: nat)
    ensures Writeless(s, DoDialOk(s, k)) && Writeless(s, DoDialFail(s, k))
  {
    hide Failures, Drops;
  }

  lemma ClosedWriteless(s: State, k: nat)
    ensures Writeless(s, DoSocketClosed(s, k))
  {
    hide Failures, Drops, Delay;
  }

  lemma AttemptWriteless(s: State)
    ensures s.net.armedTimers > 0 ==> Writeless(s, DoTimerFires(s))
    ensures Writeless(s, DoOpenFail(s))
  {
    hide Delay;
  }

  lemma TimeoutWriteless(s: State, x: nat)
    ensures Writeless(s, DoHandshakeTimeout(s, x)) && Writeless(s, DoWaiterTimeout(s, x))
  {
    hide IndexOfId, IndexOfCall, Without;
  }

  lemma CloseWriteless(s: State)
    ensures Writeless(s, DoCloseProxy(s))
  {
    hide Wakes;
  }

  /** Only dialing, reopening, calls and continuations write, answer, or take a new socket. */
  lemma OtherEventsWriteless(classify: Classifier, s: State, e: Event)
    requires Enabled(s, e) && !e.Dial? && !e.Call? && !e.OpenOk? && !e.Microtask?
    ensures Writeless(s, Step(classify, s, e))
  {
    hide Writeless, DoDialOk, DoDialFail, DoData, DoSocketClosed, DoTimerFires, DoOpenFail, DoHandshakeTimeout,
      DoWaiterTimeout, DoCloseProxy, IndexOfId, IndexOfCall;
    match e
    case DialOk(k) => DialWriteless(s, k);
    case DialFail(k) => DialWriteless(s, k);
    case Data(chunk) => DataWriteless(classify, s, chunk);
    case SocketClosed(k) => ClosedWriteless(s, k);
    case TimerFires => AttemptWriteless(s);
    case OpenFail => AttemptWriteless(s);
    case HandshakeTimeout(id) => TimeoutWriteless(s, id);
    case WaiterTimeout(c) => TimeoutWriteless(s, c);
    case CloseProxy => CloseWriteless(s);
  }

  /** What no continuation changes. */
  ghost predicate Quiet(s: State, t: State) {
    && t.socket == s.socket && t.hasClientType == s.hasClientType && t.buffer == s.buffer
    && t.closedByUs == s.closedByUs && t.everConnected == s.everConnected
    && t.net == s.net.(armedTimers := t.net.armedTimers)
    && t.log == s.log.(delays := t.log.delays, replayed := t.log.replayed)
  }

  lemma AnswerQuiet(s: State, c: nat, request: Request, outcome: Outcome)
    ensures Quiet(s, AnswerCall(s, c, request, outcome))
  {
    hide AgentAfter;
  }

  lemma ReplaySelectionQuiet(s: State)
    ensures Quiet(s, ReplaySelection(s))
  {
    hide RawCall;
  }

  lemma ContinueQuiet(s: State, agent: Option<string>, task: Task)
    ensures Quiet(s, s.(currentAgent := agent, r := Continue(s.r, task)))
  {
    hide Continue;
  }

  lemma AfterUseQuiet(s: State, outcome: Outcome)
    ensures Quiet(s, AfterReplayedUse(s, outcome))
  {
    ContinueQuiet(s, s.currentAgent, ReplayFailed);
    ContinueQuiet(s, s.currentAgent, ReplayDone);
    ContinueQuiet(s, None, ReplayDone);
    hide Quiet, Selects, Continue;
  }

  lemma WakeQuiet(s: State, w: Waiter, connected: bool)
    ensures Quiet(s, DoWake(s, w, connected))
  {
    hide RawCall;
  }

  lemma FinishQuiet(s: State)
    ensures Quiet(s, FinishReplay(s))
  {
    hide ReleaseWaiters;
  }

  lemma FailedQuiet(s: State)
    ensures Quiet(s, AttemptFailed(s))
  {
    hide Delay;
  }

  lemma TaskQuiet(s: State, task: Task)
    ensures Quiet(s, RunTask(s, task))
  {
    hide Quiet, AnswerCall, ReplaySelection, AfterReplayedUse, DoWake, FinishReplay, AttemptFailed;
    match task
    case Resume(Tool(c, request), outcome) => AnswerQuiet(s, c, request, outcome);
    case Resume(HandshakeConnect, _) => ReplaySelectionQuiet(s);
    case Resume(HandshakeUse(_), outcome) => AfterUseQuiet(s, outcome);
    case Wake(w, connected) => WakeQuiet(s, w, connected);
    case ReplayDone => FinishQuiet(s);
    case ReplayFailed => FailedQuiet(s);
  }

  /** The four things a call may do to the books. */
  lemma CallOutcomes(s: State, request: Request)
    ensures var call, r, t := s.r.nextCall, s.r.(nextCall := s.r.nextCall + 1), DoCall(s, request);
            t == s.(r := t.r, log := s.log.(queued := t.log.queued)) &&
            (((t.r == Answered(r, call, request, INVALID_METHOD) ||
                t.r == Answered(r, call, request, CONNECTION_LOST) ||
               (s.connected && t.r == RawCall(r, s.socket, Tool(call, request)))) && t.log.queued == s.log.queued) ||
             (!s.connected && t.r == Await(r, call, request) && t.log.queued == s.log.queued + {call}))
  {
    hide Answered, Await, RawCall;
  }
}
