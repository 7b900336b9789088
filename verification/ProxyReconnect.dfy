/**
 Reconnecting, over every run: at most one timer or attempt, none begun after close, delays in bounds, where recovery
 ends, and what becomes of calls then.
 */
module ProxyReconnect {
  import opened LineBuffer
  import opened ProxyModel
  import opened ProxySockets
  import opened Wrappers

  // ----- one timer or one attempt

  ghost predicate IsHandshake(p: Purpose) {
    !p.Tool?
  }

  ghost predicate IsAttemptTask(t: Task) {
    t.ReplayDone? || t.ReplayFailed? || (t.Resume? && IsHandshake(t.purpose))
  }

  ghost function HandshakesPending(pending: seq<Pending>): nat {
    if pending == [] then 0 else (if IsHandshake(pending[0].purpose) then 1 else 0) + HandshakesPending(pending[1..])
  }

  ghost function AttemptTasks(tasks: seq<Task>): nat {
    if tasks == [] then 0 else (if IsAttemptTask(tasks[0]) then 1 else 0) + AttemptTasks(tasks[1..])
  }

  /** Reconnect attempts under way: one for each place where the code of an attempt is suspended. */
  ghost function Attempts(s: State): nat {
    (if s.net.opening then 1 else 0) + HandshakesPending(s.r.pending) + AttemptTasks(s.r.tasks)
  }

  lemma {:induction false} PendingConcat(a: seq<Pending>, b: seq<Pending>)
    ensures HandshakesPending(a + b) == HandshakesPending(a) + HandshakesPending(b)
  {
    if a == [] {
      assert a + b == b;
    } else {
      PendingConcat(a[1..], b);
      assert (a + b)[1..] == a[1..] + b;
    }
  }

  lemma {:induction false} TasksConcat(a: seq<Task>, b: seq<Task>)
    ensures AttemptTasks(a + b) == AttemptTasks(a) + AttemptTasks(b)
  {
    if a == [] {
      assert a + b == b;
    } else {
      TasksConcat(a[1..], b);
      assert (a + b)[1..] == a[1..] + b;
    }
  }

  lemma OneTask(a: seq<Task>, t: Task)
    ensures AttemptTasks(a + [t]) == AttemptTasks(a) + (if IsAttemptTask(t) then 1 else 0)
  {
    TasksConcat(a, [t]);
    assert [t][1..] == [];
  }

  lemma OnePending(a: seq<Pending>, p: Pending)
    ensures HandshakesPending(a + [p]) == HandshakesPending(a) + (if IsHandshake(p.purpose) then 1 else 0)
  {
    PendingConcat(a, [p]);
    assert [p][1..] == [];
  }

  lemma {:induction false} PendingWithout(pending: seq<Pending>, i: nat)
    requires i < |pending|
    ensures HandshakesPending(pending) ==
            HandshakesPending(Without(pending, i)) + (if IsHandshake(pending[i].purpose) then 1 else 0)
  {
    if i > 0 {
      PendingWithout(pending[1..], i - 1);
      assert Without(pending, i)[1..] == Without(pending[1..], i - 1);
    }
  }

  lemma {:induction false} FailuresAttempts(pending: seq<Pending>)
    ensures AttemptTasks(Failures(pending)) == HandshakesPending(pending)
  {
    if pending != [] {
      FailuresAttempts(pending[1..]);
      assert Failures(pending)[1..] == Failures(pending[1..]);
    }
  }

  lemma {:induction false} WakesAttempts(waiters: seq<Waiter>)
    ensures AttemptTasks(Wakes(waiters)) == 0
  {
    if waiters != [] {
      WakesAttempts(waiters[1..]);
      assert Wakes(waiters)[1..] == Wakes(waiters[1..]);
    }
  }

  ghost function Suspended(r: Requests): nat {
    HandshakesPending(r.pending) + AttemptTasks(r.tasks)
  }

  lemma RawCallAttempts(r: Requests, socket: Option<nat>, p: Purpose)
    ensures Suspended(RawCall(r, socket, p)) == Suspended(r) + (if IsHandshake(p) then 1 else 0)
  {
    match socket
    case None => OneTask(r.tasks, Resume(p, RECONNECTING));
    case Some(k) => OnePending(r.pending, Pending(r.nextId, p, k));
  }

  lemma SettleAttempts(r: Requests, i: nat, outcome: Outcome, end: End)
    requires i < |r.pending|
    ensures Suspended(Settle(r, i, outcome, end)) == Suspended(r)
  {
    PendingWithout(r.pending, i);
    OneTask(r.tasks, Resume(r.pending[i].purpose, outcome));
  }

  lemma FailPendingAttempts(r: Requests)
    ensures Suspended(FailPending(r)) == Suspended(r)
  {
    FailuresAttempts(r.pending);
    TasksConcat(r.tasks, Failures(r.pending));
  }

  lemma ReleaseAttempts(r: Requests)
    ensures Suspended(ReleaseWaiters(r)) == Suspended(r)
  {
    WakesAttempts(r.waiters);
    TasksConcat(r.tasks, Wakes(r.waiters));
  }

  lemma ReplaySelectionAttempts(s: State)
    ensures Suspended(ReplaySelection(s).r) == Suspended(s.r) + 1
  {
    OneTask(s.r.tasks, ReplayDone);
    if s.currentAgent.Some? {
      RawCallAttempts(s.r, s.socket, HandshakeUse(s.currentAgent.value));
    }
  }

  lemma {:induction false} DispatchAllAttempts(classify: Classifier, b: Inbox, lines: seq<string>)
    ensures Suspended(DispatchAll(classify, b, lines).r) == Suspended(b.r)
    decreases |lines|
  {
    if lines != [] {
      DispatchAttempts(b, classify(lines[0]));
      DispatchAllAttempts(classify, Dispatch(b, classify(lines[0])), lines[1..]);
    }
  }

  lemma DispatchAttempts(b: Inbox, incoming: Incoming)
    ensures Suspended(Dispatch(b, incoming).r) == Suspended(b.r)
  {
    if incoming.Malformed? && b.r.pending != [] {
      SettleAttempts(b.r, 0, DESERIALIZATION_ERROR, Replied);
    } else if incoming.Reply? && incoming.id.Some? {
      var i := IndexOfId(b.r.pending, incoming.id.value);
      if i >= 0 {
        SettleAttempts(b.r, i, incoming.outcome, Replied);
      }
    }
  }

  /** The timer field mirrors the armed timer; the flag mirrors the running attempt; and they exclude each other. */
  ghost predicate SingleFlight(s: State) {
    && s.net.armedTimers == (if s.timer then 1 else 0)
    && Attempts(s) == (if s.reconnecting then 1 else 0)
    && !(s.timer && s.reconnecting)
    && (s.closedByUs ==> !s.timer)
    && forall i :: 0 <= i < |s.log.delays| ==> RECONNECT_BASE_DELAY_MS <= s.log.delays[i] <= RECONNECT_MAX_DELAY_MS
  }

  lemma {:induction false} DelayInBounds(attempt: nat)
    ensures RECONNECT_BASE_DELAY_MS <= Delay(attempt) <= RECONNECT_MAX_DELAY_MS
  {
    TwoToPositive(attempt);
  }

  lemma {:induction false} TwoToPositive(n: nat)
    ensures TwoTo(n) >= 1
  {
    if n > 0 {
      TwoToPositive(n - 1);
    }
  }

  /** What `SingleFlight` and the close rule ask of a step. */
  ghost predicate KeepsFlight(s: State, t: State) {
    SingleFlight(t) && (s.closedByUs ==> t.closedByUs && Attempts(t) <= Attempts(s))
  }

  lemma ScheduleFlight(s: State)
    requires SingleFlight(s)
    ensures KeepsFlight(s, ScheduleReconnect(s))
  {
    hide HandshakesPending, AttemptTasks, Delay;
    DelayInBounds(s.attempt);
  }

  lemma FailPendingFlight(s: State, t: State)
    requires SingleFlight(s) && t.r == FailPending(s.r) && t.log.delays == s.log.delays &&
             t.net.armedTimers == s.net.armedTimers
    requires t.net.opening == s.net.opening && t.timer == s.timer && t.reconnecting == s.reconnecting &&
             t.closedByUs == s.closedByUs
    ensures KeepsFlight(s, t)
  {
    FailPendingAttempts(s.r);
  }

  lemma SocketClosedFlight(s: State, k: nat)
    requires SingleFlight(s)
    ensures KeepsFlight(s, DoSocketClosed(s, k))
  {
    hide HandshakesPending, AttemptTasks, FailPending, Delay;
    var t := Dropping(s, k);
    FailPendingFlight(s, t);
    ScheduleFlight(t);
  }

  lemma OpenOkFlight(s: State)
    requires SingleFlight(s) && s.net.opening
    ensures KeepsFlight(s, DoOpenOk(s))
  {
    hide HandshakesPending, AttemptTasks, RawCall;
    var t := Opened(s);
    if t.hasClientType {
      RawCallAttempts(t.r, t.socket, HandshakeConnect);
    } else {
      ReplaySelectionAttempts(t);
    }
  }

  lemma OpenFailFlight(s: State)
    requires SingleFlight(s) && s.net.opening
    ensures KeepsFlight(s, DoOpenFail(s))
  {
    var t := s.(net := s.net.(opening := false), connected := false, reconnecting := false);
    ScheduleFlight(t);
  }

  lemma CallFlight(s: State, request: Request)
    requires SingleFlight(s)
    ensures KeepsFlight(s, DoCall(s, request))
  {
    hide HandshakesPending, AttemptTasks, RawCall, DoCall;
    CallOutcomes(s, request);
    RawCallAttempts(s.r.(nextCall := s.r.nextCall + 1), s.socket, Tool(s.r.nextCall, request));
  }

  lemma DialFlight(s: State, k: nat)
    requires SingleFlight(s)
    ensures KeepsFlight(s, DoDial(s)) && KeepsFlight(s, DoDialOk(s, k))
  {
    hide HandshakesPending, AttemptTasks;
  }

  lemma DialFailFlight(s: State, k: nat)
    requires SingleFlight(s)
    ensures KeepsFlight(s, DoDialFail(s, k))
  {
    hide HandshakesPending, AttemptTasks, FailPending;
    FailPendingFlight(s, DoDialFail(s, k));
  }

  lemma DataFlight(classify: Classifier, s: State, chunk: Chunk)
    requires SingleFlight(s)
    ensures KeepsFlight(s, DoData(classify, s, chunk))
  {
    hide HandshakesPending, AttemptTasks, DispatchAll, Lines, Rest;
    DispatchAllAttempts(classify, Inbox(s.r, s.log.granted), Lines(s.buffer + chunk.text));
  }

  lemma TimerFlight(s: State)
    requires SingleFlight(s) && s.net.armedTimers > 0
    ensures KeepsFlight(s, DoTimerFires(s))
  {
    hide HandshakesPending, AttemptTasks;
  }

  lemma TimeoutsFlight(s: State, x: nat)
    requires SingleFlight(s)
    ensures KeepsFlight(s, DoHandshakeTimeout(s, x)) && KeepsFlight(s, DoWaiterTimeout(s, x))
  {
    hide HandshakesPending, AttemptTasks, IndexOfId, IndexOfCall, Settle, GiveUpWaiting;
    if IndexOfId(s.r.pending, x) >= 0 {
      SettleAttempts(s.r, IndexOfId(s.r.pending, x), RECONNECTING, TimedOut);
    }
    if IndexOfCall(s.r.waiters, x) >= 0 {
      GiveUpAttempts(s.r, IndexOfCall(s.r.waiters, x));
    }
  }

  lemma CloseFlight(s: State)
    requires SingleFlight(s)
    ensures KeepsFlight(s, DoCloseProxy(s))
  {
    hide HandshakesPending, AttemptTasks, ReleaseWaiters;
    ReleaseAttempts(s.r);
  }

  lemma StepSingleFlight(classify: Classifier, s: State, e: Event)
    requires SingleFlight(s) && Enabled(s, e)
    ensures KeepsFlight(s, Step(classify, s, e))
  {
    hide SingleFlight, KeepsFlight, DoDial, DoDialOk, DoDialFail, DoData, DoSocketClosed, DoTimerFires, DoOpenOk,
      DoOpenFail, DoHandshakeTimeout, DoWaiterTimeout, DoCall, DoCloseProxy, RunTask, IndexOfId, IndexOfCall;
    match e
    case Dial => DialFlight(s, 0);
    case DialOk(k) => DialFlight(s, k);
    case DialFail(k) => DialFailFlight(s, k);
    case Data(chunk) => DataFlight(classify, s, chunk);
    case SocketClosed(k) => SocketClosedFlight(s, k);
    case TimerFires => TimerFlight(s);
    case OpenOk => OpenOkFlight(s);
    case OpenFail => OpenFailFlight(s);
    case HandshakeTimeout(id) => TimeoutsFlight(s, id);
    case WaiterTimeout(c) => TimeoutsFlight(s, c);
    case Call(request) => CallFlight(s, request);
    case CloseProxy => CloseFlight(s);
    case Microtask => TaskFlight(s);
  }

  lemma GiveUpAttempts(r: Requests, i: nat)
    requires i < |r.waiters|
    ensures Suspended(GiveUpWaiting(r, i)) == Suspended(r)
  {
    OneTask(r.tasks, Wake(r.waiters[i], false));
  }

  /** `SingleFlight`, were it not for `n` attempts whose continuation is just being run. */
  ghost predicate FlightBut(s: State, n: nat) {
    && s.net.armedTimers == (if s.timer then 1 else 0)
    && Attempts(s) + n == (if s.reconnecting then 1 else 0)
    && !(s.timer && s.reconnecting)
    && (s.closedByUs ==> !s.timer)
    && forall i :: 0 <= i < |s.log.delays| ==> RECONNECT_BASE_DELAY_MS <= s.log.delays[i] <= RECONNECT_MAX_DELAY_MS
  }

  ghost function AttemptOf(t: Task): nat {
    if IsAttemptTask(t) then 1 else 0
  }

  lemma DequeuedFlight(s: State)
    requires SingleFlight(s) && s.r.tasks != []
    ensures FlightBut(Dequeued(s), AttemptOf(s.r.tasks[0]))
  {
  }

  lemma AnsweringFlight(s: State, c: nat, request: Request, outcome: Outcome)
    requires FlightBut(s, 0)
    ensures SingleFlight(AnswerCall(s, c, request, outcome))
  {
    hide HandshakesPending, AttemptTasks;
  }

  lemma ReplayingFlight(s: State)
    requires FlightBut(s, 1)
    ensures SingleFlight(ReplaySelection(s))
  {
    hide HandshakesPending, AttemptTasks, RawCall;
    ReplaySelectionAttempts(s);
  }

  lemma ReplayedFlight(s: State, outcome: Outcome)
    requires FlightBut(s, 1)
    ensures SingleFlight(AfterReplayedUse(s, outcome))
  {
    hide HandshakesPending, AttemptTasks;
    OneTask(s.r.tasks, ReplayDone);
    OneTask(s.r.tasks, ReplayFailed);
  }

  lemma WakingFlight(s: State, w: Waiter, connected: bool)
    requires FlightBut(s, 0)
    ensures SingleFlight(DoWake(s, w, connected))
  {
    hide HandshakesPending, AttemptTasks, RawCall;
    RawCallAttempts(s.r, s.socket, Tool(w.call, w.request));
  }

  lemma FinishingFlight(s: State)
    requires FlightBut(s, 1)
    ensures SingleFlight(FinishReplay(s))
  {
    hide HandshakesPending, AttemptTasks, ReleaseWaiters;
    ReleaseAttempts(s.r);
  }

  lemma FailingFlight(s: State)
    requires FlightBut(s, 1)
    ensures SingleFlight(AttemptFailed(s))
  {
    hide HandshakesPending, AttemptTasks;
    ScheduleFlight(s.(connected := false, reconnecting := false));
  }

  lemma TaskFlight(s: State)
    requires SingleFlight(s) && s.r.tasks != []
    ensures KeepsFlight(s, RunTask(Dequeued(s), s.r.tasks[0]))
  {
    var d, task := Dequeued(s), s.r.tasks[0];
    DequeuedFlight(s);
    match task {
      case Resume(Tool(c, request), outcome) => AnsweringFlight(d, c, request, outcome);
      case Resume(HandshakeConnect, _) => ReplayingFlight(d);
      case Resume(HandshakeUse(_), outcome) => ReplayedFlight(d, outcome);
      case Wake(w, connected) => WakingFlight(d, w, connected);
      case ReplayDone => FinishingFlight(d);
      case ReplayFailed => FailingFlight(d);
    }
    TaskKeepsFlags(d, task);
  }

  /** A continuation ends an attempt or leaves the flag; it never sets it. */
  lemma TaskKeepsFlags(s: State, task: Task)
    ensures RunTask(s, task).closedByUs == s.closedByUs
    ensures RunTask(s, task).reconnecting ==> s.reconnecting
  {
    hide RawCall, AgentAfter, ReleaseWaiters, Delay, Selects;
    match task
    case Resume(_, _) =>
    case Wake(_, _) =>
    case ReplayDone =>
    case ReplayFailed =>
  }

  lemma {:induction false} RunSingleFlight(classify: Classifier, run: seq<State>, events: seq<Event>, i: nat)
    requires IsRun(classify, run, events) && i < |run|
    ensures SingleFlight(run[i])
  {
    if i > 0 {
      RunSingleFlight(classify, run, events, i - 1);
      StepSingleFlight(classify, run[i - 1], events[i - 1]);
    }
  }

  /** Armed timers and running attempts together never exceed one, and every delay lies in [200, 5000] ms. */
  lemma AtMostOneReconnect(classify: Classifier, run: seq<State>, events: seq<Event>, n: nat)
    requires IsRun(classify, run, events) && n < |run|
    ensures run[n].net.armedTimers + Attempts(run[n]) <= 1
    ensures forall i :: 0 <= i < |run[n].log.delays| ==> 200 <= run[n].log.delays[i] <= 5000
  {
    RunSingleFlight(classify, run, events, n);
  }

  /** After `close` no timer is armed and no attempt begins; one already begun may still run to its end. */
  lemma {:induction false} NothingStartsAfterClose(classify: Classifier, run: seq<State>, events: seq<Event>, m: nat,
      n: nat)
    requires IsRun(classify, run, events) && m <= n < |run| && run[m].closedByUs
    ensures run[n].closedByUs && run[n].net.armedTimers == 0 && Attempts(run[n]) <= Attempts(run[m])
    decreases n
  {
    hide Step, Enabled, Attempts;
    RunSingleFlight(classify, run, events, n);
    if m < n {
      NothingStartsAfterClose(classify, run, events, m, n - 1);
      RunSingleFlight(classify, run, events, n - 1);
      StepSingleFlight(classify, run[n - 1], events[n - 1]);
    }
  }

  // ----- where recovery ends

  /** A dial not answered yet, or a refused socket whose own close is still to come. */
  ghost predicate Due(net: Network) {
    exists k :: k in net.live && !net.Open(k)
  }

  /** A connection that once worked is up, or something is under way to bring it back. */
  ghost predicate Recovering(s: State) {
    !s.everConnected || s.closedByUs || s.connected || s.timer || s.reconnecting || Due(s.net)
  }

  /**
   Exactly one step leaves a lost connection with nothing under way: the end of a replay on a connection that was lost
   meanwhile. The close was noticed while the attempt was running, and so scheduled nothing.
   */
  lemma RecoveryEndsExactly(classify: Classifier, s: State, e: Event)
    requires SingleFlight(s) && NetworkBelow(s.net) && Enabled(s, e) && Recovering(s)
    ensures !Recovering(Step(classify, s, e)) <==>
            e.Microtask? && s.r.tasks[0].ReplayDone? &&
            s.everConnected && !s.closedByUs && !s.connected && !Due(s.net)
  {
    hide SingleFlight, Settle, GiveUpWaiting, FailPending, ReleaseWaiters, IndexOfId, IndexOfCall, DispatchAll, Lines,
      Rest, RawCall, Delay, DoCall, RunTask;
    match e
    case DialFail(k) =>
      assert k in s.net.live;
    case Call(request) => CallOutcomes(s, request);
    case Microtask => TaskEndsRecovery(s);
    case _ =>
  }

  lemma TaskEndsRecovery(s: State)
    requires SingleFlight(s) && s.r.tasks != [] && Recovering(s)
    ensures !Recovering(RunTask(Dequeued(s), s.r.tasks[0])) <==>
            s.r.tasks[0].ReplayDone? && s.everConnected && !s.closedByUs && !s.connected && !Due(s.net)
  {
    var task := s.r.tasks[0];
    if IsAttemptTask(task) {
      AttemptTaskFirst(s.r.tasks);
      assert s.reconnecting && !s.timer;
    }
    hide HandshakesPending, AttemptTasks, ReleaseWaiters, RawCall, Delay, AgentAfter;
  }

  lemma AttemptTaskFirst(tasks: seq<Task>)
    requires tasks != [] && IsAttemptTask(tasks[0])
    ensures AttemptTasks(tasks) >= 1
  {
  }

  /** `connect`, the close of a socket still open, or `close`. */
  ghost predicate Revives(e: Event) {
    e.Dial? || e.SocketClosed? || e.CloseProxy?
  }

  /** Once recovery has ended, exactly those three events change that. */
  lemma EndedUntil(classify: Classifier, s: State, e: Event)
    requires SingleFlight(s) && NetworkBelow(s.net) && Enabled(s, e) && !Recovering(s)
    ensures Recovering(Step(classify, s, e)) <==> Revives(e)
  {
    hide HandshakesPending, AttemptTasks, Settle, GiveUpWaiting, FailPending, ReleaseWaiters, IndexOfId, IndexOfCall,
      DispatchAll, Lines, Rest, RawCall, Delay, DoCall;
    match e
    case Dial =>
      assert !DoDial(s).net.Open(s.net.nextSocket);
    case Call(request) => CallOutcomes(s, request);
    case Microtask =>
      if IsAttemptTask(s.r.tasks[0]) {
        AttemptTaskFirst(s.r.tasks);
      }
    case _ =>
  }

  /** In every run a lost connection stays lost until one of the three happens. */
  lemma {:induction false} StaysEnded(classify: Classifier, run: seq<State>, events: seq<Event>, m: nat, n: nat)
    requires IsRun(classify, run, events) && m <= n < |run| && !Recovering(run[m])
    ensures Recovering(run[n]) ==> exists i :: m <= i < n && Revives(events[i])
    decreases n
  {
    hide Recovering, Revives, Step, Enabled, SingleFlight, NetworkBelow;
    if n > m {
      StaysEnded(classify, run, events, m, n - 1);
      if !Recovering(run[n - 1]) {
        RunSingleFlight(classify, run, events, n - 1);
        RunNumbered(classify, run, events, n - 1);
        EndedUntil(classify, run[n - 1], events[n - 1]);
        assert Recovering(run[n]) ==> Revives(events[n - 1]);
      }
    }
  }

  // ----- calls on a lost connection

  /** Nothing is open or under way: neither a socket nor a timer nor an attempt. */
  ghost predicate Stranded(s: State) {
    !s.connected && !s.timer && !s.reconnecting && s.net.live == {} && s.net.dialing == {}
  }

  lemma StrandedStep(classify: Classifier, s: State, e: Event)
    requires SingleFlight(s) && Stranded(s) && Enabled(s, e) && !e.Dial?
    ensures Stranded(Step(classify, s, e)) && s.r.pending <= Step(classify, s, e).r.pending
  {
    if e.HandshakeTimeout? {
      PendingWithout(s.r.pending, IndexOfId(s.r.pending, e.id));
    }
    if e.Microtask? && IsAttemptTask(s.r.tasks[0]) {
      AttemptTaskFirst(s.r.tasks);
    }
    hide HandshakesPending, AttemptTasks, Settle, GiveUpWaiting, FailPending, ReleaseWaiters, IndexOfId, IndexOfCall,
      DispatchAll, Lines, Rest, Delay;
  }

  /**
   In every run: from a moment when nothing is open or under way, every request in flight stays in flight and goes
   unanswered, until `connect` is called.
   */
  lemma {:induction false} StrandedCallsStayPending(classify: Classifier, run: seq<State>, events: seq<Event>, m: nat,
      n: nat)
    requires IsRun(classify, run, events) && m <= n < |run| && Stranded(run[m])
    requires forall i :: m <= i < n ==> !events[i].Dial?
    ensures Stranded(run[n]) && run[m].r.pending <= run[n].r.pending
    decreases n
  {
    if n > m {
      StrandedCallsStayPending(classify, run, events, m, n - 1);
      RunSingleFlight(classify, run, events, n - 1);
      hide Stranded, Step, Enabled;
      StrandedStep(classify, run[n - 1], events[n - 1]);
    }
  }
}
