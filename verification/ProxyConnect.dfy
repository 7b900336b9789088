/**
 When `connect` may be repeated: a rule on its calls alone that keeps a run to one session, and with it the promise that
 the agent cached after a reconnect is one the daemon granted on the new socket.
 */
module ProxyConnect {
  import opened LineBuffer
  import opened ProxyModel
  import opened ProxyReconnect
  import opened ProxyReplay
  import opened ProxySockets

  /**
   The rule: `connect` is called on an open proxy with nothing in flight and nothing cached, and succeeds while no
   reconnect is under way; and the daemon's answer to a replayed selection carries a result.
   */
  ghost predicate Orderly(s: State, e: Event) {
    match e
    case Dial => !s.closedByUs && Careful(s, Dial)
    case DialOk(_) => !s.timer && !s.reconnecting
    case Microtask =>
      s.r.tasks != [] && s.r.tasks[0].Resume? && s.r.tasks[0].purpose.HandshakeUse? ==> !s.r.tasks[0].outcome.Undefined?
    case _ => true
  }

  ghost predicate IsOrderlyRun(classify: Classifier, run: seq<State>, events: seq<Event>) {
    IsRun(classify, run, events) && forall i :: 0 <= i < |events| ==> Orderly(run[i], events[i])
  }

  // ----- nothing is in flight when a reconnect attaches its socket

  ghost predicate WakesCaller(t: Task) {
    t.Wake? && t.connected
  }

  ghost predicate NoneFailed(tasks: seq<Task>) {
    forall i :: 0 <= i < |tasks| ==> !tasks[i].ReplayFailed?
  }

  ghost predicate NoneWakes(tasks: seq<Task>) {
    forall i :: 0 <= i < |tasks| ==> !WakesCaller(tasks[i])
  }

  /** While a reconnect waits for its timer or its socket, nothing is in flight, and nothing will be. */
  ghost predicate Calm(s: State) {
    && NoneFailed(s.r.tasks)
    && (s.timer || s.net.opening ==>
          !s.connected && s.r.pending == [] && (NoneWakes(s.r.tasks) || (s.closedByUs && s.socket.None?)))
  }

  lemma FailuresCalm(pending: seq<Pending>)
    ensures NoneFailed(Failures(pending)) && NoneWakes(Failures(pending))
  {
    FailuresAre(pending);
  }

  lemma WakesCalm(waiters: seq<Waiter>)
    ensures NoneFailed(Wakes(waiters))
  {
    WakesAre(waiters);
  }

  lemma CalmConcat(a: seq<Task>, b: seq<Task>)
    ensures NoneFailed(a) && NoneFailed(b) ==> NoneFailed(a + b)
    ensures NoneWakes(a) && NoneWakes(b) ==> NoneWakes(a + b)
  {
  }

  lemma {:induction false} DispatchAllCalm(classify: Classifier, b: Inbox, lines: seq<string>)
    requires NoneFailed(b.r.tasks)
    ensures NoneFailed(DispatchAll(classify, b, lines).r.tasks)
    decreases |lines|
  {
    if lines != [] {
      hide Grant, Without;
      DispatchAllCalm(classify, Dispatch(b, classify(lines[0])), lines[1..]);
    }
  }

  lemma ClosedCalm(s: State, k: nat)
    requires Calm(s) && s.r.tasks == []
    ensures Calm(DoSocketClosed(s, k)) && Calm(DoDialFail(s, k))
  {
    FailuresCalm(s.r.pending);
    assert [] + Failures(s.r.pending) == Failures(s.r.pending);
    hide Delay, NoneFailed, NoneWakes, Failures;
  }

  lemma {:induction false} DispatchAllSettled(classify: Classifier, b: Inbox, lines: seq<string>)
    requires b.r.pending == []
    ensures DispatchAll(classify, b, lines).r == b.r
    decreases |lines|
  {
    if lines != [] {
      DispatchAllSettled(classify, Dispatch(b, classify(lines[0])), lines[1..]);
    }
  }

  lemma DataCalm(classify: Classifier, s: State, chunk: Chunk)
    requires Calm(s)
    ensures Calm(DoData(classify, s, chunk))
  {
    var t, b, lines := DoData(classify, s, chunk), Inbox(s.r, s.log.granted), Lines(s.buffer + chunk.text);
    DispatchAllCalm(classify, b, lines);
    if s.r.pending == [] {
      DispatchAllSettled(classify, b, lines);
    }
    DataKeepsFlags(classify, s, chunk);
    DataSame(classify, s, chunk);
    hide DispatchAll, Lines, DoData, NoneFailed, NoneWakes;
  }

  lemma DataKeepsFlags(classify: Classifier, s: State, chunk: Chunk)
    ensures var t := DoData(classify, s, chunk); t.timer == s.timer && t.net == s.net
  {
    hide Lines, DispatchAll, Rest;
  }

  lemma OpenCalm(s: State)
    requires Calm(s) && SingleFlight(s) && s.net.opening && s.r.tasks == []
    ensures Calm(DoOpenOk(s)) && Calm(DoOpenFail(s)) && Careful(s, OpenOk)
  {
    hide Delay;
  }

  lemma CallCalm(s: State, request: Request)
    requires Calm(s)
    ensures Calm(DoCall(s, request))
  {
    CallOutcomes(s, request);
    CalmConcat(s.r.tasks, [Resume(Tool(s.r.nextCall, request), RECONNECTING)]);
    hide DoCall, NoneFailed, NoneWakes;
    assert NoneFailed([Resume(Tool(s.r.nextCall, request), RECONNECTING)]) by {
      OneCalm(Resume(Tool(s.r.nextCall, request), RECONNECTING));
    }
  }

  lemma OneCalm(t: Task)
    ensures NoneFailed([t]) <==> !t.ReplayFailed?
    ensures NoneWakes([t]) <==> !WakesCaller(t)
  {
    assert [t][0] == t;
  }

  lemma TimeoutsCalm(s: State, x: nat)
    requires Calm(s)
    ensures Calm(DoHandshakeTimeout(s, x)) && Calm(DoWaiterTimeout(s, x))
  {
    hide IndexOfId, IndexOfCall, Without;
  }

  lemma CloseCalm(s: State)
    requires Calm(s)
    ensures Calm(DoCloseProxy(s))
  {
    WakesCalm(s.r.waiters);
    CalmConcat(s.r.tasks, Wakes(s.r.waiters));
    hide NoneFailed, NoneWakes, Wakes;
  }

  lemma DequeuedCalm(s: State)
    requires Calm(s) && s.r.tasks != []
    ensures Calm(Dequeued(s)) && !s.r.tasks[0].ReplayFailed?
    ensures s.timer || s.net.opening ==> !WakesCaller(s.r.tasks[0]) || s.socket.None?
  {
  }

  lemma AppendCalm(s: State, t: State, task: Task)
    requires Calm(s) && t.r.pending == s.r.pending && t.r.tasks == s.r.tasks + [task] && Quiet(s, t)
    requires !task.ReplayFailed? && !WakesCaller(task)
    requires t.timer == s.timer && t.connected == s.connected && t.net == s.net
    ensures Calm(t)
  {
    OneCalm(task);
    CalmConcat(s.r.tasks, [task]);
    hide NoneFailed, NoneWakes;
  }

  lemma WakeCalm(s: State, w: Waiter, connected: bool)
    requires Calm(s) && (connected && (s.timer || s.net.opening) ==> s.socket.None?)
    ensures Calm(DoWake(s, w, connected))
  {
    var t := DoWake(s, w, connected);
    if connected && s.socket.None? {
      AppendCalm(s, t, Resume(Tool(w.call, w.request), RECONNECTING));
    } else {
      assert t.r.tasks == s.r.tasks;
      hide NoneFailed, NoneWakes;
    }
  }

  /** A continuation of an attempt runs while no timer is armed and nothing is being opened. */
  lemma AttemptTaskCalm(s: State, t: State)
    requires Calm(s) && !s.timer && !s.net.opening && t.timer == s.timer && t.net.opening == s.net.opening
    requires s.r.tasks <= t.r.tasks && NoneFailed(t.r.tasks[|s.r.tasks|..])
    ensures Calm(t)
  {
    assert t.r.tasks == s.r.tasks + t.r.tasks[|s.r.tasks|..];
    CalmConcat(s.r.tasks, t.r.tasks[|s.r.tasks|..]);
    hide NoneFailed, NoneWakes;
  }

  lemma ReplaySelectionCalm(s: State)
    requires Calm(s) && !s.timer && !s.net.opening
    ensures Calm(ReplaySelection(s))
  {
    AttemptTaskCalm(s, ReplaySelection(s));
  }

  lemma AfterUseCalm(s: State, outcome: Outcome)
    requires Calm(s) && !s.timer && !s.net.opening && !outcome.Undefined?
    ensures Calm(AfterReplayedUse(s, outcome))
  {
    AttemptTaskCalm(s, AfterReplayedUse(s, outcome));
  }

  lemma FinishCalm(s: State)
    requires Calm(s) && !s.timer && !s.net.opening
    ensures Calm(FinishReplay(s))
  {
    var t := FinishReplay(s);
    WakesCalm(s.r.waiters);
    assert t.r.tasks[|s.r.tasks|..] == Wakes(s.r.waiters);
    hide Wakes;
    AttemptTaskCalm(s, t);
  }

  lemma TaskCalm(s: State)
    requires Calm(s) && SingleFlight(s) && s.r.tasks != [] && Orderly(s, Microtask)
    ensures Calm(RunTask(Dequeued(s), s.r.tasks[0])) && Careful(s, Microtask)
  {
    var d, task := Dequeued(s), s.r.tasks[0];
    DequeuedCalm(s);
    if IsAttemptTask(task) {
      AttemptTaskAlone(s);
    }
    hide SingleFlight, Calm, ReplaySelection, AfterReplayedUse, DoWake, FinishReplay, AttemptFailed, AgentAfter;
    match task
    case Resume(Tool(c, request), outcome) => AnswerCalm(d, c, request, outcome);
    case Resume(HandshakeConnect, _) => ReplaySelectionCalm(d);
    case Resume(HandshakeUse(_), outcome) => AfterUseCalm(d, outcome);
    case Wake(w, connected) => WakeCalm(d, w, connected);
    case ReplayDone => FinishCalm(d);
  }

  lemma AnswerCalm(s: State, c: nat, request: Request, outcome: Outcome)
    requires Calm(s)
    ensures Calm(AnswerCall(s, c, request, outcome))
  {
    hide AgentAfter, NoneFailed, NoneWakes;
  }

  lemma StepCalm(classify: Classifier, s: State, e: Event)
    requires Calm(s) && Sound(s) && Enabled(s, e) && Orderly(s, e)
    ensures Calm(Step(classify, s, e)) && Careful(s, e)
  {
    if e.Dial? || e.DialOk? || e.TimerFires? {
      RestCalm(classify, s, e);
    } else {
      hide Calm, Numbered, SingleFlight, DoDialFail, DoData, DoSocketClosed, DoOpenOk, DoOpenFail, DoHandshakeTimeout,
        DoWaiterTimeout, DoCall, DoCloseProxy, RunTask, IndexOfId, IndexOfCall;
      match e
      case DialFail(k) => ClosedCalm(s, k);
      case Data(chunk) => DataCalm(classify, s, chunk);
      case SocketClosed(k) => ClosedCalm(s, k);
      case OpenOk => OpenCalm(s);
      case OpenFail => OpenCalm(s);
      case HandshakeTimeout(id) => TimeoutsCalm(s, id);
      case WaiterTimeout(c) => TimeoutsCalm(s, c);
      case Call(request) => CallCalm(s, request);
      case CloseProxy => CloseCalm(s);
      case Microtask => TaskCalm(s);
    }
  }

  lemma RestCalm(classify: Classifier, s: State, e: Event)
    requires Calm(s) && SingleFlight(s) && Enabled(s, e) && Orderly(s, e) && (e.Dial? || e.DialOk? || e.TimerFires?)
    ensures Calm(Step(classify, s, e)) && Careful(s, e)
  {
    assert s.net.opening ==> s.reconnecting;
    hide NoneFailed, NoneWakes;
  }

  /** The rule keeps a run to one session: whatever a reconnect finds when it attaches its socket needs no condition. */
  lemma {:induction false} OrderlyKeepsSession(classify: Classifier, run: seq<State>, events: seq<Event>, n: nat)
    requires IsOrderlyRun(classify, run, events) && n < |run|
    ensures OneSession(run[n]) && Calm(run[n])
  {
    if n > 0 {
      OrderlyKeepsSession(classify, run, events, n - 1);
      RunSound(classify, run, events, n - 1);
      hide OneSession, Calm, Sound, Step, Enabled, Orderly, Careful;
      StepCalm(classify, run[n - 1], events[n - 1]);
      StepExactly(classify, run[n - 1], events[n - 1]);
    }
  }

  // ----- the first connections

  /**
   Until a connection first succeeds, an open proxy has nothing in flight, nothing cached and no reconnect under way.
   */
  ghost predicate Untouched(s: State) {
    !s.everConnected && !s.closedByUs ==>
      && !s.connected && !s.timer && !s.reconnecting && s.currentAgent.None? && s.r.pending == []
      && forall i :: 0 <= i < |s.r.tasks| ==> s.r.tasks[i].Wake? && !s.r.tasks[i].connected
  }

  lemma StepUntouched(classify: Classifier, s: State, e: Event)
    requires Untouched(s) && SingleFlight(s) && Enabled(s, e)
    ensures Untouched(Step(classify, s, e))
  {
    if !s.everConnected && !s.closedByUs {
      hide Delay, Without, Wakes, DispatchAll, Lines, Rest, TimerCleared, HandshakesPending, AttemptTasks;
      match e
      case OpenOk => OpenOkConnects(s);
      case Microtask => TaskUntouched(s);
      case Call(request) => CallOutcomes(s, request);
      case Data(chunk) =>
        DispatchAllSettled(classify, Inbox(s.r, s.log.granted), Lines(s.buffer + chunk.text));
      case _ =>
    } else {
      NeverUntouched(classify, s, e);
      hide Step;
    }
  }

  lemma OpenOkConnects(s: State)
    ensures DoOpenOk(s).everConnected
  {
    hide RawCall;
  }

  lemma TaskUntouched(s: State)
    requires Untouched(s) && !s.everConnected && !s.closedByUs && s.r.tasks != []
    ensures Untouched(RunTask(Dequeued(s), s.r.tasks[0]))
  {
    var d := Dequeued(s);
    assert forall i :: 0 <= i < |d.r.tasks| ==> d.r.tasks[i] == s.r.tasks[i + 1];
  }

  lemma NeverUntouched(classify: Classifier, s: State, e: Event)
    requires Enabled(s, e)
    ensures var t := Step(classify, s, e); (s.everConnected ==> t.everConnected) && (s.closedByUs ==> t.closedByUs)
  {
    hide DoCall, RunTask, IndexOfId, IndexOfCall, RawCall, Delay, FailPending, ReleaseWaiters, Settle, GiveUpWaiting,
      DispatchAll, Lines, Rest;
    match e
    case Call(request) => CallOutcomes(s, request);
    case Microtask => TaskQuiet(Dequeued(s), s.r.tasks[0]);
    case _ =>
  }

  lemma {:induction false} RunUntouched(classify: Classifier, run: seq<State>, events: seq<Event>, n: nat)
    requires IsRun(classify, run, events) && n < |run|
    ensures Untouched(run[n])
  {
    if n > 0 {
      RunUntouched(classify, run, events, n - 1);
      RunSingleFlight(classify, run, events, n - 1);
      hide Untouched, SingleFlight, Step, Enabled;
      StepUntouched(classify, run[n - 1], events[n - 1]);
    }
  }

  /**
   In every run, until a connection first succeeds, `connect` on an open proxy keeps to the rule, and so does its
   success.
   */
  lemma FirstConnectIsOrderly(classify: Classifier, run: seq<State>, events: seq<Event>, i: nat)
    requires IsRun(classify, run, events) && i < |events| && (events[i].Dial? || events[i].DialOk?)
    requires !run[i].everConnected && !run[i].closedByUs
    ensures Orderly(run[i], events[i])
  {
    RunUntouched(classify, run, events, i);
  }

  // ----- the cached agent after the replay

  /**
   In every orderly run, while no reconnect attempt is under way, or when one is about to release its callers, a
   cached agent name that is not empty was granted by the daemon on the socket in use.
   */
  lemma CachedAgentWasGranted(classify: Classifier, run: seq<State>, events: seq<Event>, n: nat)
    requires IsOrderlyRun(classify, run, events) && n < |run|
    requires !run[n].reconnecting || (run[n].r.tasks != [] && run[n].r.tasks[0].ReplayDone?)
    requires Caches(run[n])
    ensures GrantedOn(run[n].log.session, run[n].log.granted, run[n].currentAgent.value)
  {
    var s := run[n];
    OrderlyKeepsSession(classify, run, events, n);
    RunSound(classify, run, events, n);
    if Asked(s.r, s.currentAgent.value) {
      OpenHandshakeCounts(s.r, s.currentAgent.value);
      if s.reconnecting {
        AttemptTaskAlone(s);
        DequeuedAsked(s, s.currentAgent.value);
        OpenHandshakeCounts(Dequeued(s).r, s.currentAgent.value);
      }
    }
  }
}
