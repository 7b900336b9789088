/**
 With one socket at a time: a call that had to wait is written after a replay that was answered or timed out exactly if
 its socket had not dropped by then; if it had, the call is never answered.
 */
module ProxyUnanswered {
  import opened LineBuffer
  import opened ProxyAccounting
  import opened ProxyConnect
  import opened ProxyHandshake
  import opened ProxyModel
  import opened ProxyReconnect
  import opened ProxyReplay
  import opened ProxyRestored
  import opened ProxySockets
  import opened ProxyStream
  import opened Wrappers

  /** No continuation ends the attempt with an error. */
  ghost predicate Ends(t: Task) {
    !t.ReplayFailed? && !(t.Resume? && t.purpose.HandshakeUse? && t.outcome.Undefined?)
  }

  ghost predicate AllEnd(tasks: seq<Task>) {
    forall i :: 0 <= i < |tasks| ==> Ends(tasks[i])
  }

  /** A reconnect is replaying on a socket that is gone. */
  ghost predicate Lost(s: State) {
    Replaying(s) && !s.connected && s.net.live == {} && AllEnd(s.r.tasks)
  }

  ghost predicate DroppedOn(log: History, k: nat) {
    (k, Drop(k)) in log.disturbed
  }

  /**
   Once a reconnect made a socket, only reconnects do; and all that disturbs a replay is the drop of its socket, or
   `close`.
   */
  ghost predicate OnlyReconnects(s: State) {
    && (s.log.reopened != [] ==> s.everConnected && s.log.session == LastReopened(s.log))
    && (s.log.reopened == [] ==> NoneWakes(s.r.tasks) || (s.closedByUs && s.socket.None?))
    && forall x :: x in s.log.disturbed ==> x.1 == Drop(x.0) || x.1 == Closing
  }

  ghost predicate LastDropped(s: State) {
    s.log.reopened != [] && DroppedOn(s.log, LastReopened(s.log).value) ==> Stranded(s) || Lost(s)
  }

  ghost predicate Unanswered(s: State, w: Written) {
    Stranded(s) && exists j :: 0 <= j < |s.r.pending| && s.r.pending[j].purpose == w.purpose
  }

  ghost predicate Released(s: State, w: Written) {
    w.purpose.Tool? && w.purpose.call in s.log.queued ==>
      w.socket in s.log.reopened && (DroppedOn(s.log, w.socket) ==> Unanswered(s, w))
  }

  ghost predicate AllReleased(s: State) {
    forall i :: 0 <= i < |s.r.written| ==> Released(s, s.r.written[i])
  }

  ghost predicate Doomed(s: State) {
    OnlyReconnects(s) && LastDropped(s) && AllReleased(s)
  }

  /** What else is known of a state of such a run. */
  ghost predicate Single(s: State) {
    Sound(s) && Restores(s) && OnlySocket(s)
  }

  // ----- continuations that do not fail the attempt

  lemma EndConcat(a: seq<Task>, b: seq<Task>)
    requires AllEnd(a) && AllEnd(b)
    ensures AllEnd(a + b)
  {
  }

  lemma FailuresEnd(pending: seq<Pending>)
    ensures AllEnd(Failures(pending))
  {
    FailuresAre(pending);
  }

  lemma WakesEnd(waiters: seq<Waiter>)
    ensures AllEnd(Wakes(waiters))
  {
    WakesAre(waiters);
  }

  lemma AppendEnds(tasks: seq<Task>, t: Task)
    requires AllEnd(tasks) && Ends(t)
    ensures AllEnd(tasks + [t])
  {
  }

  // ----- the last socket dropped

  lemma TaskLost(s: State)
    requires Lost(s) && Sound(s) && s.r.tasks != [] && s.net.dialing == {}
    ensures var t := RunTask(Dequeued(s), s.r.tasks[0]); Stranded(t) || Lost(t)
  {
    var d, task := Dequeued(s), s.r.tasks[0];
    assert Ends(task);
    assert forall i :: 0 <= i < |d.r.tasks| ==> d.r.tasks[i] == s.r.tasks[i + 1];
    assert Lost(d) && !d.timer;
    TaskQuiet(d, task);
    hide SingleFlight, Numbered;
    match task
    case Resume(Tool(c, request), outcome) => hide AgentAfter;
    case Resume(HandshakeConnect, _) => SelectionLost(d);
    case Resume(HandshakeUse(_), outcome) => AppendEnds(d.r.tasks, ReplayDone);
    case Wake(w, connected) => AppendEnds(d.r.tasks, Resume(Tool(w.call, w.request), RECONNECTING));
    case ReplayDone => hide Wakes;
  }

  lemma SelectionLost(s: State)
    requires Lost(s)
    ensures Lost(ReplaySelection(s))
  {
    AppendEnds(s.r.tasks, ReplayDone);
    if Caches(s) {
      AppendEnds(s.r.tasks, Resume(HandshakeUse(s.currentAgent.value), RECONNECTING));
    }
  }

  /** While its attempt is still replaying, the drop leads nowhere else than to its end. */
  lemma StepLost(classify: Classifier, s: State, e: Event)
    requires Lost(s) && Sound(s) && Enabled(s, e) && !e.Dial? && s.net.dialing == {}
    ensures Stranded(Step(classify, s, e)) || Lost(Step(classify, s, e))
  {
    WakesEnd(s.r.waiters);
    if e.CloseProxy? {
      EndConcat(s.r.tasks, Wakes(s.r.waiters));
    }
    if e.Microtask? {
      TaskLost(s);
    }
    hide SingleFlight, Numbered, RunTask, Without, IndexOfId, IndexOfCall, DoCall, AllEnd, Wakes;
    match e
    case Call(request) => CallLost(s, request);
    case HandshakeTimeout(id) => TimeoutLost(s, id);
    case WaiterTimeout(c) => WaiterLost(s, c);
    case TimerFires => NoTimer(s);
    case _ =>
  }

  lemma NoTimer(s: State)
    requires SingleFlight(s) && s.reconnecting
    ensures s.net.armedTimers == 0
  {
  }

  lemma CallLost(s: State, request: Request)
    requires Lost(s)
    ensures Lost(DoCall(s, request))
  {
    CallOutcomes(s, request);
    hide DoCall, AllEnd;
  }

  lemma TimeoutLost(s: State, id: nat)
    requires Lost(s)
    ensures Lost(DoHandshakeTimeout(s, id))
  {
    var i := IndexOfId(s.r.pending, id);
    if i >= 0 {
      AppendEnds(s.r.tasks, Resume(s.r.pending[i].purpose, RECONNECTING));
    }
    hide AllEnd, IndexOfId, Without;
  }

  lemma WaiterLost(s: State, c: nat)
    requires Lost(s)
    ensures Lost(DoWaiterTimeout(s, c))
  {
    var i := IndexOfCall(s.r.waiters, c);
    if i >= 0 {
      AppendEnds(s.r.tasks, Wake(s.r.waiters[i], false));
    }
    hide AllEnd, IndexOfCall, Without;
  }

  /** The drop itself. */
  lemma ClosedLost(s: State, k: nat)
    requires Single(s) && OnlyReconnects(s) && s.r.tasks == [] && k in s.net.live && Replaying(s)
    ensures Lost(DoSocketClosed(s, k)) && LastReopened(s.log) == Some(k)
  {
    FailuresEnd(s.r.pending);
    assert [] + Failures(s.r.pending) == Failures(s.r.pending);
    assert s.net.live - {k} == {};
    hide AllEnd, SingleFlight, Restores, Failures;
  }

  lemma StepLastDropped(classify: Classifier, s: State, e: Event)
    requires Doomed(s) && Single(s) && Enabled(s, e) && OneAtATime(s, e)
    ensures LastDropped(Step(classify, s, e))
  {
    var t := Step(classify, s, e);
    ReopenedBy(classify, s, e);
    if s.log.reopened != [] && DroppedOn(s.log, LastReopened(s.log).value) && !e.OpenOk? {
      if Stranded(s) {
        hide Doomed, Numbered, SingleFlight, Step, Restores;
        StrandedStep(classify, s, e);
      } else {
        hide Numbered, SingleFlight, Step, Restores;
        StepLost(classify, s, e);
      }
    } else if e.OpenOk? {
      FreshSocket(s);
      assert LastReopened(t.log) == Some(s.net.nextSocket);
      hide Step;
    } else if e.SocketClosed? && Replaying(s) {
      ClosedLost(s, e.socket);
    } else {
      hide Step;
    }
  }

  /** What an event adds to the reconnects' history. */
  lemma ReopenedBy(classify: Classifier, s: State, e: Event)
    requires Enabled(s, e)
    ensures var t := Step(classify, s, e);
            t.log.reopened == (if e.OpenOk? then s.log.reopened + [s.net.nextSocket] else s.log.reopened) &&
            t.log.disturbed == (match e
                                case SocketClosed(k) => Disturbed(s, Drop(k)).disturbed
                                case DialFail(k) => Disturbed(s, FailedDial(k)).disturbed
                                case CloseProxy => Disturbed(s, Closing).disturbed
                                case _ => s.log.disturbed)
  {
    hide DoCall, RunTask, IndexOfId, IndexOfCall, RawCall, Delay, FailPending, ReleaseWaiters, Settle, GiveUpWaiting,
      DispatchAll, Lines, Rest;
    match e
    case Call(request) => CallOutcomes(s, request);
    case Microtask => TaskQuiet(Dequeued(s), s.r.tasks[0]);
    case _ =>
  }

  // ----- only reconnects make sockets

  /** The first sockets release no callers, but for `close`. */
  lemma StepHolds(classify: Classifier, s: State, e: Event)
    requires OnlyReconnects(s) && Single(s) && Enabled(s, e) && OneAtATime(s, e) && s.log.reopened == [] && !e.OpenOk?
    ensures var t := Step(classify, s, e); NoneWakes(t.r.tasks) || (t.closedByUs && t.socket.None?)
  {
    if NoneWakes(s.r.tasks) {
      if e.Microtask? {
        TaskHolds(s);
      } else {
        EventHolds(classify, s, e);
      }
    } else {
      StaysClosed(classify, s, e);
      hide Step;
    }
  }

  lemma StaysClosed(classify: Classifier, s: State, e: Event)
    requires s.closedByUs && s.socket.None? && Enabled(s, e) && !e.Dial? && !e.OpenOk?
    ensures Step(classify, s, e).closedByUs && Step(classify, s, e).socket.None?
  {
    NeverUntouched(classify, s, e);
    if e.Call? {
      CallOutcomes(s, e.request);
      hide DoCall;
    } else if e.Microtask? {
      TaskQuiet(Dequeued(s), s.r.tasks[0]);
      hide RunTask;
    } else {
      OtherEventsWriteless(classify, s, e);
      hide Step;
    }
  }

  lemma EventHolds(classify: Classifier, s: State, e: Event)
    requires NoneWakes(s.r.tasks) && Enabled(s, e) && !e.OpenOk? && !e.Microtask?
    ensures var t := Step(classify, s, e); NoneWakes(t.r.tasks) || (t.closedByUs && t.socket.None?)
  {
    FailuresCalm(s.r.pending);
    CalmConcat(s.r.tasks, Failures(s.r.pending));
    hide NoneWakes, Failures, Wakes, DoCall, DoHandshakeTimeout, DoWaiterTimeout, IndexOfId, IndexOfCall, DispatchAll,
      Lines, Rest, Delay, TimerCleared;
    match e
    case Call(request) => CallHolds(s, request);
    case Data(chunk) => DispatchAllKept(classify, Inbox(s.r, s.log.granted), Lines(s.buffer + chunk.text));
    case HandshakeTimeout(id) => TimeoutHolds(s, id);
    case WaiterTimeout(c) => WaiterHolds(s, c);
    case _ =>
  }

  lemma CallHolds(s: State, request: Request)
    requires NoneWakes(s.r.tasks)
    ensures NoneWakes(DoCall(s, request).r.tasks)
  {
    CallOutcomes(s, request);
    OneCalm(Resume(Tool(s.r.nextCall, request), RECONNECTING));
    CalmConcat(s.r.tasks, [Resume(Tool(s.r.nextCall, request), RECONNECTING)]);
    hide DoCall, NoneWakes;
  }

  lemma TimeoutHolds(s: State, id: nat)
    requires NoneWakes(s.r.tasks)
    ensures NoneWakes(DoHandshakeTimeout(s, id).r.tasks)
  {
    var i := IndexOfId(s.r.pending, id);
    if i >= 0 {
      SettleKept(s.r, i, RECONNECTING, TimedOut);
    }
  }

  lemma WaiterHolds(s: State, c: nat)
    requires NoneWakes(s.r.tasks)
    ensures NoneWakes(DoWaiterTimeout(s, c).r.tasks)
  {
  }

  lemma TaskHolds(s: State)
    requires NoneWakes(s.r.tasks) && Sound(s) && s.log.reopened == [] && s.r.tasks != []
    ensures NoneWakes(RunTask(Dequeued(s), s.r.tasks[0]).r.tasks)
  {
    var d, task := Dequeued(s), s.r.tasks[0];
    assert NoneWakes(d.r.tasks) && !WakesCaller(task);
    if IsAttemptTask(task) {
      AttemptTaskAlone(s);
    }
  }

  lemma StepOnlyReconnects(classify: Classifier, s: State, e: Event)
    requires OnlyReconnects(s) && Single(s) && Enabled(s, e) && OneAtATime(s, e)
    ensures OnlyReconnects(Step(classify, s, e))
  {
    var t := Step(classify, s, e);
    ReopenedBy(classify, s, e);
    SessionBy(classify, s, e);
    if s.log.reopened == [] && !e.OpenOk? {
      StepHolds(classify, s, e);
    }
    hide Step, Restores, SingleFlight, NoneWakes, FromSession;
    assert e.DialFail? ==> s.log.reopened == [];
  }

  lemma SessionBy(classify: Classifier, s: State, e: Event)
    requires Enabled(s, e)
    ensures var t := Step(classify, s, e);
            (!e.Dial? && !e.OpenOk? ==> t.log.session == s.log.session) &&
            (e.OpenOk? ==> t.everConnected && t.log.session == Some(s.net.nextSocket)) &&
            (s.everConnected ==> t.everConnected)
  {
    NeverUntouched(classify, s, e);
    if e.OpenOk? {
      OpenOkFields(s);
      hide DoOpenOk;
    } else if !e.Dial? {
      OtherEventsKeepSession(classify, s, e);
      hide Step;
    }
  }

  lemma OtherEventsKeepSession(classify: Classifier, s: State, e: Event)
    requires Enabled(s, e) && !e.Dial? && !e.OpenOk?
    ensures Step(classify, s, e).log.session == s.log.session
  {
    hide DoCall, RunTask, IndexOfId, IndexOfCall, RawCall, Delay, FailPending, ReleaseWaiters, Settle, GiveUpWaiting,
      DispatchAll, Lines, Rest;
    match e
    case Call(request) => CallOutcomes(s, request);
    case Microtask => TaskQuiet(Dequeued(s), s.r.tasks[0]);
    case _ =>
  }

  // ----- frames of calls that had to wait

  /** A call made or released: the one way a caller's frame is written. */
  ghost predicate Adds(s: State, e: Event, t: State, w: Written) {
    && t.r.written == s.r.written + [w]
    && (w.purpose.Tool? ==>
          || (e.Call? && w.purpose.call == s.r.nextCall && t.log.queued == s.log.queued)
          || (e.Microtask? && s.r.tasks != [] && WakesCaller(s.r.tasks[0]) && s.socket == Some(w.socket) &&
              t.log.queued == s.log.queued &&
              t.r.pending == s.r.pending + [Pending(s.r.nextId, w.purpose, w.socket)]))
  }

  lemma WrittenBy(classify: Classifier, s: State, e: Event)
    requires Enabled(s, e)
    ensures var t := Step(classify, s, e); t.r.written == s.r.written || exists w :: Adds(s, e, t, w)
    ensures e.Call? || Step(classify, s, e).log.queued == s.log.queued
  {
    if e.Call? {
      CallWrites(s, e.request);
      hide DoCall;
    } else if e.OpenOk? {
      OpenOkWrites(s);
      hide DoOpenOk, Adds;
    } else if e.Microtask? {
      TaskWrites(s);
      hide RunTask, Adds;
    } else if !e.Dial? {
      OtherEventsWriteless(classify, s, e);
      hide Step, Adds;
    }
  }

  lemma CallWrites(s: State, request: Request)
    ensures var t := DoCall(s, request); t.r.written == s.r.written || exists w :: Adds(s, Call(request), t, w)
  {
    var t := DoCall(s, request);
    CallOutcomes(s, request);
    hide DoCall;
    if t.r.written != s.r.written {
      var w := Written(s.socket.value, s.r.nextId, Tool(s.r.nextCall, request), |s.r.answers|);
      assert Adds(s, Call(request), t, w);
    }
  }

  lemma OpenOkWrites(s: State)
    ensures var t := DoOpenOk(s);
            t.log.queued == s.log.queued && (t.r.written == s.r.written || exists w :: Adds(s, OpenOk, t, w))
  {
    var t, k := DoOpenOk(s), s.net.nextSocket;
    if s.hasClientType {
      assert Adds(s, OpenOk, t, Written(k, s.r.nextId, HandshakeConnect, |s.r.answers|));
    } else if Caches(s) {
      assert Adds(s, OpenOk, t, Written(k, s.r.nextId, HandshakeUse(s.currentAgent.value), |s.r.answers|));
    }
  }

  lemma TaskWrites(s: State)
    requires s.r.tasks != []
    ensures var t := RunTask(Dequeued(s), s.r.tasks[0]);
            t.log.queued == s.log.queued && (t.r.written == s.r.written || exists w :: Adds(s, Microtask, t, w))
  {
    var d, task := Dequeued(s), s.r.tasks[0];
    TaskQuiet(d, task);
    match task {
      case Wake(w, true) => WakeWrites(s);
      case Resume(HandshakeConnect, _) => SelectionWrites(s);
      case _ =>
        OtherTasksWriteNothing(d, task);
        hide RunTask;
    }
  }

  lemma WakeWrites(s: State)
    requires s.r.tasks != [] && WakesCaller(s.r.tasks[0])
    ensures var t := RunTask(Dequeued(s), s.r.tasks[0]);
            t.r.written == s.r.written || exists w :: Adds(s, Microtask, t, w)
  {
    var w, t := s.r.tasks[0].waiter, RunTask(Dequeued(s), s.r.tasks[0]);
    if s.socket.Some? {
      assert Adds(s, Microtask, t, Written(s.socket.value, s.r.nextId, Tool(w.call, w.request), |s.r.answers|));
    }
  }

  lemma SelectionWrites(s: State)
    requires s.r.tasks != [] && s.r.tasks[0].Resume? && s.r.tasks[0].purpose.HandshakeConnect?
    ensures var t := RunTask(Dequeued(s), s.r.tasks[0]);
            t.r.written == s.r.written || exists w :: Adds(s, Microtask, t, w)
  {
    var t := RunTask(Dequeued(s), s.r.tasks[0]);
    if Caches(s) && s.socket.Some? {
      var w := Written(s.socket.value, s.r.nextId, HandshakeUse(s.currentAgent.value), |s.r.answers|);
      assert Adds(s, Microtask, t, w);
    }
  }

  /** Where a call that had to wait was written, the replay is over and no more disturbed. */
  lemma WaitedOn(s: State, i: nat)
    requires Single(s) && i < |s.r.written|
    requires s.r.written[i].purpose.Tool? && s.r.written[i].purpose.call in s.log.queued &&
             s.r.written[i].socket in s.log.reopened
    ensures Replaying(s) ==> LastReopened(s.log) != Some(s.r.written[i].socket)
  {
    assert FollowsReplay(s, s.r.written[i]);
  }

  lemma StepDropped(classify: Classifier, s: State, e: Event, k: nat)
    requires Enabled(s, e) && (Replaying(s) ==> LastReopened(s.log) != Some(k))
    ensures DroppedOn(Step(classify, s, e).log, k) == DroppedOn(s.log, k)
    ensures k in s.log.reopened ==> k in Step(classify, s, e).log.reopened
  {
    ReopenedBy(classify, s, e);
    hide Step;
  }

  lemma StepUnanswered(classify: Classifier, s: State, e: Event, w: Written)
    requires Unanswered(s, w) && SingleFlight(s) && Enabled(s, e) && !e.Dial?
    ensures Unanswered(Step(classify, s, e), w)
  {
    hide Step, SingleFlight, Stranded;
    StrandedStep(classify, s, e);
    var j :| 0 <= j < |s.r.pending| && s.r.pending[j].purpose == w.purpose;
    assert Step(classify, s, e).r.pending[j] == s.r.pending[j];
  }

  /** A frame already written. */
  lemma StepReleased(classify: Classifier, s: State, e: Event, i: nat)
    requires Doomed(s) && Single(s) && Enabled(s, e) && OneAtATime(s, e) && i < |s.r.written|
    requires Balanced(s.r, s.r.nextCall)
    requires Step(classify, s, e).log.queued <= s.log.queued + {s.r.nextCall}
    ensures Released(Step(classify, s, e), s.r.written[i])
  {
    var w := s.r.written[i];
    assert Released(s, w);
    assert e.Dial? ==> s.log.reopened == [];
    if w.purpose.Tool? {
      NewCallUnwritten(s.r, i);
    }
    hide Step, Doomed, Restores, Numbered, SingleFlight, OnlySocket, Balanced, Unanswered;
    if w.purpose.Tool? && w.purpose.call in s.log.queued {
      WaitedOn(s, i);
      StepDropped(classify, s, e, w.socket);
      if DroppedOn(s.log, w.socket) {
        StepUnanswered(classify, s, e, w);
      }
    }
  }

  /** The frame of a caller just released. */
  lemma WakeReleased(classify: Classifier, s: State, w: Written)
    requires Doomed(s) && Single(s) && s.r.tasks != [] && WakesCaller(s.r.tasks[0]) && s.socket == Some(w.socket)
    requires Step(classify, s, Microtask).r.pending == s.r.pending + [Pending(s.r.nextId, w.purpose, w.socket)]
    ensures Released(Step(classify, s, Microtask), w)
  {
    var t := Step(classify, s, Microtask);
    ReopenedBy(classify, s, Microtask);
    DequeuedRestores(s);
    assert !NoneWakes(s.r.tasks);
    assert Attached(s);
    assert t.r.pending[|s.r.pending|].purpose == w.purpose;
    if DroppedOn(t.log, w.socket) {
      assert LastReopened(s.log) == Some(w.socket);
      assert !Lost(s) && Stranded(s);
      hide Step, Restores, Numbered, SingleFlight, Doomed;
      StrandedStep(classify, s, Microtask);
    } else {
      hide Step, Restores, Numbered, SingleFlight, Doomed;
    }
  }

  lemma StepAllReleased(classify: Classifier, s: State, e: Event)
    requires Doomed(s) && Single(s) && Enabled(s, e) && OneAtATime(s, e) && Balanced(s.r, s.r.nextCall)
    ensures AllReleased(Step(classify, s, e))
  {
    var t := Step(classify, s, e);
    WrittenBy(classify, s, e);
    QueuedBy(classify, s, e);
    NotYetQueued(s);
    hide Step, Doomed, Single, Balanced, Released, OneAtATime, Enabled, Adds;
    forall i | 0 <= i < |s.r.written|
      ensures Released(t, s.r.written[i])
    {
      StepReleased(classify, s, e, i);
    }
    if t.r.written != s.r.written {
      var w :| Adds(s, e, t, w);
      NewReleased(classify, s, e, w);
    }
  }

  lemma NotYetQueued(s: State)
    requires Single(s)
    ensures s.r.nextCall !in s.log.queued
  {
  }

  lemma NewReleased(classify: Classifier, s: State, e: Event, w: Written)
    requires Doomed(s) && Single(s) && Enabled(s, e) && Adds(s, e, Step(classify, s, e), w)
    ensures Step(classify, s, e).r.written == s.r.written + [w] && Released(Step(classify, s, e), w)
  {
    NotYetQueued(s);
    hide Doomed, Single, Step;
    if e.Microtask? && w.purpose.Tool? {
      WakeReleased(classify, s, w);
    }
  }

  lemma QueuedBy(classify: Classifier, s: State, e: Event)
    requires Enabled(s, e)
    ensures Step(classify, s, e).log.queued <= s.log.queued + {s.r.nextCall}
  {
    WrittenBy(classify, s, e);
    if e.Call? {
      CallOutcomes(s, e.request);
      hide DoCall;
    } else {
      hide Step;
    }
  }

  lemma {:induction false} RunDoomed(classify: Classifier, run: seq<State>, events: seq<Event>, n: nat)
    requires IsSingleRun(classify, run, events) && n < |run|
    ensures Doomed(run[n]) && Single(run[n])
  {
    RunSound(classify, run, events, n);
    RunRestores(classify, run, events, n);
    RunOnlySocket(classify, run, events, n);
    if n > 0 {
      RunDoomed(classify, run, events, n - 1);
      RunBalanced(classify, run, events, n - 1, run[n - 1].r.nextCall);
      var s, e := run[n - 1], events[n - 1];
      hide OnlyReconnects, LastDropped, AllReleased, Single, Step, Enabled, OneAtATime, Balanced;
      StepOnlyReconnects(classify, s, e);
      StepLastDropped(classify, s, e);
      StepAllReleased(classify, s, e);
    }
  }

  /**
   With one socket at a time, a call that had to wait is written on a reconnect's socket; after a replay that was
   answered or timed out if and only if that socket had not dropped by then. If it had, then ever after nothing is
   open or under way, and the call is in flight without an answer.
   */
  lemma WaitingCallsOrNever(classify: Classifier, run: seq<State>, events: seq<Event>, n: nat, i: nat)
    requires IsSingleRun(classify, run, events) && n < |run| && i < |run[n].r.written|
    requires run[n].r.written[i].purpose.Tool? && run[n].r.written[i].purpose.call in run[n].log.queued
    ensures var s, w := run[n], run[n].r.written[i];
            (Replayed(s, w.socket) <==> !DroppedOn(s.log, w.socket)) &&
            (DroppedOn(s.log, w.socket) ==>
               Unanswered(s, w) && forall j :: 0 <= j < |s.r.answers| ==> s.r.answers[j].call != w.purpose.call)
  {
    var s, w := run[n], run[n].r.written[i];
    RunDoomed(classify, run, events, n);
    WaitingCallsFollowTheReplay(classify, run, events, n, i);
    assert FollowsReplay(s, w) && Released(s, w);
    if DroppedOn(s.log, w.socket) {
      forall j | 0 <= j < |s.r.answers|
        ensures s.r.answers[j].call != w.purpose.call
      {
        EachCallAnsweredOnce(classify, run, events, n, j);
      }
    }
  }
}
