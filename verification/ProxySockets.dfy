/**
 Sockets by number, over every run: which is in use, which requests name which, and whose replay is under way.
 */
module ProxySockets {
  import opened LineBuffer
  import opened ProxyModel
  import opened Wrappers

  /** Requests name only sockets numbered below `n`. */
  ghost predicate RequestsBelow(r: Requests, n: nat) {
    && (forall i :: 0 <= i < |r.pending| ==> r.pending[i].socket < n)
    && (forall i :: 0 <= i < |r.written| ==> r.written[i].socket < n)
    && forall i :: 0 <= i < |r.settled| ==> r.settled[i].socket.Some? ==> r.settled[i].socket.value < n
  }

  ghost predicate GrantsBelow(granted: set<(nat, string)>, n: nat) {
    forall x :: x in granted ==> x.0 < n
  }

  /** The sockets there are. */
  ghost predicate NetworkBelow(net: Network) {
    net.dialing <= net.live && forall k :: k in net.live || k in net.refused ==> k < net.nextSocket
  }

  /** The socket in use is the one last made, and a connected proxy that is not closed has one. */
  ghost predicate InUse(s: State) {
    && (s.socket.Some? ==> s.socket == s.log.session)
    && (s.log.session.Some? ==> s.log.session.value < s.net.nextSocket)
    && (!s.closedByUs && (s.connected || s.net.dialing != {}) ==> s.socket.Some?)
    && (s.connected ==> s.everConnected)
  }

  /**
   Sockets of reconnects: of these only the last can be in use, and its replay is not over while its attempt replays.
   */
  ghost predicate Reopenings(s: State) {
    && (forall k :: k in s.log.reopened ==> k < s.net.nextSocket)
    && (forall k :: k in s.log.replayed ==> k in s.log.reopened)
    && (forall x :: x in s.log.disturbed ==> x.0 in s.log.reopened)
    && (Replaying(s) ==> s.log.reopened != [] && LastReopened(s.log).value !in s.log.replayed)
    && (s.log.session.Some? && s.log.session.value in s.log.reopened ==> s.log.session == LastReopened(s.log))
  }

  ghost predicate Numbered(s: State) {
    && RequestsBelow(s.r, s.net.nextSocket) && GrantsBelow(s.log.granted, s.net.nextSocket) && NetworkBelow(s.net)
    && InUse(s) && Reopenings(s)
  }

  // ----- what the operations keep

  lemma RawCallBelow(r: Requests, socket: Option<nat>, p: Purpose, n: nat)
    requires RequestsBelow(r, n) && (socket.Some? ==> socket.value < n)
    ensures RequestsBelow(RawCall(r, socket, p), n)
  {
  }

  lemma {:induction false} WithoutIn(pending: seq<Pending>, i: nat, j: nat)
    requires i < |pending| && j < |pending| - 1
    ensures Without(pending, i)[j] in pending
  {
    if i > 0 && j > 0 {
      WithoutIn(pending[1..], i - 1, j - 1);
    }
  }

  lemma SettleBelow(r: Requests, i: nat, outcome: Outcome, end: End, n: nat)
    requires RequestsBelow(r, n) && i < |r.pending|
    ensures RequestsBelow(Settle(r, i, outcome, end), n)
  {
    var t := Settle(r, i, outcome, end);
    forall j | 0 <= j < |t.pending|
      ensures t.pending[j].socket < n
    {
      WithoutIn(r.pending, i, j);
    }
  }

  /** A drop for each pending request, in their order. */
  lemma {:induction false} DropsAre(pending: seq<Pending>)
    ensures |Drops(pending)| == |pending|
    ensures forall i :: 0 <= i < |pending| ==> Drops(pending)[i] == Ended(pending[i], Dropped)
  {
    if pending != [] {
      DropsAre(pending[1..]);
    }
  }

  lemma FailPendingBelow(r: Requests, n: nat)
    requires RequestsBelow(r, n)
    ensures RequestsBelow(FailPending(r), n)
  {
    DropsAre(r.pending);
  }

  lemma DispatchBelow(b: Inbox, incoming: Incoming, n: nat)
    requires RequestsBelow(b.r, n) && GrantsBelow(b.granted, n)
    ensures RequestsBelow(Dispatch(b, incoming).r, n) && GrantsBelow(Dispatch(b, incoming).granted, n)
  {
    hide Settle;
    if incoming.Malformed? && b.r.pending != [] {
      SettleBelow(b.r, 0, DESERIALIZATION_ERROR, Replied, n);
    } else if incoming.Reply? && incoming.id.Some? {
      var i := IndexOfId(b.r.pending, incoming.id.value);
      if i >= 0 {
        SettleBelow(b.r, i, incoming.outcome, Replied, n);
      }
    }
  }

  lemma {:induction false} DispatchAllBelow(classify: Classifier, b: Inbox, lines: seq<string>, n: nat)
    requires RequestsBelow(b.r, n) && GrantsBelow(b.granted, n)
    ensures var t := DispatchAll(classify, b, lines); RequestsBelow(t.r, n) && GrantsBelow(t.granted, n)
    decreases |lines|
  {
    hide RequestsBelow, GrantsBelow, Dispatch;
    if lines != [] {
      DispatchBelow(b, classify(lines[0]), n);
      DispatchAllBelow(classify, Dispatch(b, classify(lines[0])), lines[1..], n);
    }
  }

  /** A step that leaves sockets and history of reconnects alone. */
  ghost predicate SameSockets(s: State, t: State) {
    && t.socket == s.socket && t.net.nextSocket == s.net.nextSocket && t.net.dialing == s.net.dialing
    && t.net.live == s.net.live && t.net.refused == s.net.refused
    && (t.connected ==> s.connected) && t.closedByUs == s.closedByUs && t.everConnected == s.everConnected
    && t.log.session == s.log.session && t.log.reopened == s.log.reopened && t.log.disturbed == s.log.disturbed
    && t.log.replayed == s.log.replayed && (Replaying(t) ==> Replaying(s))
  }

  lemma SameSocketsNumbered(s: State, t: State)
    requires Numbered(s) && SameSockets(s, t)
    requires RequestsBelow(t.r, s.net.nextSocket) && GrantsBelow(t.log.granted, s.net.nextSocket)
    ensures Numbered(t)
  {
    hide RequestsBelow, GrantsBelow;
  }

  lemma DataSame(classify: Classifier, s: State, chunk: Chunk)
    ensures SameSockets(s, DoData(classify, s, chunk))
    ensures var t, b := DoData(classify, s, chunk), Inbox(s.r, s.log.granted);
            Inbox(t.r, t.log.granted) == b ||
                Inbox(t.r, t.log.granted) == DispatchAll(classify, b, Lines(s.buffer + chunk.text))
  {
    hide DispatchAll, Lines, Rest;
  }

  lemma DataNumbered(classify: Classifier, s: State, chunk: Chunk)
    requires Numbered(s)
    ensures Numbered(DoData(classify, s, chunk))
  {
    DataSame(classify, s, chunk);
    DispatchAllBelow(classify, Inbox(s.r, s.log.granted), Lines(s.buffer + chunk.text), s.net.nextSocket);
    hide SameSockets, Numbered, RequestsBelow, GrantsBelow, DoData, DispatchAll, Lines;
    NumberedParts(s);
    SameSocketsNumbered(s, DoData(classify, s, chunk));
  }

  lemma NumberedParts(s: State)
    requires Numbered(s)
    ensures RequestsBelow(s.r, s.net.nextSocket) && GrantsBelow(s.log.granted, s.net.nextSocket)
  {
  }

  lemma DialNumbered(s: State, k: nat)
    requires Numbered(s)
    ensures Numbered(DoDial(s)) && (k in s.net.dialing ==> Numbered(DoDialOk(s, k)))
  {
  }

  lemma DisturbedNumbered(s: State, cause: Disturbance)
    requires Numbered(s)
    ensures Numbered(s.(log := Disturbed(s, cause)))
  {
    hide RequestsBelow, GrantsBelow;
  }

  lemma LostNumbered(s: State, t: State)
    requires Numbered(s) && t == s.(connected := false, net := t.net, r := t.r) && RequestsBelow(t.r, s.net.nextSocket)
    requires t.net == s.net.(live := t.net.live, dialing := t.net.dialing, refused := t.net.refused)
    requires t.net.dialing <= t.net.live <= s.net.live && t.net.dialing <= s.net.dialing
    requires forall k :: k in t.net.refused ==> k < s.net.nextSocket
    ensures Numbered(t)
  {
    hide RequestsBelow, GrantsBelow;
  }

  lemma DroppedNumbered(s: State, k: nat)
    requires Numbered(s)
    ensures k in s.net.dialing ==> Numbered(DoDialFail(s, k))
    ensures k !in s.net.dialing ==> Numbered(Dropping(s, k))
  {
    FailPendingBelow(s.r, s.net.nextSocket);
    DisturbedNumbered(s, FailedDial(k));
    DisturbedNumbered(s, Drop(k));
    assert s.net.dialing <= s.net.live;
    hide Numbered, RequestsBelow, FailPending, Disturbed;
    if k in s.net.dialing {
      LostNumbered(s.(log := Disturbed(s, FailedDial(k))), DoDialFail(s, k));
    } else {
      LostNumbered(s.(log := Disturbed(s, Drop(k))), Dropping(s, k));
    }
  }

  lemma ScheduleNumbered(s: State)
    requires Numbered(s)
    ensures Numbered(ScheduleReconnect(s))
  {
    hide RequestsBelow, GrantsBelow, Delay;
  }

  lemma FailedNumbered(s: State, t: State)
    requires Numbered(s) && t == s.(connected := false, reconnecting := false, net := s.net.(opening := t.net.opening))
    ensures Numbered(t)
  {
    hide RequestsBelow, GrantsBelow;
  }

  lemma OpenedNumbered(s: State)
    requires Numbered(s)
    ensures Numbered(Opened(s))
  {
  }

  lemma RawCallNumbered(s: State, t: State, p: Purpose)
    requires Numbered(s) && SameSockets(s, t) && t.r == RawCall(s.r, s.socket, p) && t.log.granted == s.log.granted
    ensures Numbered(t)
  {
    RawCallBelow(s.r, s.socket, p, s.net.nextSocket);
    hide SameSockets, RawCall;
    SameSocketsNumbered(s, t);
  }

  lemma ContinueNumbered(s: State, agent: Option<string>, task: Task)
    requires Numbered(s)
    ensures Numbered(s.(currentAgent := agent, r := Continue(s.r, task)))
  {
    SameSocketsNumbered(s, s.(currentAgent := agent, r := Continue(s.r, task)));
  }

  lemma ReplaySelectionNumbered(s: State)
    requires Numbered(s)
    ensures Numbered(ReplaySelection(s))
  {
    hide Numbered, SameSockets, RawCall, Continue;
    if s.currentAgent.Some? && s.currentAgent.value != "" {
      var p := HandshakeUse(s.currentAgent.value);
      SameBooks(s, RawCall(s.r, s.socket, p));
      RawCallNumbered(s, ReplaySelection(s), p);
    } else {
      ContinueNumbered(s, s.currentAgent, ReplayDone);
      assert s.(currentAgent := s.currentAgent, r := Continue(s.r, ReplayDone)) == ReplaySelection(s);
    }
  }

  lemma SameBooks(s: State, r: Requests)
    ensures SameSockets(s, s.(r := r))
  {
  }

  lemma OpenOkNumbered(s: State)
    requires Numbered(s)
    ensures Numbered(DoOpenOk(s))
  {
    var t := Opened(s);
    OpenedNumbered(s);
    assert t.hasClientType ==> SameSockets(t, DoOpenOk(s));
    hide Numbered, SameSockets, RawCall, Opened, ReplaySelection;
    if t.hasClientType {
      RawCallNumbered(t, DoOpenOk(s), HandshakeConnect);
    } else {
      ReplaySelectionNumbered(t);
    }
  }

  lemma TimerNumbered(s: State)
    requires Numbered(s) && s.net.armedTimers > 0
    ensures Numbered(DoTimerFires(s))
  {
    hide RequestsBelow, GrantsBelow;
  }

  lemma CallNumbered(s: State, request: Request)
    requires Numbered(s)
    ensures Numbered(DoCall(s, request))
  {
    var t, r := DoCall(s, request), s.r.(nextCall := s.r.nextCall + 1);
    CallOutcomes(s, request);
    RawCallBelow(r, s.socket, Tool(s.r.nextCall, request), s.net.nextSocket);
    hide RawCall, DoCall;
    SameSocketsNumbered(s, t);
  }

  lemma HandshakeTimeoutNumbered(s: State, id: nat)
    requires Numbered(s)
    ensures Numbered(DoHandshakeTimeout(s, id))
  {
    var i := IndexOfId(s.r.pending, id);
    if i >= 0 {
      SettleBelow(s.r, i, RECONNECTING, TimedOut, s.net.nextSocket);
    }
    SameBooks(s, DoHandshakeTimeout(s, id).r);
    hide IndexOfId, Settle, RequestsBelow, SameSockets;
    SameSocketsNumbered(s, DoHandshakeTimeout(s, id));
  }

  lemma WaiterTimeoutNumbered(s: State, c: nat)
    requires Numbered(s)
    ensures Numbered(DoWaiterTimeout(s, c))
  {
    SameBooks(s, DoWaiterTimeout(s, c).r);
    hide IndexOfCall, Without, SameSockets;
    SameSocketsNumbered(s, DoWaiterTimeout(s, c));
  }

  lemma CloseNumbered(s: State)
    requires Numbered(s)
    ensures Numbered(DoCloseProxy(s))
  {
    hide Wakes;
  }

  lemma FinishNumbered(s: State)
    requires Numbered(s)
    ensures Numbered(FinishReplay(s))
  {
    hide Wakes;
  }

  lemma AnswerNumbered(s: State, c: nat, request: Request, outcome: Outcome)
    requires Numbered(s)
    ensures Numbered(AnswerCall(s, c, request, outcome))
  {
    hide AgentAfter;
    SameSocketsNumbered(s, AnswerCall(s, c, request, outcome));
  }

  lemma AfterUseNumbered(s: State, outcome: Outcome)
    requires Numbered(s)
    ensures Numbered(AfterReplayedUse(s, outcome))
  {
    ContinueNumbered(s, s.currentAgent, ReplayFailed);
    ContinueNumbered(s, s.currentAgent, ReplayDone);
    ContinueNumbered(s, None, ReplayDone);
    hide Numbered, Selects, Continue;
  }

  lemma TaskNumbered(s: State, task: Task)
    requires Numbered(s)
    ensures Numbered(RunTask(s, task))
  {
    hide Numbered, AnswerCall, ReplaySelection, AfterReplayedUse, DoWake, FinishReplay, ScheduleReconnect;
    match task
    case Resume(Tool(c, request), outcome) => AnswerNumbered(s, c, request, outcome);
    case Resume(HandshakeConnect, _) => ReplaySelectionNumbered(s);
    case Resume(HandshakeUse(_), outcome) => AfterUseNumbered(s, outcome);
    case Wake(w, connected) => WakeNumbered(s, w, connected);
    case ReplayDone => FinishNumbered(s);
    case ReplayFailed =>
      var t := s.(connected := false, reconnecting := false);
      FailedNumbered(s, t);
      ScheduleNumbered(t);
  }

  lemma WakeNumbered(s: State, w: Waiter, connected: bool)
    requires Numbered(s)
    ensures Numbered(DoWake(s, w, connected))
  {
    var t := DoWake(s, w, connected);
    assert SameSockets(s, t);
    NumberedParts(s);
    hide Numbered, SameSockets, RawCall;
    if connected {
      RawCallNumbered(s, t, Tool(w.call, w.request));
    } else {
      SameSocketsNumbered(s, t);
    }
  }

  lemma StepNumbered(classify: Classifier, s: State, e: Event)
    requires Numbered(s) && Enabled(s, e)
    ensures Numbered(Step(classify, s, e))
  {
    hide Numbered, DoDial, DoDialOk, DoDialFail, DoData, Dropping, ScheduleReconnect, DoTimerFires, DoOpenOk,
      DoHandshakeTimeout, DoWaiterTimeout, DoCall, DoCloseProxy, RunTask, IndexOfId, IndexOfCall;
    match e
    case Dial => DialNumbered(s, 0);
    case DialOk(k) => DialNumbered(s, k);
    case DialFail(k) => DroppedNumbered(s, k);
    case Data(chunk) => DataNumbered(classify, s, chunk);
    case SocketClosed(k) =>
      DroppedNumbered(s, k);
      ScheduleNumbered(Dropping(s, k));
    case TimerFires => TimerNumbered(s);
    case OpenOk => OpenOkNumbered(s);
    case OpenFail =>
      var t := s.(connected := false, reconnecting := false, net := s.net.(opening := false));
      FailedNumbered(s, t);
      ScheduleNumbered(t);
    case HandshakeTimeout(id) => HandshakeTimeoutNumbered(s, id);
    case WaiterTimeout(c) => WaiterTimeoutNumbered(s, c);
    case Call(request) => CallNumbered(s, request);
    case CloseProxy => CloseNumbered(s);
    case Microtask =>
      DequeuedNumbered(s);
      TaskNumbered(Dequeued(s), s.r.tasks[0]);
  }

  lemma DequeuedNumbered(s: State)
    requires Numbered(s) && s.r.tasks != []
    ensures Numbered(Dequeued(s))
  {
  }

  lemma {:induction false} RunNumbered(classify: Classifier, run: seq<State>, events: seq<Event>, n: nat)
    requires IsRun(classify, run, events) && n < |run|
    ensures Numbered(run[n])
  {
    if n > 0 {
      RunNumbered(classify, run, events, n - 1);
      hide Numbered, Step, Enabled;
      StepNumbered(classify, run[n - 1], events[n - 1]);
    }
  }
}
