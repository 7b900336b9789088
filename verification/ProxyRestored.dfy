/**
 Calls that had to wait: over every run, on whose socket they are written, and how the replay on it had ended by then.
 */
module ProxyRestored {
  import opened LineBuffer
  import opened ProxyAccounting
  import opened ProxyConnect
  import opened ProxyModel
  import opened ProxyReconnect
  import opened ProxyReplay
  import opened ProxySockets
  import opened Wrappers

  // ----- how a replay ended

  ghost predicate Spoils(x: Settled, k: nat) {
    IsHandshake(x.purpose) && x.socket == Some(k) && !x.end.Replied? && !x.end.TimedOut?
  }

  /** Every handshake request written on socket `k` and no longer pending was answered or timed out. */
  ghost predicate Kept(settled: seq<Settled>, k: nat) {
    forall i :: 0 <= i < |settled| ==> !Spoils(settled[i], k)
  }

  /** No socket closed, no dial failed and `close` was not called while the replay on socket `k` was under way. */
  ghost predicate Undisturbed(log: History, k: nat) {
    forall x :: x in log.disturbed ==> x.0 != k
  }

  ghost predicate EndsWell(s: State, k: nat) {
    && (Kept(s.r.settled, k) <==> Undisturbed(s.log, k))
    && (k, Closing) !in s.log.disturbed
  }

  /** The frame of a call that had to wait: on a reconnect's socket it follows the replay. */
  ghost predicate FollowsReplay(s: State, w: Written) {
    w.purpose.Tool? && w.purpose.call in s.log.queued && w.socket in s.log.reopened ==>
      w.socket in s.log.replayed && EndsWell(s, w.socket)
  }

  ghost predicate QueueWaits(s: State) {
    && (forall c :: c in s.log.queued ==> c < s.r.nextCall)
    && forall i :: 0 <= i < |s.r.written| ==> FollowsReplay(s, s.r.written[i])
  }

  /** The socket in use, where a reconnect attached it. */
  ghost predicate Attached(s: State) {
    s.socket.Some? && s.socket.value in s.log.reopened
  }

  ghost predicate AttachedWell(s: State) {
    Attached(s) ==> EndsWell(s, s.socket.value) && (NoneWakes(s.r.tasks) || s.socket.value in s.log.replayed)
  }

  /** Handshake requests in flight are those of the attempt under way; on its socket, while that is in use. */
  ghost predicate HandshakesBelong(s: State) {
    forall i :: 0 <= i < |s.r.pending| && IsHandshake(s.r.pending[i].purpose) ==>
      && (s.r.pending[i].socket in s.log.reopened ==>
          Replaying(s) && LastReopened(s.log) == Some(s.r.pending[i].socket))
      && (Attached(s) ==> s.socket == Some(s.r.pending[i].socket))
  }

  ghost predicate Restores(s: State) {
    QueueWaits(s) && AttachedWell(s) && HandshakesBelong(s)
  }

  // ----- steps that leave replays alone

  ghost predicate SameHandshakes(a: seq<Pending>, b: seq<Pending>) {
    forall i :: 0 <= i < |a| && IsHandshake(a[i].purpose) ==> a[i] in b
  }

  ghost predicate SameKept(a: seq<Settled>, b: seq<Settled>) {
    forall k :: Kept(a, k) <==> Kept(b, k)
  }

  ghost predicate SameHistory(s: State, t: State) {
    && t.log.reopened == s.log.reopened && t.log.replayed == s.log.replayed && t.log.disturbed == s.log.disturbed
    && t.log.queued == s.log.queued && t.r.nextCall == s.r.nextCall
  }

  ghost predicate SameReplays(s: State, t: State) {
    && SameHistory(s, t) && t.socket == s.socket && (Replaying(s) ==> Replaying(t))
    && SameHandshakes(t.r.pending, s.r.pending) && SameKept(s.r.settled, t.r.settled)
    && (NoneWakes(s.r.tasks) ==> NoneWakes(t.r.tasks))
  }

  lemma SameRestores(s: State, t: State)
    requires Restores(s) && SameReplays(s, t) && t.r.written == s.r.written
    ensures Restores(t)
  {
    hide Kept, NoneWakes;
    assert forall k :: EndsWell(s, k) ==> EndsWell(t, k);
  }

  lemma KeptAppend(a: seq<Settled>, b: seq<Settled>)
    requires forall i, k :: 0 <= i < |b| ==> !Spoils(b[i], k)
    ensures SameKept(a, a + b)
  {
    forall k
      ensures Kept(a, k) <==> Kept(a + b, k)
    {
      if Kept(a + b, k) {
        assert forall i :: 0 <= i < |a| ==> (a + b)[i] == a[i];
      }
    }
  }

  lemma OneKept(a: seq<Settled>, x: Settled)
    requires forall k :: !Spoils(x, k)
    ensures SameKept(a, a + [x])
  {
    KeptAppend(a, [x]);
  }

  lemma SettleKept(r: Requests, i: nat, outcome: Outcome, end: End)
    requires i < |r.pending| && (end.Replied? || end.TimedOut?)
    ensures var t := Settle(r, i, outcome, end);
            SameHandshakes(t.pending, r.pending) && SameKept(r.settled, t.settled) &&
            (NoneWakes(r.tasks) ==> NoneWakes(t.tasks))
  {
    var t := Settle(r, i, outcome, end);
    OneKept(r.settled, Ended(r.pending[i], end));
    OneCalm(Resume(r.pending[i].purpose, outcome));
    CalmConcat(r.tasks, [Resume(r.pending[i].purpose, outcome)]);
    hide SameKept, NoneWakes;
    forall j | 0 <= j < |t.pending|
      ensures t.pending[j] in r.pending
    {
      WithoutIn(r.pending, i, j);
    }
  }

  lemma {:induction false} DispatchAllKept(classify: Classifier, b: Inbox, lines: seq<string>)
    ensures var t := DispatchAll(classify, b, lines).r;
            SameHandshakes(t.pending, b.r.pending) && SameKept(b.r.settled, t.settled) &&
            (NoneWakes(b.r.tasks) ==> NoneWakes(t.tasks))
    decreases |lines|
  {
    if lines != [] {
      DispatchKept(b, classify(lines[0]));
      hide Kept, NoneWakes, Dispatch;
      DispatchAllKept(classify, Dispatch(b, classify(lines[0])), lines[1..]);
    }
  }

  lemma DispatchKept(b: Inbox, incoming: Incoming)
    ensures var t := Dispatch(b, incoming).r;
            SameHandshakes(t.pending, b.r.pending) && SameKept(b.r.settled, t.settled) &&
            (NoneWakes(b.r.tasks) ==> NoneWakes(t.tasks))
  {
    hide Kept, NoneWakes, Settle;
    if incoming.Malformed? && b.r.pending != [] {
      SettleKept(b.r, 0, DESERIALIZATION_ERROR, Replied);
    } else if incoming.Reply? && incoming.id.Some? {
      var i := IndexOfId(b.r.pending, incoming.id.value);
      if i >= 0 {
        SettleKept(b.r, i, incoming.outcome, Replied);
      }
    }
  }

  lemma DataRestores(classify: Classifier, s: State, chunk: Chunk)
    requires Restores(s)
    ensures Restores(DoData(classify, s, chunk))
  {
    var t, b, lines := DoData(classify, s, chunk), Inbox(s.r, s.log.granted), Lines(s.buffer + chunk.text);
    DataSame(classify, s, chunk);
    DispatchAllKept(classify, b, lines);
    DataWriteless(classify, s, chunk);
    DataKeepsHistory(classify, s, chunk);
    hide Restores, Kept, NoneWakes, DoData, DispatchAll, Lines;
    SameRestores(s, t);
  }

  lemma DataKeepsHistory(classify: Classifier, s: State, chunk: Chunk)
    ensures SameHistory(s, DoData(classify, s, chunk)) && Replaying(DoData(classify, s, chunk)) == Replaying(s)
  {
    DispatchAllTouches(classify, Inbox(s.r, s.log.granted), Lines(s.buffer + chunk.text));
    hide Lines, Rest, DispatchAll;
  }

  lemma TimeoutsRestore(s: State, x: nat)
    requires Restores(s)
    ensures Restores(DoHandshakeTimeout(s, x)) && Restores(DoWaiterTimeout(s, x))
  {
    var i, j := IndexOfId(s.r.pending, x), IndexOfCall(s.r.waiters, x);
    if i >= 0 {
      SettleKept(s.r, i, RECONNECTING, TimedOut);
    }
    if j >= 0 {
      OneCalm(Wake(s.r.waiters[j], false));
      CalmConcat(s.r.tasks, [Wake(s.r.waiters[j], false)]);
    }
    hide Restores, Kept, NoneWakes, IndexOfId, IndexOfCall, Without;
    SameRestores(s, DoHandshakeTimeout(s, x));
    SameRestores(s, DoWaiterTimeout(s, x));
  }

  lemma TimerRestores(s: State)
    requires Restores(s) && s.net.armedTimers > 0
    ensures Restores(DoTimerFires(s))
  {
    hide Restores, Kept, NoneWakes;
    SameRestores(s, DoTimerFires(s));
  }

  // ----- frames written

  lemma WriteRestores(s: State, t: State, p: Purpose)
    requires Restores(s) && SameHistory(s, t) && t.socket == s.socket && Replaying(t) == Replaying(s)
    requires t.r == RawCall(s.r, s.socket, p)
    requires IsHandshake(p) ==> Attached(s) ==> Replaying(s) && s.socket == LastReopened(s.log)
    requires p.Tool? && p.call in s.log.queued && Attached(s) ==> s.socket.value in s.log.replayed
    ensures Restores(t)
  {
    if s.socket.None? {
      OneKept(s.r.settled, Settled(s.r.nextId, p, None, Unsent));
      OneCalm(Resume(p, RECONNECTING));
      CalmConcat(s.r.tasks, [Resume(p, RECONNECTING)]);
      hide Restores, Kept, NoneWakes;
      SameRestores(s, t);
    } else {
      var w := Written(s.socket.value, s.r.nextId, p, |s.r.answers|);
      assert t.r.written == s.r.written + [w] && t.r.settled == s.r.settled && t.r.tasks == s.r.tasks;
      hide Kept, NoneWakes;
      assert forall k :: EndsWell(s, k) ==> EndsWell(t, k);
    }
  }

  /** No frame of a call yet to be made has been written. */
  lemma NewCallUnwritten(r: Requests, i: nat)
    requires Balanced(r, r.nextCall) && i < |r.written| && r.written[i].purpose.Tool?
    ensures r.written[i].purpose.call != r.nextCall
  {
    if r.written[i].purpose.call == r.nextCall {
      TotalHolds(WrittenCall, r.written, i, r.nextCall);
    }
  }

  /** A new call taken onto the books. */
  lemma NumberedRestores(s: State, queued: set<nat>)
    requires Restores(s) && Balanced(s.r, s.r.nextCall) && queued <= s.log.queued + {s.r.nextCall}
    requires s.log.queued <= queued
    ensures Restores(s.(r := s.r.(nextCall := s.r.nextCall + 1), log := s.log.(queued := queued)))
  {
    forall i | 0 <= i < |s.r.written| && s.r.written[i].purpose.Tool?
      ensures s.r.written[i].purpose.call != s.r.nextCall
    {
      NewCallUnwritten(s.r, i);
    }
    hide Kept, NoneWakes, Balanced;
    var t := s.(r := s.r.(nextCall := s.r.nextCall + 1), log := s.log.(queued := queued));
    assert forall k :: EndsWell(s, k) ==> EndsWell(t, k);
  }

  lemma CallRestores(s: State, request: Request)
    requires Restores(s) && Balanced(s.r, s.r.nextCall)
    ensures Restores(DoCall(s, request))
  {
    var t, c := DoCall(s, request), s.r.nextCall;
    var u := s.(r := s.r.(nextCall := c + 1), log := s.log.(queued := t.log.queued));
    CallOutcomes(s, request);
    NumberedRestores(s, t.log.queued);
    assert c !in s.log.queued;
    CallShape(s, request);
    hide Restores, DoCall, Balanced, RawCall, SameReplays;
    if t.r == RawCall(u.r, u.socket, Tool(c, request)) && t.log.queued == s.log.queued {
      WriteRestores(u, t, Tool(c, request));
    } else {
      SameRestores(u, t);
    }
  }

  lemma CallShape(s: State, request: Request)
    ensures var t, c := DoCall(s, request), s.r.nextCall;
            var u := s.(r := s.r.(nextCall := c + 1), log := s.log.(queued := t.log.queued));
            SameHistory(u, t) && t.socket == s.socket && Replaying(t) == Replaying(s) &&
            s.log.queued <= t.log.queued <= s.log.queued + {c} &&
            ((t.r == RawCall(u.r, u.socket, Tool(c, request)) && t.log.queued == s.log.queued) ||
             (SameReplays(u, t) && t.r.written == u.r.written))
  {
    CallOutcomes(s, request);
    hide DoCall, Kept, NoneWakes;
  }

  lemma ReplaySelectionRestores(s: State)
    requires Restores(s) && Numbered(s) && Replaying(s)
    ensures Restores(ReplaySelection(s))
  {
    var t := ReplaySelection(s);
    if Caches(s) {
      hide Restores, Kept, NoneWakes, RawCall;
      WriteRestores(s, t, HandshakeUse(s.currentAgent.value));
    } else {
      OneCalm(ReplayDone);
      CalmConcat(s.r.tasks, [ReplayDone]);
      hide Restores, Kept, NoneWakes;
      SameRestores(s, t);
    }
  }

  /** While a reconnect's socket is being opened, no handshake request is in flight. */
  lemma NoHandshakeWhileOpening(s: State, i: nat)
    requires SingleFlight(s) && (s.net.opening || !s.reconnecting) && i < |s.r.pending|
    ensures !IsHandshake(s.r.pending[i].purpose)
  {
    if IsHandshake(s.r.pending[i].purpose) {
      PendingHandshakeCounts(s.r.pending, i);
    }
  }

  /** Nothing has come of a socket not made yet. */
  lemma FreshSocket(s: State)
    requires Numbered(s)
    ensures Kept(s.r.settled, s.net.nextSocket) && Undisturbed(s.log, s.net.nextSocket)
    ensures s.net.nextSocket !in s.log.reopened && s.net.nextSocket !in s.log.replayed
  {
  }

  lemma OpenedRestores(s: State)
    requires Restores(s) && Sound(s) && s.net.opening && s.r.tasks == []
    ensures Restores(Opened(s)) && Replaying(Opened(s))
  {
    var t := Opened(s);
    FreshSocket(s);
    forall i | 0 <= i < |s.r.pending|
      ensures !IsHandshake(s.r.pending[i].purpose)
    {
      NoHandshakeWhileOpening(s, i);
    }
    assert s.reconnecting;
    hide Kept, SingleFlight, Numbered;
    assert forall k :: EndsWell(s, k) ==> EndsWell(t, k);
    assert EndsWell(t, s.net.nextSocket);
    assert forall i :: 0 <= i < |s.r.written| && s.r.written[i].socket in t.log.reopened ==>
      s.r.written[i].socket in s.log.reopened || s.r.written[i].socket == s.net.nextSocket;
  }

  lemma OpenOkRestores(s: State)
    requires Restores(s) && Sound(s) && s.net.opening && s.r.tasks == []
    ensures Restores(DoOpenOk(s))
  {
    var t := Opened(s);
    OpenedRestores(s);
    OpenedNumbered(s);
    hide Restores, Kept, NoneWakes, RawCall, Numbered, SingleFlight, ReplaySelection;
    if t.hasClientType {
      WriteRestores(t, DoOpenOk(s), HandshakeConnect);
    } else {
      ReplaySelectionRestores(t);
    }
  }

  // ----- what disturbs a replay

  lemma DialRestores(s: State)
    requires Restores(s) && Numbered(s)
    ensures Restores(DoDial(s))
  {
    FreshSocket(s);
    hide Kept, NoneWakes;
    assert forall k :: EndsWell(s, k) ==> EndsWell(DoDial(s), k);
  }

  lemma FailPendingKept(r: Requests, k: nat)
    ensures Kept(FailPending(r).settled, k) <==>
            Kept(r.settled, k) &&
            forall i :: 0 <= i < |r.pending| && IsHandshake(r.pending[i].purpose) ==> r.pending[i].socket != k
  {
    DropsAre(r.pending);
    var all := FailPending(r).settled;
    assert forall i :: 0 <= i < |r.settled| ==> all[i] == r.settled[i];
    assert forall i :: 0 <= i < |r.pending| ==> all[|r.settled| + i] == Ended(r.pending[i], Dropped);
    forall i | |r.settled| <= i < |all|
      ensures all[i] == Ended(r.pending[i - |r.settled|], Dropped)
    {
    }
  }

  lemma {:induction false} SomeHandshake(pending: seq<Pending>) returns (i: nat)
    requires HandshakesPending(pending) >= 1
    ensures i < |pending| && IsHandshake(pending[i].purpose)
  {
    if IsHandshake(pending[0].purpose) {
      i := 0;
    } else {
      i := SomeHandshake(pending[1..]);
      i := i + 1;
    }
  }

  /** A loss while a reconnect is replaying is noted against its socket, and takes the handshake request with it. */
  lemma DisturbedWell(s: State, t: State, cause: Disturbance, k: nat)
    requires Restores(s) && Sound(s) && s.r.tasks == [] && cause != Closing && EndsWell(s, k) && k in s.log.reopened
    requires k in s.log.replayed || (Attached(s) && k == s.socket.value)
    requires t.log.disturbed == Disturbed(s, cause).disturbed && t.r.settled == FailPending(s.r).settled
    ensures EndsWell(t, k)
  {
    FailPendingKept(s.r, k);
    if !Replaying(s) {
      forall i | 0 <= i < |s.r.pending|
        ensures !IsHandshake(s.r.pending[i].purpose)
      {
        NoHandshakeWhileOpening(s, i);
      }
    } else if k in s.log.replayed {
      assert LastReopened(s.log) != Some(k);
    } else {
      var i := SomeHandshake(s.r.pending);
      assert s.r.pending[i].socket == k;
      assert (k, cause) in t.log.disturbed;
    }
  }

  lemma DroppedRestores(s: State, t: State, cause: Disturbance)
    requires Restores(s) && Sound(s) && s.r.tasks == [] && cause != Closing
    requires t.r == FailPending(s.r) && t.socket == s.socket
    requires t.log == Disturbed(s, cause).(delays := t.log.delays)
    ensures Restores(t)
  {
    FailuresCalm(s.r.pending);
    assert [] + Failures(s.r.pending) == Failures(s.r.pending);
    forall k | EndsWell(s, k) && k in s.log.reopened && (k in s.log.replayed || (Attached(s) && k == s.socket.value))
      ensures EndsWell(t, k)
    {
      DisturbedWell(s, t, cause, k);
    }
    hide Kept, NoneWakes, EndsWell, SingleFlight, Numbered;
    assert t.log.reopened == s.log.reopened && t.log.replayed == s.log.replayed && t.log.queued == s.log.queued;
  }

  lemma ClosedRestores(s: State, k: nat)
    requires Restores(s) && Sound(s) && s.r.tasks == []
    ensures Restores(DoSocketClosed(s, k)) && Restores(DoDialFail(s, k))
  {
    ClosedRequests(s, k);
    ClosedFields(s, k);
    hide Restores, SingleFlight, Numbered, FailPending, DoSocketClosed, DoDialFail, Disturbed;
    DroppedRestores(s, DoSocketClosed(s, k), Drop(k));
    DroppedRestores(s, DoDialFail(s, k), FailedDial(k));
  }

  lemma ClosedFields(s: State, k: nat)
    ensures var t, u := DoSocketClosed(s, k), DoDialFail(s, k);
            t.socket == s.socket && t.log == Disturbed(s, Drop(k)).(delays := t.log.delays) &&
            u.socket == s.socket && u.log == Disturbed(s, FailedDial(k)).(delays := u.log.delays)
  {
    hide FailPending, Delay;
  }

  lemma CloseRestores(s: State)
    requires Restores(s) && Sound(s)
    ensures Restores(DoCloseProxy(s))
  {
    var t := DoCloseProxy(s);
    assert t.log.disturbed == Disturbed(s, Closing).disturbed && t.r.settled == s.r.settled;
    forall k | EndsWell(s, k) && k in s.log.replayed
      ensures EndsWell(t, k)
    {
    }
    hide Kept, NoneWakes, EndsWell, SingleFlight, Numbered, Wakes;
  }

  // ----- the continuations

  lemma FailedRestores(s: State, t: State)
    requires Restores(s) && (forall i :: 0 <= i < |s.r.pending| ==> !IsHandshake(s.r.pending[i].purpose))
    requires t.r == s.r && t.socket == s.socket && t.log == s.log.(delays := t.log.delays)
    ensures Restores(t)
  {
    hide Kept, NoneWakes;
    assert forall k :: EndsWell(s, k) ==> EndsWell(t, k);
  }

  lemma OpenFailRestores(s: State)
    requires Restores(s) && SingleFlight(s) && s.net.opening
    ensures Restores(DoOpenFail(s))
  {
    forall i | 0 <= i < |s.r.pending|
      ensures !IsHandshake(s.r.pending[i].purpose)
    {
      NoHandshakeWhileOpening(s, i);
    }
    hide Restores, SingleFlight, Delay;
    FailedRestores(s, DoOpenFail(s));
  }

  /** While a continuation of an attempt runs, no handshake request is in flight. */
  lemma NoHandshakeInTask(s: State, i: nat)
    requires SingleFlight(s) && s.r.tasks != [] && IsAttemptTask(s.r.tasks[0]) && i < |s.r.pending|
    ensures !IsHandshake(s.r.pending[i].purpose)
  {
    AttemptTaskAlone(s);
    if IsHandshake(s.r.pending[i].purpose) {
      PendingHandshakeCounts(s.r.pending, i);
    }
  }

  lemma FinishRestores(s: State)
    requires Restores(s) && Numbered(s) && Replaying(s)
    requires forall i :: 0 <= i < |s.r.pending| ==> !IsHandshake(s.r.pending[i].purpose)
    ensures Restores(FinishReplay(s))
  {
    var t := FinishReplay(s);
    assert Attached(s) ==> s.socket == LastReopened(s.log);
    assert forall k :: EndsWell(s, k) ==> EndsWell(t, k);
    hide Kept, NoneWakes, EndsWell, Numbered, Wakes;
  }

  lemma DequeuedRestores(s: State)
    requires Restores(s) && s.r.tasks != []
    ensures Restores(Dequeued(s))
    ensures WakesCaller(s.r.tasks[0]) && Attached(s) ==> s.socket.value in s.log.replayed
  {
    assert NoneWakes(s.r.tasks) ==> NoneWakes(Dequeued(s).r.tasks) && !WakesCaller(s.r.tasks[0]);
    hide Restores, NoneWakes;
    SameRestores(s, Dequeued(s));
    WellAttached(s);
  }

  lemma WellAttached(s: State)
    requires Restores(s)
    ensures AttachedWell(s)
  {
  }

  lemma WakeRestores(s: State, w: Waiter, connected: bool)
    requires Restores(s) && (connected && Attached(s) ==> s.socket.value in s.log.replayed)
    ensures Restores(DoWake(s, w, connected))
  {
    var t := DoWake(s, w, connected);
    assert SameHistory(s, t);
    hide Restores, Kept, NoneWakes, RawCall;
    if connected {
      WriteRestores(s, t, Tool(w.call, w.request));
    } else {
      SameRestores(s, t);
    }
  }

  lemma AnswerRestores(s: State, c: nat, request: Request, outcome: Outcome)
    requires Restores(s)
    ensures Restores(AnswerCall(s, c, request, outcome))
  {
    hide Restores, Kept, NoneWakes, AgentAfter;
    SameRestores(s, AnswerCall(s, c, request, outcome));
  }

  lemma AfterUseRestores(s: State, outcome: Outcome)
    requires Restores(s)
    ensures Restores(AfterReplayedUse(s, outcome))
  {
    ContinueRestores(s, s.currentAgent, ReplayFailed);
    ContinueRestores(s, s.currentAgent, ReplayDone);
    ContinueRestores(s, None, ReplayDone);
    hide Restores, Selects, Continue;
  }

  lemma ContinueRestores(s: State, agent: Option<string>, task: Task)
    requires Restores(s) && !WakesCaller(task)
    ensures Restores(s.(currentAgent := agent, r := Continue(s.r, task)))
  {
    OneCalm(task);
    CalmConcat(s.r.tasks, [task]);
    hide Restores, Kept, NoneWakes;
    SameRestores(s, s.(currentAgent := agent, r := Continue(s.r, task)));
  }

  lemma TaskRestores(s: State)
    requires Restores(s) && Sound(s) && s.r.tasks != []
    ensures Restores(RunTask(Dequeued(s), s.r.tasks[0]))
  {
    var d, task := Dequeued(s), s.r.tasks[0];
    DequeuedRestores(s);
    DequeuedNumbered(s);
    if IsAttemptTask(task) {
      AttemptTaskAlone(s);
      forall i | 0 <= i < |s.r.pending|
        ensures !IsHandshake(s.r.pending[i].purpose)
      {
        NoHandshakeInTask(s, i);
      }
    }
    FailedLog(d);
    hide Restores, SingleFlight, Numbered, AnswerCall, ReplaySelection, AfterReplayedUse, DoWake, FinishReplay,
      AttemptFailed;
    match task
    case Resume(Tool(c, request), outcome) => AnswerRestores(d, c, request, outcome);
    case Resume(HandshakeConnect, _) => ReplaySelectionRestores(d);
    case Resume(HandshakeUse(_), outcome) => AfterUseRestores(d, outcome);
    case Wake(w, connected) => WakeRestores(d, w, connected);
    case ReplayDone => FinishRestores(d);
    case ReplayFailed => FailedRestores(d, AttemptFailed(d));
  }

  lemma FailedLog(s: State)
    ensures var t := AttemptFailed(s); t.r == s.r && t.socket == s.socket && t.log == s.log.(delays := t.log.delays)
  {
    hide Delay;
  }

  lemma DialOkRestores(s: State, k: nat)
    requires Restores(s)
    ensures Restores(DoDialOk(s, k))
  {
    hide Restores, Kept, NoneWakes;
    SameRestores(s, DoDialOk(s, k));
  }

  lemma StepRestores(classify: Classifier, s: State, e: Event)
    requires Restores(s) && Sound(s) && Balanced(s.r, s.r.nextCall) && Enabled(s, e)
    ensures Restores(Step(classify, s, e))
  {
    hide Restores, Numbered, SingleFlight, Balanced, DoDial, DoDialOk, DoDialFail, DoData, DoSocketClosed, DoTimerFires,
      DoOpenOk, DoOpenFail, DoHandshakeTimeout, DoWaiterTimeout, DoCall, DoCloseProxy, RunTask, IndexOfId, IndexOfCall;
    match e
    case Dial => DialRestores(s);
    case DialOk(k) => DialOkRestores(s, k);
    case DialFail(k) => ClosedRestores(s, k);
    case Data(chunk) => DataRestores(classify, s, chunk);
    case SocketClosed(k) => ClosedRestores(s, k);
    case TimerFires => TimerRestores(s);
    case OpenOk => OpenOkRestores(s);
    case OpenFail => OpenFailRestores(s);
    case HandshakeTimeout(id) => TimeoutsRestore(s, id);
    case WaiterTimeout(c) => TimeoutsRestore(s, c);
    case Call(request) => CallRestores(s, request);
    case CloseProxy => CloseRestores(s);
    case Microtask => TaskRestores(s);
  }

  lemma {:induction false} RunRestores(classify: Classifier, run: seq<State>, events: seq<Event>, n: nat)
    requires IsRun(classify, run, events) && n < |run|
    ensures Restores(run[n])
  {
    if n > 0 {
      RunRestores(classify, run, events, n - 1);
      RunSound(classify, run, events, n - 1);
      RunBalanced(classify, run, events, n - 1, run[n - 1].r.nextCall);
      hide Restores, Sound, Step, Enabled, Balanced;
      StepRestores(classify, run[n - 1], events[n - 1]);
    }
  }

  /** The replay on a reconnect's socket is over, and what it asked was answered or timed out. */
  ghost predicate Replayed(s: State, k: nat) {
    k in s.log.replayed && Kept(s.r.settled, k)
  }

  /**
   In every run, a call that had to wait is written on a socket whose replay was answered or timed out if and only if
   a reconnect attached that socket, and no socket closed, no dial failed and `close` was not called before the replay
   ended. On a reconnect's socket it is written only after the replay, however that ended.
   */
  lemma WaitingCallsFollowTheReplay(classify: Classifier, run: seq<State>, events: seq<Event>, n: nat, i: nat)
    requires IsRun(classify, run, events) && n < |run| && i < |run[n].r.written|
    requires run[n].r.written[i].purpose.Tool? && run[n].r.written[i].purpose.call in run[n].log.queued
    ensures var s, k := run[n], run[n].r.written[i].socket;
            (Replayed(s, k) <==> k in s.log.reopened && Undisturbed(s.log, k)) &&
                (k in s.log.reopened ==> k in s.log.replayed)
  {
    var s, w := run[n], run[n].r.written[i];
    RunRestores(classify, run, events, n);
    RunNumbered(classify, run, events, n);
    assert FollowsReplay(s, w);
  }
}
