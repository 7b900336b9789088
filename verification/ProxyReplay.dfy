/**
 One session at a time: requests in flight, selections about to be cached and the cached agent all belong to the socket
 in use, in a run exactly if every `connect` and every reconnect finds nothing that belongs to an earlier one.
 */
module ProxyReplay {
  import opened LineBuffer
  import opened ProxyModel
  import opened ProxyReconnect
  import opened ProxySockets
  import opened Wrappers

  ghost predicate GrantedOn(session: Option<nat>, granted: set<(nat, string)>, a: string) {
    session.Some? && (session.value, a) in granted
  }

  /** The agent a continuation will cache or keep, if it will. */
  ghost function Selected(t: Task): Option<string> {
    match t
    case Resume(Tool(_, request), outcome) => if IsUse(request) && Selects(outcome) then request.name else None
    case Resume(HandshakeUse(wanted), outcome) => if Selects(outcome) then Some(wanted) else None
    case _ => None
  }

  /** A continuation that would cache or keep an agent carries one granted on the socket in use. */
  ghost predicate TasksFit(r: Requests, session: Option<nat>, granted: set<(nat, string)>) {
    forall i :: 0 <= i < |r.tasks| && Selected(r.tasks[i]).Some? ==>
        GrantedOn(session, granted, Selected(r.tasks[i]).value)
  }

  ghost predicate PendingFits(r: Requests, session: Option<nat>) {
    forall i :: 0 <= i < |r.pending| ==> session == Some(r.pending[i].socket)
  }

  /** A handshake request that will end with agent `a` granted or the cache cleared. */
  ghost predicate Settles(p: Purpose, a: string) {
    p.HandshakeConnect? || p == HandshakeUse(a)
  }

  ghost predicate AskedBy(t: Task, a: string) {
    (t.Resume? && Settles(t.purpose, a)) || t.ReplayFailed?
  }

  ghost predicate AskedIn(tasks: seq<Task>, a: string) {
    exists i :: 0 <= i < |tasks| && AskedBy(tasks[i], a)
  }

  /** The handshake about agent `a` is still open. */
  ghost predicate Asked(r: Requests, a: string) {
    (exists i :: 0 <= i < |r.pending| && Settles(r.pending[i].purpose, a)) || AskedIn(r.tasks, a)
  }

  ghost predicate Caches(s: State) {
    s.currentAgent.Some? && s.currentAgent.value != ""
  }

  /** The cached agent is granted on the socket in use, or the handshake about it is still open. */
  ghost predicate Backed(s: State) {
    Caches(s) ==> GrantedOn(s.log.session, s.log.granted, s.currentAgent.value) || Asked(s.r, s.currentAgent.value)
  }

  ghost predicate OneSession(s: State) {
    PendingFits(s.r, s.log.session) && TasksFit(s.r, s.log.session, s.log.granted) && Backed(s)
  }

  ghost predicate Sound(s: State) {
    SingleFlight(s) && Numbered(s)
  }

  /**
   The condition: `connect` finds no request in flight, no selection about to be cached, and no agent cached but one
   being asked for; a reconnect attaching its socket finds no request in flight; and a replay that fails because its
   answer has no result finds no agent cached that is not granted.
   */
  ghost predicate Careful(s: State, e: Event) {
    match e
    case Dial =>
      && s.r.pending == [] && (forall i :: 0 <= i < |s.r.tasks| ==> Selected(s.r.tasks[i]).None?)
      && (Caches(s) ==> AskedIn(s.r.tasks, s.currentAgent.value))
    case OpenOk => s.r.pending == []
    case Microtask =>
      s.r.tasks != [] && s.r.tasks[0].ReplayFailed? && Caches(s) ==>
        GrantedOn(s.log.session, s.log.granted, s.currentAgent.value)
    case _ => true
  }

  // ----- effect of the operations on pending map and continuations

  lemma AppendTaskFits(r: Requests, t: Requests, task: Task, session: Option<nat>, granted: set<(nat, string)>)
    requires PendingFits(r, session) && TasksFit(r, session, granted)
    requires t.pending == r.pending && t.tasks == r.tasks + [task]
    requires Selected(task).Some? ==> GrantedOn(session, granted, Selected(task).value)
    ensures PendingFits(t, session) && TasksFit(t, session, granted)
  {
    assert forall i :: 0 <= i < |r.tasks| ==> t.tasks[i] == r.tasks[i];
  }

  lemma RawCallFits(r: Requests, socket: Option<nat>, p: Purpose, session: Option<nat>, granted: set<(nat, string)>)
    requires PendingFits(r, session) && TasksFit(r, session, granted) && (socket.Some? ==> socket == session)
    ensures PendingFits(RawCall(r, socket, p), session) && TasksFit(RawCall(r, socket, p), session, granted)
  {
    if socket.None? {
      AppendTaskFits(r, RawCall(r, socket, p), Resume(p, RECONNECTING), session, granted);
    }
  }

  lemma SettleFits(r: Requests, i: nat, outcome: Outcome, end: End, session: Option<nat>, granted: set<(nat, string)>,
                   more: set<(nat, string)>)
    requires i < |r.pending| && PendingFits(r, session) && TasksFit(r, session, granted)
    requires Selects(outcome) ==> Grant(r.pending[i], outcome) <= more
    ensures PendingFits(Settle(r, i, outcome, end), session)
    ensures TasksFit(Settle(r, i, outcome, end), session, granted + more)
  {
    var t := Settle(r, i, outcome, end);
    forall j | 0 <= j < |t.pending|
      ensures session == Some(t.pending[j].socket)
    {
      WithoutIn(r.pending, i, j);
    }
    assert forall j :: 0 <= j < |r.tasks| ==> t.tasks[j] == r.tasks[j];
    assert t.tasks[|r.tasks|] == Resume(r.pending[i].purpose, outcome);
  }

  lemma {:induction false} DispatchAllFits(classify: Classifier, b: Inbox, lines: seq<string>, session: Option<nat>)
    requires PendingFits(b.r, session) && TasksFit(b.r, session, b.granted)
    ensures var t := DispatchAll(classify, b, lines);
            PendingFits(t.r, session) && TasksFit(t.r, session, t.granted) && (b.r.pending == [] ==> t.r == b.r)
    decreases |lines|
  {
    hide PendingFits, TasksFit, Dispatch;
    if lines != [] {
      DispatchFits(b, classify(lines[0]), session);
      DispatchAllFits(classify, Dispatch(b, classify(lines[0])), lines[1..], session);
    }
  }

  lemma DispatchFits(b: Inbox, incoming: Incoming, session: Option<nat>)
    requires PendingFits(b.r, session) && TasksFit(b.r, session, b.granted)
    ensures var t := Dispatch(b, incoming);
            PendingFits(t.r, session) && TasksFit(t.r, session, t.granted) && (b.r.pending == [] ==> t.r == b.r)
  {
    hide PendingFits, TasksFit, Settle, Grant;
    if incoming.Malformed? && b.r.pending != [] {
      SettleFits(b.r, 0, DESERIALIZATION_ERROR, Replied, session, b.granted, {});
      assert b.granted + {} == b.granted;
    } else if incoming.Reply? && incoming.id.Some? {
      var i := IndexOfId(b.r.pending, incoming.id.value);
      if i >= 0 {
        var more := Grant(b.r.pending[i], incoming.outcome);
        SettleFits(b.r, i, incoming.outcome, Replied, session, b.granted, more);
      }
    }
  }

  /** A failure for each pending request, in their order. */
  lemma {:induction false} FailuresAre(pending: seq<Pending>)
    ensures |Failures(pending)| == |pending|
    ensures forall i :: 0 <= i < |pending| ==> Failures(pending)[i] == Resume(pending[i].purpose, RECONNECTING)
  {
    if pending != [] {
      FailuresAre(pending[1..]);
    }
  }

  lemma FailPendingFits(r: Requests, session: Option<nat>, granted: set<(nat, string)>)
    requires TasksFit(r, session, granted)
    ensures PendingFits(FailPending(r), session) && TasksFit(FailPending(r), session, granted)
  {
    FailuresAre(r.pending);
    var t := FailPending(r);
    forall i | 0 <= i < |t.tasks|
      ensures i < |r.tasks| ==> t.tasks[i] == r.tasks[i]
      ensures i >= |r.tasks| ==> Selected(t.tasks[i]).None?
    {
      if i >= |r.tasks| {
        assert t.tasks[i] == Resume(r.pending[i - |r.tasks|].purpose, RECONNECTING);
      }
    }
  }

  /** A wake for each waiter, in their order. */
  lemma {:induction false} WakesAre(waiters: seq<Waiter>)
    ensures |Wakes(waiters)| == |waiters|
    ensures forall i :: 0 <= i < |waiters| ==> Wakes(waiters)[i] == Wake(waiters[i], true)
  {
    if waiters != [] {
      WakesAre(waiters[1..]);
    }
  }

  lemma ReleaseFits(r: Requests, session: Option<nat>, granted: set<(nat, string)>)
    requires PendingFits(r, session) && TasksFit(r, session, granted)
    ensures PendingFits(ReleaseWaiters(r), session) && TasksFit(ReleaseWaiters(r), session, granted)
  {
    WakesAre(r.waiters);
    var t := ReleaseWaiters(r);
    forall i | 0 <= i < |t.tasks|
      ensures i < |r.tasks| ==> t.tasks[i] == r.tasks[i]
      ensures i >= |r.tasks| ==> t.tasks[i].Wake?
    {
    }
  }

  // ----- effect on what is being asked for

  lemma AskedMonotone(r: Requests, t: Requests, a: string)
    requires Asked(r, a) && r.pending <= t.pending && r.tasks <= t.tasks
    ensures Asked(t, a)
  {
  }

  lemma {:induction false} WithoutKeeps(pending: seq<Pending>, i: nat, j: nat)
    requires i < |pending| && j < |pending| && i != j
    ensures pending[j] in Without(pending, i)
  {
    if i > 0 && j > 0 {
      WithoutKeeps(pending[1..], i - 1, j - 1);
    }
  }

  lemma SettleAsked(r: Requests, i: nat, outcome: Outcome, end: End, a: string)
    requires Asked(r, a) && i < |r.pending|
    ensures Asked(Settle(r, i, outcome, end), a)
  {
    var t := Settle(r, i, outcome, end);
    assert t.tasks[|r.tasks|] == Resume(r.pending[i].purpose, outcome);
    if j :| 0 <= j < |r.pending| && Settles(r.pending[j].purpose, a) {
      if j != i {
        WithoutKeeps(r.pending, i, j);
      } else {
        assert AskedBy(t.tasks[|r.tasks|], a);
      }
    } else {
      assert r.tasks == t.tasks[..|r.tasks|];
    }
  }

  lemma FailPendingAsked(r: Requests, a: string)
    requires Asked(r, a)
    ensures Asked(FailPending(r), a)
  {
    var t := FailPending(r);
    FailuresAre(r.pending);
    if j :| 0 <= j < |r.pending| && Settles(r.pending[j].purpose, a) {
      assert t.tasks[|r.tasks| + j] == Resume(r.pending[j].purpose, RECONNECTING);
      assert AskedBy(t.tasks[|r.tasks| + j], a);
    } else {
      assert r.tasks == t.tasks[..|r.tasks|];
    }
  }

  lemma {:induction false} DispatchAllAsked(classify: Classifier, b: Inbox, lines: seq<string>, a: string)
    requires Asked(b.r, a)
    ensures Asked(DispatchAll(classify, b, lines).r, a)
    decreases |lines|
  {
    hide Asked, Dispatch;
    if lines != [] {
      DispatchAsked(b, classify(lines[0]), a);
      DispatchAllAsked(classify, Dispatch(b, classify(lines[0])), lines[1..], a);
    }
  }

  lemma DispatchAsked(b: Inbox, incoming: Incoming, a: string)
    requires Asked(b.r, a)
    ensures Asked(Dispatch(b, incoming).r, a)
  {
    hide Asked, Settle;
    if incoming.Malformed? && b.r.pending != [] {
      SettleAsked(b.r, 0, DESERIALIZATION_ERROR, Replied, a);
    } else if incoming.Reply? && incoming.id.Some? {
      var i := IndexOfId(b.r.pending, incoming.id.value);
      if i >= 0 {
        SettleAsked(b.r, i, incoming.outcome, Replied, a);
      }
    }
  }

  lemma {:induction false} DispatchAllGrants(classify: Classifier, b: Inbox, lines: seq<string>)
    ensures b.granted <= DispatchAll(classify, b, lines).granted
    decreases |lines|
  {
    if lines != [] {
      hide Settle, Grant;
      DispatchAllGrants(classify, Dispatch(b, classify(lines[0])), lines[1..]);
    }
  }

  // ----- the events

  /** The session and the cache are as they were, and nothing granted is lost. */
  ghost predicate SameSession(s: State, t: State) {
    t.log.session == s.log.session && s.log.granted <= t.log.granted && t.currentAgent == s.currentAgent
  }

  lemma SameSessionBacked(s: State, t: State)
    requires Backed(s) && SameSession(s, t)
    requires Caches(s) && Asked(s.r, s.currentAgent.value) ==> Asked(t.r, s.currentAgent.value)
    ensures Backed(t)
  {
    hide Asked;
  }

  lemma GrowsBacked(s: State, t: State)
    requires Backed(s) && SameSession(s, t) && s.r.pending <= t.r.pending && s.r.tasks <= t.r.tasks
    ensures Backed(t)
  {
    if Caches(s) && Asked(s.r, s.currentAgent.value) {
      AskedMonotone(s.r, t.r, s.currentAgent.value);
    }
    SameSessionBacked(s, t);
  }

  /** `connect` makes a socket nothing was granted on. */
  lemma DialExactly(s: State)
    requires Numbered(s) && OneSession(s)
    ensures OneSession(DoDial(s)) <==> Careful(s, Dial)
  {
    var t, k := DoDial(s), s.net.nextSocket;
    assert forall a :: !GrantedOn(t.log.session, t.log.granted, a);
    if s.r.pending != [] {
      assert s.r.pending[0].socket < k;
      assert t.log.session != Some(t.r.pending[0].socket);
    }
  }

  lemma DroppedSession(s: State, t: State)
    requires OneSession(s) && SameSession(s, t) && t.r == FailPending(s.r) && t.log.granted == s.log.granted
    ensures OneSession(t)
  {
    FailPendingFits(s.r, s.log.session, s.log.granted);
    if Caches(s) && Asked(s.r, s.currentAgent.value) {
      FailPendingAsked(s.r, s.currentAgent.value);
    }
    hide FailPending, PendingFits, TasksFit, Backed;
    SameSessionBacked(s, t);
  }

  lemma SocketClosedSession(s: State, k: nat)
    requires OneSession(s)
    ensures OneSession(DoSocketClosed(s, k)) && OneSession(DoDialFail(s, k))
  {
    assert SameSession(s, DoSocketClosed(s, k)) && SameSession(s, DoDialFail(s, k)) by {
      hide FailPending, Delay;
    }
    ClosedRequests(s, k);
    hide OneSession, SameSession, FailPending, DoSocketClosed, DoDialFail;
    DroppedSession(s, DoSocketClosed(s, k));
    DroppedSession(s, DoDialFail(s, k));
  }

  lemma ClosedRequests(s: State, k: nat)
    ensures var t, u := DoSocketClosed(s, k), DoDialFail(s, k);
            t.r == FailPending(s.r) && u.r == FailPending(s.r) && t.log.granted == s.log.granted &&
                u.log.granted == s.log.granted
  {
    hide FailPending, Delay;
  }

  lemma DataSession(classify: Classifier, s: State, chunk: Chunk)
    requires OneSession(s)
    ensures OneSession(DoData(classify, s, chunk)) && (s.r.pending == [] ==> DoData(classify, s, chunk).r == s.r)
  {
    var t, b, lines := DoData(classify, s, chunk), Inbox(s.r, s.log.granted), Lines(s.buffer + chunk.text);
    DataSame(classify, s, chunk);
    DataKeepsAgent(classify, s, chunk);
    DispatchAllGrants(classify, b, lines);
    DispatchAllFits(classify, b, lines, s.log.session);
    if Caches(s) && Asked(s.r, s.currentAgent.value) {
      DispatchAllAsked(classify, b, lines, s.currentAgent.value);
    }
    hide Lines, DispatchAll, DoData, PendingFits, TasksFit, Backed, Asked;
    SameSessionBacked(s, t);
  }

  lemma DataKeepsAgent(classify: Classifier, s: State, chunk: Chunk)
    ensures DoData(classify, s, chunk).currentAgent == s.currentAgent
  {
    hide Lines, DispatchAll, Rest;
  }

  lemma ReplaySelectionSession(s: State)
    requires PendingFits(s.r, s.log.session) && TasksFit(s.r, s.log.session, s.log.granted)
    requires s.socket.Some? ==> s.socket == s.log.session
    ensures OneSession(ReplaySelection(s))
  {
    var t := ReplaySelection(s);
    if Caches(s) {
      var p := HandshakeUse(s.currentAgent.value);
      RawCallFits(s.r, s.socket, p, s.log.session, s.log.granted);
      if s.socket.Some? {
        assert t.r.pending[|s.r.pending|].purpose == p;
      } else {
        assert t.r.tasks[|s.r.tasks|] == Resume(p, RECONNECTING);
        assert AskedBy(t.r.tasks[|s.r.tasks|], s.currentAgent.value);
      }
      hide PendingFits, TasksFit, RawCall;
    } else {
      AppendTaskFits(s.r, t.r, ReplayDone, s.log.session, s.log.granted);
      hide PendingFits, TasksFit;
    }
  }

  /** A reconnect's socket starts a session of its own, unless requests of another are still in flight. */
  lemma OpenOkExactly(s: State)
    requires Numbered(s) && OneSession(s) && s.r.tasks == []
    ensures OneSession(DoOpenOk(s)) <==> Careful(s, OpenOk)
  {
    var t, u := Opened(s), DoOpenOk(s);
    OpenOkPending(s);
    if s.r.pending != [] {
      assert s.r.pending[0].socket < s.net.nextSocket;
      assert u.r.pending[0] == s.r.pending[0] && u.log.session == Some(s.net.nextSocket);
      assert !PendingFits(u.r, u.log.session);
    } else if t.hasClientType {
      RawCallFits(t.r, t.socket, HandshakeConnect, t.log.session, t.log.granted);
      assert u.r.pending[0].purpose == HandshakeConnect;
    } else {
      ReplaySelectionSession(t);
    }
  }

  lemma OpenOkPending(s: State)
    ensures s.r.pending <= DoOpenOk(s).r.pending && DoOpenOk(s).log.session == Some(s.net.nextSocket)
  {
  }

  lemma HandshakeTimeoutSession(s: State, id: nat)
    requires OneSession(s)
    ensures OneSession(DoHandshakeTimeout(s, id))
  {
    var i, t := IndexOfId(s.r.pending, id), DoHandshakeTimeout(s, id);
    if i >= 0 {
      SettleFits(s.r, i, RECONNECTING, TimedOut, s.log.session, s.log.granted, {});
      assert s.log.granted + {} == s.log.granted;
      if Caches(s) && Asked(s.r, s.currentAgent.value) {
        SettleAsked(s.r, i, RECONNECTING, TimedOut, s.currentAgent.value);
      }
      hide PendingFits, TasksFit, Asked, Backed, Settle;
      SameSessionBacked(s, t);
    }
  }

  lemma WaiterTimeoutSession(s: State, c: nat)
    requires OneSession(s)
    ensures OneSession(DoWaiterTimeout(s, c))
  {
    var i, t := IndexOfCall(s.r.waiters, c), DoWaiterTimeout(s, c);
    if i >= 0 {
      hide Without, IndexOfCall, PendingFits, TasksFit, Backed;
      AppendTaskFits(s.r, t.r, Wake(s.r.waiters[i], false), s.log.session, s.log.granted);
      GrowsBacked(s, t);
    }
  }

  lemma CallSession(s: State, request: Request)
    requires Numbered(s) && OneSession(s)
    ensures OneSession(DoCall(s, request))
  {
    var t, r := DoCall(s, request), s.r.(nextCall := s.r.nextCall + 1);
    CallOutcomes(s, request);
    RawCallFits(r, s.socket, Tool(s.r.nextCall, request), s.log.session, s.log.granted);
    RawCallGrows(r, s.socket, Tool(s.r.nextCall, request));
    hide DoCall, Backed, RawCall;
    GrowsBacked(s, t);
  }

  lemma RawCallGrows(r: Requests, socket: Option<nat>, p: Purpose)
    ensures r.pending <= RawCall(r, socket, p).pending && r.tasks <= RawCall(r, socket, p).tasks
  {
  }

  lemma CloseSession(s: State)
    requires OneSession(s)
    ensures OneSession(DoCloseProxy(s))
  {
    ReleaseFits(s.r, s.log.session, s.log.granted);
    var t := DoCloseProxy(s);
    assert t.r == ReleaseWaiters(s.r) && s.r.tasks <= t.r.tasks;
    hide PendingFits, TasksFit, Backed, Wakes;
    GrowsBacked(s, t);
  }

  // ----- the continuations

  /** Dropping the continuation that runs loses nothing but its own request. */
  lemma DequeuedSession(s: State)
    requires OneSession(s) && s.r.tasks != []
    ensures PendingFits(Dequeued(s).r, s.log.session) && TasksFit(Dequeued(s).r, s.log.session, s.log.granted)
    ensures (Caches(s) && AskedBy(s.r.tasks[0], s.currentAgent.value)) || Backed(Dequeued(s))
  {
    var d := Dequeued(s);
    assert forall i :: 0 <= i < |d.r.tasks| ==> d.r.tasks[i] == s.r.tasks[i + 1];
    if Caches(s) && Asked(s.r, s.currentAgent.value) {
      DequeuedAsked(s, s.currentAgent.value);
    }
  }

  lemma DequeuedAsked(s: State, a: string)
    requires s.r.tasks != [] && Asked(s.r, a)
    ensures Asked(Dequeued(s).r, a) || AskedBy(s.r.tasks[0], a)
  {
    var d := Dequeued(s);
    if j :| 0 <= j < |s.r.tasks| && AskedBy(s.r.tasks[j], a) {
      if j > 0 {
        assert d.r.tasks[j - 1] == s.r.tasks[j];
      }
    }
  }

  lemma AnswerSession(s: State, c: nat, request: Request, outcome: Outcome)
    requires OneSession(s)
    requires var selected := Selected(Resume(Tool(c, request), outcome));
             selected.Some? ==> GrantedOn(s.log.session, s.log.granted, selected.value)
    ensures OneSession(AnswerCall(s, c, request, outcome))
  {
    var t := AnswerCall(s, c, request, outcome);
    if t.currentAgent.Some? && t.currentAgent == s.currentAgent {
      GrowsBacked(s, t);
    }
  }

  lemma ReplayedUseSession(s: State, wanted: string, outcome: Outcome)
    requires PendingFits(s.r, s.log.session) && TasksFit(s.r, s.log.session, s.log.granted)
    requires s.currentAgent == Some(wanted) || Backed(s)
    requires Selects(outcome) ==> GrantedOn(s.log.session, s.log.granted, wanted)
    ensures OneSession(AfterReplayedUse(s, outcome))
  {
    var t := AfterReplayedUse(s, outcome);
    if outcome.Undefined? {
      AppendTaskFits(s.r, t.r, ReplayFailed, s.log.session, s.log.granted);
      assert t.r.tasks[|s.r.tasks|] == ReplayFailed;
      assert Caches(t) ==> AskedBy(t.r.tasks[|s.r.tasks|], t.currentAgent.value);
    } else {
      AppendTaskFits(s.r, t.r, ReplayDone, s.log.session, s.log.granted);
      hide PendingFits, TasksFit;
      if t.currentAgent.Some? && t.currentAgent != Some(wanted) {
        GrowsBacked(s, t);
      }
    }
  }

  lemma WakeSession(s: State, w: Waiter, connected: bool)
    requires OneSession(s) && (s.socket.Some? ==> s.socket == s.log.session)
    ensures OneSession(DoWake(s, w, connected))
  {
    var t := DoWake(s, w, connected);
    RawCallFits(s.r, s.socket, Tool(w.call, w.request), s.log.session, s.log.granted);
    RawCallGrows(s.r, s.socket, Tool(w.call, w.request));
    hide Backed, RawCall;
    GrowsBacked(s, t);
  }

  lemma FinishSession(s: State)
    requires OneSession(s)
    ensures OneSession(FinishReplay(s))
  {
    ReleaseFits(s.r, s.log.session, s.log.granted);
    var t := FinishReplay(s);
    assert t.r == ReleaseWaiters(s.r) && s.r.tasks <= t.r.tasks;
    hide PendingFits, TasksFit, Backed, Wakes;
    GrowsBacked(s, t);
  }

  /** A failed replay leaves the cached agent as it is, asked for no more. */
  lemma FailedExactly(s: State)
    requires SingleFlight(s) && OneSession(s) && s.r.tasks != [] && s.r.tasks[0].ReplayFailed?
    ensures OneSession(AttemptFailed(Dequeued(s))) <==> Careful(s, Microtask)
  {
    var d := Dequeued(s);
    DequeuedSession(s);
    AttemptTaskAlone(s);
    if Caches(s) && Asked(d.r, s.currentAgent.value) {
      OpenHandshakeCounts(d.r, s.currentAgent.value);
    }
    FailedFields(d);
    hide AttemptFailed, PendingFits, TasksFit, SingleFlight, Asked;
  }

  lemma FailedFields(s: State)
    ensures var t := AttemptFailed(s);
            t.r == s.r && t.currentAgent == s.currentAgent && t.log.session == s.log.session &&
                t.log.granted == s.log.granted
  {
    hide Delay;
  }

  /** While a continuation of an attempt runs, nothing is being opened and no timer is armed. */
  lemma AttemptTaskAlone(s: State)
    requires SingleFlight(s) && s.r.tasks != [] && IsAttemptTask(s.r.tasks[0])
    ensures s.reconnecting && !s.timer && !s.net.opening && Suspended(Dequeued(s).r) == 0
  {
  }

  lemma {:induction false} OpenHandshakeCounts(r: Requests, a: string)
    requires Asked(r, a)
    ensures Suspended(r) >= 1
  {
    if i :| 0 <= i < |r.pending| && Settles(r.pending[i].purpose, a) {
      PendingHandshakeCounts(r.pending, i);
    } else {
      var j :| 0 <= j < |r.tasks| && AskedBy(r.tasks[j], a);
      AttemptTaskCounts(r.tasks, j);
    }
  }

  lemma {:induction false} PendingHandshakeCounts(pending: seq<Pending>, i: nat)
    requires i < |pending| && IsHandshake(pending[i].purpose)
    ensures HandshakesPending(pending) >= 1
  {
    if i > 0 {
      PendingHandshakeCounts(pending[1..], i - 1);
    }
  }

  lemma {:induction false} AttemptTaskCounts(tasks: seq<Task>, i: nat)
    requires i < |tasks| && IsAttemptTask(tasks[i])
    ensures AttemptTasks(tasks) >= 1
  {
    if i > 0 {
      AttemptTaskCounts(tasks[1..], i - 1);
    }
  }

  lemma TaskExactly(s: State)
    requires Sound(s) && OneSession(s) && s.r.tasks != []
    ensures OneSession(RunTask(Dequeued(s), s.r.tasks[0])) <==> Careful(s, Microtask)
  {
    var d, task := Dequeued(s), s.r.tasks[0];
    assert d.socket.Some? ==> d.socket == d.log.session;
    assert Selected(task).Some? ==> GrantedOn(s.log.session, s.log.granted, Selected(task).value);
    DequeuedSession(s);
    hide SingleFlight, Numbered, PendingFits, TasksFit, Backed, AnswerCall, ReplaySelection, AfterReplayedUse, DoWake,
      FinishReplay, AttemptFailed;
    match task
    case Resume(Tool(c, request), outcome) => AnswerSession(d, c, request, outcome);
    case Resume(HandshakeConnect, _) => ReplaySelectionSession(d);
    case Resume(HandshakeUse(wanted), outcome) => ReplayedUseSession(d, wanted, outcome);
    case Wake(w, connected) => WakeSession(d, w, connected);
    case ReplayDone => FinishSession(d);
    case ReplayFailed => FailedExactly(s);
  }

  /** Each step keeps to one session if and only if it is careful. */
  lemma StepExactly(classify: Classifier, s: State, e: Event)
    requires Sound(s) && OneSession(s) && Enabled(s, e)
    ensures OneSession(Step(classify, s, e)) <==> Careful(s, e)
  {
    if e.DialOk? || e.TimerFires? || e.OpenFail? {
      RestSession(classify, s, e);
    } else {
      hide OneSession, Numbered, SingleFlight, DoDial, DoDialFail, DoData, DoSocketClosed, DoOpenOk, DoHandshakeTimeout,
        DoWaiterTimeout, DoCall, DoCloseProxy, RunTask, IndexOfId, IndexOfCall;
      match e
      case Dial => DialExactly(s);
      case DialFail(k) => SocketClosedSession(s, k);
      case Data(chunk) => DataSession(classify, s, chunk);
      case SocketClosed(k) => SocketClosedSession(s, k);
      case OpenOk => OpenOkExactly(s);
      case HandshakeTimeout(id) => HandshakeTimeoutSession(s, id);
      case WaiterTimeout(c) => WaiterTimeoutSession(s, c);
      case Call(request) => CallSession(s, request);
      case CloseProxy => CloseSession(s);
      case Microtask => TaskExactly(s);
    }
  }

  lemma RestSession(classify: Classifier, s: State, e: Event)
    requires OneSession(s) && Enabled(s, e) && (e.DialOk? || e.TimerFires? || e.OpenFail?)
    ensures OneSession(Step(classify, s, e)) && Careful(s, e)
  {
    hide PendingFits, TasksFit, Asked, Delay;
  }

  lemma RunSound(classify: Classifier, run: seq<State>, events: seq<Event>, n: nat)
    requires IsRun(classify, run, events) && n < |run|
    ensures Sound(run[n])
  {
    RunSingleFlight(classify, run, events, n);
    RunNumbered(classify, run, events, n);
  }

  ghost predicate OneSessionTo(run: seq<State>, n: nat)
    requires n < |run|
  {
    forall i :: 0 <= i <= n ==> OneSession(run[i])
  }

  ghost predicate CarefulTo(run: seq<State>, events: seq<Event>, n: nat)
    requires n <= |events| < |run|
  {
    forall i :: 0 <= i < n ==> Careful(run[i], events[i])
  }

  lemma OneMore(run: seq<State>, events: seq<Event>, n: nat)
    requires 0 < n <= |events| < |run|
    ensures OneSessionTo(run, n) <==> OneSessionTo(run, n - 1) && OneSession(run[n])
    ensures CarefulTo(run, events, n) <==> CarefulTo(run, events, n - 1) && Careful(run[n - 1], events[n - 1])
  {
    hide OneSession, Careful;
  }

  /**
   A run keeps to one session up to any point if and only if every event before it was careful. Then all requests in
   flight are on the socket in use, and every agent cached or about to be cached was granted on it or is being asked
   for.
   */
  lemma {:induction false} OneSessionExactly(classify: Classifier, run: seq<State>, events: seq<Event>, n: nat)
    requires IsRun(classify, run, events) && n < |run|
    ensures OneSessionTo(run, n) <==> CarefulTo(run, events, n)
  {
    if n > 0 {
      OneSessionExactly(classify, run, events, n - 1);
      RunSound(classify, run, events, n - 1);
      OneMore(run, events, n);
      if OneSessionTo(run, n - 1) {
        assert OneSession(run[n - 1]);
        hide OneSession, Careful, Sound, Step, Enabled, OneSessionTo, CarefulTo;
        StepExactly(classify, run[n - 1], events[n - 1]);
      }
    }
  }
}
