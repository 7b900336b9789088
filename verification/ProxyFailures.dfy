/**
 Runs that show where the proxy's promises end: each is a state some run reaches.
 */
module ProxyFailures {
  import opened LineBuffer
  import opened ProxyModel
  import opened ProxyReconnect
  import opened ProxyReplay
  import opened ProxyRestored
  import opened ProxySockets
  import opened ProxyUnanswered
  import opened Wrappers

  // ----- to a reconnect's open handshake

  lemma Connected(classify: Classifier) returns (s: State)
    ensures Reachable(classify, s) && s == DoDialOk(DoDial(Init(true)), 0)
    ensures s.connected && s.everConnected && s.socket == Some(0) && s.r == Init(true).r && s.currentAgent.None?
    ensures s.net == Network(1, {0}, {}, {}, false, 0) && s.log == Init(true).log.(session := Some(0))
  {
    hide Reachable;
    ReachableInit(classify, true);
    ReachableStep(classify, Init(true), Dial);
    ReachableStep(classify, DoDial(Init(true)), DialOk(0));
    s := DoDialOk(DoDial(Init(true)), 0);
    assert {0} - {0} == {};
  }

  lemma DroppedOnce(classify: Classifier) returns (s: State)
    ensures Reachable(classify, s) && s.hasClientType && s.timer && s.everConnected && !s.connected && !s.closedByUs
    ensures !s.reconnecting && s.currentAgent.None? && s.r == Init(true).r && s.net == Network(1, {}, {}, {}, false, 1)
    ensures s.log == Init(true).log.(session := Some(0), delays := s.log.delays)
  {
    hide Reachable;
    var u := Connected(classify);
    ReachableStep(classify, u, SocketClosed(0));
    s := DoSocketClosed(u, 0);
    assert {0} - {0} == {};
    assert FailPending(Init(true).r) == Init(true).r;
  }

  /** Dropped, and a call waiting. */
  lemma DroppedWaiting(classify: Classifier, request: Request) returns (s: State)
    requires request.verb != ""
    ensures Reachable(classify, s) && s.hasClientType && s.timer && s.everConnected && !s.connected && !s.closedByUs
    ensures !s.reconnecting && s.currentAgent.None? && s.net == Network(1, {}, {}, {}, false, 1)
    ensures s.r == Init(true).r.(nextCall := 1, waiters := [Waiter(0, request)])
    ensures s.log == Init(true).log.(session := Some(0), delays := s.log.delays, queued := {0})
  {
    hide Reachable;
    var u := DroppedOnce(classify);
    ReachableStep(classify, u, Call(request));
    s := DoCall(u, request);
  }

  /** A reconnect has attached its socket and sent the first handshake frame. */
  lemma Reopened(classify: Classifier, s: State) returns (t: State)
    requires Reachable(classify, s) && s.hasClientType && s.timer && s.everConnected && !s.closedByUs && !s.reconnecting
    requires s.net == Network(1, {}, {}, {}, false, 1) && s.currentAgent.None? && s.r.nextId == 1
    requires s.r.tasks == [] && s.r.pending == [] && s.log.reopened == []
    ensures Reachable(classify, t) && t.socket == Some(1) && t.connected && t.everConnected && Replaying(t)
    ensures !t.timer && !t.closedByUs && t.buffer == "" && t.currentAgent.None? &&
            t.net == Network(2, {1}, {}, {}, false, 0)
    ensures t.r == s.r.(nextId := 2, pending := [Pending(1, HandshakeConnect, 1)],
                        written := s.r.written + [Written(1, 1, HandshakeConnect, |s.r.answers|)])
    ensures t.log == s.log.(reopened := [1], session := Some(1), chunks := [], lines := [], overflowed := false)
  {
    hide Reachable;
    ReachableStep(classify, s, TimerFires);
    ReachableStep(classify, DoTimerFires(s), OpenOk);
    t := DoOpenOk(DoTimerFires(s));
  }

  /** The handshake of a reconnect comes to its end, nobody having an agent to replay. */
  lemma ReplayEnds(classify: Classifier, s: State) returns (t: State)
    requires Reachable(classify, s) && s.r.tasks == [Resume(HandshakeConnect, RECONNECTING)] && s.currentAgent.None?
    requires s.log.reopened == [1]
    ensures Reachable(classify, t) && t == s.(attempt := 0, reconnecting := false, r := t.r, log := t.log)
    ensures t.r == s.r.(tasks := Wakes(s.r.waiters), waiters := []) && t.log == s.log.(replayed := s.log.replayed + {1})
  {
    hide Reachable;
    ReachableStep(classify, s, Microtask);
    var v := RunTask(Dequeued(s), s.r.tasks[0]);
    assert v.r.tasks == [ReplayDone];
    ReachableStep(classify, v, Microtask);
    t := RunTask(Dequeued(v), v.r.tasks[0]);
    assert [] + Wakes(s.r.waiters) == Wakes(s.r.waiters);
  }

  // ----- the socket drops before the handshake is answered

  lemma DroppedReplaying(classify: Classifier, s: State) returns (t: State)
    requires Reachable(classify, s) && Replaying(s) && s.everConnected && !s.closedByUs && s.r.tasks == []
    requires s.r.pending == [Pending(1, HandshakeConnect, 1)] && s.net == Network(2, {1}, {}, {}, false, 0)
    requires s.log.reopened == [1]
    ensures Reachable(classify, t) && t == s.(connected := false, net := t.net, r := t.r, log := t.log)
    ensures t.net == s.net.(live := {}) && t.log == s.log.(disturbed := s.log.disturbed + {(1, Drop(1))})
    ensures t.r == s.r.(pending := [], settled := t.r.settled, tasks := [Resume(HandshakeConnect, RECONNECTING)])
    ensures t.r.settled == s.r.settled + [Settled(1, HandshakeConnect, Some(1), Dropped)]
  {
    hide Reachable;
    ReachableStep(classify, s, SocketClosed(1));
    t := DoSocketClosed(s, 1);
    assert s.r.pending[1..] == [] && {1} - {1} == {};
    assert Failures(s.r.pending) == [Resume(HandshakeConnect, RECONNECTING)];
    assert Drops(s.r.pending) == [Settled(1, HandshakeConnect, Some(1), Dropped)];
  }

  /** Dropped, reconnected, and dropped again before the handshake is answered: recovery has ended. */
  lemma RecoveryCanEnd(classify: Classifier)
    ensures exists s :: Reachable(classify, s) && !Recovering(s) && Stranded(s)
  {
    hide Reachable;
    var s3 := DroppedOnce(classify);
    var s5 := Reopened(classify, s3);
    var s6 := DroppedReplaying(classify, s5);
    var s8 := ReplayEnds(classify, s6);
    assert Reachable(classify, s8) && !Recovering(s8) && Stranded(s8);
  }

  /** Of the same drop a call that waited learns nothing: it is written on the socket that is gone. */
  lemma WaitingCallCanBeLost(classify: Classifier, request: Request)
    requires request.verb != ""
    ensures exists s, w ::
              Reachable(classify, s) && w in s.r.written && w.purpose == Tool(0, request) && 0 in s.log.queued &&
              !Replayed(s, w.socket) && Unanswered(s, w)
  {
    hide Reachable;
    var s4 := DroppedWaiting(classify, request);
    var s6 := Reopened(classify, s4);
    var s7 := DroppedReplaying(classify, s6);
    var s9 := ReplayEnds(classify, s7);
    assert Wakes([Waiter(0, request)]) == [Wake(Waiter(0, request), true)];
    ReachableStep(classify, s9, Microtask);
    var t := RunTask(Dequeued(s9), s9.r.tasks[0]);
    var w := t.r.written[1];
    assert t.r.pending[0].purpose == w.purpose == Tool(0, request) && w.socket == 1;
    assert Spoils(t.r.settled[0], 1);
    assert Reachable(classify, t) && w in t.r.written && !Replayed(t, w.socket) && Unanswered(t, w);
  }

  /** While the handshake is unanswered, a call is written on a socket whose replay is not over. */
  lemma CallsInTheWindowAreNotHeld(classify: Classifier, request: Request)
    requires request.verb != ""
    ensures exists s, w ::
              Reachable(classify, s) && Replaying(s) && w in s.r.written && w.purpose == Tool(0, request) &&
              w.socket !in s.log.replayed
  {
    hide Reachable;
    var s3 := DroppedOnce(classify);
    var s5 := Reopened(classify, s3);
    ReachableStep(classify, s5, Call(request));
    var t := DoCall(s5, request);
    var w := t.r.written[1];
    assert Reachable(classify, t) && Replaying(t) && w in t.r.written && w.purpose == Tool(0, request) &&
        w.socket !in t.log.replayed;
  }

  // ----- `connect` is called again

  /**
   A repeated `connect` that fails takes the open connection out of use. The close of the refused socket then brings one
   back, on another socket, with the first still open beside it.
   */
  lemma FailedConnectReconnects(classify: Classifier)
    ensures exists s, t ::
              Reachable(classify, s) && !s.connected && s.net.Open(0) && s.net.refused == {1} &&
              Reachable(classify, t) && t.connected && t.socket == Some(2) && t.net.Open(0) && t.net.Open(2)
  {
    hide Reachable;
    var s0 := Connected(classify);
    ReachableStep(classify, s0, Dial);
    var s1 := DoDial(s0);
    ReachableStep(classify, s1, DialFail(1));
    var s2 := DoDialFail(s1, 1);
    assert Failures(s1.r.pending) == [];
    ReachableStep(classify, s2, SocketClosed(1));
    var s3 := DoSocketClosed(s2, 1);
    assert Failures(s2.r.pending) == [];
    ReachableStep(classify, s3, TimerFires);
    var s4 := DoTimerFires(s3);
    ReachableStep(classify, s4, OpenOk);
    var s5 := DoOpenOk(s4);
    assert Reachable(classify, s2) && !s2.connected && s2.net.Open(0) && s2.net.refused == {1};
    assert Reachable(classify, s5) && s5.connected && s5.socket == Some(2) && s5.net.Open(0) && s5.net.Open(2);
  }

  /** A request sent before `connect` was called again is on a socket no more in use. */
  lemma RequestLeftOnOldSocket(classify: Classifier, request: Request)
    requires request.verb != ""
    ensures exists s :: Reachable(classify, s) && !PendingFits(s.r, s.log.session)
  {
    hide Reachable;
    var s := Connected(classify);
    ReachableStep(classify, s, Call(request));
    var t := DoCall(s, request);
    ReachableStep(classify, t, Dial);
    var u := DoDial(t);
    assert u.r.pending[0].socket == 0 && u.log.session == Some(1);
    assert Reachable(classify, u) && !PendingFits(u.r, u.log.session);
  }

  /** A call that waited can go out on the socket of a repeated `connect`, where no replay took place. */
  lemma WaitingCallOnDialedSocket(classify: Classifier, request: Request)
    requires request.verb != ""
    ensures exists s, w ::
              Reachable(classify, s) && w in s.r.written && w.purpose == Tool(0, request) && 0 in s.log.queued &&
              w.socket !in s.log.reopened
  {
    hide Reachable;
    var s4 := DroppedWaiting(classify, request);
    var s6 := Reopened(classify, s4);
    ReachableStep(classify, s6, Dial);
    var s7 := DoDial(s6);
    ReachableStep(classify, s7, HandshakeTimeout(1));
    var s8 := DoHandshakeTimeout(s7, 1);
    assert s8.r.tasks == [Resume(HandshakeConnect, RECONNECTING)];
    var s10 := ReplayEnds(classify, s8);
    assert Wakes([Waiter(0, request)]) == [Wake(Waiter(0, request), true)];
    ReachableStep(classify, s10, Microtask);
    var t := RunTask(Dequeued(s10), s10.r.tasks[0]);
    var w := t.r.written[1];
    assert Reachable(classify, t) && w in t.r.written && w.purpose == Tool(0, request) && w.socket !in t.log.reopened;
  }

  const ACCEPTED := Object(true, "", "")

  lemma OneLine()
    ensures Lines("\n") == [""] && Rest("\n") == ""
  {
    FrontLine("", "");
    assert "" + "\n" + "" == "\n";
  }

  /** A selection sent on the first connection. */
  lemma SelectionSent(classify: Classifier, request: Request) returns (s: State)
    requires IsUse(request)
    ensures Reachable(classify, s) && s.connected && !s.reconnecting && s.buffer == ""
    ensures s.r.pending == [Pending(1, Tool(0, request), 0)] && s.r.tasks == [] && s.log.granted == {} &&
            s.currentAgent.None?
    ensures s.net == Network(1, {0}, {}, {}, false, 0)
  {
    hide Reachable;
    var u := Connected(classify);
    ReachableStep(classify, u, Call(request));
    s := DoCall(u, request);
  }

  /** The daemon's answer. */
  lemma SelectionGranted(classify: Classifier, s: State, request: Request)
    requires classify("") == Reply(Some(1), ACCEPTED)
    requires s.buffer == "" && s.r.pending == [Pending(1, Tool(0, request), 0)] && s.r.tasks == [] && IsUse(request)
    ensures var t := DoData(classify, s, Chunk(0, "\n"));
            t.r.tasks == [Resume(Tool(0, request), ACCEPTED)] &&
                t.log.granted == s.log.granted + {(0, request.name.value)} &&
            t.connected == s.connected && t.reconnecting == s.reconnecting && t.net == s.net
  {
    OneLine();
    assert s.buffer + "\n" == "\n";
    Answered(classify, s, request);
    SettledFirst(s.r);
    DataSame(classify, s, Chunk(0, "\n"));
    hide Lines, Rest, DispatchAll, Settle;
  }

  lemma AnsweredAccepted(s: State, a: string)
    requires s.r.tasks == [Resume(Tool(0, Request("cello_use_agent", Some(a))), ACCEPTED)]
    ensures var t := RunTask(Dequeued(s), s.r.tasks[0]);
            t.currentAgent == Some(a) && t.connected == s.connected && t.reconnecting == s.reconnecting &&
                t.net == s.net &&
            t.log == s.log
  {
  }

  /** It is granted and cached. */
  lemma SelectionCached(classify: Classifier, a: string) returns (s: State)
    requires classify("") == Reply(Some(1), ACCEPTED)
    ensures Reachable(classify, s) && s.connected && !s.reconnecting && s.currentAgent == Some(a)
    ensures s.log.granted == {(0, a)} && s.net.nextSocket == 1
  {
    var request := Request("cello_use_agent", Some(a));
    var u := SelectionSent(classify, request);
    SelectionGranted(classify, u, request);
    var v := ReachData(classify, u, Chunk(0, "\n"));
    AnsweredAccepted(v, a);
    hide Reachable, DoData, RunTask, Dequeued;
    s := ReachTask(classify, v);
  }

  lemma ReachData(classify: Classifier, s: State, chunk: Chunk) returns (t: State)
    requires Reachable(classify, s) && s.r.tasks == [] && s.net.Open(chunk.socket)
    ensures Reachable(classify, t) && t == DoData(classify, s, chunk)
  {
    hide Reachable, DoData;
    ReachableStep(classify, s, Data(chunk));
    t := DoData(classify, s, chunk);
  }

  lemma ReachTask(classify: Classifier, s: State) returns (t: State)
    requires Reachable(classify, s) && s.r.tasks != []
    ensures Reachable(classify, t) && t == RunTask(Dequeued(s), s.r.tasks[0])
  {
    hide Reachable, RunTask;
    ReachableStep(classify, s, Microtask);
    t := RunTask(Dequeued(s), s.r.tasks[0]);
  }

  lemma SettledFirst(r: Requests)
    requires |r.pending| == 1 && r.tasks == []
    ensures Settle(r, 0, ACCEPTED, Replied).tasks == [Resume(r.pending[0].purpose, ACCEPTED)]
  {
  }

  /**
   After `connect` is called again, the cached agent is one the daemon gave to another socket (by an empty line, say).
   */
  lemma CachedAgentOfOldSocket(classify: Classifier, a: string)
    requires classify("") == Reply(Some(1), ACCEPTED)
    ensures exists s :: Reachable(classify, s) && s.connected && !s.reconnecting && s.currentAgent == Some(a) &&
                        !GrantedOn(s.log.session, s.log.granted, a)
  {
    hide Reachable;
    var s := SelectionCached(classify, a);
    ReachableStep(classify, s, Dial);
    var t := DoDial(s);
    assert Reachable(classify, t) && t.currentAgent == Some(a) && !GrantedOn(t.log.session, t.log.granted, a);
  }

  lemma Answered(classify: Classifier, s: State, request: Request)
    requires classify("") == Reply(Some(1), ACCEPTED)
    requires s.r.pending == [Pending(1, Tool(0, request), 0)] && IsUse(request)
    ensures DispatchAll(classify, Inbox(s.r, s.log.granted), [""]) ==
            Inbox(Settle(s.r, 0, ACCEPTED, Replied), s.log.granted + {(0, request.name.value)})
  {
    assert [""][1..] == [];
  }

  /** With two connections open, the streams of both make one line. */
  lemma TwoStreamsMakeOneLine(classify: Classifier, a: string, b: string)
    requires |a| + |b| < MAX_BUFFER_SIZE && '\n' !in a && '\n' !in b
    ensures exists s ::
              Reachable(classify, s) && s.log.chunks == [Chunk(1, a), Chunk(2, b + "\n")] && s.log.lines == [a + b]
  {
    hide Reachable;
    var s3 := DroppedOnce(classify);
    var s5 := Reopened(classify, s3);
    ReachableStep(classify, s5, Dial);
    var s6 := DoDial(s5);
    ReachableStep(classify, s6, DialOk(2));
    var s7 := DoDialOk(s6, 2);
    ReachableStep(classify, s7, Data(Chunk(1, a)));
    var s8 := DoData(classify, s7, Chunk(1, a));
    PartialLine(classify, s7, Chunk(1, a));
    ReachableStep(classify, s8, Data(Chunk(2, b + "\n")));
    var t := DoData(classify, s8, Chunk(2, b + "\n"));
    WholeLine(classify, s8, Chunk(2, b + "\n"), a + b);
    assert Reachable(classify, t);
  }

  lemma PartialLine(classify: Classifier, s: State, chunk: Chunk)
    requires s.buffer == "" && '\n' !in chunk.text && |chunk.text| < MAX_BUFFER_SIZE
    ensures DoData(classify, s, chunk) == s.(buffer := chunk.text, log := s.log.(chunks := s.log.chunks + [chunk]))
  {
    assert s.buffer + chunk.text == chunk.text;
    assert s.log.lines + [] == s.log.lines;
  }

  lemma WholeLine(classify: Classifier, s: State, chunk: Chunk, line: string)
    requires s.buffer + chunk.text == line + "\n" && '\n' !in line && |line| < MAX_BUFFER_SIZE
    ensures DoData(classify, s, chunk).log.chunks == s.log.chunks + [chunk]
    ensures DoData(classify, s, chunk).log.lines == s.log.lines + [line]
  {
    FrontLine(line, "");
    assert line + "\n" + "" == line + "\n";
    hide DispatchAll;
  }
}
