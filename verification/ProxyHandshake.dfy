/**
 Who writes first: on a reconnected socket the handshake does, a call waits exactly while the proxy is disconnected,
 and one made while the handshake is unanswered does not wait for the replay.
 */
module ProxyHandshake {
  import opened ProxyModel
  import opened ProxySockets
  import opened Wrappers

  // ----- the handshake comes first

  /** The first frame written on a socket. */
  ghost function FirstOn(written: seq<Written>, k: nat): Option<Purpose> {
    if written == [] then None
    else if written[0].socket == k then Some(written[0].purpose)
    else FirstOn(written[1..], k)
  }

  lemma {:induction false} FirstOnAppend(written: seq<Written>, w: Written, k: nat)
    ensures FirstOn(written + [w], k) ==
            if FirstOn(written, k).Some? then FirstOn(written, k) else if w.socket == k then Some(w.purpose) else None
  {
    if written != [] {
      FirstOnAppend(written[1..], w, k);
      assert (written + [w])[1..] == written[1..] + [w];
    }
  }

  ghost predicate HandshakeFirst(s: State) {
    && (s.socket.Some? ==> s.socket.value < s.net.nextSocket)
    && (forall k :: s.net.nextSocket <= k ==> FirstOn(s.r.written, k).None?)
    && (forall k :: k in s.log.reopened ==> k < s.net.nextSocket)
    && (s.hasClientType ==> forall k :: k in s.log.reopened ==> FirstOn(s.r.written, k) == Some(HandshakeConnect))
  }

  lemma WrittenFirst(s: State, t: State, w: Written)
    requires HandshakeFirst(s) && t.r.written == s.r.written + [w] && s.socket == Some(w.socket)
    requires t.socket == s.socket && t.net == s.net && t.log.reopened == s.log.reopened &&
             t.hasClientType == s.hasClientType
    ensures HandshakeFirst(t)
  {
    forall k
      ensures FirstOn(s.r.written, k).Some? ==> FirstOn(t.r.written, k) == FirstOn(s.r.written, k)
      ensures s.net.nextSocket <= k ==> FirstOn(t.r.written, k).None?
    {
      FirstOnAppend(s.r.written, w, k);
    }
  }

  lemma OpenOkHandshakeFirst(s: State)
    requires HandshakeFirst(s)
    ensures HandshakeFirst(DoOpenOk(s))
  {
    var t, k := Opened(s), s.net.nextSocket;
    if s.hasClientType {
      var w := Written(k, s.r.nextId, HandshakeConnect, |s.r.answers|);
      assert DoOpenOk(s).r.written == s.r.written + [w];
      forall j
        ensures FirstOn(s.r.written, j).Some? ==> FirstOn(DoOpenOk(s).r.written, j) == FirstOn(s.r.written, j)
        ensures k < j ==> FirstOn(DoOpenOk(s).r.written, j).None?
      {
        FirstOnAppend(s.r.written, w, j);
      }
      FirstOnAppend(s.r.written, w, k);
    } else {
      assert HandshakeFirst(t);
      if ReplaySelection(t).r.written != t.r.written {
        WrittenFirst(t, ReplaySelection(t), Written(k, t.r.nextId, HandshakeUse(t.currentAgent.value), |t.r.answers|));
      }
    }
  }

  lemma RawCallFirst(s: State, t: State, p: Purpose)
    requires HandshakeFirst(s) && t.r.written == RawCall(s.r, s.socket, p).written
    requires t.socket == s.socket && t.net == s.net && t.log.reopened == s.log.reopened &&
             t.hasClientType == s.hasClientType
    ensures HandshakeFirst(t)
  {
    if s.socket.Some? {
      WrittenFirst(s, t, Written(s.socket.value, s.r.nextId, p, |s.r.answers|));
    }
  }

  lemma CallHandshakeFirst(s: State, request: Request)
    requires HandshakeFirst(s)
    ensures HandshakeFirst(DoCall(s, request))
  {
    hide FirstOn, DoCall;
    CallOutcomes(s, request);
    var t := DoCall(s, request);
    if t.r.written != s.r.written {
      WrittenFirst(s, t, Written(s.socket.value, s.r.nextId, Tool(s.r.nextCall, request), |s.r.answers|));
    }
  }

  lemma StepHandshakeFirst(classify: Classifier, s: State, e: Event)
    requires HandshakeFirst(s) && Enabled(s, e)
    ensures HandshakeFirst(Step(classify, s, e))
  {
    hide HandshakeFirst, DoCall, DoOpenOk, RunTask, DoDial;
    match e
    case Dial => DialHandshakeFirst(s);
    case OpenOk => OpenOkHandshakeFirst(s);
    case Call(request) => CallHandshakeFirst(s, request);
    case Microtask => TaskHandshakeFirst(s);
    case _ =>
      OtherEventsWriteless(classify, s, e);
      hide Step;
      WritelessFirst(s, Step(classify, s, e));
  }

  lemma DialHandshakeFirst(s: State)
    requires HandshakeFirst(s)
    ensures HandshakeFirst(DoDial(s))
  {
    hide FirstOn;
  }

  lemma WritelessFirst(s: State, t: State)
    requires HandshakeFirst(s) && Writeless(s, t)
    ensures HandshakeFirst(t)
  {
    hide FirstOn;
  }

  ghost predicate SameWrites(s: State, t: State) {
    && t.r.written == s.r.written && t.net.nextSocket == s.net.nextSocket && t.log.reopened == s.log.reopened
    && t.socket == s.socket && t.hasClientType == s.hasClientType
  }

  lemma SameWritesFirst(s: State, t: State)
    requires HandshakeFirst(s) && SameWrites(s, t)
    ensures HandshakeFirst(t)
  {
    hide FirstOn;
  }

  lemma OtherTasksWriteNothing(s: State, task: Task)
    requires task.Wake? ==> !task.connected
    requires !(task.Resume? && task.purpose.HandshakeConnect?)
    ensures SameWrites(s, RunTask(s, task))
  {
    TaskQuiet(s, task);
    hide Wakes, Delay, RawCall, AgentAfter;
    match task
    case Resume(_, _) =>
    case Wake(_, _) =>
    case ReplayDone =>
    case ReplayFailed =>
  }

  lemma TaskHandshakeFirst(s: State)
    requires HandshakeFirst(s) && s.r.tasks != []
    ensures HandshakeFirst(RunTask(Dequeued(s), s.r.tasks[0]))
  {
    var d, task := Dequeued(s), s.r.tasks[0];
    SameWritesFirst(s, d);
    hide HandshakeFirst, RawCall, FirstOn;
    match task
    case Resume(HandshakeConnect, _) => ReplaySelectionFirst(d);
    case Wake(w, true) => RawCallFirst(d, DoWake(d, w, true), Tool(w.call, w.request));
    case _ =>
      OtherTasksWriteNothing(d, task);
      SameWritesFirst(d, RunTask(d, task));
  }

  lemma ReplaySelectionFirst(s: State)
    requires HandshakeFirst(s)
    ensures HandshakeFirst(ReplaySelection(s))
  {
    hide HandshakeFirst, RawCall, FirstOn;
    if s.currentAgent.Some? && s.currentAgent.value != "" {
      RawCallFirst(s, ReplaySelection(s), HandshakeUse(s.currentAgent.value));
    } else {
      SameWritesFirst(s, ReplaySelection(s));
    }
  }

  /** On every socket a reconnect opened, `ipc.connect` is the first frame when a client type is set. */
  lemma {:induction false} ConnectIsFirstFrame(classify: Classifier, run: seq<State>, events: seq<Event>, n: nat)
    requires IsRun(classify, run, events) && n < |run|
    ensures HandshakeFirst(run[n])
  {
    if n > 0 {
      ConnectIsFirstFrame(classify, run, events, n - 1);
      StepHandshakeFirst(classify, run[n - 1], events[n - 1]);
    }
  }

  // ----- calls

  /**
   In every run, a valid call on an open proxy is held if and only if the proxy is disconnected when it is made. Any
   other is written at once; while a reconnect is still replaying the session, that is on a socket whose replay is not
   over.
   */
  lemma HeldExactlyWhileDisconnected(classify: Classifier, run: seq<State>, events: seq<Event>, i: nat,
      request: Request)
    requires IsRun(classify, run, events) && i < |events| && events[i] == Call(request)
    requires request.verb != "" && !run[i].closedByUs
    ensures var s, t, c := run[i], run[i + 1], run[i].r.nextCall;
            (!s.connected <==> t.r.waiters == s.r.waiters + [Waiter(c, request)]) &&
            (!s.connected <==> t.r.written == s.r.written) &&
            (s.connected ==>
               s.socket.Some? && (Replaying(s) ==> s.socket.value !in s.log.replayed) &&
               t.r.written == s.r.written + [Written(s.socket.value, s.r.nextId, Tool(c, request), |s.r.answers|)])
  {
    var s, t := run[i], run[i + 1];
    RunNumbered(classify, run, events, i);
    assert t == DoCall(s, request);
    assert s.r.waiters != s.r.waiters + [Waiter(s.r.nextCall, request)];
    if s.connected {
      var w := Written(s.socket.value, s.r.nextId, Tool(s.r.nextCall, request), |s.r.answers|);
      assert t.r.written == s.r.written + [w] && s.r.written + [w] != s.r.written;
    }
  }
}
