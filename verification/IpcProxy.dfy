/**
 The proxy object itself: its fields, and one method for each thing that happens to it. Every method is proved
 to take the step `ProxyModel` gives, so what holds over every run there holds of this object.

 Sockets, the clock and the callers are outside the object: `net`, `log` and the frames written are ghost fields,
 and `tasks` is the queue of promise continuations.
 */
module IpcProxy {
  import opened LineBuffer
  import opened ProxyModel
  import opened Wrappers

  class Proxy {
    const hasClientType: bool
    var socket: Option<nat>
    var closedByUs: bool
    var connected: bool
    var everConnected: bool
    var buffer: string
    var timer: bool
    var attempt: nat
    var reconnecting: bool
    var currentAgent: Option<string>

    var nextId: nat
    var pending: seq<Pending>
    var waiters: seq<Waiter>
    var nextCall: nat
    var tasks: seq<Task>

    ghost var written: seq<Written>
    ghost var settled: seq<Settled>
    ghost var answers: seq<Answer>
    ghost var net: Network
    ghost var log: History

    ghost function Books(): Requests
      reads this
    {
      Requests(nextId, nextCall, pending, waiters, tasks, written, settled, answers)
    }

    ghost function View(): State
      reads this
    {
      State(hasClientType, socket, closedByUs, connected, everConnected, buffer, timer, attempt, reconnecting,
          currentAgent,
            Books(), net, log)
    }

    constructor (hasClientType: bool)
      ensures View() == Init(hasClientType)
    {
      this.hasClientType := hasClientType;
      socket, closedByUs, connected, everConnected := None, false, false, false;
      buffer, timer, attempt, reconnecting, currentAgent := "", false, 0, false, None;
      nextId, pending, waiters, nextCall, tasks := 1, [], [], 0, [];
      written, settled, answers := [], [], [];
      net := Network(0, {}, {}, {}, false, 0);
      log := History([], [], [], false, [], {}, {}, {}, None, {});
    }

    /** The environment's side of a step. */
    ghost method Record(net: Network, log: History)
      modifies `net, `log
      ensures this.net == net && this.log == log
    {
      this.net, this.log := net, log;
    }

    // ----- the pending map and the waiter queue

    method RawCall(purpose: Purpose)
      modifies `nextId, `pending, `tasks, `written, `settled
      ensures Books() == ProxyModel.RawCall(old(Books()), socket, purpose)
    {
      var id := nextId;
      nextId := nextId + 1;
      match socket
      case Some(k) =>
        pending := pending + [Pending(id, purpose, k)];
        written := written + [Written(k, id, purpose, |answers|)];
      case None =>
        // The write throws, and the entry just made is deleted again.
        Resolve(ProxyModel.Settled(id, purpose, None, Unsent), RECONNECTING);
    }

    /** A request's promise gets its outcome; what awaits it runs later. */
    method Resolve(x: Settled, outcome: Outcome)
      modifies `tasks, `settled
      ensures tasks == old(tasks) + [Resume(x.purpose, outcome)] && settled == old(settled) + [x]
    {
      settled := settled + [x];
      tasks := tasks + [Resume(x.purpose, outcome)];
    }

    method Settle(i: nat, outcome: Outcome, end: End)
      requires i < |pending|
      modifies `pending, `tasks, `settled
      ensures Books() == ProxyModel.Settle(old(Books()), i, outcome, end)
    {
      var p := pending[i];
      pending := Without(pending, i);
      Resolve(Ended(p, end), outcome);
    }

    method FailPending()
      modifies `pending, `tasks, `settled
      ensures Books() == ProxyModel.FailPending(old(Books()))
    {
      var i := 0;
      while i < |pending|
        invariant 0 <= i <= |pending| && pending == old(pending)
        invariant tasks + Failures(pending[i..]) == old(tasks) + Failures(pending)
        invariant settled + Drops(pending[i..]) == old(settled) + Drops(pending)
      {
        assert pending[i..][0] == pending[i] && pending[i..][1..] == pending[i + 1..];
        Resolve(Ended(pending[i], End.Dropped), RECONNECTING);
        i := i + 1;
      }
      pending := [];
    }

    method ReleaseWaiters()
      modifies `waiters, `tasks
      ensures Books() == ProxyModel.ReleaseWaiters(old(Books())) && waiters == []
    {
      var released := waiters;
      waiters := [];
      var i := 0;
      while i < |released|
        invariant 0 <= i <= |released| && waiters == []
        invariant tasks + Wakes(released[i..]) == old(tasks) + Wakes(released)
      {
        assert released[i..][0] == released[i] && released[i..][1..] == released[i + 1..];
        tasks := tasks + [Wake(released[i], true)];
        i := i + 1;
      }
    }

    // ----- callers

    /** `call`, up to its first `await`. */
    method Call(request: Request)
      modifies `nextCall, `nextId, `pending, `waiters, `tasks, `written, `settled, `answers, `net, `log
      ensures View() == DoCall(old(View()), request)
      ensures old(closedByUs || !connected) ==> written == old(written)
    {
      hide ProxyModel.RawCall, Answered, Await;
      var c := nextCall;
      nextCall := nextCall + 1;
      if request.verb == "" {
        Answer(c, request, INVALID_METHOD);
      } else if closedByUs {
        Answer(c, request, CONNECTION_LOST);
      } else {
        Send(c, request);
      }
    }

    /** A valid call on an open proxy is written, or held while the proxy is disconnected. */
    method Send(c: nat, request: Request)
      modifies `nextId, `pending, `waiters, `tasks, `written, `settled, `net, `log
      ensures !old(connected) ==> written == old(written)
      ensures old(connected) ==> View() == old(View()).(r := ProxyModel.RawCall(old(Books()), socket, Tool(c, request)))
      ensures !old(connected) ==>
                View() == old(View()).(r := Await(old(Books()), c, request),
                    log := old(log).(queued := old(log).queued + {c}))
    {
      hide ProxyModel.RawCall, Await;
      if !connected {
        WaitForConnection(c, request);
      } else {
        RawCall(Tool(c, request));
      }
    }

    method WaitForConnection(c: nat, request: Request)
      modifies `waiters, `net, `log
      ensures View() == old(View()).(r := Await(old(Books()), c, request),
              log := old(log).(queued := old(log).queued + {c}))
    {
      waiters := waiters + [Waiter(c, request)];
      Record(net, log.(queued := log.queued + {c}));
    }

    method Answer(c: nat, request: Request, outcome: Outcome)
      modifies `answers
      ensures Books() == Answered(old(Books()), c, request, outcome)
    {
      answers := answers + [ProxyModel.Answer(c, request, outcome)];
    }

    /** `call`, from the answer to the frame on: the selection is cached or cleared. */
    method FinishCall(c: nat, request: Request, outcome: Outcome)
      modifies `currentAgent, `answers
      ensures View() == AnswerCall(old(View()), c, request, outcome)
      ensures IsUse(request) && Selects(outcome) ==> currentAgent == request.name
      ensures request.verb == "cello_stop_using_agent" && Succeeds(outcome) ==> currentAgent.None?
      ensures request.verb == "cello_set_agent_offline" && Succeeds(outcome) ==>
              currentAgent.None? || currentAgent != request.name
      ensures !Selects(outcome) ==> currentAgent == old(currentAgent)
    {
      if request.verb == "cello_use_agent" && request.name.Some? {
        if outcome.Object? && (outcome.ok || outcome.reason == "agent_already_current") {
          currentAgent := request.name;
        }
      }
      if outcome.Object? && outcome.ok {
        if request.verb == "cello_stop_using_agent" {
          currentAgent := None;
        } else if request.verb == "cello_set_agent_offline" && request.name.Some? && request.name == currentAgent {
          currentAgent := None;
        }
      }
      Answer(c, request, outcome);
    }

    /** `call`, from the end of its wait on. */
    method FinishWait(w: Waiter, ok: bool)
      modifies this
      ensures View() == DoWake(old(View()), w, ok)
    {
      if ok {
        RawCall(Tool(w.call, w.request));
      } else {
        Answer(w.call, w.request, RECONNECTING);
      }
    }

    method WaiterTimeout(c: nat)
      modifies `waiters, `tasks
      ensures View() == DoWaiterTimeout(old(View()), c)
    {
      var i := IndexOfCall(waiters, c);
      if i != -1 {
        tasks := tasks + [Wake(waiters[i], false)];
        waiters := Without(waiters, i);
      }
    }

    // ----- connecting

    method Dial(k: nat)
      requires k == net.nextSocket
      modifies `socket, `net, `log
      ensures View() == DoDial(old(View()))
    {
      socket := Some(k);
      Record(NetworkDialed(net), log.(session := Some(k)));
    }

    method DialOk(k: nat)
      modifies `connected, `everConnected, `attempt, `net, `log
      ensures View() == DoDialOk(old(View()), k)
    {
      connected, everConnected, attempt := true, true, 0;
      Record(net.(dialing := net.dialing - {k}), log);
    }

    method DialFail(k: nat)
      modifies this
      ensures View() == DoDialFail(old(View()), k)
    {
      Record(NetworkRefused(net, k), Disturbed(View(), FailedDial(k)));
      connected := false;
      FailPending();
    }

    method SocketClosed(k: nat)
      modifies this
      ensures View() == DoSocketClosed(old(View()), k)
      ensures !connected && pending == [] && written == old(written)
      ensures closedByUs || !everConnected ==> timer == old(timer)
    {
      Lose(k);
      if !closedByUs && everConnected {
        ScheduleReconnect();
      }
    }

    method Lose(k: nat)
      modifies this
      ensures View() == Dropping(old(View()), k)
    {
      Record(net.(live := net.live - {k}), Disturbed(View(), Drop(k)));
      connected := false;
      FailPending();
    }

    method ScheduleReconnect()
      modifies `timer, `attempt, `net, `log
      ensures View() == ProxyModel.ScheduleReconnect(old(View()))
    {
      if closedByUs || timer || reconnecting {
        return;
      }
      var delay := RECONNECT_BASE_DELAY_MS * TwoTo(attempt);
      if delay > RECONNECT_MAX_DELAY_MS {
        delay := RECONNECT_MAX_DELAY_MS;
      }
      attempt := attempt + 1;
      timer := true;
      Record(net.(armedTimers := net.armedTimers + 1), log.(delays := log.delays + [delay]));
    }

    /** The reconnect timer fires: an attempt begins by opening a socket. */
    method TimerFires()
      requires net.armedTimers > 0
      modifies `timer, `reconnecting, `net, `log
      ensures View() == DoTimerFires(old(View()))
    {
      timer := false;
      Record(net.(armedTimers := net.armedTimers - 1), log);
      if closedByUs || reconnecting {
        return;
      }
      reconnecting := true;
      Record(net.(opening := true), log);
    }

    /** The attempt, from the open socket to the first handshake frame. */
    method OpenOk(k: nat)
      requires k == net.nextSocket
      modifies this
      ensures View() == DoOpenOk(old(View()))
    {
      Attach(k);
      hide Opened, ProxyModel.RawCall, ProxyModel.ReplaySelection;
      if hasClientType {
        RawCall(HandshakeConnect);
      } else {
        ReplaySelection();
      }
    }

    method Attach(k: nat)
      requires k == net.nextSocket
      modifies `socket, `buffer, `connected, `everConnected, `net, `log
      ensures View() == Opened(old(View()))
    {
      socket, buffer, connected, everConnected := Some(k), "", true, true;
      Record(NetworkOpened(net), HistoryOpened(log, k));
    }

    method OpenFail()
      modifies this
      ensures View() == DoOpenFail(old(View()))
    {
      Record(net.(opening := false), log);
      AttemptFailed();
    }

    method AttemptFailed()
      modifies this
      ensures View() == ProxyModel.AttemptFailed(old(View()))
    {
      connected, reconnecting := false, false;
      ScheduleReconnect();
    }

    method ReplaySelection()
      modifies `nextId, `pending, `tasks, `written, `settled
      ensures View() == ProxyModel.ReplaySelection(old(View()))
    {
      if currentAgent.Some? && currentAgent.value != "" {
        RawCall(HandshakeUse(currentAgent.value));
      } else {
        tasks := tasks + [ReplayDone];
      }
    }

    /** The replayed selection is answered: the cache keeps the agent only if the daemon gave it back. */
    method FinishReplayedUse(outcome: Outcome)
      modifies `currentAgent, `tasks
      ensures View() == AfterReplayedUse(old(View()), outcome)
      ensures currentAgent.Some? ==> currentAgent == old(currentAgent) && (Selects(outcome) || outcome.Undefined?)
    {
      if outcome.Undefined? {
        tasks := tasks + [ReplayFailed];
        return;
      }
      var restored := !outcome.NullValue? && (outcome.ok || outcome.reason == "agent_already_current");
      if !restored {
        currentAgent := None;
      }
      tasks := tasks + [ReplayDone];
    }

    /** The attempt has succeeded: whoever waited is released. */
    method FinishReplay()
      modifies `attempt, `waiters, `tasks, `reconnecting, `net, `log
      ensures View() == ProxyModel.FinishReplay(old(View()))
      ensures waiters == [] && !reconnecting && written == old(written)
    {
      hide ProxyModel.ReleaseWaiters;
      attempt := 0;
      ReleaseWaiters();
      reconnecting := false;
      Record(net, ReplayOver(log));
    }

    method HandshakeTimeout(id: nat)
      modifies `pending, `tasks, `settled
      ensures View() == DoHandshakeTimeout(old(View()), id)
    {
      var i := IndexOfId(pending, id);
      if i != -1 {
        Settle(i, RECONNECTING, TimedOut);
      }
    }

    method Close()
      modifies this
      ensures View() == DoCloseProxy(old(View()))
      ensures closedByUs && !connected && !timer && socket.None? && waiters == []
    {
      hide ProxyModel.ReleaseWaiters, TimerCleared;
      StopReconnecting();
      ReleaseWaiters();
      socket := None;
    }

    method StopReconnecting()
      modifies this
      ensures View() == old(View()).(closedByUs := true, connected := false, timer := false,
                                     net := TimerCleared(old(net), old(timer)), log := Disturbed(old(View()), Closing))
    {
      Record(TimerCleared(net, timer), Disturbed(View(), Closing));
      closedByUs, connected := true, false;
      if timer {
        timer := false;
      }
    }

    /** The first continuation in the queue runs. */
    method RunContinuation()
      requires tasks != []
      modifies this
      ensures View() == RunTask(Dequeued(old(View())), old(tasks)[0])
    {
      var task := tasks[0];
      tasks := tasks[1..];
      match task
      case Resume(Tool(c, request), outcome) => FinishCall(c, request, outcome);
      case Resume(HandshakeConnect, _) => ReplaySelection();
      case Resume(HandshakeUse(_), outcome) => FinishReplayedUse(outcome);
      case Wake(w, ok) => FinishWait(w, ok);
      case ReplayDone => FinishReplay();
      case ReplayFailed => AttemptFailed();
    }

    // ----- the daemon's stream

    ghost function ReadSoFar(): Inbox
      reads this
    {
      Inbox(Books(), log.granted)
    }

    /** One line of the stream. */
    method Receive(incoming: Incoming)
      modifies `pending, `tasks, `settled, `log, `net
      ensures ReadSoFar() == Dispatch(old(ReadSoFar()), incoming) && log == old(log).(granted := log.granted) &&
              net == old(net)
    {
      match incoming
      case Blank =>
      case Notification(_) =>
      case Malformed =>
        if pending != [] {
          Settle(0, DESERIALIZATION_ERROR, Replied);
        }
      case Reply(None, _) =>
      case Reply(Some(id), outcome) =>
        var i := IndexOfId(pending, id);
        if i != -1 {
          Record(net, log.(granted := log.granted + Grant(pending[i], outcome)));
          Settle(i, outcome, Replied);
        }
    }

    /** A chunk arrives: complete lines are taken off the buffer one by one. */
    method Data(classify: Classifier, chunk: Chunk)
      modifies `buffer, `pending, `tasks, `settled, `log, `net
      ensures View() == DoData(classify, old(View()), chunk)
      ensures '\n' !in buffer && |buffer| <= MAX_BUFFER_SIZE
    {
      hide Lines, Rest, DispatchAll;
      buffer := buffer + chunk.text;
      if |buffer| > MAX_BUFFER_SIZE {
        buffer := "";
        Record(net, log.(chunks := log.chunks + [chunk], overflowed := true));
        return;
      }
      Record(net, log.(chunks := log.chunks + [chunk], lines := log.lines + Lines(buffer)));
      ProcessBuffer(classify);
    }

    method ProcessBuffer(classify: Classifier)
      modifies `buffer, `pending, `tasks, `settled, `log, `net
      ensures ReadSoFar() == DispatchAll(classify, old(ReadSoFar()), Lines(old(buffer)))
      ensures buffer == Rest(old(buffer)) && log == old(log).(granted := log.granted) && net == old(net)
    {
      hide Dispatch;
      var newline := NewlineIndex(buffer);
      while newline != -1
        invariant newline == NewlineIndex(buffer)
        invariant DispatchAll(classify, ReadSoFar(), Lines(buffer)) ==
                  DispatchAll(classify, old(ReadSoFar()), Lines(old(buffer)))
        invariant Rest(buffer) == Rest(old(buffer)) && log == old(log).(granted := log.granted) && net == old(net)
        decreases |buffer|
      {
        var line := buffer[..newline];
        buffer := buffer[newline + 1..];
        Receive(classify(line));
        newline := NewlineIndex(buffer);
      }
    }

    // ----- all together

    /** Whatever happens next, the object takes the step of the state machine; `k` is the next socket to be created. */
    method Handle(classify: Classifier, e: Event, k: nat)
      requires Enabled(View(), e) && k == net.nextSocket
      modifies this
      ensures View() == Step(classify, old(View()), e)
    {
      hide DoDial, DoDialOk, DoDialFail, DoData, DoSocketClosed, DoTimerFires, DoOpenOk, DoOpenFail, DoHandshakeTimeout,
        DoWaiterTimeout, DoCall, DoCloseProxy, RunTask, IndexOfId, IndexOfCall;
      match e
      case Dial => Dial(k);
      case DialOk(socket) => DialOk(socket);
      case DialFail(socket) => DialFail(socket);
      case Data(chunk) => Data(classify, chunk);
      case SocketClosed(socket) => SocketClosed(socket);
      case TimerFires => TimerFires();
      case OpenOk => OpenOk(k);
      case OpenFail => OpenFail();
      case HandshakeTimeout(id) => HandshakeTimeout(id);
      case WaiterTimeout(c) => WaiterTimeout(c);
      case Call(request) => Call(request);
      case CloseProxy => Close();
      case Microtask => RunContinuation();
    }
  }
}
