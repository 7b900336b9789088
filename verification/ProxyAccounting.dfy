/**
 Conservation in the proxy, over every run: each request id is pending or settled, once; each call is in one
 place, and its frame is written at most once.
 */
module ProxyAccounting {
  import opened LineBuffer
  import opened ProxyModel
  import opened Wrappers

  // ----- totals over sequences

  ghost function Total<T>(f: T -> multiset<nat>, xs: seq<T>): multiset<nat> {
    if xs == [] then multiset{} else f(xs[0]) + Total(f, xs[1..])
  }

  lemma {:induction false} TotalConcat<T>(f: T -> multiset<nat>, xs: seq<T>, ys: seq<T>, c: nat)
    ensures Total(f, xs + ys)[c] == Total(f, xs)[c] + Total(f, ys)[c]
  {
    if xs == [] {
      assert xs + ys == ys;
    } else {
      TotalConcat(f, xs[1..], ys, c);
      assert (xs + ys)[1..] == xs[1..] + ys;
    }
  }

  lemma TotalAppend<T>(f: T -> multiset<nat>, xs: seq<T>, x: T, c: nat)
    ensures Total(f, xs + [x])[c] == Total(f, xs)[c] + f(x)[c]
  {
    TotalConcat(f, xs, [x], c);
    assert Total(f, [x]) == f(x) + Total(f, [x][1..]);
  }

  lemma {:induction false} TotalSplit<T>(f: T -> multiset<nat>, xs: seq<T>, i: nat, c: nat)
    requires i < |xs|
    ensures Total(f, xs)[c] == Total(f, Without(xs, i))[c] + f(xs[i])[c]
  {
    if i > 0 {
      TotalSplit(f, xs[1..], i - 1, c);
      assert Without(xs, i)[1..] == Without(xs[1..], i - 1);
    }
  }

  /** Two entries that both hold `c` make the total hold it twice. */
  lemma {:induction false} TotalTwice<T>(f: T -> multiset<nat>, xs: seq<T>, i: nat, j: nat, c: nat)
    requires i < j < |xs| && c in f(xs[i]) && c in f(xs[j])
    ensures Total(f, xs)[c] >= 2
  {
    if i == 0 {
      TotalHolds(f, xs[1..], j - 1, c);
    } else {
      TotalTwice(f, xs[1..], i - 1, j - 1, c);
    }
  }

  lemma {:induction false} TotalHolds<T>(f: T -> multiset<nat>, xs: seq<T>, i: nat, c: nat)
    requires i < |xs| && c in f(xs[i])
    ensures Total(f, xs)[c] >= 1
  {
    if i > 0 {
      TotalHolds(f, xs[1..], i - 1, c);
    }
  }

  lemma {:induction false} TotalHeld<T>(f: T -> multiset<nat>, xs: seq<T>, c: nat) returns (i: nat)
    requires Total(f, xs)[c] >= 1
    ensures i < |xs| && c in f(xs[i])
  {
    if c in f(xs[0]) {
      i := 0;
    } else {
      i := TotalHeld(f, xs[1..], c);
      i := i + 1;
    }
  }

  // ----- what is counted

  ghost function CallOf(p: Purpose): multiset<nat> {
    if p.Tool? then multiset{p.call} else multiset{}
  }

  ghost function PendingCall(p: Pending): multiset<nat> { CallOf(p.purpose) }
  ghost function PendingId(p: Pending): multiset<nat> { multiset{p.id} }
  ghost function WaiterCall(w: Waiter): multiset<nat> { multiset{w.call} }
  ghost function WrittenCall(w: Written): multiset<nat> { CallOf(w.purpose) }
  ghost function AnswerCallOf(a: Answer): multiset<nat> { multiset{a.call} }
  ghost function SettledId(x: Settled): multiset<nat> { multiset{x.id} }

  ghost function TaskCall(t: Task): multiset<nat> {
    match t
    case Resume(purpose, _) => CallOf(purpose)
    case Wake(w, _) => multiset{w.call}
    case _ => multiset{}
  }

  ghost function WakeCall(t: Task): multiset<nat> {
    if t.Wake? then multiset{t.waiter.call} else multiset{}
  }

  /** How often call `c` is waiting for a connection, awaited by a continuation, in flight, or answered. */
  ghost function CallsIn(r: Requests, c: nat): nat {
    Total(WaiterCall, r.waiters)[c] + Total(TaskCall, r.tasks)[c] + Total(PendingCall, r.pending)[c] +
        Total(AnswerCallOf, r.answers)[c]
  }

  /** How often id `c` is pending or settled. */
  ghost function IdsIn(r: Requests, c: nat): nat {
    Total(PendingId, r.pending)[c] + Total(SettledId, r.settled)[c]
  }

  /** How often a frame of call `c` is still to be written, or was written. */
  ghost function UnsentAndSent(r: Requests, c: nat): nat {
    Total(WaiterCall, r.waiters)[c] + Total(WakeCall, r.tasks)[c] + Total(WrittenCall, r.written)[c]
  }

  ghost function Once(holds: bool): nat {
    if holds then 1 else 0
  }

  ghost predicate Balanced(r: Requests, c: nat) {
    BalancedBut(r, c, 0, 0)
  }

  /** Balanced, were it not for `calls` and `unsent` taken out of the books. */
  ghost predicate BalancedBut(r: Requests, c: nat, calls: nat, unsent: nat) {
    && CallsIn(r, c) + calls == Once(c < r.nextCall)
    && IdsIn(r, c) == Once(1 <= c < r.nextId) && r.nextId > 0
    && UnsentAndSent(r, c) + unsent <= Once(c < r.nextCall)
  }

  // ----- what the operations move

  lemma RawCallMoves(r: Requests, socket: Option<nat>, p: Purpose, c: nat)
    requires BalancedBut(r, c, CallOf(p)[c], CallOf(p)[c])
    ensures Balanced(RawCall(r, socket, p), c)
  {
    match socket
    case None => RefusedWriteMoves(r, p, c);
    case Some(k) => WriteMoves(r, k, p, c);
  }

  lemma RefusedWriteMoves(r: Requests, p: Purpose, c: nat)
    requires BalancedBut(r, c, CallOf(p)[c], CallOf(p)[c])
    ensures Balanced(RawCall(r, None, p), c)
  {
    hide Total;
    TotalAppend(TaskCall, r.tasks, Resume(p, RECONNECTING), c);
    TotalAppend(WakeCall, r.tasks, Resume(p, RECONNECTING), c);
    TotalAppend(SettledId, r.settled, Settled(r.nextId, p, None, Unsent), c);
  }

  lemma WriteMoves(r: Requests, k: nat, p: Purpose, c: nat)
    requires BalancedBut(r, c, CallOf(p)[c], CallOf(p)[c])
    ensures Balanced(RawCall(r, Some(k), p), c)
  {
    hide Total;
    var t := RawCall(r, Some(k), p);
    assert Total(PendingCall, t.pending)[c] == Total(PendingCall, r.pending)[c] + CallOf(p)[c] by {
      TotalAppend(PendingCall, r.pending, Pending(r.nextId, p, k), c);
    }
    assert Total(PendingId, t.pending)[c] == Total(PendingId, r.pending)[c] + Once(c == r.nextId) by {
      TotalAppend(PendingId, r.pending, Pending(r.nextId, p, k), c);
    }
    assert Total(WrittenCall, t.written)[c] == Total(WrittenCall, r.written)[c] + CallOf(p)[c] by {
      TotalAppend(WrittenCall, r.written, Written(k, r.nextId, p, |r.answers|), c);
    }
  }

  lemma SettleMoves(r: Requests, i: nat, outcome: Outcome, end: End, c: nat)
    requires i < |r.pending| && Balanced(r, c)
    ensures Balanced(Settle(r, i, outcome, end), c)
  {
    hide Total;
    var p := r.pending[i];
    TotalSplit(PendingCall, r.pending, i, c);
    TotalSplit(PendingId, r.pending, i, c);
    TotalAppend(TaskCall, r.tasks, Resume(p.purpose, outcome), c);
    TotalAppend(WakeCall, r.tasks, Resume(p.purpose, outcome), c);
    TotalAppend(SettledId, r.settled, Ended(p, end), c);
  }

  lemma {:induction false} FailuresTotals(pending: seq<Pending>, c: nat)
    ensures Total(TaskCall, Failures(pending))[c] == Total(PendingCall, pending)[c]
    ensures Total(WakeCall, Failures(pending))[c] == 0
  {
    if pending != [] {
      FailuresTotals(pending[1..], c);
      assert Failures(pending)[1..] == Failures(pending[1..]);
    }
  }

  lemma {:induction false} DropsTotals(pending: seq<Pending>, c: nat)
    ensures Total(SettledId, Drops(pending))[c] == Total(PendingId, pending)[c]
  {
    if pending != [] {
      DropsTotals(pending[1..], c);
      assert Drops(pending)[1..] == Drops(pending[1..]);
    }
  }

  lemma FailPendingMoves(r: Requests, c: nat)
    requires Balanced(r, c)
    ensures Balanced(FailPending(r), c)
  {
    FailuresTotals(r.pending, c);
    DropsTotals(r.pending, c);
    TotalConcat(TaskCall, r.tasks, Failures(r.pending), c);
    TotalConcat(WakeCall, r.tasks, Failures(r.pending), c);
    TotalConcat(SettledId, r.settled, Drops(r.pending), c);
  }

  lemma {:induction false} WakesTotals(waiters: seq<Waiter>, c: nat)
    ensures Total(TaskCall, Wakes(waiters))[c] == Total(WaiterCall, waiters)[c] == Total(WakeCall, Wakes(waiters))[c]
  {
    if waiters != [] {
      WakesTotals(waiters[1..], c);
      assert Wakes(waiters)[1..] == Wakes(waiters[1..]);
    }
  }

  lemma ReleaseWaitersMoves(r: Requests, c: nat)
    requires Balanced(r, c)
    ensures Balanced(ReleaseWaiters(r), c)
  {
    WakesTotals(r.waiters, c);
    TotalConcat(TaskCall, r.tasks, Wakes(r.waiters), c);
    TotalConcat(WakeCall, r.tasks, Wakes(r.waiters), c);
  }

  lemma GiveUpMoves(r: Requests, i: nat, c: nat)
    requires i < |r.waiters| && Balanced(r, c)
    ensures Balanced(GiveUpWaiting(r, i), c)
  {
    hide Total;
    var w := r.waiters[i];
    TotalSplit(WaiterCall, r.waiters, i, c);
    TotalAppend(TaskCall, r.tasks, Wake(w, false), c);
    TotalAppend(WakeCall, r.tasks, Wake(w, false), c);
  }

  lemma ContinueMoves(r: Requests, t: Task, c: nat)
    requires Balanced(r, c) && (t.ReplayDone? || t.ReplayFailed?)
    ensures Balanced(Continue(r, t), c)
  {
    hide Total;
    TotalAppend(TaskCall, r.tasks, t, c);
    TotalAppend(WakeCall, r.tasks, t, c);
  }

  lemma AnsweredMoves(r: Requests, call: nat, request: Request, outcome: Outcome, c: nat)
    requires BalancedBut(r, c, Once(c == call), 0)
    ensures Balanced(Answered(r, call, request, outcome), c)
  {
    hide Total;
    TotalAppend(AnswerCallOf, r.answers, Answer(call, request, outcome), c);
  }

  /** A new call comes onto the books. */
  lemma NewCall(r: Requests, c: nat)
    requires Balanced(r, c)
    ensures BalancedBut(r.(nextCall := r.nextCall + 1), c, Once(c == r.nextCall), Once(c == r.nextCall))
  {
    hide Total;
  }

  lemma AwaitMoves(r: Requests, call: nat, request: Request, c: nat)
    requires BalancedBut(r, c, Once(c == call), Once(c == call))
    ensures Balanced(Await(r, call, request), c)
  {
    hide Total;
    TotalAppend(WaiterCall, r.waiters, Waiter(call, request), c);
  }

  lemma CallMoves(s: State, request: Request, c: nat)
    requires Balanced(s.r, c)
    ensures Balanced(DoCall(s, request).r, c)
  {
    hide Total;
    var call, r := s.r.nextCall, s.r.(nextCall := s.r.nextCall + 1);
    NewCall(s.r, c);
    forall outcome
      ensures Balanced(Answered(r, call, request, outcome), c)
    {
      AnsweredMoves(r, call, request, outcome, c);
    }
    AwaitMoves(r, call, request, c);
    RawCallMoves(r, s.socket, Tool(call, request), c);
    CallOutcomes(s, request);
  }

  lemma ReplaySelectionMoves(s: State, c: nat)
    requires Balanced(s.r, c)
    ensures Balanced(ReplaySelection(s).r, c)
  {
    hide Total;
    if s.currentAgent.Some? && s.currentAgent.value != "" {
      RawCallMoves(s.r, s.socket, HandshakeUse(s.currentAgent.value), c);
    } else {
      ContinueMoves(s.r, ReplayDone, c);
    }
  }

  lemma OpenOkMoves(s: State, c: nat)
    requires Balanced(s.r, c)
    ensures Balanced(DoOpenOk(s).r, c)
  {
    hide Total;
    var t := Opened(s);
    if t.hasClientType {
      RawCallMoves(t.r, t.socket, HandshakeConnect, c);
    } else {
      ReplaySelectionMoves(t, c);
    }
  }

  lemma {:induction false} DispatchAllMoves(classify: Classifier, b: Inbox, lines: seq<string>, c: nat)
    requires Balanced(b.r, c)
    ensures Balanced(DispatchAll(classify, b, lines).r, c)
    decreases |lines|
  {
    hide Total;
    if lines != [] {
      DispatchMoves(b, classify(lines[0]), c);
      DispatchAllMoves(classify, Dispatch(b, classify(lines[0])), lines[1..], c);
    }
  }

  lemma DispatchMoves(b: Inbox, incoming: Incoming, c: nat)
    requires Balanced(b.r, c)
    ensures Balanced(Dispatch(b, incoming).r, c)
  {
    hide Total;
    if incoming.Malformed? && b.r.pending != [] {
      SettleMoves(b.r, 0, DESERIALIZATION_ERROR, Replied, c);
    } else if incoming.Reply? && incoming.id.Some? {
      var i := IndexOfId(b.r.pending, incoming.id.value);
      if i >= 0 {
        SettleMoves(b.r, i, incoming.outcome, Replied, c);
      }
    }
  }

  lemma DequeueMoves(s: State, c: nat)
    requires Balanced(s.r, c) && s.r.tasks != []
    ensures BalancedBut(Dequeued(s).r, c, TaskCall(s.r.tasks[0])[c], WakeCall(s.r.tasks[0])[c])
  {
  }

  lemma RunTaskMoves(s: State, task: Task, c: nat)
    requires BalancedBut(s.r, c, TaskCall(task)[c], WakeCall(task)[c])
    ensures Balanced(RunTask(s, task).r, c)
  {
    match task
    case Resume(Tool(call, request), outcome) => AnsweredMoves(s.r, call, request, outcome, c);
    case Resume(HandshakeConnect, _) => ReplaySelectionMoves(s, c);
    case Resume(HandshakeUse(_), outcome) => ReplayedUseMoves(s, outcome, c);
    case Wake(w, connected) => WakeMoves(s, w, connected, c);
    case ReplayDone => ReleaseWaitersMoves(s.r, c);
    case ReplayFailed =>
  }

  lemma ReplayedUseMoves(s: State, outcome: Outcome, c: nat)
    requires Balanced(s.r, c)
    ensures Balanced(AfterReplayedUse(s, outcome).r, c)
  {
    if outcome.Undefined? {
      ContinueMoves(s.r, ReplayFailed, c);
    } else {
      ContinueMoves(s.r, ReplayDone, c);
    }
  }

  lemma WakeMoves(s: State, w: Waiter, connected: bool, c: nat)
    requires BalancedBut(s.r, c, Once(c == w.call), Once(c == w.call))
    ensures Balanced(DoWake(s, w, connected).r, c)
  {
    hide Total;
    if connected {
      RawCallMoves(s.r, s.socket, Tool(w.call, w.request), c);
    } else {
      AnsweredMoves(s.r, w.call, w.request, RECONNECTING, c);
    }
  }

  lemma StepBalanced(classify: Classifier, s: State, e: Event, c: nat)
    requires Balanced(s.r, c) && Enabled(s, e)
    ensures Balanced(Step(classify, s, e).r, c)
  {
    hide Total, Lines, Rest, DispatchAll, Settle, GiveUpWaiting, FailPending, ReleaseWaiters, IndexOfId, IndexOfCall,
      Delay, RunTask, DoCall, DoOpenOk, TimerCleared;
    match e
    case Dial =>
    case DialOk(_) =>
    case DialFail(_) => FailPendingMoves(s.r, c);
    case Data(chunk) => DispatchAllMoves(classify, Inbox(s.r, s.log.granted), Lines(s.buffer + chunk.text), c);
    case SocketClosed(_) => FailPendingMoves(s.r, c);
    case TimerFires =>
    case OpenOk => OpenOkMoves(s, c);
    case OpenFail =>
    case HandshakeTimeout(id) => SettleMoves(s.r, IndexOfId(s.r.pending, id), RECONNECTING, TimedOut, c);
    case WaiterTimeout(call) => GiveUpMoves(s.r, IndexOfCall(s.r.waiters, call), c);
    case Call(request) => CallMoves(s, request, c);
    case CloseProxy => ReleaseWaitersMoves(s.r, c);
    case Microtask =>
      DequeueMoves(s, c);
      RunTaskMoves(Dequeued(s), s.r.tasks[0], c);
  }

  lemma {:induction false} RunBalanced(classify: Classifier, run: seq<State>, events: seq<Event>, i: nat, c: nat)
    requires IsRun(classify, run, events) && i < |run|
    ensures Balanced(run[i].r, c)
  {
    if i > 0 {
      RunBalanced(classify, run, events, i - 1, c);
      StepBalanced(classify, run[i - 1], events[i - 1], c);
    }
  }

  // ----- the properties

  /** No call's frame is written twice, on whatever sockets. */
  lemma EachCallWrittenOnce(classify: Classifier, run: seq<State>, events: seq<Event>, n: nat, i: nat, j: nat)
    requires IsRun(classify, run, events) && n < |run|
    requires i < j < |run[n].r.written| && run[n].r.written[i].purpose.Tool? && run[n].r.written[j].purpose.Tool?
    ensures run[n].r.written[i].purpose.call != run[n].r.written[j].purpose.call
  {
    var c := run[n].r.written[i].purpose.call;
    RunBalanced(classify, run, events, n, c);
    if c == run[n].r.written[j].purpose.call {
      TotalTwice(WrittenCall, run[n].r.written, i, j, c);
    }
  }

  /** No call is answered twice, and a call that has been answered is neither in flight nor waiting. */
  lemma EachCallAnsweredOnce(classify: Classifier, run: seq<State>, events: seq<Event>, n: nat, i: nat)
    requires IsRun(classify, run, events) && n < |run| && i < |run[n].r.answers|
    ensures var s, c := run[n], run[n].r.answers[i].call;
            (forall j :: i < j < |s.r.answers| ==> s.r.answers[j].call != c) &&
            (forall j :: 0 <= j < |s.r.pending| && s.r.pending[j].purpose.Tool? ==> s.r.pending[j].purpose.call != c) &&
            (forall j :: 0 <= j < |s.r.waiters| ==> s.r.waiters[j].call != c)
  {
    var s, c := run[n], run[n].r.answers[i].call;
    RunBalanced(classify, run, events, n, c);
    TotalHolds(AnswerCallOf, s.r.answers, i, c);
    forall j | i < j < |s.r.answers| && s.r.answers[j].call == c
      ensures false
    {
      TotalTwice(AnswerCallOf, s.r.answers, i, j, c);
    }
    forall j | 0 <= j < |s.r.pending| && s.r.pending[j].purpose.Tool? && s.r.pending[j].purpose.call == c
      ensures false
    {
      TotalHolds(PendingCall, s.r.pending, j, c);
    }
    forall j | 0 <= j < |s.r.waiters| && s.r.waiters[j].call == c
      ensures false
    {
      TotalHolds(WaiterCall, s.r.waiters, j, c);
    }
  }

  /** The pending map is exactly the ids issued and not yet settled. */
  lemma PendingIsIssuedMinusSettled(classify: Classifier, run: seq<State>, events: seq<Event>, n: nat, id: nat)
    requires IsRun(classify, run, events) && n < |run|
    ensures (exists i :: 0 <= i < |run[n].r.pending| && run[n].r.pending[i].id == id) <==>
            1 <= id < run[n].r.nextId && forall j :: 0 <= j < |run[n].r.settled| ==> run[n].r.settled[j].id != id
  {
    var s := run[n];
    RunBalanced(classify, run, events, n, id);
    if j :| 0 <= j < |s.r.settled| && s.r.settled[j].id == id {
      TotalHolds(SettledId, s.r.settled, j, id);
      forall i | 0 <= i < |s.r.pending| && s.r.pending[i].id == id
        ensures false
      {
        TotalHolds(PendingId, s.r.pending, i, id);
      }
    } else {
      if Total(SettledId, s.r.settled)[id] >= 1 {
        var j := TotalHeld(SettledId, s.r.settled, id);
      }
      if Total(PendingId, s.r.pending)[id] >= 1 {
        var i := TotalHeld(PendingId, s.r.pending, id);
      }
      forall i | 0 <= i < |s.r.pending| && s.r.pending[i].id == id
        ensures 1 <= id < s.r.nextId
      {
        TotalHolds(PendingId, s.r.pending, i, id);
      }
    }
  }

  /** No id is settled twice. */
  lemma EachIdSettledOnce(classify: Classifier, run: seq<State>, events: seq<Event>, n: nat, i: nat, j: nat)
    requires IsRun(classify, run, events) && n < |run| && i < j < |run[n].r.settled|
    ensures run[n].r.settled[i].id != run[n].r.settled[j].id
  {
    var id := run[n].r.settled[i].id;
    RunBalanced(classify, run, events, n, id);
    if id == run[n].r.settled[j].id {
      TotalTwice(SettledId, run[n].r.settled, i, j, id);
    }
  }

  /** A result from the daemon settles the request with its id, with that result, and nothing else. */
  lemma ReplySettlesItsOwnRequest(b: Inbox, id: nat, outcome: Outcome)
    ensures var r, i := Dispatch(b, Reply(Some(id), outcome)).r, IndexOfId(b.r.pending, id);
            if i == -1 then
              r == b.r && forall j :: 0 <= j < |b.r.pending| ==> b.r.pending[j].id != id
            else
              b.r.pending[i].id == id && r.pending == Without(b.r.pending, i) &&
              r.settled == b.r.settled + [Ended(b.r.pending[i], Replied)] &&
                  r.tasks == b.r.tasks + [Resume(b.r.pending[i].purpose, outcome)] &&
              r.answers == b.r.answers && r.written == b.r.written && r.waiters == b.r.waiters
  {
  }

  /** Notifications and blank lines change nothing. */
  lemma {:induction false} NotificationsTouchNothing(classify: Classifier, b: Inbox, lines: seq<string>)
    requires forall i :: 0 <= i < |lines| ==> classify(lines[i]).Notification? || classify(lines[i]).Blank?
    ensures DispatchAll(classify, b, lines) == b
    decreases |lines|
  {
    if lines != [] {
      assert classify(lines[0]).Notification? || classify(lines[0]).Blank?;
      NotificationsTouchNothing(classify, b, lines[1..]);
    }
  }
}
