/**
 What is read: in every run the lines are those of the stream received since a reconnect last attached a socket; and
 that stream is one socket's exactly as long as no second one is open.
 */
module ProxyStream {
  import opened LineBuffer
  import opened ProxyModel
  import opened ProxySockets
  import opened Wrappers

  // ----- lines

  ghost function Texts(chunks: seq<Chunk>): seq<string> {
    seq(|chunks|, i requires 0 <= i < |chunks| => chunks[i].text)
  }

  /** All that was received since a reconnect last attached a socket. */
  ghost function Stream(s: State): string {
    Flatten(Texts(s.log.chunks))
  }

  /** Since a reconnect last attached a socket, the lines dispatched are those of the whole stream. */
  ghost predicate LinesOfStream(s: State) {
    && '\n' !in s.buffer
    && (!s.log.overflowed ==> s.log.lines == Lines(Stream(s)) && s.buffer == Rest(Stream(s)))
  }

  lemma DataLines(classify: Classifier, s: State, chunk: Chunk)
    requires LinesOfStream(s)
    ensures LinesOfStream(DoData(classify, s, chunk))
  {
    var before := Stream(s);
    StreamGrows(classify, s, chunk);
    SplitConcat(before, chunk.text);
    DataRead(classify, s, chunk);
    hide Lines, Stream, DoData, Rest;
    assert '\n' !in Rest(s.buffer + chunk.text);
  }

  lemma StreamGrows(classify: Classifier, s: State, chunk: Chunk)
    ensures Stream(DoData(classify, s, chunk)) == Stream(s) + chunk.text
  {
    assert DoData(classify, s, chunk).log.chunks == s.log.chunks + [chunk] by {
      hide DispatchAll, Lines, Rest;
    }
    FlattenAppend(Texts(s.log.chunks), chunk.text);
    hide DoData, Flatten;
    assert Texts(s.log.chunks + [chunk]) == Texts(s.log.chunks) + [chunk.text];
  }

  lemma DataRead(classify: Classifier, s: State, chunk: Chunk)
    ensures var t, text := DoData(classify, s, chunk), s.buffer + chunk.text;
            t.log.overflowed || (t.log.lines == s.log.lines + Lines(text) && t.log.overflowed == s.log.overflowed)
    ensures var t, text := DoData(classify, s, chunk), s.buffer + chunk.text;
            (t.buffer == Rest(text) || (t.log.overflowed && t.buffer == ""))
  {
    hide DispatchAll, Lines, Rest;
  }

  lemma FlattenAppend(chunks: seq<string>, chunk: string)
    ensures Flatten(chunks + [chunk]) == Flatten(chunks) + chunk
  {
    assert (chunks + [chunk])[..|chunks|] == chunks;
  }

  ghost predicate SameStream(s: State, t: State) {
    && t.buffer == s.buffer && t.log.chunks == s.log.chunks && t.log.lines == s.log.lines
    && t.log.overflowed == s.log.overflowed
  }

  lemma ScheduleKeepsStream(s: State, k: nat)
    ensures SameStream(s, DoSocketClosed(s, k)) && SameStream(s, DoOpenFail(s)) && SameStream(s, DoDialFail(s, k))
  {
    hide Delay, FailPending;
  }

  lemma TimeoutsKeepStream(s: State, x: nat)
    ensures SameStream(s, DoHandshakeTimeout(s, x)) && SameStream(s, DoWaiterTimeout(s, x)) &&
            SameStream(s, DoCloseProxy(s))
  {
    hide Settle, GiveUpWaiting, ReleaseWaiters, IndexOfId, IndexOfCall;
  }

  /** Events other than data and reopening leave the stream alone. */
  lemma OtherEventsKeepStream(classify: Classifier, s: State, e: Event)
    requires Enabled(s, e) && !e.Data? && !e.OpenOk?
    ensures SameStream(s, Step(classify, s, e))
  {
    hide DoCall, RunTask, DoOpenOk, DoData, DoSocketClosed, DoOpenFail, DoDialFail, DoHandshakeTimeout, DoWaiterTimeout,
      DoCloseProxy, IndexOfId, IndexOfCall;
    match e
    case Call(request) => CallOutcomes(s, request);
    case Microtask => TaskQuiet(Dequeued(s), s.r.tasks[0]);
    case SocketClosed(k) => ScheduleKeepsStream(s, k);
    case OpenFail => ScheduleKeepsStream(s, 0);
    case DialFail(k) => ScheduleKeepsStream(s, k);
    case HandshakeTimeout(id) => TimeoutsKeepStream(s, id);
    case WaiterTimeout(c) => TimeoutsKeepStream(s, c);
    case CloseProxy => TimeoutsKeepStream(s, 0);
    case _ =>
  }

  lemma StepLines(classify: Classifier, s: State, e: Event)
    requires LinesOfStream(s) && Enabled(s, e)
    ensures LinesOfStream(Step(classify, s, e))
  {
    match e
    case Data(chunk) => DataLines(classify, s, chunk);
    case OpenOk =>
      EmptyStream();
      hide Lines, Rest, Flatten;
    case _ =>
      OtherEventsKeepStream(classify, s, e);
      hide Step, Lines, Rest, Flatten;
  }

  /**
   At every moment of every run: the lines dispatched since a reconnect last attached a socket are the lines of the
   concatenation of its chunks, and the buffer is what follows the last newline.
   */
  lemma {:induction false} LinesIndependentOfChunks(classify: Classifier, run: seq<State>, events: seq<Event>, n: nat)
    requires IsRun(classify, run, events) && n < |run|
    ensures LinesOfStream(run[n])
  {
    if n > 0 {
      LinesIndependentOfChunks(classify, run, events, n - 1);
      StepLines(classify, run[n - 1], events[n - 1]);
    } else {
      EmptyStream();
    }
  }

  lemma EmptyStream()
    ensures Lines(Flatten([])) == [] && Rest(Flatten([])) == ""
  {
  }

  // ----- whose stream it is

  /** What was received since a reconnect last attached a socket came from the socket now in use. */
  ghost predicate FromSession(s: State) {
    forall i :: 0 <= i < |s.log.chunks| ==> s.log.session == Some(s.log.chunks[i].socket)
  }

  /** No connection is open but that of the socket in use. */
  ghost predicate NoSecondSocket(s: State) {
    forall k: nat :: s.net.Open(k) ==> s.log.session == Some(k)
  }

  lemma OtherEventsKeepSource(classify: Classifier, s: State, e: Event)
    requires Enabled(s, e) && !e.Data? && !e.Dial?
    ensures var t := Step(classify, s, e);
            t.log.chunks == [] || (t.log.chunks == s.log.chunks && t.log.session == s.log.session)
  {
    hide DoCall, RunTask, IndexOfId, IndexOfCall, RawCall, Delay, FailPending, ReleaseWaiters, Settle, GiveUpWaiting;
    match e
    case Call(request) => CallOutcomes(s, request);
    case Microtask => TaskQuiet(Dequeued(s), s.r.tasks[0]);
    case _ =>
  }

  lemma DataSource(classify: Classifier, s: State, chunk: Chunk)
    requires FromSession(s)
    ensures FromSession(DoData(classify, s, chunk)) <==> s.log.session == Some(chunk.socket)
  {
    var t := DoData(classify, s, chunk);
    assert t.log.chunks == s.log.chunks + [chunk] && t.log.session == s.log.session by {
      hide DispatchAll, Lines, Rest;
    }
    hide DoData;
    assert t.log.chunks[|s.log.chunks|] == chunk;
  }

  /**
   A `connect` keeps the stream one socket's exactly if nothing was received; other events do exactly if no second one
   is open.
   */
  lemma SourceKeptExactly(classify: Classifier, s: State)
    requires FromSession(s) && s.r.tasks == [] && NetworkBelow(s.net) &&
             (s.log.session.Some? ==> s.log.session.value < s.net.nextSocket)
    ensures FromSession(DoDial(s)) <==> s.log.chunks == []
    ensures (forall e :: Enabled(s, e) && !e.Dial? ==> FromSession(Step(classify, s, e))) <==> NoSecondSocket(s)
  {
    hide Step, DoData;
    if s.log.chunks != [] {
      assert DoDial(s).log.chunks[0] == s.log.chunks[0];
    }
    if NoSecondSocket(s) {
      forall e | Enabled(s, e) && !e.Dial?
        ensures FromSession(Step(classify, s, e))
      {
        KeepsSource(classify, s, e);
      }
    } else {
      var k: nat :| s.net.Open(k) && s.log.session != Some(k);
      var e := Data(Chunk(k, ""));
      DataSource(classify, s, e.chunk);
      DataIsDoData(classify, s, e.chunk);
      assert Enabled(s, e) && !FromSession(Step(classify, s, e));
    }
  }

  lemma DataIsDoData(classify: Classifier, s: State, chunk: Chunk)
    requires Enabled(s, Data(chunk))
    ensures Step(classify, s, Data(chunk)) == DoData(classify, s, chunk)
  {
  }

  lemma KeepsSource(classify: Classifier, s: State, e: Event)
    requires FromSession(s) && Enabled(s, e) && NoSecondSocket(s) && (e.Dial? ==> s.log.chunks == [])
    ensures FromSession(Step(classify, s, e))
  {
    if e.Data? {
      DataSource(classify, s, e.chunk);
      DataIsDoData(classify, s, e.chunk);
    } else if !e.Dial? {
      OtherEventsKeepSource(classify, s, e);
      hide Step;
    }
  }

  /**
   In every run: while no second connection is open and no `connect` follows what was received, the stream is one
   socket's.
   */
  lemma {:induction false} StreamOfOneSocket(classify: Classifier, run: seq<State>, events: seq<Event>, n: nat)
    requires IsRun(classify, run, events) && n < |run|
    requires forall i :: 0 <= i < n ==> NoSecondSocket(run[i]) && (events[i].Dial? ==> run[i].log.chunks == [])
    ensures FromSession(run[n])
  {
    if n > 0 {
      StreamOfOneSocket(classify, run, events, n - 1);
      hide FromSession, NoSecondSocket, Step, Enabled;
      KeepsSource(classify, run[n - 1], events[n - 1]);
    }
  }

  // ----- one socket at a time

  /**
   A socket is made only when none is left; and by `connect` only until a connection first succeeds, on an open proxy.
   */
  ghost predicate OneAtATime(s: State, e: Event) {
    && (e.Dial? || e.OpenOk? ==> s.net.live == {})
    && (e.Dial? ==> !s.everConnected && !s.closedByUs)
  }

  ghost predicate IsSingleRun(classify: Classifier, run: seq<State>, events: seq<Event>) {
    IsRun(classify, run, events) && forall i :: 0 <= i < |events| ==> OneAtATime(run[i], events[i])
  }

  /** The socket in use is the only one there is, and the only one there was anything from. */
  ghost predicate OnlySocket(s: State) {
    && (forall k :: k in s.net.live ==> s.log.session == Some(k))
    && s.net.dialing <= s.net.live && (s.everConnected ==> s.net.dialing == {})
    && (!s.everConnected ==> s.log.chunks == [] && s.net.live <= s.net.dialing + s.net.refused)
    && FromSession(s)
  }

  lemma StepOnlySocket(classify: Classifier, s: State, e: Event)
    requires OnlySocket(s) && Enabled(s, e) && OneAtATime(s, e)
    ensures OnlySocket(Step(classify, s, e))
  {
    if e.Data? {
      DataSource(classify, s, e.chunk);
      DataSame(classify, s, e.chunk);
      hide DoData, FromSession;
    } else {
      OtherEventsKeepSocket(classify, s, e);
      hide Step;
    }
  }

  lemma OtherEventsKeepSocket(classify: Classifier, s: State, e: Event)
    requires OnlySocket(s) && Enabled(s, e) && OneAtATime(s, e) && !e.Data?
    ensures OnlySocket(Step(classify, s, e))
  {
    if e.OpenOk? {
      OpenOkFields(s);
      hide DoOpenOk;
    } else if e.Dial? || e.DialOk? || e.DialFail? || e.SocketClosed? {
      hide Delay, FailPending;
    } else {
      QuietEvents(classify, s, e);
      hide Step;
    }
  }

  lemma OpenOkFields(s: State)
    ensures var t, u := DoOpenOk(s), Opened(s); t.net == u.net && t.log == u.log && t.everConnected == u.everConnected
  {
    hide RawCall;
  }

  /** Of the sockets these events change nothing. */
  lemma QuietEvents(classify: Classifier, s: State, e: Event)
    requires Enabled(s, e)
    requires !e.Data? && !e.OpenOk? && !e.Dial? && !e.DialOk? && !e.DialFail? && !e.SocketClosed?
    ensures var t := Step(classify, s, e);
            t.log.chunks == s.log.chunks && t.log.session == s.log.session && t.everConnected == s.everConnected &&
            t.net.live == s.net.live && t.net.dialing == s.net.dialing && t.net.refused == s.net.refused
  {
    hide DoCall, RunTask, IndexOfId, IndexOfCall, Delay, ReleaseWaiters, Settle, GiveUpWaiting;
    match e
    case Call(request) => CallOutcomes(s, request);
    case Microtask => TaskQuiet(Dequeued(s), s.r.tasks[0]);
    case _ =>
  }

  /** With one socket at a time, all that was received since a reconnect came from the one socket there is. */
  lemma {:induction false} RunOnlySocket(classify: Classifier, run: seq<State>, events: seq<Event>, n: nat)
    requires IsSingleRun(classify, run, events) && n < |run|
    ensures OnlySocket(run[n])
  {
    if n > 0 {
      RunOnlySocket(classify, run, events, n - 1);
      hide OnlySocket, Step, Enabled, OneAtATime;
      StepOnlySocket(classify, run[n - 1], events[n - 1]);
    }
  }
}
