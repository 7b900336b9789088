/**
 The session across reconnects: the cached agent is one a caller was told it has, and queued calls and the
 cached agent wait for the replay.
 */
module ProxySession {
  import opened ProxyModel
  import opened Wrappers

  // ----- the cached agent, over every run

  ghost predicate AnswerSelects(x: Answer, a: string) {
    IsUse(x.request) && x.request.name == Some(a) && Selects(x.outcome)
  }

  /** An answer after which agent `a` no longer stands: another selection, a release, or `a` taken offline. */
  ghost predicate AnswerEnds(x: Answer, a: string) {
    || (IsUse(x.request) && x.request.name != Some(a) && Selects(x.outcome))
    || (x.request.verb == "cello_stop_using_agent" && Succeeds(x.outcome))
    || (x.request.verb == "cello_set_agent_offline" && x.request.name == Some(a) && Succeeds(x.outcome))
  }

  /** Some caller was told `a` is selected, and since then no caller was told anything that ends it. */
  ghost predicate Stands(answers: seq<Answer>, a: string) {
    exists i :: 0 <= i < |answers| && AnswerSelects(answers[i], a) && !AnswerEnds(answers[i], a) &&
                forall j :: i < j < |answers| ==> !AnswerEnds(answers[j], a)
  }

  lemma StandsOn(answers: seq<Answer>, x: Answer, a: string)
    ensures Stands(answers, a) && !AnswerEnds(x, a) ==> Stands(answers + [x], a)
    ensures AnswerSelects(x, a) && !AnswerEnds(x, a) ==> Stands(answers + [x], a)
  {
    hide AnswerSelects, AnswerEnds;
    var all := answers + [x];
    if Stands(answers, a) && !AnswerEnds(x, a) {
      var i :| 0 <= i < |answers| && AnswerSelects(answers[i], a) && !AnswerEnds(answers[i], a) &&
               forall j :: i < j < |answers| ==> !AnswerEnds(answers[j], a);
      assert all[i] == answers[i];
      assert forall j :: i < j < |all| ==> all[j] == if j < |answers| then answers[j] else x;
    }
    if AnswerSelects(x, a) && !AnswerEnds(x, a) {
      assert all[|answers|] == x;
    }
  }

  /** The cache holds only an agent that stands, and every replayed selection stood when it was written. */
  ghost predicate CacheStands(s: State) {
    && (s.currentAgent.Some? ==> Stands(s.r.answers, s.currentAgent.value))
    && forall i :: 0 <= i < |s.r.written| ==> WriteStood(s.r.written[i], s.r.answers)
  }

  ghost predicate WriteStood(w: Written, answers: seq<Answer>) {
    w.answered <= |answers| && (w.purpose.HandshakeUse? ==> Stands(answers[..w.answered], w.purpose.wanted))
  }

  lemma WritesStillStood(written: seq<Written>, answers: seq<Answer>, x: Answer)
    requires forall i :: 0 <= i < |written| ==> WriteStood(written[i], answers)
    ensures forall i :: 0 <= i < |written| ==> WriteStood(written[i], answers + [x])
  {
    hide Stands;
    forall i | 0 <= i < |written|
      ensures WriteStood(written[i], answers + [x])
    {
      assert (answers + [x])[..written[i].answered] == answers[..written[i].answered];
    }
  }

  lemma AnswerCacheStands(s: State, c: nat, request: Request, outcome: Outcome)
    requires CacheStands(s)
    ensures CacheStands(AnswerCall(s, c, request, outcome))
  {
    var x, after := Answer(c, request, outcome), AgentAfter(s.currentAgent, request, outcome);
    WritesStillStood(s.r.written, s.r.answers, x);
    if after.Some? {
      StandsOn(s.r.answers, x, after.value);
      assert !AnswerEnds(x, after.value);
    }
    hide Stands, WriteStood, AgentAfter;
  }

  lemma QuietAnswerCacheStands(s: State, t: State, x: Answer)
    requires CacheStands(s) && t.r.answers == s.r.answers + [x] && t.r.written == s.r.written &&
             t.currentAgent == s.currentAgent
    requires !Selects(x.outcome)
    ensures CacheStands(t)
  {
    WritesStillStood(s.r.written, s.r.answers, x);
    if s.currentAgent.Some? {
      StandsOn(s.r.answers, x, s.currentAgent.value);
    }
    hide Stands, WriteStood;
  }

  lemma RawCallCacheStands(s: State, t: State, p: Purpose)
    requires CacheStands(s) && t.r.answers == s.r.answers && t.currentAgent == s.currentAgent
    requires t.r.written == RawCall(s.r, s.socket, p).written
    requires p.HandshakeUse? ==> s.currentAgent == Some(p.wanted)
    ensures CacheStands(t)
  {
    hide Stands;
    assert s.r.answers[..|s.r.answers|] == s.r.answers;
  }

  lemma SameCache(s: State, t: State)
    requires CacheStands(s) && t.r.answers == s.r.answers && t.r.written == s.r.written
    requires t.currentAgent == s.currentAgent || t.currentAgent.None?
    ensures CacheStands(t)
  {
    hide Stands, WriteStood;
  }

  lemma TaskCacheStands(s: State, task: Task)
    requires CacheStands(s)
    ensures CacheStands(RunTask(s, task))
  {
    hide CacheStands, RawCall, Wakes, Delay, AgentAfter;
    match task
    case Resume(Tool(c, request), outcome) => AnswerCacheStands(s, c, request, outcome);
    case Resume(HandshakeConnect, _) => ReplaySelectionCacheStands(s);
    case Resume(HandshakeUse(_), outcome) => SameCache(s, AfterReplayedUse(s, outcome));
    case Wake(w, connected) => WakeCacheStands(s, w, connected);
    case ReplayDone => SameCache(s, FinishReplay(s));
    case ReplayFailed => SameCache(s, AttemptFailed(s));
  }

  lemma WakeCacheStands(s: State, w: Waiter, connected: bool)
    requires CacheStands(s)
    ensures CacheStands(DoWake(s, w, connected))
  {
    var t := DoWake(s, w, connected);
    if connected {
      assert RawCall(s.r, s.socket, Tool(w.call, w.request)).answers == s.r.answers;
      hide RawCall, CacheStands;
      RawCallCacheStands(s, t, Tool(w.call, w.request));
    } else {
      hide CacheStands;
      QuietAnswerCacheStands(s, t, Answer(w.call, w.request, RECONNECTING));
    }
  }

  lemma ReplaySelectionCacheStands(s: State)
    requires CacheStands(s)
    ensures CacheStands(ReplaySelection(s))
  {
    var t := ReplaySelection(s);
    if s.currentAgent.Some? && s.currentAgent.value != "" {
      assert RawCall(s.r, s.socket, HandshakeUse(s.currentAgent.value)).answers == s.r.answers;
      hide RawCall, CacheStands;
      RawCallCacheStands(s, t, HandshakeUse(s.currentAgent.value));
    } else {
      SameCache(s, t);
    }
  }

  lemma OpenOkCacheStands(s: State)
    requires CacheStands(s)
    ensures CacheStands(DoOpenOk(s))
  {
    var t := Opened(s);
    SameCache(s, t);
    assert RawCall(t.r, t.socket, HandshakeConnect).answers == t.r.answers;
    hide RawCall, CacheStands, ReplaySelection;
    if t.hasClientType {
      RawCallCacheStands(t, DoOpenOk(s), HandshakeConnect);
    } else {
      ReplaySelectionCacheStands(t);
    }
  }

  lemma CallCacheStands(s: State, request: Request)
    requires CacheStands(s)
    ensures CacheStands(DoCall(s, request))
  {
    var t := DoCall(s, request);
    CallOutcomes(s, request);
    assert RawCall(s.r.(nextCall := s.r.nextCall + 1), s.socket, Tool(s.r.nextCall, request)).answers == s.r.answers;
    assert RawCall(s.r.(nextCall := s.r.nextCall + 1), s.socket, Tool(s.r.nextCall, request)).written ==
           RawCall(s.r, s.socket, Tool(s.r.nextCall, request)).written;
    hide CacheStands, DoCall, RawCall;
    if |t.r.answers| > |s.r.answers| {
      QuietAnswerCacheStands(s, t, t.r.answers[|s.r.answers|]);
    } else if t.r.written == s.r.written {
      SameCache(s, t);
    } else {
      RawCallCacheStands(s, t, Tool(s.r.nextCall, request));
    }
  }

  lemma StepCacheStands(classify: Classifier, s: State, e: Event)
    requires CacheStands(s) && Enabled(s, e)
    ensures CacheStands(Step(classify, s, e))
  {
    hide CacheStands, DoCall, DoOpenOk, RunTask;
    match e
    case Dial => SameCache(s, DoDial(s));
    case OpenOk => OpenOkCacheStands(s);
    case Call(request) => CallCacheStands(s, request);
    case Microtask =>
      SameCache(s, Dequeued(s));
      TaskCacheStands(Dequeued(s), s.r.tasks[0]);
    case _ =>
      OtherEventsWriteless(classify, s, e);
      hide Step;
      SameCache(s, Step(classify, s, e));
  }

  /**
   In every run, whatever the cache holds was selected by a call answered so, with no later answer ending it; and
   no reconnect ever replays a selection that an answered release, offline or other selection had ended.
   */
  lemma {:induction false} NoReplayOfEndedSelection(classify: Classifier, run: seq<State>, events: seq<Event>, n: nat)
    requires IsRun(classify, run, events) && n < |run|
    ensures CacheStands(run[n])
  {
    if n > 0 {
      NoReplayOfEndedSelection(classify, run, events, n - 1);
      hide CacheStands, Step, Enabled;
      StepCacheStands(classify, run[n - 1], events[n - 1]);
    }
  }
}
