/**
 When an agent is online and when it is known, told from the events of a run: and from that exactly when an agent that
 was removed, or one loaded meanwhile, is what a call without a selection falls back to.
 */
module AgentTimeline {
  import opened AgentSelection
  import opened Wrappers

  // ----- one step

  /** The agent is started: it must be known, and may be online already. */
  ghost predicate Starts(s: State, e: Event, name: string) {
    e == Start(name) && Known(s.a, name)
  }

  /** The agent is taken offline, by a removal or by a stop of a known agent. */
  ghost predicate Stops(s: State, e: Event, name: string) {
    e == RetireBegin(name) || (e == OfflineBegin(name) && name != "" && Known(s.a, name))
  }

  ghost predicate Loads(e: Event, name: string) {
    e.Load? && e.name == name
  }

  /** What a connection does to its selection touches no agent. */
  lemma SelectionKeepsAgents(s: State, e: Event)
    requires Enabled(s, e) && (e.Connect? || e.Disconnect? || e.Use? || e.StopUsing? || e.Attend?)
    ensures Step(s, e).a == s.a && Step(s, e).removing == s.removing
  {
    hide Taken, Dropped, DroppedCaller, HolderOf, HeldBy, MayTake, WithoutListener, ListenersWithout, UseRefused;
  }

  lemma StepOnline(s: State, e: Event, name: string)
    requires Enabled(s, e)
    ensures name in Step(s, e).a.online <==> Starts(s, e, name) || (name in s.a.online && !Stops(s, e, name))
  {
    if e.Connect? || e.Disconnect? || e.Use? || e.StopUsing? || e.Attend? {
      SelectionKeepsAgents(s, e);
      hide Step;
    } else if e.Load? || e.OfflineEnd? || e.RetireEnd? {
      RosterKeepsOnline(s, e);
      hide Step;
    } else {
      hide DoUse, DoStopUsing, DoAttend, DoDisconnect, DoOfflineEnd, DoRetireEnd;
    }
  }

  lemma RosterKeepsOnline(s: State, e: Event)
    requires Enabled(s, e) && (e.Load? || e.OfflineEnd? || e.RetireEnd?)
    ensures Step(s, e).a.online == s.a.online
  {
    hide AgentCleared, Cleared;
  }

  lemma StepRoster(s: State, e: Event, name: string)
    requires Enabled(s, e)
    ensures name in Step(s, e).a.roster <==> Loads(e, name) || (name in s.a.roster && e != RetireEnd(name))
    ensures Known(Step(s, e).a, name) <==>
            e == Load(name, false) || (Known(s.a, name) && e != RetireEnd(name) && !Loads(e, name))
  {
    if e.Connect? || e.Disconnect? || e.Use? || e.StopUsing? || e.Attend? {
      SelectionKeepsAgents(s, e);
      hide Step;
    } else {
      hide DoUse, DoStopUsing, DoAttend, DoDisconnect, AgentCleared, Cleared;
    }
  }

  lemma StepRemoving(s: State, e: Event, name: string)
    requires Enabled(s, e) && e != RetireBegin(name) && name in Step(s, e).removing
    ensures name in s.removing
  {
    if e.Connect? || e.Disconnect? || e.Use? || e.StopUsing? || e.Attend? {
      SelectionKeepsAgents(s, e);
      hide Step;
    } else {
      hide DoUse, DoStopUsing, DoAttend, DoDisconnect, AgentCleared, Cleared;
    }
  }

  // ----- a stretch of a run

  ghost predicate NotStopped(run: seq<State>, events: seq<Event>, name: string, m: nat, n: nat)
    requires n <= |events| < |run|
  {
    forall i :: m <= i < n ==> !Stops(run[i], events[i], name)
  }

  ghost predicate StartedAndLeft(run: seq<State>, events: seq<Event>, name: string, l: nat, n: nat)
    requires n <= |events| < |run|
  {
    exists i :: l <= i < n && Starts(run[i], events[i], name) && NotStopped(run, events, name, i + 1, n)
  }

  /**
   An agent is online if and only if it was and was not stopped since, or was started since and not stopped after
   that.
   */
  lemma {:induction false} OnlineExactly(run: seq<State>, events: seq<Event>, l: nat, n: nat, name: string)
    requires IsRun(run, events) && l <= n < |run|
    ensures name in run[n].a.online <==>
            (name in run[l].a.online && NotStopped(run, events, name, l, n)) || StartedAndLeft(run, events, name, l, n)
    decreases n
  {
    hide Step, Enabled;
    if n > l {
      OnlineExactly(run, events, l, n - 1, name);
      StepOnline(run[n - 1], events[n - 1], name);
      LeftOneMore(run, events, name, l, n);
      hide Starts, Stops, NotStopped, StartedAndLeft;
    }
  }

  lemma LeftOneMore(run: seq<State>, events: seq<Event>, name: string, l: nat, n: nat)
    requires l < n <= |events| < |run|
    ensures NotStopped(run, events, name, l, n) <==>
            NotStopped(run, events, name, l, n - 1) && !Stops(run[n - 1], events[n - 1], name)
    ensures StartedAndLeft(run, events, name, l, n) <==>
            Starts(run[n - 1], events[n - 1], name) ||
            (StartedAndLeft(run, events, name, l, n - 1) && !Stops(run[n - 1], events[n - 1], name))
  {
    hide Starts, Stops;
    if StartedAndLeft(run, events, name, l, n) {
      var i :| l <= i < n && Starts(run[i], events[i], name) && NotStopped(run, events, name, i + 1, n);
      if i < n - 1 {
        assert NotStopped(run, events, name, i + 1, n - 1);
      }
    }
    if Starts(run[n - 1], events[n - 1], name) {
      assert NotStopped(run, events, name, n, n);
    }
    if StartedAndLeft(run, events, name, l, n - 1) && !Stops(run[n - 1], events[n - 1], name) {
      var i :| l <= i < n - 1 && Starts(run[i], events[i], name) && NotStopped(run, events, name, i + 1, n - 1);
      assert NotStopped(run, events, name, i + 1, n);
    }
  }

  ghost predicate NotForgotten(events: seq<Event>, name: string, m: nat, n: nat)
    requires n <= |events|
  {
    forall i :: m <= i < n ==> events[i] != RetireEnd(name) && events[i] != Load(name, true)
  }

  ghost predicate LoadedAndLeft(events: seq<Event>, name: string, l: nat, n: nat)
    requires n <= |events|
  {
    exists i :: l <= i < n && events[i] == Load(name, false) && NotForgotten(events, name, i + 1, n)
  }

  /**
   An agent not known at first is known later if and only if it was loaded without failure and not forgotten since.
   */
  lemma {:induction false} KnownExactly(run: seq<State>, events: seq<Event>, l: nat, n: nat, name: string)
    requires IsRun(run, events) && l <= n < |run| && name !in run[l].a.roster
    ensures Known(run[n].a, name) <==> LoadedAndLeft(events, name, l, n)
    decreases n
  {
    hide Step, Enabled;
    if n > l {
      KnownExactly(run, events, l, n - 1, name);
      StepRoster(run[n - 1], events[n - 1], name);
      LoadedOneMore(events, name, l, n);
      hide Known, LoadedAndLeft;
    }
  }

  lemma LoadedOneMore(events: seq<Event>, name: string, l: nat, n: nat)
    requires l < n <= |events|
    ensures var e := events[n - 1];
            LoadedAndLeft(events, name, l, n) <==>
              e == Load(name, false) ||
              (LoadedAndLeft(events, name, l, n - 1) && e != RetireEnd(name) && e != Load(name, true))
  {
    if LoadedAndLeft(events, name, l, n) {
      var i :| l <= i < n && events[i] == Load(name, false) && NotForgotten(events, name, i + 1, n);
      if i < n - 1 {
        assert NotForgotten(events, name, i + 1, n - 1);
      }
    }
    if events[n - 1] == Load(name, false) {
      assert NotForgotten(events, name, n, n);
    } else if LoadedAndLeft(events, name, l, n - 1) && events[n - 1] != RetireEnd(name) &&
        events[n - 1] != Load(name, true) {
      var i :| l <= i < n - 1 && events[i] == Load(name, false) && NotForgotten(events, name, i + 1, n - 1);
      assert NotForgotten(events, name, i + 1, n);
    }
  }

  // ----- a removed agent that is online

  /** Online, and not on the roster: no handler can take it offline but another removal. */
  ghost predicate Stray(s: State, name: string) {
    name in s.a.online && name !in s.a.roster
  }

  ghost predicate NotLoaded(events: seq<Event>, name: string, m: nat, n: nat)
    requires n <= |events|
  {
    forall i :: m <= i < n ==> !Loads(events[i], name)
  }

  /** The agent's removal ended and it was not loaded again. */
  ghost predicate RemovedAndLeft(events: seq<Event>, name: string, l: nat, n: nat)
    requires n <= |events|
  {
    exists j :: l <= j < n && events[j] == RetireEnd(name) && NotLoaded(events, name, j + 1, n)
  }

  /** A known agent leaves the roster if and only if a removal ends and no load follows. */
  lemma {:induction false} RosterExactly(run: seq<State>, events: seq<Event>, l: nat, n: nat, name: string)
    requires IsRun(run, events) && l <= n < |run| && name in run[l].a.roster
    ensures name !in run[n].a.roster <==> RemovedAndLeft(events, name, l, n)
    decreases n
  {
    hide Step, Enabled;
    if n > l {
      RosterExactly(run, events, l, n - 1, name);
      StepRoster(run[n - 1], events[n - 1], name);
      RemovedOneMore(events, name, l, n);
      hide Known, RemovedAndLeft;
    }
  }

  lemma RemovedOneMore(events: seq<Event>, name: string, l: nat, n: nat)
    requires l < n <= |events|
    ensures var e := events[n - 1];
            RemovedAndLeft(events, name, l, n) <==>
              e == RetireEnd(name) || (RemovedAndLeft(events, name, l, n - 1) && !Loads(e, name))
  {
    if RemovedAndLeft(events, name, l, n) {
      var j :| l <= j < n && events[j] == RetireEnd(name) && NotLoaded(events, name, j + 1, n);
      if j < n - 1 {
        assert NotLoaded(events, name, j + 1, n - 1);
      }
    }
    if events[n - 1] == RetireEnd(name) {
      assert NotLoaded(events, name, n, n);
    } else if RemovedAndLeft(events, name, l, n - 1) && !Loads(events[n - 1], name) {
      var j :| l <= j < n - 1 && events[j] == RetireEnd(name) && NotLoaded(events, name, j + 1, n - 1);
      assert NotLoaded(events, name, j + 1, n);
    }
  }

  lemma {:induction false} RemovalWasUnderWay(run: seq<State>, events: seq<Event>, m: nat, n: nat, name: string)
    requires IsRun(run, events) && m <= n < |run| && NotStopped(run, events, name, m, n) && name in run[n].removing
    ensures name in run[m].removing
    decreases n
  {
    if m < n {
      assert !Stops(run[n - 1], events[n - 1], name);
      StepRemoving(run[n - 1], events[n - 1], name);
      RemovalWasUnderWay(run, events, m, n - 1, name);
    }
  }

  /** Started while it was being removed, with the removal's end to come: and since neither stopped nor loaded again. */
  ghost predicate StartedInRemoval(run: seq<State>, events: seq<Event>, name: string, n: nat)
    requires n <= |events| < |run|
  {
    exists i :: 0 <= i < n && Starts(run[i], events[i], name) && name in run[i].removing &&
                NotStopped(run, events, name, i + 1, n) && RemovedAndLeft(events, name, i + 1, n)
  }

  /**
   In every run an agent is online and off the roster if and only if it was started while its removal was under way.
   */
  lemma StrayExactly(run: seq<State>, events: seq<Event>, n: nat, name: string)
    requires IsRun(run, events) && n < |run|
    ensures Stray(run[n], name) <==> StartedInRemoval(run, events, name, n)
  {
    OnlineExactly(run, events, 0, n, name);
    hide Step, Enabled;
    if Stray(run[n], name) {
      var i :| 0 <= i < n && Starts(run[i], events[i], name) && NotStopped(run, events, name, i + 1, n);
      AfterStart(run, events, i, n, name);
      var j :| i + 1 <= j < n && events[j] == RetireEnd(name) && NotLoaded(events, name, j + 1, n);
      EndEnabled(run, events, j, name);
      assert NotStopped(run, events, name, i + 1, j);
      RemovalWasUnderWay(run, events, i + 1, j, name);
      StepRemoving(run[i], events[i], name);
    }
    if StartedInRemoval(run, events, name, n) {
      var i :| 0 <= i < n && Starts(run[i], events[i], name) && name in run[i].removing &&
               NotStopped(run, events, name, i + 1, n) && RemovedAndLeft(events, name, i + 1, n);
      AfterStart(run, events, i, n, name);
      assert StartedAndLeft(run, events, name, 0, n);
    }
  }

  lemma EndEnabled(run: seq<State>, events: seq<Event>, j: nat, name: string)
    requires IsRun(run, events) && j < |events| && events[j] == RetireEnd(name)
    ensures name in run[j].removing
  {
  }

  lemma AfterStart(run: seq<State>, events: seq<Event>, i: nat, n: nat, name: string)
    requires IsRun(run, events) && i < n < |run| && Starts(run[i], events[i], name)
    ensures name !in run[n].a.roster <==> RemovedAndLeft(events, name, i + 1, n)
  {
    StepRoster(run[i], events[i], name);
    hide Step, Enabled;
    RosterExactly(run, events, i + 1, n, name);
  }

  /**
   A call without any selection acts as a removed agent if and only if that agent was started while its removal was
   under way, was neither stopped nor loaded again since, and no other agent is online.
   */
  lemma RemovedAgentActsExactly(run: seq<State>, events: seq<Event>, n: nat, name: string)
    requires IsRun(run, events) && n < |run|
    ensures ActsAs(None, run[n].a.online, None, Some(name)) && name !in run[n].a.roster <==>
            StartedInRemoval(run, events, name, n) && forall other :: other in run[n].a.online ==> other == name
  {
    StrayExactly(run, events, n, name);
    SoleOnline(run[n].a.online, name);
    hide Step, Enabled, StartedInRemoval;
  }

  lemma SoleOnline(online: set<string>, name: string)
    ensures ActsAs(None, online, None, Some(name)) <==>
            name in online && forall other :: other in online ==> other == name
  {
    if name in online && forall other :: other in online ==> other == name {
      assert online == {name};
    }
  }

  // ----- an agent loaded meanwhile

  /**
   A call without any selection acts as an agent that was not known at an earlier moment `l` if and only if no other
   is online, and it was started since `l`, known by then, and not stopped after; or was online without being known
   all along. An agent then unknown is known when started if and only if it was loaded between and not forgotten.
   */
  lemma UnknownActsExactly(run: seq<State>, events: seq<Event>, l: nat, n: nat, name: string)
    requires IsRun(run, events) && l <= n < |run| && name !in run[l].a.roster
    ensures ActsAs(None, run[n].a.online, None, Some(name)) <==>
            (forall other :: other in run[n].a.online ==> other == name) &&
            (StartedAndLeft(run, events, name, l, n) || (Stray(run[l], name) && NotStopped(run, events, name, l, n)))
    ensures forall i :: l <= i < n ==> (Starts(run[i], events[i], name) <==>
                                        events[i] == Start(name) && LoadedAndLeft(events, name, l, i))
  {
    OnlineExactly(run, events, l, n, name);
    SoleOnline(run[n].a.online, name);
    hide Step, Enabled, IsRun;
    forall i | l <= i < n
      ensures Starts(run[i], events[i], name) <==> events[i] == Start(name) && LoadedAndLeft(events, name, l, i)
    {
      KnownExactly(run, events, l, i, name);
    }
  }
}
