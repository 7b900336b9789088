/**
 Which agent a call acts as: the daemon's roster, online agents, holders and per-connection selections, one step for
 each handler, or for each part of a handler between two of its awaits.
 */
module AgentSelection {
  import opened Wrappers

  /** What a connection declared itself to be; any other kind is a long-lived socket. */
  datatype Client = Cli | Endpoint | Hermes | OtherSocket

  /** Who calls: a socket, this machine's command line, or a client of the web endpoint. */
  datatype Caller = SocketCaller(connection: nat) | CliCaller | WebCaller(id: string)

  datatype Conn = Conn(currentAgent: Option<string>, clearedAgent: Option<string>, client: Client)

  type Conns = map<nat, Conn>

  datatype Hold = Hold(agent: string, caller: Caller)

  /** `roster` says of each known agent whether loading it failed. */
  datatype Agents = Agents(roster: map<string, bool>, channels: set<string>, online: set<string>,
      explicitlyOffline: set<string>)

  /** Who holds an agent, in the order of the registry, and who listens for it. */
  datatype Registry = Registry(holders: seq<Hold>, listeners: map<string, nat>)

  /** `stopping` and `removing` are the handlers past taking an agent offline and short of clearing it everywhere. */
  datatype State = State(a: Agents, reg: Registry, conns: Conns, stopping: multiset<string>, removing: multiset<string>)

  function Init(roster: map<string, bool>, channels: set<string>): State {
    State(Agents(roster, channels, {}, {}), Registry([], map[]), map[], multiset{}, multiset{})
  }

  datatype Role = Holder | Listener | Reader

  datatype Answer = Done | Using(role: Role) | Released(agent: Option<string>) | Refused(reason: string)

  datatype Event =
    | Connect(c: nat, client: Client)
    | Disconnect(c: nat)
    | Load(name: string, failed: bool)
    | Start(name: string)
    | OfflineBegin(name: string)
    | OfflineEnd(name: string)
    | RetireBegin(name: string)
    | RetireEnd(name: string)
    | Use(c: nat, name: string, caller: Caller, force: bool, replay: bool)
    | StopUsing(c: nat, caller: Caller)
    | Attend(c: nat, agent: Option<string>, caller: Caller)

  predicate Enabled(s: State, e: Event) {
    match e
    case OfflineEnd(name) => name in s.stopping
    case RetireEnd(name) => name in s.removing
    case _ => true
  }

  predicate Known(a: Agents, name: string) {
    name in a.roster && !a.roster[name]
  }

  // ----- the holder registry

  function HolderOf(holders: seq<Hold>, agent: string): Option<Caller> {
    if holders == [] then None
    else if holders[0].agent == agent then Some(holders[0].caller)
    else HolderOf(holders[1..], agent)
  }

  function HeldBy(holders: seq<Hold>, caller: Caller): Option<string> {
    if holders == [] then None
    else if holders[0].caller == caller then Some(holders[0].agent)
    else HeldBy(holders[1..], caller)
  }

  function Dropped(holders: seq<Hold>, agent: string): seq<Hold> {
    if holders == [] then []
    else (if holders[0].agent == agent then [] else [holders[0]]) + Dropped(holders[1..], agent)
  }

  function DroppedCaller(holders: seq<Hold>, caller: Caller): seq<Hold> {
    if holders == [] then []
    else (if holders[0].caller == caller then [] else [holders[0]]) + DroppedCaller(holders[1..], caller)
  }

  predicate MayTake(holders: seq<Hold>, agent: string, caller: Caller, force: bool) {
    force || HolderOf(holders, agent).None? || HolderOf(holders, agent) == Some(caller)
  }

  /** Taking an agent lets go of the one the caller held. */
  function Taken(holders: seq<Hold>, agent: string, caller: Caller): seq<Hold> {
    var kept := match HeldBy(holders, caller) case None => holders case Some(before) => Dropped(holders, before);
    Dropped(kept, agent) + [Hold(agent, caller)]
  }

  function WithoutListener(listeners: map<string, nat>, agent: Option<string>, c: nat): map<string, nat> {
    if agent.Some? && agent.value in listeners && listeners[agent.value] == c then listeners - {agent.value}
    else listeners
  }

  function ListenersWithout(listeners: map<string, nat>, c: nat): map<string, nat> {
    map agent | agent in listeners && listeners[agent] != c :: listeners[agent]
  }

  function AgentCleared(reg: Registry, agent: string): Registry {
    Registry(Dropped(reg.holders, agent), reg.listeners - {agent})
  }

  // ----- the handlers

  /** An agent taken away from every connection that had it; those are not to have another guessed for them. */
  function Cleared(conns: Conns, name: string): Conns {
    map c | c in conns :: if conns[c].currentAgent == Some(name) then
        conns[c].(currentAgent := None, clearedAgent := Some(name)) else conns[c]
  }

  function DoStart(a: Agents, name: string): Agents {
    if !Known(a, name) || name in a.online then a
    else a.(online := a.online + {name}, explicitlyOffline := a.explicitlyOffline - {name})
  }

  function DoOfflineBegin(s: State, name: string): State {
    if name == "" || !Known(s.a, name) then s
    else
      var a := s.a.(explicitlyOffline := s.a.explicitlyOffline + {name});
      if name in s.a.online then s.(a := a.(online := a.online - {name}), stopping := s.stopping + multiset{name})
      else s.(a := a)
  }

  function DoOfflineEnd(s: State, name: string): State {
    s.(reg := AgentCleared(s.reg, name), conns := Cleared(s.conns, name), stopping := s.stopping - multiset{name})
  }

  /** A fresh removal, once its revocation was submitted or given up. */
  function DoRetireBegin(s: State, name: string): State {
    s.(a := s.a.(online := s.a.online - {name}), removing := s.removing + multiset{name})
  }

  function DoRetireEnd(s: State, name: string): State {
    s.(a := s.a.(roster := s.a.roster - {name}), reg := AgentCleared(s.reg, name), conns := Cleared(s.conns, name),
       removing := s.removing - multiset{name})
  }

  /** What stands in the way of selecting an agent at all. */
  function UseRefused(a: Agents, conns: Conns, c: nat, name: string): Option<string> {
    if name == "" then Some("missing_params")
    else if !Known(a, name) then Some("agent_not_found")
    else if name in a.channels then Some("channel_not_an_agent")
    else if c !in conns then Some("connection_not_registered")
    else if name !in a.online then Some("agent_offline")
    else None
  }

  function Selected(s: State, c: nat, name: string, reg: Registry): State
    requires c in s.conns
  {
    s.(reg := reg, conns := s.conns[c := s.conns[c].(currentAgent := Some(name), clearedAgent := None)])
  }

  function DoUse(s: State, c: nat, name: string, caller: Caller, force: bool, replay: bool): (State, Answer) {
    var refused := UseRefused(s.a, s.conns, c, name);
    if refused.Some? then (s, Refused(refused.value))
    else
      var conn := s.conns[c];
      if conn.client == Hermes then
        if conn.currentAgent == Some(name) then (s, Refused("agent_already_current"))
        else (Selected(s, c, name,
            s.reg.(listeners := WithoutListener(s.reg.listeners, conn.currentAgent, c)[name := c])), Using(Listener))
      else if conn.currentAgent == Some(name) && HolderOf(s.reg.holders, name) == Some(caller) then
        (s, Refused("agent_already_current"))
      else if MayTake(s.reg.holders, name, caller, force) then
        (Selected(s, c, name, s.reg.(holders := Taken(s.reg.holders, name, caller))), Using(Holder))
      else if replay then (Selected(s, c, name, s.reg), Using(Reader))
      else (s, Refused("agent_held"))
  }

  function DoStopUsing(s: State, c: nat, caller: Caller): (State, Answer) {
    if c !in s.conns then (s, Refused("connection_not_registered"))
    else
      var conn := s.conns[c];
      var from := if conn.currentAgent.Some? then conn.currentAgent else HeldBy(s.reg.holders, caller);
      var conns := s.conns[c := conn.(currentAgent := None, clearedAgent := None)];
      if from.None? then (s.(conns := conns), Released(None))
      else if conn.client == Hermes then
        (s.(conns := conns, reg := s.reg.(listeners := WithoutListener(s.reg.listeners, from, c))), Released(from))
      else
        var holders := if HolderOf(s.reg.holders, from.value) == Some(caller) then Dropped(s.reg.holders, from.value)
            else s.reg.holders;
        (s.(conns := conns, reg := s.reg.(holders := holders)), Released(from))
  }

  function DoAttend(s: State, c: nat, agent: Option<string>, caller: Caller): (State, Answer) {
    var name := if agent.Some? then agent else HeldBy(s.reg.holders, caller);
    if c !in s.conns || s.conns[c].client != Endpoint then (s, Refused("endpoint_only"))
    else if name.None? || name.value == "" || name.value !in s.a.roster then (s, Refused("no_current_agent"))
    else if name.value !in s.a.online then (s, Refused("agent_offline"))
    else if !MayTake(s.reg.holders, name.value, caller, false) then (s, Refused("agent_held"))
    else
      (s.(reg := s.reg.(holders := Taken(s.reg.holders, name.value, caller)),
          conns := s.conns[c := s.conns[c].(currentAgent := name)]), Done)
  }

  function DoDisconnect(s: State, c: nat): State {
    s.(conns := s.conns - {c},
       reg := Registry(DroppedCaller(s.reg.holders, SocketCaller(c)), ListenersWithout(s.reg.listeners, c)))
  }

  function Step(s: State, e: Event): State
    requires Enabled(s, e)
  {
    match e
    case Connect(c, client) => s.(conns := s.conns[c := Conn(None, None, client)])
    case Disconnect(c) => DoDisconnect(s, c)
    case Load(name, failed) => s.(a := s.a.(roster := s.a.roster[name := failed]))
    case Start(name) => s.(a := DoStart(s.a, name))
    case OfflineBegin(name) => DoOfflineBegin(s, name)
    case OfflineEnd(name) => DoOfflineEnd(s, name)
    case RetireBegin(name) => DoRetireBegin(s, name)
    case RetireEnd(name) => DoRetireEnd(s, name)
    case Use(c, name, caller, force, replay) => DoUse(s, c, name, caller, force, replay).0
    case StopUsing(c, caller) => DoStopUsing(s, c, caller).0
    case Attend(c, agent, caller) => DoAttend(s, c, agent, caller).0
  }

  ghost predicate IsRun(run: seq<State>, events: seq<Event>) {
    && |run| == |events| + 1
    && run[0] == Init(run[0].a.roster, run[0].a.channels)
    && forall i :: 0 <= i < |events| ==> Enabled(run[i], events[i]) && run[i + 1] == Step(run[i], events[i])
  }

  // ----- whom a call acts as

  datatype Trigger = Explicit | SelectedBefore | Fallback | WasCleared | NoAgent

  predicate NonEmpty(name: Option<string>) {
    name.Some? && name.value != ""
  }

  function TriggerFor(conn: Option<Conn>, online: set<string>, explicit: Option<string>): Trigger {
    if NonEmpty(explicit) then Explicit
    else if conn.Some? && NonEmpty(conn.value.currentAgent) then SelectedBefore
    else if conn.Some? && NonEmpty(conn.value.clearedAgent) then WasCleared
    else if |online| == 1 then Fallback
    else NoAgent
  }

  /**
   The agent a call acts as: the named one, else the selected one, else the only one online if none was taken away.
   */
  ghost predicate ActsAs(conn: Option<Conn>, online: set<string>, explicit: Option<string>, agent: Option<string>) {
    match TriggerFor(conn, online, explicit)
    case Explicit => agent == explicit
    case SelectedBefore => agent == conn.value.currentAgent
    case Fallback => agent.Some? && online == {agent.value}
    case _ => agent.None?
  }

  method ResolveCurrentAgent(conn: Option<Conn>, online: set<string>, explicit: Option<string>)
    returns (agent: Option<string>, notice: bool)
    ensures ActsAs(conn, online, explicit, agent)
    ensures notice <==> TriggerFor(conn, online, explicit).Fallback?
  {
    notice := false;
    if NonEmpty(explicit) {
      return explicit, false;
    }
    if conn.Some? && NonEmpty(conn.value.currentAgent) {
      return conn.value.currentAgent, false;
    }
    if conn.Some? && NonEmpty(conn.value.clearedAgent) {
      return None, false;
    }
    if |online| == 1 {
      var sole :| sole in online;
      assert |online - {sole}| == 0;
      return Some(sole), true;
    }
    return None, false;
  }

  // ----- a selection is of an online agent, or of one being stopped

  predicate Ending(s: State, name: string) {
    name in s.stopping || name in s.removing
  }

  ghost predicate CurrentIsOnline(s: State) {
    forall c :: c in s.conns && s.conns[c].currentAgent.Some? ==>
      s.conns[c].currentAgent.value in s.a.online || Ending(s, s.conns[c].currentAgent.value)
  }

  /**
   Each agent has at most one holder, each caller holds at most one agent, and only agents online or being stopped are
   held.
   */
  ghost predicate HoldsAreExclusive(s: State) {
    Distinct(s.reg.holders) && forall h :: h in s.reg.holders ==> h.agent in s.a.online || Ending(s, h.agent)
  }

  ghost predicate Distinct(holders: seq<Hold>) {
    forall i, j :: 0 <= i < j < |holders| ==>
        holders[i].agent != holders[j].agent && holders[i].caller != holders[j].caller
  }

  lemma {:induction false} DroppedAre(holders: seq<Hold>, agent: string)
    requires Distinct(holders)
    ensures Distinct(Dropped(holders, agent))
    ensures forall h :: h in Dropped(holders, agent) <==> h in holders && h.agent != agent
  {
    if holders != [] {
      DroppedAre(holders[1..], agent);
      assert forall h :: h in holders <==> h == holders[0] || h in holders[1..];
      DistinctCons(holders[0], holders[1..], Dropped(holders[1..], agent));
      assert holders == [holders[0]] + holders[1..];
    }
  }

  lemma {:induction false} DroppedCallerAre(holders: seq<Hold>, caller: Caller)
    requires Distinct(holders)
    ensures Distinct(DroppedCaller(holders, caller))
    ensures forall h :: h in DroppedCaller(holders, caller) <==> h in holders && h.caller != caller
  {
    if holders != [] {
      DroppedCallerAre(holders[1..], caller);
      assert forall h :: h in holders <==> h == holders[0] || h in holders[1..];
      DistinctCons(holders[0], holders[1..], DroppedCaller(holders[1..], caller));
      assert holders == [holders[0]] + holders[1..];
    }
  }

  lemma DistinctCons(h: Hold, rest: seq<Hold>, kept: seq<Hold>)
    requires Distinct([h] + rest) && Distinct(kept) && forall k :: k in kept ==> k in rest
    ensures Distinct([h] + kept)
  {
    forall k | k in kept
      ensures k.agent != h.agent && k.caller != h.caller
    {
      var i :| 0 <= i < |rest| && rest[i] == k;
      assert ([h] + rest)[0] == h && ([h] + rest)[i + 1] == k;
    }
  }

  lemma {:induction false} HeldByIs(holders: seq<Hold>, caller: Caller)
    ensures HeldBy(holders, caller).None? ==> forall h :: h in holders ==> h.caller != caller
    ensures HeldBy(holders, caller).Some? ==> Hold(HeldBy(holders, caller).value, caller) in holders
  {
    if holders != [] {
      HeldByIs(holders[1..], caller);
    }
  }

  lemma {:induction false} HolderOfIs(holders: seq<Hold>, agent: string)
    requires Distinct(holders)
    ensures HolderOf(holders, agent).None? ==> forall h :: h in holders ==> h.agent != agent
    ensures HolderOf(holders, agent).Some? ==> Hold(agent, HolderOf(holders, agent).value) in holders
    ensures forall h :: h in holders && h.agent == agent ==> HolderOf(holders, agent) == Some(h.caller)
  {
    if holders != [] {
      HolderOfIs(holders[1..], agent);
      if holders[0].agent == agent {
        assert forall i :: 0 < i < |holders| ==> holders[i].agent != agent;
      }
    }
  }

  lemma DistinctCallers(holders: seq<Hold>, g: Hold, h: Hold)
    requires Distinct(holders) && g in holders && h in holders && g.caller == h.caller
    ensures g == h
  {
  }

  lemma KeptIs(holders: seq<Hold>, caller: Caller) returns (kept: seq<Hold>)
    requires Distinct(holders)
    ensures kept == if HeldBy(holders, caller).None? then holders else Dropped(holders, HeldBy(holders, caller).value)
    ensures Distinct(kept) && forall h :: h in kept <==> h in holders && h.caller != caller
  {
    HeldByIs(holders, caller);
    var before := HeldBy(holders, caller);
    kept := holders;
    if before.Some? {
      DroppedAre(holders, before.value);
      kept := Dropped(holders, before.value);
      var held := Hold(before.value, caller);
      forall h | h in holders
        ensures h.agent == before.value <==> h.caller == caller
      {
        if h.agent == before.value {
          SameAgent(holders, h, held);
        }
        if h.caller == caller {
          DistinctCallers(holders, h, held);
        }
      }
    }
  }

  /** After taking, the caller holds that agent and nothing else, and no one else lost anything but that agent. */
  lemma TakenIs(holders: seq<Hold>, agent: string, caller: Caller)
    requires Distinct(holders)
    ensures Distinct(Taken(holders, agent, caller))
    ensures forall h :: h in Taken(holders, agent, caller) <==>
            h == Hold(agent, caller) || (h in holders && h.agent != agent && h.caller != caller)
  {
    var kept := KeptIs(holders, caller);
    DroppedAre(kept, agent);
    hide HeldBy, Dropped;
    assert Taken(holders, agent, caller) == Dropped(kept, agent) + [Hold(agent, caller)];
  }

  lemma SameAgent(holders: seq<Hold>, g: Hold, h: Hold)
    requires Distinct(holders) && g in holders && h in holders && g.agent == h.agent
    ensures g == h
  {
  }

  lemma OpeningSteps(s: State, c: nat, name: string, client: Client, failed: bool)
    requires CurrentIsOnline(s) && HoldsAreExclusive(s)
    ensures var t := s.(conns := s.conns[c := Conn(None, None, client)]); CurrentIsOnline(t) && HoldsAreExclusive(t)
    ensures var t := s.(a := s.a.(roster := s.a.roster[name := failed])); CurrentIsOnline(t) && HoldsAreExclusive(t)
    ensures var t := s.(a := DoStart(s.a, name)); CurrentIsOnline(t) && HoldsAreExclusive(t)
  {
    hide Distinct;
  }

  lemma BeginSteps(s: State, name: string)
    requires CurrentIsOnline(s) && HoldsAreExclusive(s)
    ensures CurrentIsOnline(DoOfflineBegin(s, name)) && HoldsAreExclusive(DoOfflineBegin(s, name))
    ensures CurrentIsOnline(DoRetireBegin(s, name)) && HoldsAreExclusive(DoRetireBegin(s, name))
  {
    hide Distinct;
  }

  lemma EndSteps(s: State, name: string)
    requires CurrentIsOnline(s) && HoldsAreExclusive(s)
    ensures CurrentIsOnline(DoOfflineEnd(s, name)) && HoldsAreExclusive(DoOfflineEnd(s, name))
    ensures CurrentIsOnline(DoRetireEnd(s, name)) && HoldsAreExclusive(DoRetireEnd(s, name))
  {
    DroppedAre(s.reg.holders, name);
    hide Distinct, Dropped;
  }

  lemma UseStep(s: State, c: nat, name: string, caller: Caller, force: bool, replay: bool)
    requires CurrentIsOnline(s) && HoldsAreExclusive(s)
    ensures CurrentIsOnline(DoUse(s, c, name, caller, force, replay).0) &&
            HoldsAreExclusive(DoUse(s, c, name, caller, force, replay).0)
  {
    TakenIs(s.reg.holders, name, caller);
    hide Distinct, Taken, HolderOf, MayTake, WithoutListener, Known;
  }

  lemma StopUsingStep(s: State, c: nat, caller: Caller)
    requires CurrentIsOnline(s) && HoldsAreExclusive(s)
    ensures CurrentIsOnline(DoStopUsing(s, c, caller).0) && HoldsAreExclusive(DoStopUsing(s, c, caller).0)
  {
    if c in s.conns {
      var from := if s.conns[c].currentAgent.Some? then s.conns[c].currentAgent else HeldBy(s.reg.holders, caller);
      if from.Some? {
        DroppedAre(s.reg.holders, from.value);
      }
    }
    hide Distinct, Dropped, HolderOf, WithoutListener, HeldBy;
  }

  lemma AttendStep(s: State, c: nat, agent: Option<string>, caller: Caller)
    requires CurrentIsOnline(s) && HoldsAreExclusive(s)
    ensures CurrentIsOnline(DoAttend(s, c, agent, caller).0) && HoldsAreExclusive(DoAttend(s, c, agent, caller).0)
  {
    var name := if agent.Some? then agent else HeldBy(s.reg.holders, caller);
    if name.Some? {
      TakenIs(s.reg.holders, name.value, caller);
    }
    hide Distinct, Taken, MayTake, HeldBy;
  }

  lemma DisconnectStep(s: State, c: nat)
    requires CurrentIsOnline(s) && HoldsAreExclusive(s)
    ensures CurrentIsOnline(DoDisconnect(s, c)) && HoldsAreExclusive(DoDisconnect(s, c))
  {
    DroppedCallerAre(s.reg.holders, SocketCaller(c));
    hide Distinct, DroppedCaller;
  }

  lemma StepKeeps(s: State, e: Event)
    requires CurrentIsOnline(s) && HoldsAreExclusive(s) && Enabled(s, e)
    ensures CurrentIsOnline(Step(s, e)) && HoldsAreExclusive(Step(s, e))
  {
    hide CurrentIsOnline, HoldsAreExclusive, DoStart, DoOfflineBegin, DoOfflineEnd, DoRetireBegin, DoRetireEnd, DoUse,
      DoStopUsing, DoAttend, DoDisconnect;
    match e
    case Connect(c, client) => OpeningSteps(s, c, "", client, false);
    case Load(name, failed) => OpeningSteps(s, 0, name, Cli, failed);
    case Start(name) => OpeningSteps(s, 0, name, Cli, false);
    case Disconnect(c) => DisconnectStep(s, c);
    case OfflineBegin(name) => BeginSteps(s, name);
    case RetireBegin(name) => BeginSteps(s, name);
    case OfflineEnd(name) => EndSteps(s, name);
    case RetireEnd(name) => EndSteps(s, name);
    case Use(c, name, caller, force, replay) => UseStep(s, c, name, caller, force, replay);
    case StopUsing(c, caller) => StopUsingStep(s, c, caller);
    case Attend(c, agent, caller) => AttendStep(s, c, agent, caller);
  }

  lemma {:induction false} RunKeeps(run: seq<State>, events: seq<Event>, n: nat)
    requires IsRun(run, events) && n < |run|
    ensures CurrentIsOnline(run[n]) && HoldsAreExclusive(run[n])
  {
    if n > 0 {
      RunKeeps(run, events, n - 1);
      hide CurrentIsOnline, HoldsAreExclusive, Step, Enabled;
      StepKeeps(run[n - 1], events[n - 1]);
    }
  }

  /**
   Whenever no handler is part-way through stopping or removing an agent, every selection and every hold is of an
   agent online.
   */
  lemma BetweenHandlersCurrentIsOnline(run: seq<State>, events: seq<Event>, n: nat, c: nat)
    requires IsRun(run, events) && n < |run| && run[n].stopping == multiset{} && run[n].removing == multiset{}
    ensures c in run[n].conns && run[n].conns[c].currentAgent.Some? ==>
            run[n].conns[c].currentAgent.value in run[n].a.online
    ensures forall h :: h in run[n].reg.holders ==> h.agent in run[n].a.online
  {
    RunKeeps(run, events, n);
  }

  /** In every run an agent has one holder at most, and a caller holds one agent at most. */
  lemma OneHolderOneHold(run: seq<State>, events: seq<Event>, n: nat, g: Hold, h: Hold)
    requires IsRun(run, events) && n < |run| && g in run[n].reg.holders && h in run[n].reg.holders
    ensures g.agent == h.agent || g.caller == h.caller ==> g == h
  {
    RunKeeps(run, events, n);
  }

  /** Re-selecting after a reconnect or for one command never takes an agent from another caller. */
  lemma ReplayTakesFromNobody(s: State, c: nat, name: string, caller: Caller, h: Hold)
    requires HoldsAreExclusive(s) && h in s.reg.holders && h.caller != caller
    ensures h in DoUse(s, c, name, caller, false, true).0.reg.holders
    ensures h.agent == name && UseRefused(s.a, s.conns, c, name).None? && s.conns[c].client != Hermes ==>
              DoUse(s, c, name, caller, false, true).1 == Using(Reader)
  {
    TakenIs(s.reg.holders, name, caller);
    HolderOfIs(s.reg.holders, name);
    hide Distinct, Taken, HolderOf, UseRefused, WithoutListener;
  }

  /** A forced selection takes the agent from whoever held it, and takes nothing else from anyone. */
  lemma ForceTakesThatAgentOnly(s: State, c: nat, name: string, caller: Caller, h: Hold)
    requires HoldsAreExclusive(s) && UseRefused(s.a, s.conns, c, name).None? && s.conns[c].client != Hermes
    requires DoUse(s, c, name, caller, true, false).1 == Using(Holder)
    ensures h in DoUse(s, c, name, caller, true, false).0.reg.holders <==>
            h == Hold(name, caller) || (h in s.reg.holders && h.agent != name && h.caller != caller)
  {
    TakenIs(s.reg.holders, name, caller);
    hide Distinct, Taken, HolderOf, UseRefused;
  }

  // ----- a selection, while others act

  /** A step of the connection itself. */
  predicate By(e: Event, c: nat) {
    match e
    case Connect(d, _) => d == c
    case Disconnect(d) => d == c
    case Use(d, _, _, _, _) => d == c
    case StopUsing(d, _) => d == c
    case Attend(d, _, _) => d == c
    case _ => false
  }

  predicate TakesAway(e: Event, name: string) {
    e == OfflineEnd(name) || e == RetireEnd(name)
  }

  /** A connection that selected `name`, and has it still or had it taken away. */
  ghost predicate Chose(conns: Conns, c: nat, name: string, taken: bool) {
    c in conns &&
    if taken then conns[c].currentAgent == None && conns[c].clearedAgent == Some(name)
    else conns[c].currentAgent == Some(name)
  }

  lemma ClearedChoice(conns: Conns, c: nat, name: string, taken: bool, other: string)
    requires Chose(conns, c, name, taken)
    ensures Chose(Cleared(conns, other), c, name, taken || other == name)
  {
  }

  /** Steps of other connections, and those that clear nothing, leave this connection's entry alone. */
  lemma EntryLeftAlone(s: State, e: Event, c: nat)
    requires Enabled(s, e) && !By(e, c) && c in s.conns && !e.OfflineEnd? && !e.RetireEnd?
    ensures c in Step(s, e).conns && Step(s, e).conns[c] == s.conns[c]
  {
    hide DoStart, Known, Taken, Dropped, DroppedCaller, HolderOf, HeldBy, MayTake, WithoutListener, ListenersWithout,
      AgentCleared, Cleared, UseRefused;
  }

  lemma OthersOnlyTakeAway(s: State, e: Event, c: nat, name: string, taken: bool)
    requires Enabled(s, e) && !By(e, c) && Chose(s.conns, c, name, taken)
    ensures Chose(Step(s, e).conns, c, name, taken || TakesAway(e, name))
  {
    match e
    case OfflineEnd(other) => ClearedChoice(s.conns, c, name, taken, other);
    case RetireEnd(other) => ClearedChoice(s.conns, c, name, taken, other);
    case _ =>
      EntryLeftAlone(s, e, c);
      hide Step, Enabled;
  }

  /** A stop or a removal of the agent ended in the given part of a run. */
  ghost predicate TakenAway(events: seq<Event>, name: string, m: nat, n: nat)
    requires n <= |events|
  {
    exists i :: m <= i < n && TakesAway(events[i], name)
  }

  lemma {:induction false} ChoiceStands(run: seq<State>, events: seq<Event>, m: nat, n: nat, c: nat, name: string)
    requires IsRun(run, events) && m <= n < |run| && Chose(run[m].conns, c, name, false)
    requires forall i :: m <= i < n ==> !By(events[i], c)
    ensures Chose(run[n].conns, c, name, TakenAway(events, name, m, n))
    decreases n
  {
    if m < n {
      ChoiceStands(run, events, m, n - 1, c, name);
      hide Step, Enabled, Chose, By, TakesAway;
      OthersOnlyTakeAway(run[n - 1], events[n - 1], c, name, TakenAway(events, name, m, n - 1));
      assert TakenAway(events, name, m, n) <==> TakenAway(events, name, m, n - 1) || TakesAway(events[n - 1], name);
    }
  }

  /**
   Once the daemon accepted a connection's selection of an agent, a call on it that names no agent acts as that agent
   or as none, whatever other clients start, stop, select or remove meanwhile; and as none exactly if a stop or a
   removal of that agent ran to its end in between.
   */
  lemma AcceptedSelectionIsNeverAnother(run: seq<State>, events: seq<Event>, m: nat, n: nat, c: nat, name: string,
      caller: Caller,
      force: bool, replay: bool, agent: Option<string>)
    requires IsRun(run, events) && m < n < |run| && events[m] == Use(c, name, caller, force, replay)
    requires DoUse(run[m], c, name, caller, force, replay).1.Using?
    requires forall i :: m < i < n ==> !By(events[i], c)
    requires ActsAs(if c in run[n].conns then Some(run[n].conns[c]) else None, run[n].a.online, None, agent)
    ensures agent == Some(name) || agent == None
    ensures agent == None <==> TakenAway(events, name, m + 1, n)
  {
    AcceptedSelects(run[m], c, name, caller, force, replay);
    ChoiceStands(run, events, m + 1, n, c, name);
    hide IsRun, DoUse, Step, Enabled;
  }

  lemma AcceptedSelects(s: State, c: nat, name: string, caller: Caller, force: bool, replay: bool)
    requires DoUse(s, c, name, caller, force, replay).1.Using?
    ensures Chose(DoUse(s, c, name, caller, force, replay).0.conns, c, name, false) && name != ""
  {
    hide Taken, HolderOf, MayTake, WithoutListener, Known;
  }

  // ----- a removed agent that is back online

  ghost predicate OnlineIsKnown(s: State) {
    (forall name :: name in s.a.online ==> name in s.a.roster) && forall name :: name in s.removing ==>
        name !in s.a.online
  }

  lemma StepOnlineIsKnown(s: State, e: Event)
    requires OnlineIsKnown(s) && Enabled(s, e) && !(e.Start? && e.name in s.removing)
    ensures OnlineIsKnown(Step(s, e))
  {
    hide Taken, Dropped, DroppedCaller, HolderOf, HeldBy, MayTake, WithoutListener, ListenersWithout, AgentCleared,
      Cleared;
  }

  /** Unless an agent is started while its removal is under way, only known agents are ever online. */
  lemma {:induction false} OnlyKnownAgentsOnline(run: seq<State>, events: seq<Event>, n: nat)
    requires IsRun(run, events) && n < |run|
    requires forall i :: 0 <= i < |events| && events[i].Start? ==> events[i].name !in run[i].removing
    ensures OnlineIsKnown(run[n])
  {
    if n > 0 {
      OnlyKnownAgentsOnline(run, events, n - 1);
      hide OnlineIsKnown, Step, Enabled;
      StepOnlineIsKnown(run[n - 1], events[n - 1]);
    }
  }

  /** Started in that window, an agent is online after it has left the roster, and calls can fall back to it. */
  lemma RemovedAgentCanActAgain(name: string)
    requires name != ""
    ensures exists run: seq<State>, events: seq<Event> :: IsRun(run, events) &&
              var last := run[|events|];
              last.a.online == {name} && name !in last.a.roster && ActsAs(None, last.a.online, None, Some(name))
  {
    var s0 := Init(map[name := false], {});
    var s1 := s0.(a := s0.a.(online := {name}));
    var s2 := s0.(removing := multiset{name});
    var s3 := s1.(removing := multiset{name});
    var s4 := s1.(a := s1.a.(roster := map[]));
    assert s0.a.online + {name} == {name} && s1.a.online - {name} == {} &&
        s0.removing + multiset{name} == multiset{name};
    assert s3.removing - multiset{name} == multiset{} && s0.a.roster - {name} == map[] &&
        s0.a.explicitlyOffline - {name} == {};
    assert Cleared(s0.conns, name) == map[] && s0.reg.listeners - {name} == map[];
    assert Step(s0, Start(name)) == s1;
    assert Step(s1, RetireBegin(name)) == s2;
    assert Step(s2, Start(name)) == s3;
    assert Step(s3, RetireEnd(name)) == s4;
    hide Step, Enabled;
    assert IsRun([s0, s1, s2, s3, s4], [Start(name), RetireBegin(name), Start(name), RetireEnd(name)]);
  }
}
