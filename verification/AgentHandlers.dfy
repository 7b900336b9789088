/**
 The daemon's agent handlers on the containers they share. Each is proved to take the step `AgentSelection` gives; a
 handler that awaits in the middle is two methods, one for each side.
 */
module AgentHandlers {
  import opened AgentSelection
  import opened Wrappers

  class Daemon {
    var agents: map<string, bool>
    var onlineAgents: set<string>
    var explicitlyOfflineAgents: set<string>
    var perConnectionState: Conns
    var holders: seq<Hold>
    var listeners: map<string, nat>
    const channels: set<string>
    ghost var stopping: multiset<string>
    ghost var removing: multiset<string>

    ghost function View(): State
      reads this
    {
      State(Agents(agents, channels, onlineAgents, explicitlyOfflineAgents), Registry(holders, listeners),
          perConnectionState, stopping, removing)
    }

    /** No connection has the agent selected. */
    ghost predicate Forgotten(name: string)
      reads this
    {
      forall c :: c in perConnectionState ==> perConnectionState[c].currentAgent != Some(name)
    }

    constructor (agents: map<string, bool>, channels: set<string>)
      ensures View() == Init(agents, channels)
    {
      this.agents, this.channels := agents, channels;
      onlineAgents, explicitlyOfflineAgents, perConnectionState, holders, listeners := {}, {}, map[], [], map[];
      stopping, removing := multiset{}, multiset{};
    }

    method IpcConnect(c: nat, client: Client)
      modifies `perConnectionState
      ensures View() == Step(old(View()), Connect(c, client))
    {
      perConnectionState := perConnectionState[c := Conn(None, None, client)];
    }

    method StartAgent(name: string)
      modifies `onlineAgents, `explicitlyOfflineAgents
      ensures View() == Step(old(View()), Start(name))
      ensures name in agents && !agents[name] ==> name in onlineAgents
      ensures forall other :: other != name ==> (other in onlineAgents <==> other in old(onlineAgents))
    {
      if name !in agents || agents[name] || name in onlineAgents {
        return;
      }
      onlineAgents := onlineAgents + {name};
      explicitlyOfflineAgents := explicitlyOfflineAgents - {name};
    }

    /** `cello_set_agent_offline`, up to the teardown it awaits; `answered` when there is nothing to tear down. */
    method BeginOffline(name: string) returns (answered: bool)
      modifies `onlineAgents, `explicitlyOfflineAgents, `stopping
      ensures View() == DoOfflineBegin(old(View()), name)
      ensures answered <==> stopping == old(stopping)
      ensures name != "" && name in agents && !agents[name] ==> name in explicitlyOfflineAgents && name !in onlineAgents
      ensures answered ==> onlineAgents == old(onlineAgents)
    {
      if name == "" || name !in agents || agents[name] {
        return true;
      }
      explicitlyOfflineAgents := explicitlyOfflineAgents + {name};
      if name !in onlineAgents {
        return true;
      }
      onlineAgents := onlineAgents - {name};
      stopping := stopping + multiset{name};
      assert stopping[name] == old(stopping)[name] + 1;
      answered := false;
    }

    /** `cello_set_agent_offline`, after the teardown. */
    method FinishOffline(name: string)
      requires name in stopping
      modifies `perConnectionState, `holders, `listeners, `stopping
      ensures View() == DoOfflineEnd(old(View()), name)
      ensures Forgotten(name)
    {
      ClearAgent(name);
      ClearFromConnections(name);
      stopping := stopping - multiset{name};
    }

    /** `cello_remove_agent`, once the revocation is out: the agent goes offline and its runtime is torn down. */
    method BeginRemoval(name: string)
      modifies `onlineAgents, `removing
      ensures View() == DoRetireBegin(old(View()), name)
    {
      if name in onlineAgents {
        onlineAgents := onlineAgents - {name};
      }
      removing := removing + multiset{name};
    }

    method FinishRemoval(name: string)
      requires name in removing
      modifies `agents, `perConnectionState, `holders, `listeners, `removing
      ensures View() == DoRetireEnd(old(View()), name)
      ensures Forgotten(name) && name !in agents
    {
      ClearAgent(name);
      agents := agents - {name};
      ClearFromConnections(name);
      removing := removing - multiset{name};
    }

    method ClearAgent(name: string)
      modifies `holders, `listeners
      ensures Registry(holders, listeners) == AgentCleared(old(Registry(holders, listeners)), name)
    {
      holders := Dropped(holders, name);
      listeners := listeners - {name};
    }

    /** The loop over all connections. */
    method ClearFromConnections(name: string)
      modifies `perConnectionState
      ensures perConnectionState == Cleared(old(perConnectionState), name)
    {
      var left := perConnectionState.Keys;
      while left != {}
        invariant left <= perConnectionState.Keys == old(perConnectionState).Keys
        invariant forall c :: c in perConnectionState ==>
                    perConnectionState[c] == (if c in left then old(perConnectionState)
                        else Cleared(old(perConnectionState), name))[c]
        decreases |left|
      {
        var c :| c in left;
        var state := perConnectionState[c];
        if state.currentAgent == Some(name) {
          perConnectionState := perConnectionState[c := state.(currentAgent := None, clearedAgent := Some(name))];
        }
        left := left - {c};
      }
    }

    /** `cello_use_agent`. */
    method UseAgent(c: nat, name: string, caller: Caller, force: bool, replay: bool) returns (answer: Answer)
      modifies `perConnectionState, `holders, `listeners
      ensures (View(), answer) == DoUse(old(View()), c, name, caller, force, replay)
      ensures answer.Using? || answer.Refused?
      ensures answer.Using? ==>
                c in perConnectionState && perConnectionState[c].currentAgent == Some(name) &&
                    perConnectionState[c].clearedAgent.None? &&
                name in onlineAgents && name in agents && name !in channels
      ensures answer.Refused? ==> View() == old(View())
      ensures forall d :: d in perConnectionState && d != c ==>
                d in old(perConnectionState) && perConnectionState[d] == old(perConnectionState)[d]
    {
      hide Taken, HolderOf, Dropped, HeldBy;
      var refused := UseRefused(Agents(agents, channels, onlineAgents, explicitlyOfflineAgents), perConnectionState, c,
          name);
      if refused.Some? {
        return Refused(refused.value);
      }
      var conn := perConnectionState[c];
      var from := conn.currentAgent;
      if conn.client == Hermes {
        if from == Some(name) {
          return Refused("agent_already_current");
        }
        listeners := WithoutListener(listeners, from, c);
        listeners := listeners[name := c];
        answer := Using(Listener);
      } else {
        if from == Some(name) && HolderOf(holders, name) == Some(caller) {
          return Refused("agent_already_current");
        }
        if MayTake(holders, name, caller, force) {
          holders := Taken(holders, name, caller);
          answer := Using(Holder);
        } else if replay {
          answer := Using(Reader);
        } else {
          return Refused("agent_held");
        }
      }
      perConnectionState := perConnectionState[c := conn.(currentAgent := Some(name), clearedAgent := None)];
    }

    /** `cello_stop_using_agent`. */
    method StopUsingAgent(c: nat, caller: Caller) returns (answer: Answer)
      modifies `perConnectionState, `holders, `listeners
      ensures (View(), answer) == DoStopUsing(old(View()), c, caller)
      ensures c in perConnectionState ==>
              perConnectionState[c].currentAgent.None? && perConnectionState[c].clearedAgent.None?
      ensures answer.Refused? ==> View() == old(View())
    {
      hide HolderOf, Dropped, HeldBy, WithoutListener;
      if c !in perConnectionState {
        return Refused("connection_not_registered");
      }
      var conn := perConnectionState[c];
      var from := if conn.currentAgent.Some? then conn.currentAgent else HeldBy(holders, caller);
      perConnectionState := perConnectionState[c := conn.(currentAgent := None, clearedAgent := None)];
      if from.None? {
        return Released(None);
      }
      if conn.client == Hermes {
        listeners := WithoutListener(listeners, from, c);
      } else if HolderOf(holders, from.value) == Some(caller) {
        holders := Dropped(holders, from.value);
      }
      return Released(from);
    }

    /** `agent.attend`. */
    method AttendAgent(c: nat, agent: Option<string>, caller: Caller) returns (answer: Answer)
      modifies `perConnectionState, `holders
      ensures (View(), answer) == DoAttend(old(View()), c, agent, caller)
      ensures answer.Done? ==>
                c in perConnectionState && perConnectionState[c].currentAgent.Some? &&
                perConnectionState[c].currentAgent.value in onlineAgents
      ensures answer.Refused? ==> View() == old(View())
    {
      hide Taken, HolderOf, Dropped, HeldBy;
      if c !in perConnectionState || perConnectionState[c].client != Endpoint {
        return Refused("endpoint_only");
      }
      var name := if agent.Some? then agent else HeldBy(holders, caller);
      if name.None? || name.value == "" || name.value !in agents {
        return Refused("no_current_agent");
      }
      if name.value !in onlineAgents {
        return Refused("agent_offline");
      }
      if !MayTake(holders, name.value, caller, false) {
        return Refused("agent_held");
      }
      holders := Taken(holders, name.value, caller);
      perConnectionState := perConnectionState[c := perConnectionState[c].(currentAgent := name)];
      return Done;
    }

    method ConnectionClosed(c: nat)
      modifies `perConnectionState, `holders, `listeners
      ensures View() == DoDisconnect(old(View()), c)
      ensures c !in perConnectionState
    {
      holders := DroppedCaller(holders, SocketCaller(c));
      listeners := ListenersWithout(listeners, c);
      perConnectionState := perConnectionState - {c};
    }
  }
}
