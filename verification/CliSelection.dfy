/**
 The command line's side of agent selection: the file that remembers it, and the replay that comes before a command.
 */
module CliSelection {
  import opened AgentSelection
  import opened AgentTimeline
  import opened Wrappers

  // ----- the file

  predicate IsSpace(c: char) {
    c == ' ' || c == '\n' || c == '\r' || c == '\t'
  }

  function TrimStart(s: string): string {
    if s != "" && IsSpace(s[0]) then TrimStart(s[1..]) else s
  }

  function TrimEnd(s: string): string {
    if s != "" && IsSpace(s[|s| - 1]) then TrimEnd(s[..|s| - 1]) else s
  }

  function Trim(s: string): string {
    TrimStart(TrimEnd(s))
  }

  /** What the file says: no file and a blank one both mean that nothing is selected. */
  function Selection(file: Option<string>): Option<string> {
    if file.Some? && Trim(file.value) != "" then Some(Trim(file.value)) else None
  }

  /** A name that a file can hold: not empty, no space at either end. */
  predicate Clean(name: string) {
    name != "" && !IsSpace(name[0]) && !IsSpace(name[|name| - 1])
  }

  lemma {:induction false} TrimEndClean(s: string)
    ensures TrimEnd(s) != "" ==> !IsSpace(TrimEnd(s)[|TrimEnd(s)| - 1])
    ensures |TrimEnd(s)| <= |s| && TrimEnd(s) == s[..|TrimEnd(s)|]
  {
    if s != "" && IsSpace(s[|s| - 1]) {
      TrimEndClean(s[..|s| - 1]);
    }
  }

  lemma {:induction false} TrimStartClean(s: string)
    ensures TrimStart(s) != "" ==> Clean(TrimStart(s)) || IsSpace(s[|s| - 1])
    ensures |TrimStart(s)| <= |s| && TrimStart(s) == s[|s| - |TrimStart(s)|..]
  {
    if s != "" && IsSpace(s[0]) {
      TrimStartClean(s[1..]);
    }
  }

  /** Trimming leaves nothing, or a name without spaces at its ends; and leaves exactly such names as they are. */
  lemma TrimExactly(s: string)
    ensures Trim(s) == "" || Clean(Trim(s))
    ensures s != "" ==> (Trim(s) == s <==> Clean(s))
  {
    TrimEndClean(s);
    TrimStartClean(TrimEnd(s));
  }

  /**
   What is written for a name is read back trimmed: as the name itself if and only if it has no space at either end.
   */
  lemma WrittenIsReadTrimmed(name: string)
    ensures Selection(Some(name + "\n")) == if Trim(name) == "" then None else Some(Trim(name))
    ensures Selection(Some(name + "\n")) == Some(name) <==> Clean(name)
  {
    assert (name + "\n")[..|name|] == name;
    assert TrimEnd(name + "\n") == TrimEnd(name);
    TrimExactly(name);
  }

  /** The commands that touch the file, with whether the daemon accepted. */
  datatype Command =
    | UseAgent(name: string, accepted: bool)
    | SetAgentOffline(name: string, accepted: bool)
    | StopUsingAgent

  function FileAfter(file: Option<string>, command: Command): Option<string> {
    match command
    case UseAgent(name, accepted) => if accepted then Some(name + "\n") else file
    case SetAgentOffline(name, accepted) => if accepted && Selection(file) == Some(name) then None else file
    case StopUsingAgent => None
  }

  function FileAfterAll(commands: seq<Command>): Option<string> {
    if commands == [] then None else FileAfter(FileAfterAll(commands[..|commands| - 1]), commands[|commands| - 1])
  }

  ghost predicate Sets(command: Command, name: string) {
    command.UseAgent? && command.accepted && Trim(command.name) == name != ""
  }

  ghost predicate Unsets(command: Command, name: string) {
    || command.StopUsingAgent? || command == SetAgentOffline(name, true)
    || (command.UseAgent? && command.accepted && Trim(command.name) != name)
  }

  /** `name` was selected with the daemon's consent, spaces at its ends aside, and nothing since unselected it. */
  ghost predicate StandsSelected(commands: seq<Command>, name: string) {
    exists i :: 0 <= i < |commands| && Sets(commands[i], name) && forall j :: i < j < |commands| ==>
        !Unsets(commands[j], name)
  }

  lemma StandsOn(commands: seq<Command>, command: Command, name: string)
    ensures StandsSelected(commands + [command], name) <==>
            Sets(command, name) || (StandsSelected(commands, name) && !Unsets(command, name))
  {
    var all := commands + [command];
    assert all[|commands|] == command;
    assert forall i :: 0 <= i < |commands| ==> all[i] == commands[i];
    if StandsSelected(commands, name) && !Unsets(command, name) {
      var i :| 0 <= i < |commands| && Sets(commands[i], name) && forall j :: i < j < |commands| ==>
          !Unsets(commands[j], name);
      assert Sets(all[i], name) && forall j :: i < j < |all| ==> !Unsets(all[j], name);
    }
    if StandsSelected(all, name) {
      var i :| 0 <= i < |all| && Sets(all[i], name) && forall j :: i < j < |all| ==> !Unsets(all[j], name);
      if i < |commands| {
        assert forall j :: i < j < |commands| ==> all[j] == commands[j] && !Unsets(commands[j], name);
        assert !Unsets(all[|commands|], name);
      }
    }
  }

  /**
   After any sequence of commands, the file names exactly the agent whose selection the daemon accepted last, if it
   was neither forgotten nor taken offline since. A selection the daemon refused is never remembered.
   */
  lemma {:induction false} FileIsLastAccepted(commands: seq<Command>, name: string)
    ensures Selection(FileAfterAll(commands)) == Some(name) <==> StandsSelected(commands, name)
  {
    if commands != [] {
      var before, last := commands[..|commands| - 1], commands[|commands| - 1];
      FileIsLastAccepted(before, name);
      StandsOn(before, last, name);
      assert commands == before + [last];
      if last.UseAgent? {
        WrittenIsReadTrimmed(last.name);
      }
    }
  }

  // ----- the replay

  datatype Listed = Listed(name: Option<string>, running: bool)

  /** The daemon's list of agents, when it has the expected shape. */
  type Listing = Option<seq<Listed>>

  datatype UseReply = Accepted | RefusedBy(reason: string) | Unrecognized

  predicate IsRunning(listing: Listing, name: string) {
    listing.Some? && exists i :: 0 <= i < |listing.value| && listing.value[i] == Listed(Some(name), true)
  }

  function KnownNames(listed: seq<Listed>): seq<string> {
    if listed == [] then []
    else KnownNames(listed[..|listed| - 1]) + if listed[|listed| - 1].name.Some? then [listed[|listed| - 1].name.value]
        else []
  }

  /** Why a command is not run, or none when it may be; `explicit` is the value of `--agent`. */
  function ReplayRefusal(explicit: Option<string>, file: Option<string>, listing: Listing,
      reply: UseReply): Option<string> {
    if explicit.Some? && Trim(explicit.value) == "" then Some("missing_agent_value")
    else
      var selected := if explicit.Some? then explicit else Selection(file);
      if selected.Some? then
        if !IsRunning(listing, selected.value) then Some("selected_agent_offline")
        else
          match reply
          case Accepted => None
          case RefusedBy(reason) => Some(reason)
          case Unrecognized => Some("unexpected_replay_response")
      else if listing.None? then Some("agent_list_unavailable")
      else if |KnownNames(listing.value)| > 1 then Some("no_agent_selected")
      else None
  }

  class CommandLine {
    var file: Option<string>

    constructor ()
      ensures file.None?
    {
      file := None;
    }

    method Run(command: Command)
      modifies this
      ensures file == FileAfter(old(file), command)
    {
      match command
      case UseAgent(name, accepted) =>
        if accepted {
          file := Some(name + "\n");
        }
      case SetAgentOffline(name, accepted) =>
        if accepted {
          var selected := ReadCurrentAgent();
          if selected == Some(name) {
            file := None;
          }
        }
      case StopUsingAgent =>
        file := None;
    }

    method ReadCurrentAgent() returns (selected: Option<string>)
      ensures selected == Selection(file)
    {
      if file.None? {
        return None;
      }
      var raw := Trim(file.value);
      return if |raw| > 0 then Some(raw) else None;
    }

    /** What a command does before it is run. */
    method ReplaySelectedAgent(explicit: Option<string>, listing: Listing, reply: UseReply)
      returns (refused: Option<string>)
      ensures refused == ReplayRefusal(explicit, file, listing, reply)
      ensures refused.None? && explicit.Some? ==> IsRunning(listing, explicit.value) && reply.Accepted?
      ensures refused.None? && explicit.None? && Selection(file).Some? ==>
                IsRunning(listing, Selection(file).value) && reply.Accepted?
      ensures refused.None? && explicit.None? && Selection(file).None? ==>
                listing.Some? && |KnownNames(listing.value)| <= 1
    {
      if explicit.Some? && Trim(explicit.value) == "" {
        return Some("missing_agent_value");
      }
      var selected := explicit;
      if explicit.None? {
        selected := ReadCurrentAgent();
      }
      if selected.Some? {
        if !IsRunning(listing, selected.value) {
          return Some("selected_agent_offline");
        }
        match reply
        case Accepted => return None;
        case RefusedBy(reason) => return Some(reason);
        case Unrecognized => return Some("unexpected_replay_response");
      }
      if listing.None? {
        return Some("agent_list_unavailable");
      }
      if |KnownNames(listing.value)| > 1 {
        return Some("no_agent_selected");
      }
      return None;
    }
  }

  // ----- a command, with everyone else at work

  /** The reply the daemon's answer to the replay amounts to. */
  ghost function ReplyOf(answer: Answer): UseReply {
    if answer.Refused? then RefusedBy(answer.reason) else Accepted
  }

  /** A listing of the agents known, and which of them are running. */
  ghost predicate Lists(listing: seq<Listed>, a: Agents) {
    && (forall name :: name in a.roster <==> name in KnownNames(listing))
    && forall name :: IsRunning(Some(listing), name) <==> name in a.roster && name in a.online
  }

  /**
   A command with a selected agent that passes the replay runs as that agent or as none: over every interleaving, from
   the moment the daemon answered the replay to the moment the command is carried out.
   */
  lemma CommandRunsAsSelected(run: seq<State>, events: seq<Event>, m: nat, n: nat, c: nat, caller: Caller,
      explicit: Option<string>, file: Option<string>, listing: Listing, name: string, agent: Option<string>)
    requires IsRun(run, events) && m < n < |run| && events[m] == Use(c, name, caller, false, true)
    requires forall i :: m < i < n ==> !By(events[i], c)
    requires name == if explicit.Some? then explicit.value
             else if Selection(file).Some? then Selection(file).value else ""
    requires ReplayRefusal(explicit, file, listing, ReplyOf(DoUse(run[m], c, name, caller, false, true).1)).None?
    requires explicit.Some? || Selection(file).Some?
    requires ActsAs(if c in run[n].conns then Some(run[n].conns[c]) else None, run[n].a.online, None, agent)
    ensures agent == Some(name) || agent == None
    ensures agent == None <==> TakenAway(events, name, m + 1, n)
  {
    UseAnswers(run[m], c, name, caller, false, true);
    AcceptedSelectionIsNeverAnother(run, events, m, n, c, name, caller, false, true, agent);
  }

  lemma UseAnswers(s: State, c: nat, name: string, caller: Caller, force: bool, replay: bool)
    ensures DoUse(s, c, name, caller, force, replay).1.Using? || DoUse(s, c, name, caller, force, replay).1.Refused?
  {
    hide UseRefused, Taken, HolderOf, MayTake;
  }

  lemma {:induction false} OneKnown(names: seq<string>, a: string, b: string)
    requires |names| <= 1 && a in names && b in names
    ensures a == b
  {
  }

  ghost predicate NoneLoaded(events: seq<Event>, l: nat, n: nat)
    requires n <= |events|
  {
    forall i :: l <= i < n ==> !events[i].Load?
  }

  lemma {:induction false} RosterShrinks(run: seq<State>, events: seq<Event>, l: nat, n: nat)
    requires IsRun(run, events) && l <= n < |run| && NoneLoaded(events, l, n)
    ensures run[n].a.roster.Keys <= run[l].a.roster.Keys
    decreases n
  {
    if l < n {
      RosterShrinks(run, events, l, n - 1);
      RosterStep(run[n - 1], events[n - 1]);
    }
  }

  lemma RosterStep(s: State, e: Event)
    requires Enabled(s, e) && !e.Load?
    ensures Step(s, e).a.roster.Keys <= s.a.roster.Keys
  {
    hide Taken, Dropped, DroppedCaller, HolderOf, HeldBy, MayTake, WithoutListener, ListenersWithout, AgentCleared,
      Cleared, UseRefused;
  }

  /**
   A command with nothing selected that passes the replay runs as the one agent the daemon knew, or as none, provided
   no agent is loaded before it runs and none was started while being removed.
   */
  lemma UnselectedCommandRunsAsTheOnlyOne(run: seq<State>, events: seq<Event>, l: nat, n: nat, file: Option<string>,
      listing: seq<Listed>, reply: UseReply, conn: Option<Conn>, agent: string, other: string)
    requires IsRun(run, events) && l <= n < |run| && Lists(listing, run[l].a)
    requires conn.Some? ==> conn.value.currentAgent.None?
    requires Selection(file).None? && ReplayRefusal(None, file, Some(listing), reply).None?
    requires NoneLoaded(events, l, n)
    requires forall i :: 0 <= i < |events| && events[i].Start? ==> events[i].name !in run[i].removing
    requires ActsAs(conn, run[n].a.online, None, Some(agent)) && other in run[l].a.roster
    ensures agent == other
  {
    OnlyKnownAgentsOnline(run, events, n);
    RosterShrinks(run, events, l, n);
    assert agent in run[n].a.online;
    OneKnown(KnownNames(listing), agent, other);
  }

  /**
   A command with nothing selected that passes the replay runs as an agent the daemon did not list, if and only if no
   selection was taken away from its connection, no other agent is online, and since the listing that agent was
   started, loaded before that and not forgotten, and not stopped after; or it was online unknown all along, started
   in its removal.
   */
  lemma UnselectedCommandMovesExactly(run: seq<State>, events: seq<Event>, l: nat, n: nat, file: Option<string>,
      listing: seq<Listed>, reply: UseReply, conn: Option<Conn>, name: string)
    requires IsRun(run, events) && l <= n < |run| && Lists(listing, run[l].a) && name !in KnownNames(listing)
    requires conn.Some? ==> conn.value.currentAgent.None?
    requires Selection(file).None? && ReplayRefusal(None, file, Some(listing), reply).None?
    ensures ActsAs(conn, run[n].a.online, None, Some(name)) <==>
            (conn.Some? ==> !NonEmpty(conn.value.clearedAgent)) &&
            (forall other :: other in run[n].a.online ==> other == name) &&
            (StartedAndLeft(run, events, name, l, n) ||
             (StartedInRemoval(run, events, name, l) && NotStopped(run, events, name, l, n)))
    ensures forall i :: l <= i < n ==> (Starts(run[i], events[i], name) <==>
                                        events[i] == Start(name) && LoadedAndLeft(events, name, l, i))
  {
    UnknownActsExactly(run, events, l, n, name);
    StrayExactly(run, events, l, name);
    hide IsRun, Step, Enabled, StartedAndLeft, StartedInRemoval, NotStopped;
  }

  /** An agent the daemon did not know when it was asked. */
  lemma UnselectedCommandCanMove(a: string, b: string)
    requires a != b && b != ""
    ensures exists run: seq<State>, events: seq<Event> :: IsRun(run, events) && run[0].a.roster.Keys == {a} &&
              ReplayRefusal(None, None, Some([Listed(Some(a), false)]), Accepted).None? &&
              ActsAs(None, run[|events|].a.online, None, Some(b))
  {
    var s0 := Init(map[a := false], {});
    var s1 := s0.(a := s0.a.(roster := map[a := false, b := false]));
    var s2 := s1.(a := s1.a.(online := {b}));
    assert s0.a.roster[b := false] == s1.a.roster && s1.a.online + {b} == {b} && s1.a.explicitlyOffline - {b} == {};
    assert Step(s0, Load(b, false)) == s1;
    assert Step(s1, Start(b)) == s2;
    assert KnownNames([Listed(Some(a), false)]) == [a] by { assert [Listed(Some(a), false)][..0] == []; }
    assert s0.a.roster.Keys == {a};
    hide Step, Enabled;
    assert IsRun([s0, s1, s2], [Load(b, false), Start(b)]);
  }
}
