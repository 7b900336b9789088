/**
 The agent-id migration: every table still keyed by name is rebuilt, in one transaction with foreign keys off,
 or none is.
 */
module AgentIdMigration {
  import opened AgentRekey
  import opened Wrappers

  type Tables = map<string, Table>

  datatype Report = Report(migrated: bool, rowCounts: map<string, nat>)

  function TemporaryName(table: string): string {
    table + "_rekey_new"
  }

  // ----- what the migration does to the tables

  predicate NeedsRekey(tables: Tables, target: Target) {
    target.table in tables && "agent_id" !in tables[target.table].columns
  }

  function Pending(tables: Tables, targets: seq<Target>): (pending: seq<Target>)
    ensures forall t :: t in pending <==> t in targets && NeedsRekey(tables, t)
  {
    if targets == [] then []
    else (if NeedsRekey(tables, targets[0]) then [targets[0]] else []) + Pending(tables, targets[1..])
  }

  function Counts(tables: Tables, pending: seq<Target>): (counts: map<string, nat>)
    requires forall t :: t in pending ==> t.table in tables
    ensures forall t :: t in pending ==> t.table in counts && counts[t.table] == |tables[t.table].rows|
  {
    if pending == [] then map[]
    else
      var last := pending[|pending| - 1];
      assert forall t :: t in pending ==> t == last || t in pending[..|pending| - 1];
      Counts(tables, pending[..|pending| - 1])[last.table := |tables[last.table].rows|]
  }

  function RebuildAll(tables: Tables, agents: seq<Agent>, pending: seq<Target>,
      counts: map<string, nat>): Result<Tables, Error>
    requires forall t :: t in pending ==> t.table in tables && t.table in counts
  {
    if pending == [] then Ok(tables)
    else
      var target := pending[0];
      if TemporaryName(target.table) in tables then Err(TableExists)
      else
        match Rebuilt(target, tables[target.table], agents, counts[target.table])
        case Err(e) => Err(e)
        case Ok(made) => RebuildAll(tables[target.table := made], agents, pending[1..], counts)
  }

  /** The names more than one agent has. */
  function AmbiguousNames(agents: seq<Agent>): set<string> {
    if agents == [] then {}
    else
      var before, name := agents[..|agents| - 1], agents[|agents| - 1].name;
      AmbiguousNames(before) + if Named(before, name) then {name} else {}
  }

  predicate Named(agents: seq<Agent>, name: string) {
    exists i :: 0 <= i < |agents| && agents[i].name == name
  }

  function Migrated(tables: Tables, agents: seq<Agent>, targets: seq<Target>): Result<Tables, Error> {
    var pending := Pending(tables, targets);
    if pending == [] then Ok(tables)
    else if AmbiguousNames(agents) != {} then Err(Ambiguous(AmbiguousNames(agents)))
    else RebuildAll(tables, agents, pending, Counts(tables, pending))
  }

  // ----- the properties

  ghost predicate ValidTargets(targets: seq<Target>) {
    && (forall i :: 0 <= i < |targets| ==> ValidTarget(targets[i]))
    && (forall i, j :: 0 <= i < j < |targets| ==> targets[i].table != targets[j].table)
  }

  lemma {:induction false} NoAmbiguousNames(agents: seq<Agent>)
    ensures AmbiguousNames(agents) == {} <==> Unambiguous(agents)
  {
    if agents != [] {
      var before := agents[..|agents| - 1];
      NoAmbiguousNames(before);
      if Unambiguous(agents) {
        assert Unambiguous(before);
        assert !Named(before, agents[|agents| - 1].name);
      }
      if Unambiguous(before) && !Named(before, agents[|agents| - 1].name) {
        assert forall i :: 0 <= i < |before| ==> agents[i] == before[i];
      }
    }
  }

  lemma {:induction false} PendingValid(tables: Tables, targets: seq<Target>)
    requires ValidTargets(targets)
    ensures ValidTargets(Pending(tables, targets))
  {
    if targets != [] {
      var rest := targets[1..];
      PendingValid(tables, rest);
      var pending := Pending(tables, rest);
      forall i | 0 <= i < |pending|
        ensures pending[i].table != targets[0].table
      {
        assert pending[i] in rest;
      }
    }
  }

  /** Rebuilding touches the pending tables only, and makes each what its own rebuild makes of it. */
  lemma {:induction false} RebuildAllTables(tables: Tables, agents: seq<Agent>, pending: seq<Target>,
      counts: map<string, nat>)
    requires forall t :: t in pending ==> t.table in tables && t.table in counts
    requires ValidTargets(pending) && RebuildAll(tables, agents, pending, counts).Ok?
    ensures var after := RebuildAll(tables, agents, pending, counts).value;
            after.Keys == tables.Keys &&
            (forall name :: name in tables && (forall i :: 0 <= i < |pending| ==> pending[i].table != name) ==>
                after[name] == tables[name]) &&
            forall i :: 0 <= i < |pending| ==>
              Rebuilt(pending[i], tables[pending[i].table], agents, counts[pending[i].table]) ==
                  Ok(after[pending[i].table])
  {
    if pending != [] {
      var target, rest := pending[0], pending[1..];
      var next := tables[target.table := Rebuilt(target, tables[target.table], agents, counts[target.table]).value];
      hide Rebuilt, ValidTarget;
      assert forall i :: 0 <= i < |rest| ==> rest[i] == pending[i + 1] && next[rest[i].table] == tables[rest[i].table];
      RebuildAllTables(next, agents, rest, counts);
    }
  }

  lemma RebuiltHasId(target: Target, legacy: Table, agents: seq<Agent>, expected: nat)
    requires ValidTarget(target) && Rebuilt(target, legacy, agents, expected).Ok?
    ensures "agent_id" in Rebuilt(target, legacy, agents, expected).value.columns
  {
    NamesOf(target.columns);
    var i :| 0 <= i < |target.columns| && target.columns[i].name == "agent_id";
    assert Names(target.columns)[i] == "agent_id";
    hide Names, Admissible, IndexDistinct, Copied, Unresolved;
  }

  /** A migration that succeeds leaves no table pending; so a second one finds nothing to do. */
  lemma SuccessLeavesNothingPending(tables: Tables, agents: seq<Agent>, targets: seq<Target>)
    requires ValidTargets(targets) && Migrated(tables, agents, targets).Ok?
    ensures var after := Migrated(tables, agents, targets).value;
            Pending(after, targets) == [] && Migrated(after, agents, targets) == Ok(after)
  {
    var after := Migrated(tables, agents, targets).value;
    if Pending(tables, targets) != [] && Pending(after, targets) != [] {
      var t := Pending(after, targets)[0];
      assert t in Pending(after, targets);
      hide Migrated, ValidTargets, Pending, NeedsRekey;
      TargetNotPendingAfter(tables, agents, targets, t);
    }
  }

  lemma TargetNotPendingAfter(tables: Tables, agents: seq<Agent>, targets: seq<Target>, t: Target)
    requires ValidTargets(targets) && Migrated(tables, agents, targets).Ok? && t in targets &&
             Pending(tables, targets) != []
    ensures !NeedsRekey(Migrated(tables, agents, targets).value, t)
  {
    var pending := Pending(tables, targets);
    PendingValid(tables, targets);
    RebuildAllTables(tables, agents, pending, Counts(tables, pending));
    hide RebuildAll, Rebuilt, ValidTarget;
    if t in pending {
      var i :| 0 <= i < |pending| && pending[i] == t;
      RebuiltHasId(t, tables[t.table], agents, Counts(tables, pending)[t.table]);
    } else if t.table in tables {
      TargetsByName(targets, pending, t);
    }
  }

  lemma TargetsByName(targets: seq<Target>, pending: seq<Target>, t: Target)
    requires ValidTargets(targets) && t in targets && t !in pending && forall p :: p in pending ==> p in targets
    ensures forall i :: 0 <= i < |pending| ==> pending[i].table != t.table
  {
    forall i | 0 <= i < |pending|
      ensures pending[i].table != t.table
    {
      assert pending[i] in targets;
    }
  }

  /**
   The pending tables are rebuilt if and only if each of them can be, as it was, with its temporary table's name free.
   */
  lemma {:induction false} RebuildAllExactly(tables: Tables, agents: seq<Agent>, pending: seq<Target>,
      counts: map<string, nat>)
    requires ValidTargets(pending) && forall t :: t in pending ==> t.table in tables && t.table in counts
    ensures RebuildAll(tables, agents, pending, counts).Ok? <==>
            forall t :: t in pending ==>
              TemporaryName(t.table) !in tables && Rebuilt(t, tables[t.table], agents, counts[t.table]).Ok?
  {
    if pending != [] {
      var target, rest := pending[0], pending[1..];
      assert forall t :: t in pending <==> t == target || t in rest;
      var rebuilt := Rebuilt(target, tables[target.table], agents, counts[target.table]);
      if TemporaryName(target.table) !in tables && rebuilt.Ok? {
        var next := tables[target.table := rebuilt.value];
        hide Rebuilt, ValidTarget;
        assert forall t :: t in rest ==> t.table != target.table && next[t.table] == tables[t.table];
        RebuildAllExactly(next, agents, rest, counts);
      }
    }
  }

  lemma MigratedExactly(tables: Tables, agents: seq<Agent>, targets: seq<Target>)
    requires ValidTargets(targets)
    ensures Migrated(tables, agents, targets).Ok? <==>
            Pending(tables, targets) == [] ||
            (Unambiguous(agents) && forall t :: t in Pending(tables, targets) ==>
               TemporaryName(t.table) !in tables && Rebuilt(t, tables[t.table], agents, |tables[t.table].rows|).Ok?)
  {
    var pending := Pending(tables, targets);
    PendingValid(tables, targets);
    NoAmbiguousNames(agents);
    RebuildAllExactly(tables, agents, pending, Counts(tables, pending));
    hide RebuildAll, Rebuilt, AmbiguousNames, Unambiguous, ValidTargets;
  }

  /**
   When the migration succeeds, every pending table has its old rows one for one, each with every carried column as
   it was and the id of the agent of its name.
   */
  lemma EveryRowIsKept(tables: Tables, agents: seq<Agent>, targets: seq<Target>, t: Target)
    requires ValidTargets(targets) && Migrated(tables, agents, targets).Ok? && t in Pending(tables, targets)
    ensures var legacy, after := tables[t.table], Migrated(tables, agents, targets).value;
            t.table in after && |after[t.table].rows| == |legacy.rows| &&
            forall k :: 0 <= k < |legacy.rows| ==>
                Corresponds(t, legacy, agents, legacy.rows[k], after[t.table].rows[k])
  {
    var pending := Pending(tables, targets);
    PendingValid(tables, targets);
    NoAmbiguousNames(agents);
    RebuildAllTables(tables, agents, pending, Counts(tables, pending));
    var i :| 0 <= i < |pending| && pending[i] == t;
    hide RebuildAll, Rebuilt, Corresponds, ValidTarget, Unambiguous;
    RebuiltRowsCorrespond(t, tables[t.table], agents);
  }

  lemma SuccessKeepsTables(tables: Tables, agents: seq<Agent>, targets: seq<Target>)
    requires ValidTargets(targets) && Migrated(tables, agents, targets).Ok?
    ensures Migrated(tables, agents, targets).value.Keys == tables.Keys
  {
    var pending := Pending(tables, targets);
    if pending != [] {
      PendingValid(tables, targets);
      RebuildAllTables(tables, agents, pending, Counts(tables, pending));
    }
  }

  /** Tables that were not pending are as they were. */
  lemma OtherTablesUntouched(tables: Tables, agents: seq<Agent>, targets: seq<Target>, name: string)
    requires ValidTargets(targets) && Migrated(tables, agents, targets).Ok? && name in tables
    requires forall t :: t in Pending(tables, targets) ==> t.table != name
    ensures var after := Migrated(tables, agents, targets).value;
            after.Keys == tables.Keys && after[name] == tables[name]
  {
    var pending := Pending(tables, targets);
    if pending != [] {
      PendingValid(tables, targets);
      RebuildAllTables(tables, agents, pending, Counts(tables, pending));
    }
  }

  // ----- the database and the procedure

  class Database {
    var tables: Tables
    var foreignKeys: bool
    var snapshot: Option<Tables>
    const agents: seq<Agent>
    /** What dropping a table deletes elsewhere while foreign keys are live. */
    const cascade: (Tables, string) -> Tables
    /** Whether `foreign_key_check` finds a dangling reference. */
    const dangling: Tables -> bool

    constructor (tables: Tables, agents: seq<Agent>, cascade: (Tables, string) -> Tables, dangling: Tables -> bool)
      ensures this.tables == tables && this.agents == agents && this.cascade == cascade && this.dangling == dangling
      ensures foreignKeys && snapshot.None?
    {
      this.tables, this.agents, this.cascade, this.dangling := tables, agents, cascade, dangling;
      foreignKeys, snapshot := true, None;
    }

    /** Inside a transaction the pragma is silently ignored. */
    method SetForeignKeys(on: bool)
      modifies `foreignKeys
      ensures foreignKeys == if snapshot.None? then on else old(foreignKeys)
    {
      if snapshot.None? {
        foreignKeys := on;
      }
    }

    method Begin() returns (ok: bool)
      modifies `snapshot
      ensures ok == old(snapshot).None? && snapshot == if ok then Some(tables) else old(snapshot)
    {
      ok := snapshot.None?;
      if ok {
        snapshot := Some(tables);
      }
    }

    method Commit()
      modifies `snapshot
      ensures snapshot.None?
    {
      snapshot := None;
    }

    method Rollback()
      requires snapshot.Some?
      modifies `tables, `snapshot
      ensures tables == old(snapshot).value && snapshot.None?
    {
      tables, snapshot := snapshot.value, None;
    }

    method Create(name: string, columns: seq<Column>) returns (ok: bool)
      modifies `tables
      ensures ok == (name !in old(tables)) && tables == if ok then old(tables)[name := Table(Names(columns), [])]
              else old(tables)
    {
      ok := name !in tables;
      if ok {
        tables := tables[name := Table(Names(columns), [])];
      }
    }

    /** One statement inserts all its rows or fails. */
    method Insert(name: string, target: Target, rows: seq<Row>) returns (ok: bool)
      requires name in tables && tables[name].rows == []
      modifies `tables
      ensures ok == Admissible(target, rows)
      ensures tables == if ok then old(tables)[name := Table(old(tables)[name].columns, rows)] else old(tables)
    {
      ok := Admissible(target, rows);
      if ok {
        tables := tables[name := Table(tables[name].columns, rows)];
      }
    }

    method Drop(name: string)
      modifies `tables
      ensures !foreignKeys ==> tables == old(tables) - {name}
    {
      if foreignKeys {
        tables := cascade(tables, name);
      }
      tables := tables - {name};
    }

    method Rename(from: string, to: string)
      requires from in tables
      modifies `tables
      ensures tables == (old(tables) - {from})[to := old(tables)[from]]
    {
      tables := (tables - {from})[to := tables[from]];
    }

    /** The rows of the old table go into the new one, or a statement fails. */
    method Copy(target: Target, temporary: string) returns (failure: Option<Error>)
      requires target.table in tables && temporary in tables && temporary != target.table &&
               tables[temporary].rows == []
      modifies `tables
      ensures var copied := Copied(target, old(tables)[target.table], agents);
              match copied
              case Err(e) => failure == Some(e)
              case Ok(rows) =>
                if Admissible(target, rows) then
                  failure.None? && tables == old(tables)[temporary := Table(old(tables)[temporary].columns, rows)]
                else failure == Some(ConstraintFailed)
    {
      var legacy := tables[target.table];
      var carried := Carried(legacy.columns, Names(target.columns));
      var ok;
      if "agent_name" in legacy.columns {
        ok := Insert(temporary, target, Joined(target, carried, legacy.rows, agents));
      } else {
        if target.strict {
          return Some(Impossible);
        }
        if carried == [] {
          return Some(SyntaxError);
        }
        ok := Insert(temporary, target, Plain(target, carried, legacy.rows));
      }
      failure := if ok then None else Some(ConstraintFailed);
    }

    /** One turn of the loop: create, copy, count, check, drop, rename, index. */
    method Rebuild(target: Target, expected: nat) returns (r: Result<nat, Error>)
      requires target.table in tables && !foreignKeys
      modifies `tables
      ensures var spec := Rebuilt(target, old(tables)[target.table], agents, expected);
              if TemporaryName(target.table) in old(tables) then r == Err(TableExists)
              else if spec.Err? then r == Err(spec.error)
              else r == Ok(expected) && tables == old(tables)[target.table := spec.value]
    {
      hide Joined, Plain, Admissible, IndexDistinct, Unattributed, Orphans;
      var temporary := TemporaryName(target.table);
      assert |temporary| > |target.table|;
      var ok := Create(temporary, target.columns);
      if !ok {
        return Err(TableExists);
      }
      var failure := Copy(target, temporary);
      if failure.Some? {
        return Err(failure.value);
      }
      var after := |tables[temporary].rows|;
      if after != expected {
        return Err(CountMismatch(expected, after));
      }
      var unresolved := Unresolved(target, tables[target.table], tables[temporary].rows, agents);
      if unresolved > 0 {
        return Err(Incomplete(unresolved));
      }
      Drop(target.table);
      Rename(temporary, target.table);
      if !IndexDistinct(tables[target.table].rows, target.index) {
        return Err(ConstraintFailed);
      }
      return Ok(after);
    }

    /** The body of the transaction. */
    method RebuildPending(pending: seq<Target>, before: map<string, nat>) returns (r: Result<map<string, nat>, Error>)
      requires !foreignKeys && forall t :: t in pending ==> t.table in tables && t.table in before
      modifies `tables
      ensures match RebuildAll(old(tables), agents, pending, before)
              case Err(e) => r == Err(e)
              case Ok(after) => tables == after && r == Ok(CountsOf(pending, before))
    {
      var rowCounts: map<string, nat> := map[];
      var i := 0;
      while i < |pending|
        invariant 0 <= i <= |pending| && forall t :: t in pending ==> t.table in tables
        invariant RebuildAll(tables, agents, pending[i..], before) == RebuildAll(old(tables), agents, pending, before)
        invariant rowCounts == CountsOf(pending[..i], before)
      {
        hide Rebuilt, CountsOf;
        var target := pending[i];
        assert pending[i..][0] == target && pending[i..][1..] == pending[i + 1..];
        var one := Rebuild(target, before[target.table]);
        if one.Err? {
          return Err(one.error);
        }
        rowCounts := rowCounts[target.table := one.value];
        CountsOfNext(pending, i, before);
        i := i + 1;
      }
      assert pending[..i] == pending;
      return Ok(rowCounts);
    }

    method CountRows(pending: seq<Target>) returns (before: map<string, nat>)
      requires forall t :: t in pending ==> t.table in tables
      ensures before == Counts(tables, pending)
    {
      before := map[];
      var i := 0;
      while i < |pending|
        invariant 0 <= i <= |pending|
        invariant forall t :: t in pending[..i] ==> t.table in tables
        invariant before == Counts(tables, pending[..i])
      {
        assert pending[..i + 1][..i] == pending[..i] && pending[i] in pending;
        before := before[pending[i].table := |tables[pending[i].table].rows|];
        i := i + 1;
      }
      assert pending[..i] == pending;
    }

    /** The names, and those that more than one agent has. */
    method BuildNameToAgentId() returns (ids: map<string, Value>, ambiguous: set<string>)
      ensures ambiguous == AmbiguousNames(agents)
      ensures forall name :: name in ids <==> Named(agents, name)
      ensures ambiguous == {} ==> forall i :: 0 <= i < |agents| ==>
              agents[i].name in ids && ids[agents[i].name] == agents[i].id
    {
      ids, ambiguous := map[], {};
      var i := 0;
      while i < |agents|
        invariant 0 <= i <= |agents| && ambiguous == AmbiguousNames(agents[..i])
        invariant forall name :: name in ids <==> Named(agents[..i], name)
        invariant ambiguous == {} ==> forall j :: 0 <= j < i ==>
                  agents[j].name in ids && ids[agents[j].name] == agents[j].id
      {
        assert agents[..i + 1][..i] == agents[..i];
        NamedNext(agents, i);
        if agents[i].name in ids {
          ambiguous := ambiguous + {agents[i].name};
        }
        ids := ids[agents[i].name := agents[i].id];
        i := i + 1;
      }
      assert agents[..i] == agents;
    }

    /**
     Outside a transaction: the tables become what `Migrated` says when it succeeds and stay as they were when it
     does not. The answer is an error then, and also when the rebuilt database has a dangling reference, which is
     found only after the commit. Inside a transaction nothing is touched.
     */
    method Migrate(targets: seq<Target>) returns (r: Result<Report, Error>)
      modifies this
      ensures snapshot == old(snapshot)
      ensures old(snapshot).None? && Pending(old(tables), targets) != [] && AmbiguousNames(agents) == {} ==> foreignKeys
      ensures old(snapshot).Some? ==> tables == old(tables) && (Pending(tables, targets) != [] ==> r.Err?)
      ensures old(snapshot).None? ==>
                var pending, m := Pending(old(tables), targets), Migrated(old(tables), agents, targets);
                tables == (if m.Ok? then m.value else old(tables)) &&
                r == if pending == [] then Ok(Report(false, map[]))
                     else if AmbiguousNames(agents) != {} then Err(Ambiguous(AmbiguousNames(agents)))
                     else if dangling(tables) then Err(ForeignKeyViolation)
                     else if m.Err? then Err(m.error)
                     else Ok(Report(true, CountsOf(pending, Counts(old(tables), pending))))
    {
      hide RebuildAll, CountsOf;
      var pending := Pending(tables, targets);
      if pending == [] {
        return Ok(Report(false, map[]));
      }
      var ids, ambiguous := BuildNameToAgentId();
      if ambiguous != {} {
        return Err(Ambiguous(ambiguous));
      }
      var before := CountRows(pending);
      SetForeignKeys(false);
      if foreignKeys {
        return Err(ForeignKeysLive);
      }
      r := InTransaction(pending, before);
      SetForeignKeys(true);
      if dangling(tables) {
        r := Err(ForeignKeyViolation);
      }
    }

    method InTransaction(pending: seq<Target>, before: map<string, nat>) returns (r: Result<Report, Error>)
      requires !foreignKeys && forall t :: t in pending ==> t.table in tables && t.table in before
      modifies `tables, `snapshot
      ensures snapshot == old(snapshot)
      ensures old(snapshot).Some? ==> tables == old(tables) && r == Err(NestedTransaction)
      ensures old(snapshot).None? ==>
                match RebuildAll(old(tables), agents, pending, before)
                case Err(e) => tables == old(tables) && r == Err(e)
                case Ok(after) => tables == after && r == Ok(Report(true, CountsOf(pending, before)))
    {
      var began := Begin();
      if !began {
        return Err(NestedTransaction);
      }
      hide RebuildAll, CountsOf;
      var counts := RebuildPending(pending, before);
      match counts
      case Ok(rowCounts) =>
        Commit();
        r := Ok(Report(true, rowCounts));
      case Err(e) =>
        Rollback();
        r := Err(e);
    }
  }

  /** The counts of the tables rebuilt. */
  function CountsOf(pending: seq<Target>, counts: map<string, nat>): map<string, nat>
    requires forall t :: t in pending ==> t.table in counts
  {
    if pending == [] then map[]
    else
      var last := pending[|pending| - 1];
      CountsOf(pending[..|pending| - 1], counts)[last.table := counts[last.table]]
  }

  lemma CountsOfNext(pending: seq<Target>, i: nat, counts: map<string, nat>)
    requires i < |pending| && forall t :: t in pending ==> t.table in counts
    ensures CountsOf(pending[..i + 1], counts) ==
            CountsOf(pending[..i], counts)[pending[i].table := counts[pending[i].table]]
  {
    assert pending[..i + 1][..i] == pending[..i];
  }

  lemma NamedNext(agents: seq<Agent>, i: nat)
    requires i < |agents|
    ensures forall name :: Named(agents[..i + 1], name) <==> Named(agents[..i], name) || name == agents[i].name
  {
    var before, all := agents[..i], agents[..i + 1];
    forall name
      ensures Named(all, name) <==> Named(before, name) || name == agents[i].name
    {
      if Named(before, name) {
        var j :| 0 <= j < |before| && before[j].name == name;
        assert all[j].name == name;
      }
      assert all[i] == agents[i];
    }
  }
}
