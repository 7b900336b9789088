/**
 Re-keying tables from `agent_name` to `agent_id`: what the rebuild of one table produces, and when it is refused.
 A table is its column names and its rows; a query is a function of the rows.
 */
module AgentRekey {
  import opened Wrappers

  datatype Value = Null | Text(text: string) | Number(n: int)

  type Row = map<string, Value>

  datatype Table = Table(columns: seq<string>, rows: seq<Row>)

  /** An `agents` row: the name is NOT NULL, the id a primary key. */
  datatype Agent = Agent(name: string, id: Value)

  /** A column of a pinned schema: what an insert that omits it stores, or whether it numbers the rows. */
  datatype Column = Column(name: string, notNull: bool, fallback: Value, auto: bool)

  /**
   A table with the schema it is rebuilt to: `strict` when every row must resolve to an agent, `key` the primary
   key's columns unless the key numbers itself, `index` those of a unique index in which null counts as "".
   */
  datatype Target = Target(table: string, strict: bool, columns: seq<Column>, key: seq<string>, index: seq<string>)

  datatype Content = Content(tables: map<string, Table>, agents: seq<Agent>)

  datatype Error =
    | Ambiguous(names: set<string>)
    | ForeignKeysLive
    | NestedTransaction
    | TableExists
    | Impossible
    | SyntaxError
    | ConstraintFailed
    | CountMismatch(before: nat, after: nat)
    | Incomplete(unresolved: nat)
    | ForeignKeyViolation

  function Get(row: Row, c: string): Value {
    if c in row then row[c] else Null
  }

  function Names(columns: seq<Column>): seq<string> {
    if columns == [] then [] else Names(columns[..|columns| - 1]) + [columns[|columns| - 1].name]
  }

  /** The legacy columns the rebuild copies. */
  function Carried(legacy: seq<string>, made: seq<string>): (carried: seq<string>)
    ensures forall c :: c in carried <==> c in legacy && c in made && c != "agent_name" && c != "id"
  {
    if legacy == [] then []
    else
      var c := legacy[|legacy| - 1];
      Carried(legacy[..|legacy| - 1], made) + if c != "agent_name" && c != "id" && c in made then [c] else []
  }

  // ----- the copy

  function Cell(column: Column, row: Row, carried: seq<string>, id: Value, position: nat): Value {
    if column.name == "agent_id" then id
    else if column.name in carried then Get(row, column.name)
    else if column.auto then Number(position)
    else column.fallback
  }

  /** The row inserted for an legacy row and an agent id. */
  function NewRow(columns: seq<Column>, row: Row, carried: seq<string>, id: Value, position: nat): Row {
    if columns == [] then map[]
    else
      var column := columns[|columns| - 1];
      var before := NewRow(columns[..|columns| - 1], row, carried, id, position);
      before[column.name := Cell(column, row, carried, id, position)]
  }

  /** The ids of the agents with a name: what the join finds. A null name equals nothing. */
  function Matches(agents: seq<Agent>, name: Value): seq<Value> {
    if agents == [] then []
    else
      var a := agents[|agents| - 1];
      Matches(agents[..|agents| - 1], name) + if name == Text(a.name) then [a.id] else []
  }

  /** An inner join finds the matches; a left join gives null when there is none. */
  function Owners(strict: bool, agents: seq<Agent>, name: Value): seq<Value> {
    var ids := Matches(agents, name);
    if ids == [] && !strict then [Null] else ids
  }

  function RowsFor(columns: seq<Column>, row: Row, carried: seq<string>, ids: seq<Value>,
      inserted: nat): (rows: seq<Row>)
    ensures |rows| == |ids|
  {
    if ids == [] then []
    else
      RowsFor(columns, row, carried, ids[..|ids| - 1], inserted) +
      [NewRow(columns, row, carried, ids[|ids| - 1], inserted + |ids|)]
  }

  /** `INSERT … SELECT … FROM legacy JOIN agents`. */
  function Joined(target: Target, carried: seq<string>, rows: seq<Row>, agents: seq<Agent>): seq<Row> {
    if rows == [] then []
    else
      var before, row := Joined(target, carried, rows[..|rows| - 1], agents), rows[|rows| - 1];
      before + RowsFor(target.columns, row, carried, Owners(target.strict, agents, Get(row, "agent_name")), |before|)
  }

  /** `INSERT … SELECT … FROM legacy`, for a table that never had a name. */
  function Plain(target: Target, carried: seq<string>, rows: seq<Row>): seq<Row> {
    if rows == [] then []
    else
      Plain(target, carried, rows[..|rows| - 1]) +
      [NewRow(target.columns, rows[|rows| - 1], carried, Null, |rows|)]
  }

  // ----- the checks

  predicate NotNulls(columns: seq<Column>, row: Row) {
    forall i :: 0 <= i < |columns| && columns[i].notNull ==> Get(row, columns[i].name) != Null
  }

  function KeyOf(row: Row, key: seq<string>): seq<Value> {
    if key == [] then [] else [Get(row, key[0])] + KeyOf(row, key[1..])
  }

  /** What a unique index over `COALESCE` compares. */
  function Coalesced(v: Value): Value {
    if v == Null then Text("") else v
  }

  function IndexOf(row: Row, index: seq<string>): seq<Value> {
    if index == [] then [] else [Coalesced(Get(row, index[0]))] + IndexOf(row, index[1..])
  }

  predicate KeysDistinct(rows: seq<Row>, key: seq<string>) {
    key == [] || forall i, j :: 0 <= i < j < |rows| ==> KeyOf(rows[i], key) != KeyOf(rows[j], key)
  }

  predicate IndexDistinct(rows: seq<Row>, index: seq<string>) {
    index == [] || forall i, j :: 0 <= i < j < |rows| ==> IndexOf(rows[i], index) != IndexOf(rows[j], index)
  }

  predicate Admissible(target: Target, rows: seq<Row>) {
    (forall i :: 0 <= i < |rows| ==> NotNulls(target.columns, rows[i])) && KeysDistinct(rows, target.key)
  }

  /** Rows without an agent id. */
  function Unattributed(rows: seq<Row>): nat {
    if rows == [] then 0
    else Unattributed(rows[..|rows| - 1]) + if Get(rows[|rows| - 1], "agent_id") == Null then 1 else 0
  }

  /** Rows with a name no agent has. */
  function Orphans(rows: seq<Row>, agents: seq<Agent>): nat {
    if rows == [] then 0
    else
      var name := Get(rows[|rows| - 1], "agent_name");
      Orphans(rows[..|rows| - 1], agents) + if name != Null && Matches(agents, name) == [] then 1 else 0
  }

  function Unresolved(target: Target, legacy: Table, rows: seq<Row>, agents: seq<Agent>): nat {
    if target.strict then Unattributed(rows)
    else if "agent_name" in legacy.columns then Orphans(legacy.rows, agents)
    else 0
  }

  /** The rows copied, or why the copy is impossible. */
  function Copied(target: Target, legacy: Table, agents: seq<Agent>): Result<seq<Row>, Error> {
    var carried := Carried(legacy.columns, Names(target.columns));
    if "agent_name" in legacy.columns then Ok(Joined(target, carried, legacy.rows, agents))
    else if target.strict then Err(Impossible)
    else if carried == [] then Err(SyntaxError)
    else Ok(Plain(target, carried, legacy.rows))
  }

  /** One table rebuilt, or refused; `expected` is its row count before the migration began. */
  function Rebuilt(target: Target, legacy: Table, agents: seq<Agent>, expected: nat): Result<Table, Error> {
    match Copied(target, legacy, agents)
    case Err(e) => Err(e)
    case Ok(rows) =>
      if !Admissible(target, rows) then Err(ConstraintFailed)
      else if |rows| != expected then Err(CountMismatch(expected, |rows|))
      else if Unresolved(target, legacy, rows, agents) > 0 then
        Err(Incomplete(Unresolved(target, legacy, rows, agents)))
      else if !IndexDistinct(rows, target.index) then Err(ConstraintFailed)
      else Ok(Table(Names(target.columns), rows))
  }

  // ----- what makes a schema usable

  ghost predicate HasColumn(columns: seq<Column>, name: string) {
    exists i :: 0 <= i < |columns| && columns[i].name == name
  }

  ghost predicate DistinctColumns(columns: seq<Column>) {
    forall i, j :: 0 <= i < j < |columns| ==> columns[i].name != columns[j].name
  }

  ghost predicate ValidTarget(target: Target) {
    && DistinctColumns(target.columns) && HasColumn(target.columns, "agent_id")
    && !HasColumn(target.columns, "agent_name")
  }

  lemma {:induction false} NamesOf(columns: seq<Column>)
    ensures |Names(columns)| == |columns| && forall i :: 0 <= i < |columns| ==> Names(columns)[i] == columns[i].name
  {
    if columns != [] {
      NamesOf(columns[..|columns| - 1]);
    }
  }

  lemma {:induction false} CellsOfNewRow(columns: seq<Column>, row: Row, carried: seq<string>, id: Value, position: nat,
      i: nat)
    requires DistinctColumns(columns) && i < |columns|
    ensures Get(NewRow(columns, row, carried, id, position), columns[i].name) ==
            Cell(columns[i], row, carried, id, position)
  {
    if i < |columns| - 1 {
      CellsOfNewRow(columns[..|columns| - 1], row, carried, id, position, i);
    }
  }

  // ----- unambiguous names

  ghost predicate Unambiguous(agents: seq<Agent>) {
    forall i, j :: 0 <= i < j < |agents| ==> agents[i].name != agents[j].name
  }

  /** Some agent of that name has that id. */
  ghost predicate Owns(agents: seq<Agent>, name: Value, id: Value) {
    exists i :: 0 <= i < |agents| && Text(agents[i].name) == name && agents[i].id == id
  }

  lemma {:induction false} MatchesOwn(agents: seq<Agent>, name: Value, k: nat)
    requires k < |Matches(agents, name)|
    ensures Owns(agents, name, Matches(agents, name)[k])
  {
    var before, a := agents[..|agents| - 1], agents[|agents| - 1];
    if k < |Matches(before, name)| {
      MatchesOwn(before, name, k);
      var i :| 0 <= i < |before| && Text(before[i].name) == name && before[i].id == Matches(before, name)[k];
      assert agents[i] == before[i];
    } else {
      assert agents[|agents| - 1] == a;
    }
  }

  lemma {:induction false} NoMatch(agents: seq<Agent>, name: Value)
    requires forall i :: 0 <= i < |agents| ==> Text(agents[i].name) != name
    ensures Matches(agents, name) == []
  {
    if agents != [] {
      NoMatch(agents[..|agents| - 1], name);
    }
  }

  lemma {:induction false} OneMatch(agents: seq<Agent>, name: Value)
    requires Unambiguous(agents)
    ensures |Matches(agents, name)| <= 1
  {
    if agents != [] {
      var before, a := agents[..|agents| - 1], agents[|agents| - 1];
      OneMatch(before, name);
      if name == Text(a.name) {
        NoMatch(before, name);
      }
    }
  }

  // ----- the row count

  ghost predicate Resolves(agents: seq<Agent>, row: Row) {
    Matches(agents, Get(row, "agent_name")) != []
  }

  /** The row that row `k` becomes when every row before it became one. */
  ghost predicate Becomes(target: Target, carried: seq<string>, legacy: Row, agents: seq<Agent>, k: nat, made: Row) {
    var ids := Owners(target.strict, agents, Get(legacy, "agent_name"));
    ids != [] && made == NewRow(target.columns, legacy, carried, ids[0], k + 1)
  }

  /**
   With unambiguous names the inner join gives at most one row for each, and as many rows as before exactly when
   every name resolves; then row by row. So the count check suffices.
   */
  lemma {:induction false} JoinCounts(target: Target, carried: seq<string>, rows: seq<Row>, agents: seq<Agent>)
    requires Unambiguous(agents)
    ensures |Joined(target, carried, rows, agents)| <= |rows|
    ensures |Joined(target, carried, rows, agents)| == |rows| <==>
            forall k :: 0 <= k < |rows| ==> !target.strict || Resolves(agents, rows[k])
    ensures |Joined(target, carried, rows, agents)| == |rows| ==>
            forall k :: 0 <= k < |rows| ==>
                Becomes(target, carried, rows[k], agents, k, Joined(target, carried, rows, agents)[k])
  {
    if rows != [] {
      var before, row := rows[..|rows| - 1], rows[|rows| - 1];
      JoinCounts(target, carried, before, agents);
      OneMatch(agents, Get(row, "agent_name"));
      var ids := Owners(target.strict, agents, Get(row, "agent_name"));
      assert ids != [] ==> ids[..|ids| - 1] == [];
      hide NewRow, Matches;
    }
  }

  lemma {:induction false} PlainRows(target: Target, carried: seq<string>, rows: seq<Row>)
    ensures |Plain(target, carried, rows)| == |rows|
    ensures forall k :: 0 <= k < |rows| ==>
            Plain(target, carried, rows)[k] == NewRow(target.columns, rows[k], carried, Null, k + 1)
  {
    if rows != [] {
      PlainRows(target, carried, rows[..|rows| - 1]);
      hide NewRow;
    }
  }

  /**
   Why names must be unambiguous: with two agents of one name, a row of that name makes up for a row whose name no
   agent has. The count is right and the rows are not.
   */
  lemma AmbiguousCountDeceives(target: Target, carried: seq<string>, name: string, orphan: string, a: Value, b: Value)
    requires target.strict && name != orphan
    ensures var agents := [Agent(name, a), Agent(name, b)];
            var rows: seq<Row> := [map["agent_name" := Text(orphan)], map["agent_name" := Text(name)]];
            |Joined(target, carried, rows, agents)| == |rows| && !Resolves(agents, rows[0])
  {
    hide NewRow;
    var agents := [Agent(name, a), Agent(name, b)];
    var r0: Row, r1: Row := map["agent_name" := Text(orphan)], map["agent_name" := Text(name)];
    assert agents[..1] == [Agent(name, a)] && agents[..1][..0] == [];
    assert Matches(agents[..1], Text(name)) == [a];
    assert Matches(agents, Text(name)) == [a, b];
    NoMatch(agents, Text(orphan));
    assert [r0, r1][..1] == [r0] && [r0][..0] == [];
    assert Joined(target, carried, [r0], agents) == [];
  }

  // ----- a table rebuilt

  /** What a migrated row keeps of the legacy one: every carried column, and its owner. */
  ghost predicate Corresponds(target: Target, legacy: Table, agents: seq<Agent>, row: Row, made: Row) {
    && (forall i :: 0 <= i < |target.columns| && target.columns[i].name in legacy.columns &&
                    target.columns[i].name != "id" && target.columns[i].name != "agent_id" ==>
          Get(made, target.columns[i].name) == Get(row, target.columns[i].name))
    && (if "agent_name" !in legacy.columns then Get(made, "agent_id") == Null
        else if Get(row, "agent_name") == Null then !target.strict && Get(made, "agent_id") == Null
        else Owns(agents, Get(row, "agent_name"), Get(made, "agent_id")))
  }

  lemma {:induction false} OrphanCounted(rows: seq<Row>, agents: seq<Agent>, k: nat)
    requires k < |rows| && Get(rows[k], "agent_name") != Null && Matches(agents, Get(rows[k], "agent_name")) == []
    ensures Orphans(rows, agents) > 0
  {
    if k < |rows| - 1 {
      OrphanCounted(rows[..|rows| - 1], agents, k);
    }
  }

  lemma CarriedCells(target: Target, legacy: Table, row: Row, id: Value, position: nat)
    requires ValidTarget(target)
    ensures var carried := Carried(legacy.columns, Names(target.columns));
            var made := NewRow(target.columns, row, carried, id, position);
            Get(made, "agent_id") == id &&
            forall i :: 0 <= i < |target.columns| && target.columns[i].name in legacy.columns &&
                        target.columns[i].name != "id" && target.columns[i].name != "agent_id" ==>
              Get(made, target.columns[i].name) == Get(row, target.columns[i].name)
  {
    var carried := Carried(legacy.columns, Names(target.columns));
    NamesOf(target.columns);
    forall i | 0 <= i < |target.columns|
      ensures Get(NewRow(target.columns, row, carried, id, position), target.columns[i].name) ==
              Cell(target.columns[i], row, carried, id, position)
      ensures target.columns[i].name in Names(target.columns)
    {
      CellsOfNewRow(target.columns, row, carried, id, position, i);
      assert Names(target.columns)[i] == target.columns[i].name;
    }
    hide NewRow, Names;
  }

  lemma OwnerOf(target: Target, legacy: Table, agents: seq<Agent>, row: Row)
    requires Unambiguous(agents) && Owners(target.strict, agents, Get(row, "agent_name")) != []
    ensures var name, id := Get(row, "agent_name"), Owners(target.strict, agents, Get(row, "agent_name"))[0];
            if Matches(agents, name) == [] then !target.strict && id == Null else Owns(agents, name, id) && name != Null
  {
    if Matches(agents, Get(row, "agent_name")) != [] {
      MatchesOwn(agents, Get(row, "agent_name"), 0);
    }
  }

  /**
   A rebuilt table holds its legacy rows one for one, each with every carried column unchanged and the id of an agent
   bearing its name; a null name stays null, and only where that is allowed.
   */
  lemma RebuiltRowsCorrespond(target: Target, legacy: Table, agents: seq<Agent>)
    requires ValidTarget(target) && Unambiguous(agents) && Rebuilt(target, legacy, agents, |legacy.rows|).Ok?
    ensures var made := Rebuilt(target, legacy, agents, |legacy.rows|).value;
            made.columns == Names(target.columns) && |made.rows| == |legacy.rows| &&
            forall k :: 0 <= k < |legacy.rows| ==> Corresponds(target, legacy, agents, legacy.rows[k], made.rows[k])
  {
    var carried, rows := Carried(legacy.columns, Names(target.columns)), Copied(target, legacy, agents).value;
    if "agent_name" in legacy.columns {
      JoinCounts(target, carried, legacy.rows, agents);
    } else {
      PlainRows(target, carried, legacy.rows);
    }
    forall k | 0 <= k < |legacy.rows|
      ensures Corresponds(target, legacy, agents, legacy.rows[k], rows[k])
    {
      hide Joined, Plain, NewRow, Admissible, IndexDistinct, Names, Carried;
      RowCorresponds(target, legacy, agents, k, rows[k]);
    }
  }

  lemma RowCorresponds(target: Target, legacy: Table, agents: seq<Agent>, k: nat, made: Row)
    requires ValidTarget(target) && Unambiguous(agents) && k < |legacy.rows|
    requires !target.strict && "agent_name" in legacy.columns ==> Orphans(legacy.rows, agents) == 0
    requires target.strict ==> "agent_name" in legacy.columns
    requires var carried := Carried(legacy.columns, Names(target.columns));
             if "agent_name" in legacy.columns then Becomes(target, carried, legacy.rows[k], agents, k, made)
             else made == NewRow(target.columns, legacy.rows[k], carried, Null, k + 1)
    ensures Corresponds(target, legacy, agents, legacy.rows[k], made)
  {
    var row := legacy.rows[k];
    hide NewRow, Names, Carried, Orphans, ValidTarget, Unambiguous;
    if "agent_name" in legacy.columns {
      OwnerOf(target, legacy, agents, row);
      CarriedCells(target, legacy, row, Owners(target.strict, agents, Get(row, "agent_name"))[0], k + 1);
      if Get(row, "agent_name") != Null && Matches(agents, Get(row, "agent_name")) == [] {
        OrphanCounted(legacy.rows, agents, k);
      }
    } else {
      CarriedCells(target, legacy, row, Null, k + 1);
    }
  }

  // ----- no spurious conflicts

  ghost predicate DistinctIds(agents: seq<Agent>) {
    forall i, j :: 0 <= i < j < |agents| ==> agents[i].id != agents[j].id
  }

  /** The key as the legacy table had it. */
  function LegacyKey(key: seq<string>): seq<string> {
    if key == [] then [] else [if key[0] == "agent_id" then "agent_name" else key[0]] + LegacyKey(key[1..])
  }

  ghost predicate KeyCarried(target: Target, legacy: Table) {
    forall i :: 0 <= i < |target.key| ==>
      target.key[i] == "agent_id" ||
      (target.key[i] in legacy.columns && target.key[i] != "id" && HasColumn(target.columns, target.key[i]))
  }

  lemma {:induction false} SameKey(target: Target, legacy: Table, agents: seq<Agent>, r: Row, s: Row, a: Row, b: Row,
      key: seq<string>)
    requires Corresponds(target, legacy, agents, r, a) && Corresponds(target, legacy, agents, s, b)
    requires DistinctIds(agents) && target.strict && "agent_name" in legacy.columns && KeyOf(a, key) == KeyOf(b, key)
    requires forall i :: 0 <= i < |key| ==>
               key[i] == "agent_id" || (key[i] in legacy.columns && key[i] != "id" && HasColumn(target.columns, key[i]))
    ensures KeyOf(r, LegacyKey(key)) == KeyOf(s, LegacyKey(key))
  {
    if key != [] {
      assert KeyOf(a, key)[0] == KeyOf(b, key)[0] && KeyOf(a, key)[1..] == KeyOf(b, key)[1..];
      SameKey(target, legacy, agents, r, s, a, b, key[1..]);
      assert Get(r, LegacyKey(key)[0]) == Get(s, LegacyKey(key)[0]);
    }
  }

  /** Where names and keys were unique, re-keying makes no two rows collide: it never fails on the primary key. */
  lemma KeysStayUnique(target: Target, legacy: Table, agents: seq<Agent>, made: seq<Row>)
    requires DistinctIds(agents) && target.strict && "agent_name" in legacy.columns && KeyCarried(target, legacy)
    requires KeysDistinct(legacy.rows, LegacyKey(target.key)) && |made| == |legacy.rows|
    requires forall k :: 0 <= k < |legacy.rows| ==> Corresponds(target, legacy, agents, legacy.rows[k], made[k])
    ensures KeysDistinct(made, target.key)
  {
    forall i, j | 0 <= i < j < |made| && target.key != []
      ensures KeyOf(made[i], target.key) != KeyOf(made[j], target.key)
    {
      if KeyOf(made[i], target.key) == KeyOf(made[j], target.key) {
        SameKey(target, legacy, agents, legacy.rows[i], legacy.rows[j], made[i], made[j], target.key);
      }
    }
  }

  lemma {:induction false} SameIndex(target: Target, legacy: Table, agents: seq<Agent>, r: Row, s: Row, a: Row, b: Row,
      rest: seq<string>)
    requires Corresponds(target, legacy, agents, r, a) && Corresponds(target, legacy, agents, s, b)
    requires IndexOf(a, rest) == IndexOf(b, rest)
    requires forall i :: 0 <= i < |rest| ==>
               rest[i] in legacy.columns && rest[i] != "id" && rest[i] != "agent_id" &&
                   HasColumn(target.columns, rest[i]) &&
               Get(r, rest[i]) != Null && Get(s, rest[i]) != Null
    ensures KeyOf(r, rest) == KeyOf(s, rest)
  {
    if rest != [] {
      assert IndexOf(a, rest)[0] == IndexOf(b, rest)[0] && IndexOf(a, rest)[1..] == IndexOf(b, rest)[1..];
      SameIndex(target, legacy, agents, r, s, a, b, rest[1..]);
      assert Get(a, rest[0]) == Get(r, rest[0]) && Get(b, rest[0]) == Get(s, rest[0]);
    }
  }

  /** A unique index that only adds the agent to columns that were unique before cannot fail. */
  lemma IndexStaysUnique(target: Target, legacy: Table, agents: seq<Agent>, made: seq<Row>, rest: seq<string>)
    requires target.index == ["agent_id"] + rest && rest != [] && KeysDistinct(legacy.rows, rest) &&
             |made| == |legacy.rows|
    requires forall k :: 0 <= k < |legacy.rows| ==> Corresponds(target, legacy, agents, legacy.rows[k], made[k])
    requires forall i :: 0 <= i < |rest| ==>
               rest[i] in legacy.columns && rest[i] != "id" && rest[i] != "agent_id" &&
                   HasColumn(target.columns, rest[i]) &&
               forall k :: 0 <= k < |legacy.rows| ==> Get(legacy.rows[k], rest[i]) != Null
    ensures IndexDistinct(made, target.index)
  {
    forall i, j | 0 <= i < j < |made|
      ensures IndexOf(made[i], target.index) != IndexOf(made[j], target.index)
    {
      assert target.index[1..] == rest;
      if IndexOf(made[i], target.index) == IndexOf(made[j], target.index) {
        assert IndexOf(made[i], target.index)[1..] == IndexOf(made[j], target.index)[1..];
        SameIndex(target, legacy, agents, legacy.rows[i], legacy.rows[j], made[i], made[j], rest);
      }
    }
  }

  // ----- when a rebuild goes through

  /** The row can supply every column that must not be null, the agent's id aside. */
  ghost predicate Supplies(target: Target, legacy: Table, row: Row) {
    forall i :: 0 <= i < |target.columns| && target.columns[i].notNull && target.columns[i].name != "agent_id" ==>
      if target.columns[i].name in legacy.columns && target.columns[i].name != "id" then
        Get(row, target.columns[i].name) != Null
      else target.columns[i].auto || target.columns[i].fallback != Null
  }

  /** Rows need no agent. */
  ghost predicate MayLackAgent(target: Target) {
    forall i :: 0 <= i < |target.columns| && target.columns[i].name == "agent_id" ==> !target.columns[i].notNull
  }

  lemma NotNullsExactly(target: Target, legacy: Table, row: Row, id: Value, position: nat)
    requires ValidTarget(target) && (id != Null || MayLackAgent(target))
    ensures NotNulls(target.columns,
            NewRow(target.columns, row, Carried(legacy.columns, Names(target.columns)), id, position)) <==>
            Supplies(target, legacy, row)
  {
    var carried := Carried(legacy.columns, Names(target.columns));
    NamesOf(target.columns);
    forall i | 0 <= i < |target.columns|
      ensures Get(NewRow(target.columns, row, carried, id, position), target.columns[i].name) ==
              Cell(target.columns[i], row, carried, id, position)
      ensures target.columns[i].name in Names(target.columns) && target.columns[i].name != "agent_name"
    {
      CellsOfNewRow(target.columns, row, carried, id, position, i);
      assert Names(target.columns)[i] == target.columns[i].name;
      assert HasColumn(target.columns, target.columns[i].name);
    }
    hide NewRow, Names;
  }

  lemma {:induction false} AllAttributed(rows: seq<Row>)
    requires forall k :: 0 <= k < |rows| ==> Get(rows[k], "agent_id") != Null
    ensures Unattributed(rows) == 0
  {
    if rows != [] {
      AllAttributed(rows[..|rows| - 1]);
    }
  }

  ghost predicate IdsPresent(agents: seq<Agent>) {
    forall i :: 0 <= i < |agents| ==> agents[i].id != Null
  }

  /** A strict table as the old schema kept it: agents' ids a primary key, the table's own key unique per name. */
  ghost predicate Sound(target: Target, legacy: Table, agents: seq<Agent>) {
    && ValidTarget(target) && Unambiguous(agents) && DistinctIds(agents) && IdsPresent(agents)
    && target.strict && target.index == [] && KeyCarried(target, legacy)
    && KeysDistinct(legacy.rows, LegacyKey(target.key))
  }

  lemma StrictRow(target: Target, legacy: Table, agents: seq<Agent>, k: nat, made: Row)
    requires Sound(target, legacy, agents) && k < |legacy.rows| && "agent_name" in legacy.columns
    requires Becomes(target, Carried(legacy.columns, Names(target.columns)), legacy.rows[k], agents, k, made)
    ensures Corresponds(target, legacy, agents, legacy.rows[k], made) && Get(made, "agent_id") != Null
    ensures NotNulls(target.columns, made) <==> Supplies(target, legacy, legacy.rows[k])
  {
    var row := legacy.rows[k];
    RowCorresponds(target, legacy, agents, k, made);
    OwnerOf(target, legacy, agents, row);
    var id := Owners(target.strict, agents, Get(row, "agent_name"))[0];
    CarriedCells(target, legacy, row, id, k + 1);
    NotNullsExactly(target, legacy, row, id, k + 1);
    hide NewRow, Names, Carried, Matches, Corresponds, NotNulls, Supplies, ValidTarget, KeysDistinct;
  }

  /**
   From a sound database, a strict table is rebuilt if and only if it has the name column, every name is an agent's,
   and every row can supply what must not be null. Uniqueness never stands in the way.
   */
  lemma StrictRebuildSucceedsExactly(target: Target, legacy: Table, agents: seq<Agent>)
    requires Sound(target, legacy, agents)
    ensures Rebuilt(target, legacy, agents, |legacy.rows|).Ok? <==>
            "agent_name" in legacy.columns &&
            forall k :: 0 <= k < |legacy.rows| ==>
                Resolves(agents, legacy.rows[k]) && Supplies(target, legacy, legacy.rows[k])
  {
    var carried := Carried(legacy.columns, Names(target.columns));
    if "agent_name" in legacy.columns {
      var rows := Joined(target, carried, legacy.rows, agents);
      JoinCounts(target, carried, legacy.rows, agents);
      if |rows| == |legacy.rows| {
        forall k | 0 <= k < |rows|
          ensures Corresponds(target, legacy, agents, legacy.rows[k], rows[k]) && Get(rows[k], "agent_id") != Null
          ensures NotNulls(target.columns, rows[k]) <==> Supplies(target, legacy, legacy.rows[k])
        {
          hide Joined, Resolves, Sound, NotNulls, Supplies, Corresponds;
          StrictRow(target, legacy, agents, k, rows[k]);
        }
        AllAttributed(rows);
        KeysStayUnique(target, legacy, agents, rows);
      }
    }
    hide Joined, Resolves, NotNulls, Supplies, Corresponds, KeysDistinct, ValidTarget, KeyCarried;
  }

  // ----- when the rebuild of a nullable table goes through

  /** A row's name, null where the table has no names. */
  ghost function NameOf(legacy: Table, row: Row): Value {
    if "agent_name" in legacy.columns then Get(row, "agent_name") else Null
  }

  /** The agent a row goes to: the first of its name, or none. */
  ghost function OwnerId(legacy: Table, agents: seq<Agent>, row: Row): Value {
    var ids := Matches(agents, NameOf(legacy, row));
    if ids == [] then Null else ids[0]
  }

  /** The table's rows need no agent and number themselves, and its unique index adds the agent to carried columns. */
  ghost predicate Nullable(target: Target, legacy: Table, rest: seq<string>) {
    && ValidTarget(target) && !target.strict && MayLackAgent(target) && target.key == []
    && target.index == ["agent_id"] + rest
    && forall i :: 0 <= i < |rest| ==>
         rest[i] in legacy.columns && rest[i] != "id" && rest[i] != "agent_id" && HasColumn(target.columns, rest[i])
  }

  /** No two rows of one owner agree in all the index's other columns, null counting as "". */
  ghost predicate NoneCollide(legacy: Table, agents: seq<Agent>, rest: seq<string>) {
    forall i, j :: 0 <= i < j < |legacy.rows| ==>
      Coalesced(OwnerId(legacy, agents, legacy.rows[i])) != Coalesced(OwnerId(legacy, agents, legacy.rows[j])) ||
      IndexOf(legacy.rows[i], rest) != IndexOf(legacy.rows[j], rest)
  }

  ghost predicate Rekeyed(target: Target, legacy: Table, agents: seq<Agent>, rows: seq<Row>) {
    && |rows| == |legacy.rows|
    && forall k :: 0 <= k < |rows| ==>
         rows[k] == NewRow(target.columns, legacy.rows[k], Carried(legacy.columns, Names(target.columns)),
                           OwnerId(legacy, agents, legacy.rows[k]), k + 1)
  }

  lemma NullableCopied(target: Target, legacy: Table, agents: seq<Agent>)
    requires Unambiguous(agents) && !target.strict && Copied(target, legacy, agents).Ok?
    ensures Rekeyed(target, legacy, agents, Copied(target, legacy, agents).value)
  {
    var carried := Carried(legacy.columns, Names(target.columns));
    if "agent_name" in legacy.columns {
      JoinCounts(target, carried, legacy.rows, agents);
    } else {
      PlainRows(target, carried, legacy.rows);
      NoMatch(agents, Null);
    }
    hide Joined, Plain, NewRow, Names, Carried;
  }

  lemma RekeyedRow(target: Target, legacy: Table, agents: seq<Agent>, rest: seq<string>, rows: seq<Row>, k: nat)
    requires Nullable(target, legacy, rest) && Rekeyed(target, legacy, agents, rows) && k < |rows|
    ensures NotNulls(target.columns, rows[k]) <==> Supplies(target, legacy, legacy.rows[k])
    ensures IndexOf(rows[k], target.index) ==
            [Coalesced(OwnerId(legacy, agents, legacy.rows[k]))] + IndexOf(legacy.rows[k], rest)
  {
    var row, id := legacy.rows[k], OwnerId(legacy, agents, legacy.rows[k]);
    NotNullsExactly(target, legacy, row, id, k + 1);
    CarriedCells(target, legacy, row, id, k + 1);
    hide NewRow, Names, Carried, NotNulls, Supplies;
    SameCells(target, legacy, row, rows[k], rest);
    assert target.index[0] == "agent_id" && target.index[1..] == rest;
  }

  lemma {:induction false} SameCells(target: Target, legacy: Table, row: Row, made: Row, rest: seq<string>)
    requires forall i :: 0 <= i < |target.columns| && target.columns[i].name in legacy.columns &&
                         target.columns[i].name != "id" && target.columns[i].name != "agent_id" ==>
               Get(made, target.columns[i].name) == Get(row, target.columns[i].name)
    requires forall i :: 0 <= i < |rest| ==>
               rest[i] in legacy.columns && rest[i] != "id" && rest[i] != "agent_id" &&
                   HasColumn(target.columns, rest[i])
    ensures IndexOf(made, rest) == IndexOf(row, rest)
  {
    if rest != [] {
      SameCells(target, legacy, row, made, rest[1..]);
      var i :| 0 <= i < |target.columns| && target.columns[i].name == rest[0];
      assert Get(made, rest[0]) == Get(row, rest[0]);
    }
  }

  lemma {:induction false} OrphansExactly(rows: seq<Row>, agents: seq<Agent>)
    ensures Orphans(rows, agents) == 0 <==>
            forall k :: 0 <= k < |rows| ==> Get(rows[k], "agent_name") == Null || Resolves(agents, rows[k])
  {
    if rows != [] {
      OrphansExactly(rows[..|rows| - 1], agents);
      hide Matches;
    }
  }

  lemma CollideExactly(target: Target, legacy: Table, agents: seq<Agent>, rest: seq<string>, rows: seq<Row>)
    requires Nullable(target, legacy, rest) && Rekeyed(target, legacy, agents, rows)
    ensures IndexDistinct(rows, target.index) <==> NoneCollide(legacy, agents, rest)
  {
    assert target.index[0] == "agent_id";
    forall k | 0 <= k < |rows|
      ensures IndexOf(rows[k], target.index)[0] == Coalesced(OwnerId(legacy, agents, legacy.rows[k]))
      ensures IndexOf(rows[k], target.index)[1..] == IndexOf(legacy.rows[k], rest)
      ensures IndexOf(rows[k], target.index) ==
              [IndexOf(rows[k], target.index)[0]] + IndexOf(rows[k], target.index)[1..]
    {
      RekeyedRow(target, legacy, agents, rest, rows, k);
    }
    hide Nullable, Rekeyed, OwnerId, Coalesced;
  }

  /**
   A nullable table is rebuilt if and only if every name it has is an agent's (or, without names, there is a column to
   carry), every row can supply what must not be null, and no two rows come to collide in the unique index.
   */
  lemma NullableRebuildSucceedsExactly(target: Target, legacy: Table, agents: seq<Agent>, rest: seq<string>)
    requires Nullable(target, legacy, rest) && Unambiguous(agents)
    ensures Rebuilt(target, legacy, agents, |legacy.rows|).Ok? <==>
            (if "agent_name" in legacy.columns then
               forall k :: 0 <= k < |legacy.rows| ==>
                   NameOf(legacy, legacy.rows[k]) == Null || Resolves(agents, legacy.rows[k])
             else Carried(legacy.columns, Names(target.columns)) != []) &&
            (forall k :: 0 <= k < |legacy.rows| ==> Supplies(target, legacy, legacy.rows[k])) &&
            NoneCollide(legacy, agents, rest)
  {
    var copied := Copied(target, legacy, agents);
    OrphansExactly(legacy.rows, agents);
    if copied.Ok? {
      NullableCopied(target, legacy, agents);
      var rows := copied.value;
      forall k | 0 <= k < |rows|
        ensures NotNulls(target.columns, rows[k]) <==> Supplies(target, legacy, legacy.rows[k])
      {
        RekeyedRow(target, legacy, agents, rest, rows, k);
      }
      CollideExactly(target, legacy, agents, rest, rows);
      hide Rekeyed, Joined, Plain, Names, Carried, Resolves, NotNulls, Supplies, IndexDistinct, NoneCollide, Orphans;
    }
  }

  /** Rows that were unique in the index's other columns, none null there, do not come to collide. */
  lemma UniqueNeverCollides(legacy: Table, agents: seq<Agent>, rest: seq<string>)
    requires rest != [] && KeysDistinct(legacy.rows, rest)
    requires forall i, k :: 0 <= i < |rest| && 0 <= k < |legacy.rows| ==> Get(legacy.rows[k], rest[i]) != Null
    ensures NoneCollide(legacy, agents, rest)
  {
    forall i, j | 0 <= i < j < |legacy.rows|
      ensures IndexOf(legacy.rows[i], rest) != IndexOf(legacy.rows[j], rest)
    {
      if IndexOf(legacy.rows[i], rest) == IndexOf(legacy.rows[j], rest) {
        SameRest(legacy.rows[i], legacy.rows[j], rest);
      }
    }
  }

  lemma {:induction false} SameRest(r: Row, s: Row, rest: seq<string>)
    requires IndexOf(r, rest) == IndexOf(s, rest)
    requires forall i :: 0 <= i < |rest| ==> Get(r, rest[i]) != Null && Get(s, rest[i]) != Null
    ensures KeyOf(r, rest) == KeyOf(s, rest)
  {
    if rest != [] {
      assert IndexOf(r, rest)[0] == IndexOf(s, rest)[0] && IndexOf(r, rest)[1..] == IndexOf(s, rest)[1..];
      SameRest(r, s, rest[1..]);
    }
  }
}
