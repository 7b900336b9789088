/**
 The seven tables the migration re-keys, with the schemas pinned for them: they are fit for it, and so what is proved of
 any such migration holds of this one; and when it succeeds.
 */
module RekeyTargets {
  import opened AgentIdMigration
  import opened AgentRekey
  import opened Wrappers

  function Kept(name: string): Column {
    Column(name, true, Null, false)
  }

  function Free(name: string): Column {
    Column(name, false, Null, false)
  }

  const SESSIONS_FIRST := [
    Kept("session_id"), Kept("agent_id"), Kept("counterparty_pubkey"), Kept("status"), Kept("created_at"),
    Kept("updated_at"), Column("message_count", true, Number(0), false), Free("interrupted_at"),
    Free("relay_peer_id"), Free("relay_addrs"), Free("seal_legibility"), Free("sealed_root_hex")
  ]

  const SESSIONS_LATER := [
    Free("counterparty_primary_pubkey"), Free("session_name"), Free("read_at"), Free("counterparty_abandoned_at"),
    Free("interrupted_by"), Free("restart_seal_gave_up_at"), Free("restart_seal_gave_up_reason")
  ]

  const SESSIONS_LATEST := [
    Free("diverged_at"), Free("content_salt"), Free("genesis_prev_root"), Free("relay_anchor_hex"),
    Free("frozen_at"), Free("frozen_reason")
  ]

  const SESSIONS := Target("sessions", true, SESSIONS_FIRST + SESSIONS_LATER + SESSIONS_LATEST,
      ["agent_id", "session_id"], [])

  const ARTIFACTS := Target("seal_interrupted_artifacts", true,
    [
      Kept("agent_id"), Kept("session_id"), Kept("role"), Kept("own_leaf"), Kept("counterparty_leaf"),
      Kept("merkle_root"), Kept("nonce"), Kept("created_at")
    ],
    ["agent_id", "session_id"], [])

  const LEAVES := Target("session_tree_leaves", true,
    [
      Kept("agent_id"), Kept("session_id"), Kept("leaf_index"), Kept("leaf_kind"), Kept("leaf_hash_hex"),
      Kept("created_at")
    ],
    ["agent_id", "session_id", "leaf_index"], [])

  const TRANSCRIPT := Target("transcript", true,
    [
      Kept("agent_id"), Kept("session_id"), Kept("sequence"), Kept("direction"), Kept("blob"), Kept("created_at"),
      Free("sender_pubkey"), Free("sender_sig"), Column("attribution", true, Text("local_session_state"), false),
      Free("quarantine_reason")
    ],
    ["agent_id", "session_id", "sequence", "direction"], [])

  const WATERMARKS := Target("message_watermarks", true,
    [
      Kept("agent_id"), Kept("session_id"), Kept("last_delivered_seq")
    ],
    ["agent_id", "session_id"], [])

  const CONTACTS := Target("contacts", true,
    [
      Kept("agent_id"), Kept("pubkey"), Kept("added_at"), Free("moniker")
    ],
    ["agent_id", "pubkey"], [])

  const RETRY_QUEUE := Target("retry_queue", false,
    [
      Column("id", false, Null, true), Kept("session_id"), Free("agent_id"), Kept("nonce_hex"),
      Kept("content_blob"), Kept("queued_at"), Column("attempts", true, Number(1), false), Kept("position"),
      Column("awaiting_ack", true, Number(0), false), Free("content_hash_hex"), Free("structure1_cbor"),
      Free("structure2_cbor"), Free("structure1_sig"), Free("leaf_kind"), Free("content_hash_alg")
    ],
    [], ["agent_id", "session_id", "nonce_hex"])

  const REKEY_TARGETS := [SESSIONS, ARTIFACTS, LEAVES, TRANSCRIPT, WATERMARKS, CONTACTS, RETRY_QUEUE]

  // ----- no column twice, no table twice

  /** A number that tells these names apart: the length of a name with its first, last and tenth character. */
  function Tag(name: string): int {
    if name == "" then 0
    else |name| * 0x100_0000 + name[0] as int * 0x1_0000 + name[|name| - 1] as int * 0x100 + if |name| > 9 then
        name[9] as int else 0
  }

  const AGENT_NAME_TAG := 0xA616565

  ghost predicate Tagged(columns: seq<Column>, tags: seq<int>) {
    |columns| == |tags| && forall i :: 0 <= i < |tags| ==> Tag(columns[i].name) == tags[i]
  }

  ghost predicate AllDiffer(tags: seq<int>) {
    forall i, j :: 0 <= i < j < |tags| ==> tags[i] != tags[j]
  }

  lemma TaggedValid(target: Target, tags: seq<int>)
    requires Tagged(target.columns, tags) && AllDiffer(tags) && AGENT_NAME_TAG !in tags
    requires HasColumn(target.columns, "agent_id")
    ensures ValidTarget(target)
  {
    forall j | 0 <= j < |tags|
      ensures target.columns[j].name != "agent_name"
    {
      assert tags[j] in tags && Tag("agent_name") == AGENT_NAME_TAG;
    }
  }

  const SESSIONS_FIRST_TAGS: seq<int> := [
    0xA736464, 0x8616400, 0x13637972, 0x6737300, 0xA637474, 0xA757474, 0xD6D746F, 0xE697465, 0xD726472, 0xB727372,
    0xF737962, 0xF73786F
  ]

  const SESSIONS_LATER_TAGS: seq<int> := [
    0x1B637972, 0xC736561, 0x7727400, 0x19637472, 0xE697965, 0x17727465, 0x1B726E65
  ]

  const SESSIONS_LATEST_TAGS: seq<int> := [
    0xB647461, 0xC637461, 0x11677472, 0x10727868, 0x9667400, 0xD666E61
  ]

  lemma SessionsFirstTagged()
    ensures Tagged(SESSIONS_FIRST, SESSIONS_FIRST_TAGS) && SESSIONS_FIRST[1].name == "agent_id"
  {
  }

  lemma SessionsLaterTagged()
    ensures Tagged(SESSIONS_LATER, SESSIONS_LATER_TAGS)
  {
  }

  lemma SessionsLatestTagged()
    ensures Tagged(SESSIONS_LATEST, SESSIONS_LATEST_TAGS)
  {
  }

  lemma SessionsDiffer()
    ensures AllDiffer(SESSIONS_FIRST_TAGS + SESSIONS_LATER_TAGS + SESSIONS_LATEST_TAGS)
    ensures AGENT_NAME_TAG !in SESSIONS_FIRST_TAGS + SESSIONS_LATER_TAGS + SESSIONS_LATEST_TAGS
  {
  }

  lemma TaggedConcat(a: seq<Column>, b: seq<Column>, s: seq<int>, t: seq<int>)
    requires Tagged(a, s) && Tagged(b, t)
    ensures Tagged(a + b, s + t)
  {
    hide Tag;
    assert forall i :: 0 <= i < |a + b| ==> (a + b)[i] == (if i < |a| then a[i] else b[i - |a|]);
  }

  lemma SessionsValid()
    ensures ValidTarget(SESSIONS)
  {
    SessionsFirstTagged();
    SessionsLaterTagged();
    SessionsLatestTagged();
    SessionsColumns();
    SessionsDiffer();
    hide SESSIONS_FIRST, SESSIONS_LATER, SESSIONS_LATEST, SESSIONS_FIRST_TAGS, SESSIONS_LATER_TAGS,
      SESSIONS_LATEST_TAGS, SESSIONS, AllDiffer, AGENT_NAME_TAG, ValidTarget;
    TaggedConcat(SESSIONS_FIRST, SESSIONS_LATER, SESSIONS_FIRST_TAGS, SESSIONS_LATER_TAGS);
    TaggedConcat(SESSIONS_FIRST + SESSIONS_LATER, SESSIONS_LATEST,
                 SESSIONS_FIRST_TAGS + SESSIONS_LATER_TAGS, SESSIONS_LATEST_TAGS);
    assert SESSIONS.columns[1] == SESSIONS_FIRST[1];
    TaggedValid(SESSIONS, SESSIONS_FIRST_TAGS + SESSIONS_LATER_TAGS + SESSIONS_LATEST_TAGS);
  }

  lemma SessionsColumns()
    ensures SESSIONS.columns == SESSIONS_FIRST + SESSIONS_LATER + SESSIONS_LATEST && |SESSIONS_FIRST| == 12
  {
  }

  const ARTIFACTS_TAGS: seq<int> := [
    0x8616400, 0xA736464, 0x4726500, 0x86F6600, 0x11636672, 0xB6D746F, 0x56E6500, 0xA637474
  ]

  lemma ArtifactsTagged()
    ensures Tagged(ARTIFACTS.columns, ARTIFACTS_TAGS) && HasColumn(ARTIFACTS.columns, "agent_id")
  {
    assert ARTIFACTS.columns[0].name == "agent_id";
  }

  lemma ArtifactsDiffer()
    ensures AllDiffer(ARTIFACTS_TAGS) && AGENT_NAME_TAG !in ARTIFACTS_TAGS
  {
  }

  lemma ArtifactsValid()
    ensures ValidTarget(ARTIFACTS)
  {
    ArtifactsTagged();
    ArtifactsDiffer();
    hide Tagged, AllDiffer, ARTIFACTS, ARTIFACTS_TAGS;
    TaggedValid(ARTIFACTS, ARTIFACTS_TAGS);
  }

  lemma LeavesValid()
    ensures ValidTarget(LEAVES)
  {
    assert LEAVES.columns[0].name == "agent_id";
    TaggedValid(LEAVES, [
      0x8616400, 0xA736464, 0xA6C7878, 0x96C6400, 0xD6C785F, 0xA637474
    ]);
  }

  const TRANSCRIPT_TAGS: seq<int> := [
    0x8616400, 0xA736464, 0x8736500, 0x9646E00, 0x4626200, 0xA637474, 0xD737962, 0xA736767, 0xB616E6F, 0x11716E65
  ]

  lemma TranscriptTagged()
    ensures Tagged(TRANSCRIPT.columns, TRANSCRIPT_TAGS) && HasColumn(TRANSCRIPT.columns, "agent_id")
  {
    assert TRANSCRIPT.columns[0].name == "agent_id";
  }

  lemma TranscriptDiffer()
    ensures AllDiffer(TRANSCRIPT_TAGS) && AGENT_NAME_TAG !in TRANSCRIPT_TAGS
  {
  }

  lemma TranscriptValid()
    ensures ValidTarget(TRANSCRIPT)
  {
    TranscriptTagged();
    TranscriptDiffer();
    hide Tagged, AllDiffer, TRANSCRIPT, TRANSCRIPT_TAGS;
    TaggedValid(TRANSCRIPT, TRANSCRIPT_TAGS);
  }

  lemma WatermarksValid()
    ensures ValidTarget(WATERMARKS)
  {
    assert WATERMARKS.columns[0].name == "agent_id";
    TaggedValid(WATERMARKS, [
      0x8616400, 0xA736464, 0x126C7176
    ]);
  }

  lemma ContactsValid()
    ensures ValidTarget(CONTACTS)
  {
    assert CONTACTS.columns[0].name == "agent_id";
    TaggedValid(CONTACTS, [
      0x8616400, 0x6707900, 0x8617400, 0x76D7200
    ]);
  }

  const RETRY_QUEUE_TAGS: seq<int> := [
    0x2696400, 0xA736464, 0x8616400, 0x96E7800, 0xC63626C, 0x9717400, 0x8617300, 0x8706E00, 0xC616B61, 0x10637861,
    0xF737231, 0xF737232, 0xE736731, 0x96C6400, 0x10636761
  ]

  lemma QueueTagged()
    ensures Tagged(RETRY_QUEUE.columns, RETRY_QUEUE_TAGS) && HasColumn(RETRY_QUEUE.columns, "agent_id")
  {
    assert RETRY_QUEUE.columns[2].name == "agent_id";
  }

  lemma QueueDiffer()
    ensures AllDiffer(RETRY_QUEUE_TAGS) && AGENT_NAME_TAG !in RETRY_QUEUE_TAGS
  {
  }

  lemma QueueValid()
    ensures ValidTarget(RETRY_QUEUE)
  {
    QueueTagged();
    QueueDiffer();
    hide Tagged, AllDiffer, RETRY_QUEUE, RETRY_QUEUE_TAGS;
    TaggedValid(RETRY_QUEUE, RETRY_QUEUE_TAGS);
  }

  const TABLE_TAGS: seq<int> := [
    0x8737300, 0x1A737372, 0x13737372, 0xA747474, 0x126D7361, 0x8637300,
    0xB726575
  ]

  lemma TablesTagged()
    ensures |REKEY_TARGETS| == |TABLE_TAGS|
    ensures forall i :: 0 <= i < |TABLE_TAGS| ==> Tag(REKEY_TARGETS[i].table) == TABLE_TAGS[i]
  {
  }

  lemma TablesDiffer()
    ensures AllDiffer(TABLE_TAGS)
  {
  }

  lemma EachTargetValid()
    ensures forall t :: t in REKEY_TARGETS ==> ValidTarget(t)
  {
    SessionsValid();
    ArtifactsValid();
    LeavesValid();
    TranscriptValid();
    WatermarksValid();
    ContactsValid();
    QueueValid();
    hide ValidTarget, SESSIONS, ARTIFACTS, LEAVES, TRANSCRIPT, WATERMARKS, CONTACTS, RETRY_QUEUE;
  }

  /** The seven targets meet what the migration's theorems ask of them. */
  lemma RekeyTargetsValid()
    ensures ValidTargets(REKEY_TARGETS)
  {
    EachTargetValid();
    TablesTagged();
    TablesDiffer();
    hide ValidTarget, Tag, REKEY_TARGETS, TABLE_TAGS;
    forall i | 0 <= i < |REKEY_TARGETS|
      ensures ValidTarget(REKEY_TARGETS[i])
    {
      assert REKEY_TARGETS[i] in REKEY_TARGETS;
    }
  }

  // ----- the migration of the seven tables

  const QUEUE_REST := ["session_id", "nonce_hex"]

  /** A table as an older version kept it: its key without the agent, unique per name; or the queue's unique columns. */
  ghost predicate SoundTable(t: Target, legacy: Table) {
    if t.strict then KeyCarried(t, legacy) && KeysDistinct(legacy.rows, LegacyKey(t.key))
    else "session_id" in legacy.columns && "nonce_hex" in legacy.columns
  }

  /** Every table yet to be re-keyed is sound, and no two agents share an id. */
  ghost predicate SoundDatabase(tables: Tables, agents: seq<Agent>) {
    DistinctIds(agents) && IdsPresent(agents) && forall t :: t in Pending(tables, REKEY_TARGETS) ==>
        SoundTable(t, tables[t.table])
  }

  /**
   What one table needs: its rows supply what must not be null; in a strict table every name is an agent's; in the queue
   every name there is, and no two rows come to agree in agent, session and nonce.
   */
  ghost predicate Ready(t: Target, legacy: Table, agents: seq<Agent>) {
    && (forall k :: 0 <= k < |legacy.rows| ==> Supplies(t, legacy, legacy.rows[k]))
    && (if t.strict then
          "agent_name" in legacy.columns && forall k :: 0 <= k < |legacy.rows| ==> Resolves(agents, legacy.rows[k])
        else
          NoneCollide(legacy, agents, QUEUE_REST) &&
          forall k :: 0 <= k < |legacy.rows| ==>
              NameOf(legacy, legacy.rows[k]) == Null || Resolves(agents, legacy.rows[k]))
  }

  lemma QueueNullable(legacy: Table)
    requires ValidTarget(RETRY_QUEUE) && SoundTable(RETRY_QUEUE, legacy)
    ensures Nullable(RETRY_QUEUE, legacy, QUEUE_REST)
    ensures "session_id" in Carried(legacy.columns, Names(RETRY_QUEUE.columns))
  {
    var columns := RETRY_QUEUE.columns;
    assert columns[1].name == "session_id" && columns[3].name == "nonce_hex" && columns[2] == Free("agent_id");
    NamesOf(columns);
    assert Names(columns)[1] == "session_id";
    assert RETRY_QUEUE.index == ["agent_id"] + QUEUE_REST;
    assert MayLackAgent(RETRY_QUEUE) by {
      assert DistinctColumns(columns);
      hide RETRY_QUEUE;
    }
  }

  lemma OneNullable()
    ensures forall t :: t in REKEY_TARGETS && !t.strict ==> t == RETRY_QUEUE
    ensures forall t :: t in REKEY_TARGETS && t.strict ==> t.index == []
    ensures !RETRY_QUEUE.strict
  {
  }

  lemma ReadyExactly(t: Target, legacy: Table, agents: seq<Agent>)
    requires t in REKEY_TARGETS && SoundTable(t, legacy) && Unambiguous(agents) && DistinctIds(agents) &&
             IdsPresent(agents)
    ensures Rebuilt(t, legacy, agents, |legacy.rows|).Ok? <==> Ready(t, legacy, agents)
  {
    EachTargetValid();
    OneNullable();
    hide REKEY_TARGETS, SESSIONS, ARTIFACTS, LEAVES, TRANSCRIPT, WATERMARKS, CONTACTS, RETRY_QUEUE, QUEUE_REST,
      ValidTarget;
    if t.strict {
      StrictRebuildSucceedsExactly(t, legacy, agents);
    } else {
      QueueNullable(legacy);
      NullableRebuildSucceedsExactly(t, legacy, agents, QUEUE_REST);
    }
    hide Rebuilt, NoneCollide, Supplies, Resolves, KeyCarried, KeysDistinct;
  }

  /**
   From a sound database the migration succeeds if and only if nothing is pending, or no two agents share a name and
   every pending table is ready, its temporary table's name being free.
   */
  lemma RekeySucceedsExactly(tables: Tables, agents: seq<Agent>)
    requires SoundDatabase(tables, agents)
    ensures Migrated(tables, agents, REKEY_TARGETS).Ok? <==>
            Pending(tables, REKEY_TARGETS) == [] ||
            (Unambiguous(agents) && forall t :: t in Pending(tables, REKEY_TARGETS) ==>
               TemporaryName(t.table) !in tables && Ready(t, tables[t.table], agents))
  {
    RekeyTargetsValid();
    MigratedExactly(tables, agents, REKEY_TARGETS);
    hide REKEY_TARGETS, Migrated, Rebuilt, Ready, SoundTable, ValidTargets, Unambiguous;
    if Unambiguous(agents) {
      forall t | t in Pending(tables, REKEY_TARGETS)
        ensures Rebuilt(t, tables[t.table], agents, |tables[t.table].rows|).Ok? <==> Ready(t, tables[t.table], agents)
      {
        ReadyExactly(t, tables[t.table], agents);
      }
    }
  }

  /**
   When the migration of the seven tables succeeds: each that was pending has its old rows one for one, every carried
   column as it was and under the id of the agent of its name; every other table is as it was; and a second migration
   finds nothing to do.
   */
  lemma RekeyKeepsEveryRow(tables: Tables, agents: seq<Agent>, name: string)
    requires Migrated(tables, agents, REKEY_TARGETS).Ok? && name in tables
    ensures var after := Migrated(tables, agents, REKEY_TARGETS).value;
            Pending(after, REKEY_TARGETS) == [] && Migrated(after, agents, REKEY_TARGETS) == Ok(after) &&
                after.Keys == tables.Keys
    ensures var after := Migrated(tables, agents, REKEY_TARGETS).value;
            forall t :: t in Pending(tables, REKEY_TARGETS) && t.table == name ==>
              |after[name].rows| == |tables[name].rows| &&
              forall k :: 0 <= k < |tables[name].rows| ==>
                Corresponds(t, tables[name], agents, tables[name].rows[k], after[name].rows[k])
    ensures (forall t :: t in Pending(tables, REKEY_TARGETS) ==> t.table != name) ==>
              Migrated(tables, agents, REKEY_TARGETS).value[name] == tables[name]
  {
    RekeyTargetsValid();
    SuccessLeavesNothingPending(tables, agents, REKEY_TARGETS);
    SuccessKeepsTables(tables, agents, REKEY_TARGETS);
    hide REKEY_TARGETS, Migrated, Corresponds, ValidTargets;
    forall t | t in Pending(tables, REKEY_TARGETS) && t.table == name
      ensures var after := Migrated(tables, agents, REKEY_TARGETS).value;
              |after[name].rows| == |tables[name].rows| &&
              forall k :: 0 <= k < |tables[name].rows| ==>
                Corresponds(t, tables[name], agents, tables[name].rows[k], after[name].rows[k])
    {
      EveryRowIsKept(tables, agents, REKEY_TARGETS, t);
    }
    if forall t :: t in Pending(tables, REKEY_TARGETS) ==> t.table != name {
      OtherTablesUntouched(tables, agents, REKEY_TARGETS, name);
    }
  }
}
