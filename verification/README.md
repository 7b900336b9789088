# Cello client: a verified model of its core

A model in Dafny of the parts of the Cello client in which state, ordering or byte layout carry a promise, with
proofs of those promises over every input and every run. `dafny verify dfyconfig.toml` checks it.

The Merkle tree is proved against sections 2.1 and 2.1.1 of RFC 6962. The reconnecting IPC proxy, the daemon-down
gate, the notification chain and agent selection are state machines, one step for each event that Node's event loop
can deliver or for each stretch of a handler between two awaits; their theorems hold after any sequence of steps.
The classes `IpcProxy.Proxy`, `DaemonGate.Gate`, `ChannelForward.Forwarder`, `AgentHandlers.Daemon`,
`CliSelection.CommandLine` and `AgentIdMigration.Database` are the objects of the program, with its fields and its
loops, proved to take exactly those steps.

## Files

- Bytes and hashes: `ByteStrings`, `Hashing`, `Hex`, `Utf8`.
- Merkle tree: `Rfc6962` (the standard), `MerkleLevels` (one level of pairing and promoting), `MerkleTree`,
  `MerkleIndices` (verification at any index), `MerkleCommitment`.
- Proxy: `LineBuffer` (framing), `ProxyModel` (the state machine), `ProxyAccounting`, `ProxyReconnect`, `ProxySockets`,
  `ProxyHandshake`, `ProxyStream`, `ProxySession`, `ProxyReplay`, `ProxyConnect`, `ProxyRestored`, `ProxyUnanswered`
  (its theorems), `ProxyFailures` (runs in which a promise ends), `IpcProxy` (the class).
- Gate and notifications: `DaemonGate`, `GateProxy` (the gate on top of the proxy), `ChannelForward`.
- Migration: `AgentRekey` (one table), `AgentIdMigration` (the transaction), `RekeyTargets` (the pinned schemas).
- Manifest: `JsonText`, `JsonCanonical`, `CanonicalOrder` (the order of its keys), `Manifest`.
- Selection: `AgentSelection`, `AgentTimeline` (when an agent is online and known), `AgentHandlers`, `CliSelection`.
- Framing and agreement: `SigningMessages`, `GroupKeys`, `SessionAgreement`.

## Assumptions

- SHA-256, Ed25519, X25519, HKDF, AES-GCM and the sealed box are parameters. Nothing is assumed of SHA-256: where it
  matters the theorems name the two inputs that would collide. A verified Ed25519 signature is assumed to have been
  made (`SigningMessages.Unforged`); X25519 is assumed commutative with 32-byte canonical public keys
  (`SessionAgreement.IsX25519`, RFC 7748); the AEAD opens exactly what was sealed with it (`GroupKeys.Opened`).
- A text is a sequence of UTF-16 code units (`JsonText.Text`) where its encoding matters, and a Dafny string elsewhere.
  A JSON number is known by the text it is printed as.
- Socket, timer and promise events come in any order that Node allows: promise continuations run, in the order they
  became ready, before the next socket or timer event.
- In SQL, a table is its column names and rows, a join visits rows in order, and one statement takes effect or fails.

## Where the code and what it says of itself differ

The model follows the code. Of each of these there is a failing input or run, and a lemma that says exactly when.

- `verifyInclusion` promises to refuse an index out of range. It refuses those at or past the end and never a negative
  one (`MerkleTree.OutOfRangeRefusedUnlessNegative`). From 2^31 on its 32-bit shift no longer halves the index: a leaf's
  own proof is then accepted exactly if at every level a promoted node is still known as such and a node taken for the
  wrong child equals its sibling (`MerkleIndices.OwnProofExactly`); below 2^32 at least one is
  (`MerkleIndices.LargeIndexExactly`). `inclusionProof` reads the path of another leaf there, or `undefined`
  (`MerkleTree.ReadingExactly`).
- A root over given (`hash`-kind) leaves does not fix the number of leaves (`MerkleCommitment.GivenHashHidesSize`).
- The proxy's recovery ends when a connection is lost before its handshake is answered, and only then
  (`ProxyReconnect.RecoveryEndsExactly`); it begins again exactly with `connect` or the close of a socket still open
  (`ProxyReconnect.EndedUntil`). A repeated `connect` that fails takes the open connection out of use until the refused
  socket closes; that brings one back, on another socket (`ProxyFailures.FailedConnectReconnects`). An attempt under way
  at `close` runs on to its end.
- Callers are said to be released only once the session is restored. They are released however the replay ended
  (`ProxyRestored.WaitingCallsFollowTheReplay`); written on a socket that had dropped, a call is never answered
  (`ProxyUnanswered.WaitingCallsOrNever`). A call made while the handshake is open does not wait at all
  (`ProxyHandshake.HeldExactlyWhileDisconnected`).
- `connect` may be called again, as the daemon gate does. What was sent, granted or partly received before then belongs
  to another socket: a run keeps to one session exactly if every `connect` finds nothing of the kind
  (`ProxyReplay.OneSessionExactly`), and the buffer holds one socket's text exactly if no second one is open
  (`ProxyStream.SourceKeptExactly`).
- One dial at a time is said to keep the gate from having a socket overwritten and orphaned. A reconnect can do that. On
  an open proxy a re-dial begins by the rule for `connect` exactly while no reconnect's handshake is unanswered
  (`GateProxy.RedialBeginsOrderlyExactly`) and succeeds by it exactly while no reconnect is under way
  (`GateProxy.RedialEndsOrderlyExactly`). Otherwise two connections can be open and the gate's handshake on the one not
  in use (`GateProxy.RedialMeetsReconnect`).
- The gate opens on any handshake answer but `version_mismatch`, a lost connection included
  (`DaemonGate.LostHandshakeClears`), and each mismatch leaves one more connection open
  (`DaemonGate.OrphansAreMismatches`).
- Frames are said to be forwarded in arrival order. A check that answers `true` at once overtakes those still awaited
  (`ChannelForward.OvertakingHappens`), and one rejected check ends the chain (`ChannelForward.RejectionStopsTheChain`).
- The migration is said to leave the database untouched when it throws. A dangling reference is found after the
  commit; then it throws and the tables are rebuilt (`AgentIdMigration.Database.Migrate` gives the exact cases).
- Canonical manifest text is said to sort keys lexicographically. Keys that are array indices come first, by value; the
  text is lexicographic exactly if no object has an index among its keys together with a lexicographically smaller key
  that is none, or an index of greater value (`CanonicalOrder.LexicalExactly`). A member named `__proto__` is left out
  (`JsonCanonical.ProtoIsNotSigned`).
- `verifyManifest` is said never to throw. It throws on an officer index that is in range and not whole, or not a
  number, with a well-formed signature (`Manifest.ThrowsExactly`).
- Peer-authentication bytes are said to be injective. They are up to surrogates without a partner, which count as U+FFFD
  (`SigningMessages.PeerAuthExactly`). A relay's position counts modulo 2^32 (`SigningMessages.RelayOrderExactly`).
- A command with nothing selected runs as an agent the daemon did not list exactly if that was loaded and started since
  and is the only one online (`CliSelection.UnselectedCommandMovesExactly`). An agent is online and off the roster
  exactly if it was started while it was being removed (`AgentTimeline.StrayExactly`).

## Model

| member | source | states |
|---|---|---|
| MerkleTree.BuildMerkleTree | core/crypto/src/merkle.ts:125-169 | builds exactly the levels that pairing and promoting give; fails exactly when a leaf cannot be hashed or a pair contains something other than a digest, with the error of the first such leaf |
| MerkleTree.PairAndPromote | core/crypto/src/merkle.ts:154-166 | one level: neighbours paired, an odd last node promoted; fails exactly when a member of a pair is no digest |
| MerkleTree.TopLevelIsMth | core/crypto/src/merkle.ts:125-187 | for every list of hashes the last level is the one tree hash of section 2.1 of RFC 6962 |
| MerkleTree.MerkleRoot | core/crypto/src/merkle.ts:181-187 | the recursive tree hash of RFC 6962; the hash of the empty string for no leaves |
| MerkleTree.InclusionProof | core/crypto/src/merkle.ts:201-223 | for any integer index: a range error exactly for an empty tree or an index at or past the end, otherwise what the 32-bit operations read of each level |
| MerkleTree.ReadingExactly | core/crypto/src/merkle.ts:210-220 | below 2^31 that is the audit path of section 2.1.1 of RFC 6962; from there on the path of the leaf that the index is in 32 bits, or nothing but `undefined` |
| MerkleTree.VerifyInclusion | core/crypto/src/merkle.ts:242-298 | accepts exactly what the walk over index and size leads to the expected root, for any integer index |
| MerkleTree.WalkIsRootFrom | core/crypto/src/merkle.ts:271-292 | walking index and size in step reaches the root that the recursive definition of the path reaches, and fails on the same lengths |
| MerkleIndices.OwnProofExactly | core/crypto/src/merkle.ts:201-298 | at every index, the leaf's own proof leads from a digest to the root exactly if that is the leaf's hash and no level is misread to effect, or two named inputs collide |
| MerkleIndices.AcceptedIsOwnProofOrCollision | core/crypto/src/merkle.ts:242-298 | where no level is misread, as at every index below 2^31, only the leaf's own hash with its own proof is accepted against the tree's root, or two named inputs have one SHA-256 digest |
| MerkleIndices.AtMostOneAccepted | core/crypto/src/merkle.ts:242-298 | for any integer index, size and root at most one leaf hash and one proof are accepted, or two named inputs collide |
| MerkleIndices.AcceptedLength | core/crypto/src/merkle.ts:271-297 | for any integer index and any root, an accepted proof has the length fixed by index and size alone, at most ceil(log2 size); below 2^31 that of the audit path |
| MerkleTree.OutOfRangeRefusedUnlessNegative | core/crypto/src/merkle.ts:249-253 | an index outside the tree is refused for every leaf, proof and root if and only if the tree is empty or the index is at or past its end |
| MerkleTree.NegativeIndexAccepted | core/crypto/src/merkle.ts:249-253 | so in a tree of two, index -1 with the right leaf as sibling passes for the left leaf |
| MerkleIndices.LargeIndexExactly | core/crypto/src/merkle.ts:274-291 | from 2^31 to 2^32 a leaf's own proof is accepted exactly if no node above it is promoted and every right child above it equals its left sibling, of which there is one; or two named inputs collide |
| MerkleTree.LargeIndexRefused | core/crypto/src/merkle.ts:291 | one such case: in a tree of 2^31 + 1 leaves every proof of the right length is refused for the last leaf, whatever the root |
| MerkleLevels.NextLevelKeepsMth | core/crypto/src/merkle.ts:154-166 | one level of pairing and promoting keeps the recursive tree hash, for lists of every length |
| Rfc6962.RootFixesLeafAndPath | core/crypto/src/merkle.ts:271-297 | two leaf-and-path pairs leading to one root at one place are equal, or a named pair of inputs collides |
| MerkleCommitment.EqualRootsFixLeaves | core/crypto/src/merkle.ts:125-187 | equal roots of lists without given hashes: same length and same prefix byte and data at every position, across different sizes, or two named inputs collide |
| MerkleCommitment.EqualInputsFixArity | core/crypto/src/hashing.ts:65-76 | an empty list, a leaf and a node are never hashed from the same bytes, because the node prefix is refused for leaves |
| MerkleCommitment.GivenHashHidesSize | core/crypto/src/merkle.ts:125-152 | with given hashes one leaf can stand for a node over two |
| Hashing.NodeHash | core/crypto/src/hashing.ts:25-34 | refuses children that are not digests; otherwise hashes 0x01, left, right |
| ByteStrings.ConstantTimeEqual | core/crypto/src/merkle.ts:303-310 | the exclusive-or loop decides equality of byte strings |
| LineBuffer.LinesAndRestAreTheText | core/adapter-claude-code/src/ipc-proxy.ts:453-458 | the lines and the leftover put together again are the text: framing loses and invents nothing |
| LineBuffer.ChunkingIrrelevant | core/adapter-claude-code/src/ipc-proxy.ts:177-185 | however the stream is cut into chunks, the lines are those of the whole stream and the leftover has no newline |
| ProxyAccounting.EachCallWrittenOnce | core/adapter-claude-code/src/ipc-proxy.ts:349-432 | in every run, no call's frame is written twice, on whatever sockets |
| ProxyAccounting.EachCallAnsweredOnce | core/adapter-claude-code/src/ipc-proxy.ts:349-394 | in every run a call is answered at most once, and once answered is neither in flight nor waiting |
| ProxyAccounting.PendingIsIssuedMinusSettled | core/adapter-claude-code/src/ipc-proxy.ts:404-432 | in every run the pending map is exactly the ids issued and not yet settled |
| ProxyAccounting.EachIdSettledOnce | core/adapter-claude-code/src/ipc-proxy.ts:201-204 | in every run no request's promise settles twice |
| ProxyAccounting.ReplySettlesItsOwnRequest | core/adapter-claude-code/src/ipc-proxy.ts:496-512 | a daemon result settles the request of its id with that result and changes nothing else |
| ProxyAccounting.NotificationsTouchNothing | core/adapter-claude-code/src/ipc-proxy.ts:481-494 | notifications and blank lines, in any number, change no request |
| ProxyReconnect.AtMostOneReconnect | core/adapter-claude-code/src/ipc-proxy.ts:206-253 | in every run armed timers and running attempts together are at most one, and every delay lies in [200, 5000] ms |
| ProxyReconnect.NothingStartsAfterClose | core/adapter-claude-code/src/ipc-proxy.ts:434-446 | after close no timer is armed and no attempt begins |
| ProxyReconnect.RecoveryEndsExactly | core/adapter-claude-code/src/ipc-proxy.ts:160-253 | a step leaves a lost connection with nothing under way, no reconnect, no dial and no refused socket yet to close, if and only if it ends a replay on a connection lost meanwhile |
| ProxyReconnect.EndedUntil | core/adapter-claude-code/src/ipc-proxy.ts:146-253 | from then on exactly `connect`, the close of a socket still open, or `close` changes that |
| ProxyReconnect.StaysEnded | core/adapter-claude-code/src/ipc-proxy.ts:146-253 | and so over every run |
| ProxyReconnect.StrandedCallsStayPending | core/adapter-claude-code/src/ipc-proxy.ts:396-432 | in every run, from a moment with no socket, timer or attempt on, every request in flight stays so until `connect` is called |
| ProxyFailures.RecoveryCanEnd | core/adapter-claude-code/src/ipc-proxy.ts:206-253 | a run that ends recovery, with nothing open or under way |
| ProxyFailures.FailedConnectReconnects | core/adapter-claude-code/src/ipc-proxy.ts:160-199 | a run in which a repeated `connect` fails, the open connection goes out of use, and the refused socket's close has another one opened beside it |
| ProxyHandshake.HeldExactlyWhileDisconnected | core/adapter-claude-code/src/ipc-proxy.ts:349-360 | in every run a valid call on an open proxy is held if and only if the proxy is disconnected when it is made; any other is written at once, and while a reconnect replays, on a socket whose replay is not over |
| ProxyFailures.CallsInTheWindowAreNotHeld | core/adapter-claude-code/src/ipc-proxy.ts:229-234 | a run in which that happens |
| ProxyHandshake.ConnectIsFirstFrame | core/adapter-claude-code/src/ipc-proxy.ts:270-275 | in every run `ipc.connect` is the first frame on every reconnected socket when a client type is set |
| ProxyStream.LinesIndependentOfChunks | core/adapter-claude-code/src/ipc-proxy.ts:176-185 | in every run the lines dispatched since a reconnect attached a socket are those of all that was received since, unless the buffer overflowed; nothing received before joins them |
| ProxyStream.SourceKeptExactly | core/adapter-claude-code/src/ipc-proxy.ts:146-185 | what was received since then stays one socket's under every event but `connect` if and only if no second connection is open, and under `connect` if and only if nothing was received |
| ProxyStream.StreamOfOneSocket | core/adapter-claude-code/src/ipc-proxy.ts:176-185 | so in every run without a second connection, and without `connect` once something was received, all of it came from one socket |
| ProxyStream.RunOnlySocket | core/adapter-claude-code/src/ipc-proxy.ts:176-185 | in runs with one socket at a time, all of it came from the one socket there is |
| ProxyFailures.TwoStreamsMakeOneLine | core/adapter-claude-code/src/ipc-proxy.ts:176-185 | a run in which two open sockets' texts make one line |
| ProxySession.NoReplayOfEndedSelection | core/adapter-claude-code/src/ipc-proxy.ts:360-394 | in every run a replayed or cached selection is one a caller was told of and no later answer ended: no release, offline or other selection is undone by a reconnect |
| ProxyReplay.OneSessionExactly | core/adapter-claude-code/src/ipc-proxy.ts:146-253 | a run keeps to one session (all requests in flight on the socket in use, every agent cached or about to be cached granted on it or being asked for) if and only if each `connect` finds nothing in flight and nothing cached but asked for, each reconnect attaching a socket nothing in flight, and each replay failing for want of a result no agent cached that is not granted |
| ProxyConnect.OrderlyKeepsSession | core/adapter-claude-code/src/ipc-proxy.ts:146-253 | a rule on `connect` alone is enough: called on an open proxy with nothing in flight or cached, and succeeding while no reconnect is under way |
| ProxyConnect.FirstConnectIsOrderly | core/adapter-claude-code/src/ipc-proxy.ts:146-173 | in every run, until a connection first succeeds, every `connect` on an open proxy keeps to that rule |
| ProxyFailures.RequestLeftOnOldSocket | core/adapter-claude-code/src/ipc-proxy.ts:146-149 | a run with a repeated `connect` that leaves a request in flight on a socket not in use |
| ProxyFailures.CachedAgentOfOldSocket | core/adapter-claude-code/src/ipc-proxy.ts:146-159 | a run with one after which the cached agent is another socket's |
| ProxyRestored.WaitingCallsFollowTheReplay | core/adapter-claude-code/src/ipc-proxy.ts:201-253 | in every run, a call that had to wait is written on a socket whose replay was answered or timed out if and only if a reconnect attached that socket, and no socket closed, no dial failed and `close` was not called before the replay ended; on a reconnect's socket never before that |
| ProxyUnanswered.WaitingCallsOrNever | core/adapter-claude-code/src/ipc-proxy.ts:201-253 | in runs with one socket at a time: if and only if that socket had not dropped by then; if it had, the call is in flight ever after and never answered |
| ProxyFailures.WaitingCallCanBeLost | core/adapter-claude-code/src/ipc-proxy.ts:201-253 | a run in which a waiting call is so lost |
| ProxyFailures.WaitingCallOnDialedSocket | core/adapter-claude-code/src/ipc-proxy.ts:146-149 | a run in which a repeated `connect` takes a waiting call to a socket without a replay |
| ProxyConnect.CachedAgentWasGranted | core/adapter-claude-code/src/ipc-proxy.ts:276-320 | in runs that keep to the rule for `connect`, once a replay is over, a cached agent is one the daemon granted on the socket in use |
| IpcProxy.Proxy.Handle | core/adapter-claude-code/src/ipc-proxy.ts:65-515 | the object takes the state machine's step for every event |
| IpcProxy.Proxy.Data | core/adapter-claude-code/src/ipc-proxy.ts:177-185 | a chunk past the limit empties the buffer; any other is framed and dispatched line by line |
| IpcProxy.Proxy.ProcessBuffer | core/adapter-claude-code/src/ipc-proxy.ts:453-514 | the in-place loop dispatches exactly the buffer's lines and leaves its remainder |
| IpcProxy.Proxy.FinishCall | core/adapter-claude-code/src/ipc-proxy.ts:362-394 | the cache is set by an accepted selection and cleared by a release or by taking that agent offline |
| IpcProxy.Proxy.FailPending | core/adapter-claude-code/src/ipc-proxy.ts:201-204 | every pending request is failed, in order, and the map is empty |
| DaemonGate.RedialIsShared | core/adapter-claude-code/src/daemon-gate.ts:106-127 | in every run at most one dial or handshake is outstanding; a call that comes meanwhile joins it |
| DaemonGate.NothingForwardedUntilCleared | core/adapter-claude-code/src/daemon-gate.ts:134-143 | a tool call reaches the daemon only after a handshake was answered with anything but a version mismatch |
| DaemonGate.ClearedForGood | core/adapter-claude-code/src/daemon-gate.ts:107-127 | once cleared the gate stays open and never dials again |
| DaemonGate.LostHandshakeClears | core/adapter-claude-code/src/daemon-gate.ts:65-82 | a handshake answered with a lost connection clears the gate too |
| DaemonGate.OrphansAreMismatches | core/adapter-claude-code/src/daemon-gate.ts:102-127 | connections opened and not in use are exactly the version mismatches answered |
| DaemonGate.EachCallEndsOnce | core/adapter-claude-code/src/daemon-gate.ts:134-143 | each call is suspended in the gate or has come to exactly one verdict |
| DaemonGate.Gate.EnsureDaemon | core/adapter-claude-code/src/daemon-gate.ts:106-127 | dials only when down and none is in flight, and awaits the dial in flight |
| GateProxy.BothAreRuns | core/adapter-claude-code/src/daemon-gate.ts:86-143 | whatever gate and proxy do together is a run of the gate and a run of the proxy, so every theorem about either holds of both |
| GateProxy.OnlyHandshakesUntilCleared | core/adapter-claude-code/src/daemon-gate.ts:59-143 | in every run, until a handshake clears the gate, nothing but `ipc.connect` is written, in flight or waiting and no agent is cached; `connect` never has two sockets dialing |
| GateProxy.RedialBeginsOrderlyExactly | core/adapter-claude-code/src/daemon-gate.ts:98-114 | in every run a tool call's re-dial begins by the rule for `connect` if and only if the proxy is open and no reconnect's handshake is unanswered |
| GateProxy.RedialEndsOrderlyExactly | core/adapter-claude-code/src/daemon-gate.ts:98-114 | in every run, on an open proxy, it succeeds by the rule if and only if every close of a socket since a connection first succeeded was followed by the end of a replay |
| GateProxy.GateKeepsSessionExactly | core/adapter-claude-code/src/daemon-gate.ts:98-143 | a run of both keeps to one session if and only if no re-dial meets an unanswered handshake of a reconnect, no reconnect attaches its socket with a request in flight, the gate's handshake included, and no replay failing for want of a result leaves an agent cached that is not granted |
| GateProxy.RedialMeetsReconnect | core/adapter-claude-code/src/daemon-gate.ts:98-127 | a run that does not: after a mismatch whose connection closes, re-dial and reconnect leave two connections open and the gate's handshake on the one not in use |
| ChannelForward.AwaitedFramesInOrder | core/adapter-claude-code/src/channel-forward.ts:59-65 | in every run, whatever order checks settle in: awaited frames sent are the permitted ones of a prefix of the arrivals, in order, each once; frames permitted at once are all sent |
| ChannelForward.SentIsPermittedPrefix | core/adapter-claude-code/src/channel-forward.ts:59-65 | when every check is awaited, what is sent is the permitted frames of a prefix of the arrivals, in arrival order |
| ChannelForward.InOrderUnlessOvertaken | core/adapter-claude-code/src/channel-forward.ts:61-65 | frames go out in arrival order if and only if no frame overtaken while it waited is ever sent |
| ChannelForward.RejectionStopsTheChain | core/adapter-claude-code/src/channel-forward.ts:64 | after a rejected check no awaited frame is sent any more |
| ChannelForward.BreaksOnlyOnRejection | core/adapter-claude-code/src/channel-forward.ts:64 | the chain breaks exactly when a rejected check comes to its head |
| ChannelForward.OvertakingHappens | core/adapter-claude-code/src/channel-forward.ts:61-64 | frame 1 can be sent before frame 0 |
| AgentRekey.JoinCounts | core/daemon/src/agent-id-migration.ts:439-470 | with unambiguous names the join gives as many rows as there were exactly when every name resolves, and then row by row: the count check suffices |
| AgentRekey.AmbiguousCountDeceives | core/daemon/src/agent-id-migration.ts:347-367 | without them the count can be right and the rows wrong |
| AgentRekey.RebuiltRowsCorrespond | core/daemon/src/agent-id-migration.ts:427-499 | a rebuilt table has its old rows one for one, every carried column unchanged, each with the id of an agent of its name; a null name stays null only where allowed |
| AgentRekey.KeysStayUnique | core/daemon/src/agent-id-migration.ts:77-217 | where the old key was unique per name and ids are, re-keying makes no two rows collide |
| AgentRekey.IndexStaysUnique | core/daemon/src/agent-id-migration.ts:219-301 | a unique index that adds the agent to columns unique before cannot fail |
| AgentRekey.StrictRebuildSucceedsExactly | core/daemon/src/agent-id-migration.ts:427-499 | from a sound database a strict table is rebuilt if and only if it has the name column, every name resolves and every row can supply what must not be null |
| AgentRekey.NullableRebuildSucceedsExactly | core/daemon/src/agent-id-migration.ts:427-499 | a nullable table is rebuilt if and only if every name it has resolves (or, without names, there is a column to carry), every row can supply what must not be null, and no two rows come to agree in owner and the index's other columns |
| AgentRekey.UniqueNeverCollides | core/daemon/src/agent-id-migration.ts:219-301 | rows that were unique in those columns never do |
| AgentIdMigration.Database.BuildNameToAgentId | core/daemon/src/agent-id-migration.ts:347-367 | finds exactly the names more than one agent has; without any, maps each name to its agent's id |
| AgentIdMigration.Database.Rebuild | core/daemon/src/agent-id-migration.ts:427-499 | one turn of the loop replaces the table by its rebuild and touches no other, foreign keys being off |
| AgentIdMigration.Database.Migrate | core/daemon/src/agent-id-migration.ts:386-523 | all tables are rebuilt or the database is as it was; the answer, the counts and the one case of an error after the commit are given exactly |
| AgentIdMigration.Database.InTransaction | core/daemon/src/agent-id-migration.ts:424-513 | a failure at any table rolls every table back; inside another transaction nothing happens |
| AgentIdMigration.SuccessLeavesNothingPending | core/daemon/src/agent-id-migration.ts:369-388 | a success leaves no table pending, so a second run changes nothing |
| AgentIdMigration.EveryRowIsKept | core/daemon/src/agent-id-migration.ts:427-499 | on success each pending table's rows are in bijection with its old rows, each under the id of the agent of its name |
| AgentIdMigration.OtherTablesUntouched | core/daemon/src/agent-id-migration.ts:411-424 | tables not pending are exactly as they were |
| RekeyTargets.RekeyTargetsValid | core/daemon/src/agent-id-migration.ts:77-302 | the seven pinned schemas have distinct tables and columns, each with `agent_id` and without `agent_name` |
| RekeyTargets.RekeySucceedsExactly | core/daemon/src/agent-id-migration.ts:386-523 | from a sound database the migration of the seven tables succeeds if and only if nothing is pending, or no two agents share a name, the temporary names are free and every pending table meets its condition, the retry queue included |
| RekeyTargets.RekeyKeepsEveryRow | core/daemon/src/agent-id-migration.ts:386-523 | on success each of the seven that was pending has its old rows one for one under the id of the agent of their name, all other tables are as they were, and a second run finds nothing to do |
| JsonCanonical.SortedReplacer | core/crypto/src/manifest.ts:94-103 | filling a fresh object in sorted key order gives the members in property order, `__proto__` aside |
| JsonCanonical.ReplacedThenDescended | core/crypto/src/manifest.ts:84-103 | calling the replacer on an object before descending into its members, as `stringify` does, gives the canonical value defined from the members up |
| JsonCanonical.CanonicalTextDecidesMeaning | core/crypto/src/manifest.ts:74-103 | canonical text is equal exactly for values equal up to key order at every level, arrays in order, `__proto__` aside |
| CanonicalOrder.LexicalExactly | core/crypto/src/manifest.ts:70-103 | canonical text has its keys in lexicographic order at every level if and only if no object has two keys that clash: an array index, and a lexicographically smaller key that is none or an index of greater value |
| CanonicalOrder.SortsAgreeExactly | core/crypto/src/manifest.ts:94-103 | the same for the keys of one object |
| CanonicalOrder.OrdersDifferExactly | core/crypto/src/manifest.ts:94-103 | two keys are listed against their lexicographic order if and only if they clash |
| CanonicalOrder.IndicesByValue | core/crypto/src/manifest.ts:94-103 | keys that are array indices are listed by the numbers they are |
| CanonicalOrder.NumbersAreNotLexical | core/crypto/src/manifest.ts:94-103 | "9" and "10" clash |
| JsonCanonical.ProtoIsNotSigned | core/crypto/src/manifest.ts:76-101 | a `__proto__` member can be anything or absent |
| JsonText.WriteInjective | core/crypto/src/manifest.ts:84 | JSON text, whatever may follow it, determines the value |
| Utf8.EncodeInjective | core/crypto/src/manifest.ts:87 | UTF-8 is injective on text without stray surrogates |
| Utf8.EncodeExactly | core/crypto/src/ae-peer-auth.ts:90 | any two texts encode alike if and only if they are equal once each stray surrogate is replaced by U+FFFD |
| Utf8.WriteWellFormed | core/crypto/src/manifest.ts:84-87 | JSON text never has stray surrogates, whatever its strings hold |
| Manifest.BodyDecidesManifest | core/crypto/src/manifest.ts:74-88 | the signed bytes are equal exactly when the manifests mean the same, signatures aside |
| Manifest.VerifyManifest | core/crypto/src/manifest.ts:124-240 | after the node checks: throws exactly if an entry does; otherwise accepts exactly if the distinct officers with a valid signature reach the threshold, and reports them and the entries skipped |
| Manifest.CheckNodes | core/crypto/src/manifest.ts:131-172 | passes exactly when there is a validator and every role is known |
| Manifest.VerifiesExactly | core/crypto/src/manifest.ts:178-221 | an entry counts for an officer exactly if it names that officer, both hex strings are well formed and the signature is valid |
| Manifest.ThrowsExactly | core/crypto/src/manifest.ts:182-195 | an entry makes verification throw exactly if its signature is well formed and its index is not a number, or in range and not whole |
| Manifest.EachEntryCountedOnce | core/crypto/src/manifest.ts:178-224 | every entry is counted once, as verified or as skipped |
| Manifest.OrderAndRepetitionDoNotMatter | core/crypto/src/manifest.ts:214-221 | permuting or repeating entries changes neither the officers found nor whether verification throws |
| Manifest.AddingEntriesKeepsTheCount | core/crypto/src/manifest.ts:214-228 | adding entries never lowers the number of officers |
| Manifest.NoMoreOfficersThanKeys | core/crypto/src/manifest.ts:182-185 | no more officers are counted than there are root keys |
| Hex.HexToBytes | core/crypto/src/hex.ts:14-21 | decodes exactly the well-formed strings of the right length |
| Hex.HexRoundTrip | core/crypto/src/hex.ts:14-21 | every byte string is the decoding of its own hexadecimal |
| AgentSelection.BetweenHandlersCurrentIsOnline | core/daemon/src/agent-handlers.ts:355-447 | in every run, with no stop or removal part-way, every connection's agent and every held agent is online |
| AgentSelection.OneHolderOneHold | core/daemon/src/agent-handlers.ts:497-579 | in every run an agent has at most one holder and a caller holds at most one agent |
| AgentSelection.ReplayTakesFromNobody | core/daemon/src/agent-handlers.ts:530-571 | a replay never takes an agent from another caller; it then selects for reading |
| AgentSelection.ForceTakesThatAgentOnly | core/daemon/src/agent-handlers.ts:552-578 | a forced selection takes that agent from whoever held it, and nothing else from anyone |
| AgentSelection.AcceptedSelectionIsNeverAnother | core/daemon/src/agent-selection-root.ts:30-53 | after an accepted selection, over any steps of others, a call acts as that agent or as none, and as none exactly if a stop or removal of it ended in between |
| AgentSelection.ResolveCurrentAgent | core/daemon/src/agent-selection-root.ts:80-138 | the named agent, else the selected one, else none if the selection was taken away, else the only one online; a notice exactly for the last |
| AgentSelection.OnlyKnownAgentsOnline | core/daemon/src/agent-handlers.ts:268-311 | unless an agent is started while it is being removed, only known agents are online |
| AgentTimeline.OnlineExactly | core/daemon/src/agent-handlers.ts:268-447 | in every run an agent is online if and only if it was at an earlier moment and was not stopped since, or was started since and not stopped after |
| AgentTimeline.StrayExactly | core/daemon/src/agent-handlers.ts:268-311 | in every run an agent is online and off the roster if and only if it was started while its removal was under way, that has ended, and it was neither stopped nor loaded again |
| AgentTimeline.RemovedAgentActsExactly | core/daemon/src/agent-selection-root.ts:30-53 | and calls without a selection fall back to it if and only if, besides, no other agent is online |
| AgentSelection.RemovedAgentCanActAgain | core/daemon/src/agent-handlers.ts:275-306 | a run in which that happens |
| AgentHandlers.Daemon.UseAgent | core/daemon/src/agent-handlers.ts:502-589 | `cello_use_agent`: the answer and the whole new state in each case |
| AgentHandlers.Daemon.BeginOffline | core/daemon/src/agent-handlers.ts:355-397 | `cello_set_agent_offline` up to its teardown: the intent is recorded first, the agent goes offline |
| AgentHandlers.Daemon.FinishOffline | core/daemon/src/agent-handlers.ts:436-447 | after it: every connection that had the agent loses it and is marked as having lost it |
| AgentHandlers.Daemon.FinishRemoval | core/daemon/src/agent-handlers.ts:281-311 | the same after a removal, and the agent leaves the roster |
| AgentHandlers.Daemon.StopUsingAgent | core/daemon/src/agent-handlers.ts:463-495 | releases the selection and the hold, and clears the mark of a lost selection |
| AgentHandlers.Daemon.AttendAgent | core/daemon/src/agent-handlers.ts:655-678 | `agent.attend`: takes an online agent nobody else holds |
| CliSelection.CommandRunsAsSelected | core/cli/src/parity-commands.ts:116-219 | a command whose replay was accepted runs as the selected agent or as none, over every interleaving up to its execution |
| CliSelection.UnselectedCommandRunsAsTheOnlyOne | core/cli/src/parity-commands.ts:196-219 | with nothing selected it runs as the one known agent or as none, if no agent is loaded meanwhile |
| CliSelection.UnselectedCommandMovesExactly | core/cli/src/parity-commands.ts:196-219 | such a command runs as an agent the daemon did not list if and only if no selection was taken from its connection, no other agent is online, and that agent was loaded and then started since and not stopped after, or was online unknown all along |
| CliSelection.UnselectedCommandCanMove | core/cli/src/parity-commands.ts:196-219 | a run in which that happens |
| CliSelection.CommandLine.ReplaySelectedAgent | core/cli/src/parity-commands.ts:157-220 | when a command may run, and the reason when it may not |
| CliSelection.FileIsLastAccepted | core/cli/src/parity-commands.ts:362-422 | after any commands the file names exactly the agent last accepted, trimmed, and since neither forgotten nor taken offline |
| CliSelection.WrittenIsReadTrimmed | core/cli/src/parity-commands.ts:58-83 | what is written for any name is read back trimmed: as that name if and only if it has no space at either end |
| SigningMessages.SignedInjective | core/crypto/src/session-ephemeral-auth.ts:61-75 | messages of all eight builders: equal bytes only for the same kind and the same fields |
| SigningMessages.DeliveryAckSigningMessage | core/crypto/src/delivery-ack-auth.ts:59-77 | label, length, session id, content hash, filled in with a moving offset |
| SigningMessages.EphemeralSigningMessage | core/crypto/src/session-ephemeral-auth.ts:61-75 | the same layout under its own label |
| SigningMessages.BuildKeyBindingTbs | core/crypto/src/key-binding.ts:75-89 | fails exactly on a key that is not 32 bytes; otherwise context, zero, both keys |
| SigningMessages.BuildAePeerAuthTbs | core/crypto/src/ae-peer-auth.ts:62-91 | builds exactly for fields without newlines, two nonces of 64 hexadecimal digits and two different sides; each refusal in its case |
| SigningMessages.PeerAuthExactly | core/crypto/src/ae-peer-auth.ts:62-91 | of all it builds, two messages are the same bytes if and only if all fields are equal, stray surrogates replaced |
| SigningMessages.PeerAuthInjective | core/crypto/src/ae-peer-auth.ts:62-91 | newline-joined fields are read back one by one |
| SigningMessages.CredentialInjective | core/crypto/src/daemon-credential.ts:58-64 | the canonical credential body tells every field, whatever its strings hold |
| SigningMessages.RegistrationExactly | core/crypto/src/daemon-credential.ts:115-117 | registration proofs of any text are the same bytes if and only if, stray surrogates replaced, both fields are equal or the newline that ends one's agent lies inside a field of the other |
| SigningMessages.RegistrationInjective | core/crypto/src/daemon-credential.ts:115-117 | so for agents without newlines they tell agent and credential |
| SigningMessages.PairingPollExactly | core/crypto/src/daemon-credential.ts:120-122 | pairing polls of any code are the same bytes if and only if code, stray surrogates replaced, and time are equal |
| SigningMessages.BuildRelayAckTbs | core/crypto/src/hashing.ts:108-140 | builds exactly for fields of the right width and times in 64 bits, and hashes label, session, leaf, position modulo 2^32, root and time |
| SigningMessages.RelayOrderExactly | core/crypto/src/hashing.ts:125-138 | of all that is built, two statements are the same bytes if and only if session, leaf, root and time are equal and the positions agree modulo 2^32 |
| SigningMessages.StraySurrogatesCollide | core/crypto/src/ae-peer-auth.ts:90 | two different messages, both built, with the same bytes |
| SigningMessages.VerifiedMeansSigned | core/crypto/src/delivery-ack-auth.ts:170-176 | a signature that verifies for a message was made for that message, session and purpose |
| SigningMessages.VerifyDeliveryAck | core/crypto/src/delivery-ack-auth.ts:126-186 | accepted exactly if well shaped and verifying under a recorded participant's 32-byte key; each refusal exactly in its case |
| SigningMessages.AcceptedAckWasGiven | core/crypto/src/delivery-ack-auth.ts:126-176 | an accepted acknowledgement was signed, as one of that content in that session, by a participant |
| SigningMessages.VerifySessionEphemeral | core/crypto/src/session-ephemeral-auth.ts:118-164 | missing, malformed and mismatched are refused, each exactly in its case |
| SigningMessages.AcceptedEphemeralWasSigned | core/crypto/src/session-ephemeral-auth.ts:118-164 | an accepted session key was signed for that session by the expected identity |
| GroupKeys.AadInjective | core/crypto/src/channel-group-key.ts:120-122 | associated data tells channel, position and generation, for channels of any length |
| GroupKeys.DecryptsExactly | core/crypto/src/channel-group-key.ts:145-170 | any body opens exactly when it is a post's, at that post's place, whose generation's key is held; and as that post |
| GroupKeys.UnknownGenerationExactly | core/crypto/src/channel-group-key.ts:148-152 | `unknown_generation` exactly for framed bodies of a generation not held |
| GroupKeys.UnwrapGroupKey | core/crypto/src/channel-group-key.ts:191-228 | reads the layout at a moving offset and refuses each misfit with its own reason |
| GroupKeys.UnwrapInverts | core/crypto/src/channel-group-key.ts:182-228 | unwrapping gives a key exactly for the payload wrapped from that key and channel |
| GroupKeys.MembersOpenTheirGenerations | core/crypto/src/channel-group-key.ts:145-228 | whatever was handed out, a member opens a post exactly if handed its generation's key, else `unknown_generation` |
| GroupKeys.PostsOpenAtTheirPlace | core/crypto/src/channel-group-key.ts:115-122 | a post's body opens only at its own channel and position, as itself |
| GroupKeys.EncryptPost | core/crypto/src/channel-group-key.ts:125-135 | generation, nonce, ciphertext and tag; nothing when a field does not fit or the key is not 32 bytes |
| GroupKeys.FetchInputsDiffer | core/crypto/src/channel-group-key.ts:241-243 | another key, channel or generation derives its fetch key from another input |
| SessionAgreement.LexLess | core/crypto/src/session-key-agreement.ts:210-217 | the loop decides lexicographic order |
| SessionAgreement.LexTotal | core/crypto/src/session-key-agreement.ts:210-217 | of two different strings exactly one comes first |
| SessionAgreement.DeriveSessionSecrets | core/crypto/src/session-key-agreement.ts:219-397 | the refusals in their order, and the key derived from secret, session and both keys in order |
| SessionAgreement.BothSidesAgree | core/crypto/src/session-key-agreement.ts:254-396 | both ends of an exchange derive from the same input or refuse for the same reason |
| SessionAgreement.HonestSidesRefuseExactly | core/crypto/src/session-key-agreement.ts:288-365 | honest sides refuse exactly on an empty session, a refused or zero exchange, or equal keys |
| SessionAgreement.InputTellsTheExchange | core/crypto/src/session-key-agreement.ts:374-396 | the derivation's input tells session, shared and extra secret, both keys and transcript |
| SessionAgreement.DeriveSessionSalt | core/crypto/src/session-salt.ts:122-188 | the refusals in their order, and the salt derived from both contributions in order |
| SessionAgreement.SaltIsSymmetric | core/crypto/src/session-salt.ts:122-188 | both sides derive the same salt or both refuse, exactly when a contribution is unfit or they are equal |
| SessionAgreement.SaltTellsContributions | core/crypto/src/session-salt.ts:178-187 | the salt's input tells both contributions |
| SessionAgreement.DestroySessionEphemeral | core/crypto/src/session-key-agreement.ts:198-200 | the secret's buffer is zeroed in place |

## Left out

- MerkleTree.InclusionProof: indices are integers; a fraction or NaN, which the 32-bit operations truncate, is not modelled.
- MerkleTree.VerifyInclusion: index and size are whole numbers; a sibling that is no byte string, which throws, is not modelled.
- MerkleTree.BuildMerkleTree: an opaque prefix is an integer; a fraction, which the code refuses, is not modelled.
- ProxyStream.RunOnlySocket: one socket at a time means that a socket is made only when none is left, and by `connect` only until a connection first succeeds on an open proxy.
- ProxyUnanswered.WaitingCallsOrNever: for the same runs; with more sockets another one's close fails the call instead.
- IpcProxy.Proxy.Data: chunks are decoded characters; UTF-8 split across chunks and JSON frames that are no objects are not modelled. A socket destroyed for overflow may still deliver data until it closes, so the model has more runs than the code.
- IpcProxy.Proxy.Handle: a write throws exactly when there is no socket; a write to a destroyed socket is a frame nobody answers. The caller envelope, handlers for notifications and reconnects, log lines, an error frame whose error is null, which throws, and a socket error after a reconnect, for which there is no listener, are not modelled.
- GateProxy.BothAreRuns: a continuation of the gate's runs before the next socket or timer event, in any order with the proxy's own.
- GateProxy.RedialEndsOrderlyExactly: after `close` the rule for a dial's success is that no attempt is under way, which is not put in terms of events.
- ChannelForward.AwaitedFramesInOrder: a frame sent counts as sent; failures of the transport and the reconnect notice are not modelled.
- AgentRekey.RebuiltRowsCorrespond: rows keep their order in the model, as SQL does not promise; column types, indexes that are not unique and indexes of the same name on other tables are not modelled.
- AgentIdMigration.Database.Migrate: what a live foreign key would cascade to, and whether references dangle, are arbitrary functions of the tables.
- Manifest.VerifyManifest: the threshold is an integer; nodes are objects, as their type says, and one that is not would throw.
- JsonCanonical.CanonicalTextDecidesMeaning: values are those that JSON text can hold, so no `undefined`, no `toJSON` and no infinite number.
- AgentSelection.AcceptedSelectionIsNeverAnother: calls that name an agent act as that one; the attendance guard, which only refuses more, is not modelled.
- AgentHandlers.Daemon.UseAgent: displaced marks, waits, event channels, away periods and the warnings in the answer are not modelled; holders are kept per name, where the daemon keeps them per public key.
- AgentHandlers.Daemon.BeginRemoval: a fresh removal of an active agent; the revocation exchange before it and a repeated push for a retired agent are network traffic.
- CliSelection.WrittenIsReadTrimmed: spaces are the ASCII ones, and file errors are not modelled.
- SigningMessages.SignedInjective: session ids are shorter than 2^32 bytes; a relay's statement is compared before it is hashed.
- SigningMessages.PairingPollExactly: times are whole and not negative.
- SigningMessages.BuildRelayAckTbs: position and time are whole numbers.
- GroupKeys.FetchInputsDiffer: compares what the key is derived from; that different inputs give different keys is HKDF's promise.
- GroupKeys.DecryptsExactly: every use of a group key is a post; nonces are 12 bytes.
- The MCP tool table, help texts, doorbell wording and most CLI commands are pass-through or user interface.
- Key files, permissions, sockets, processes and logging are plumbing around easy layouts.
- `policyApprove`, `saltFingerprint`, `saltedContentHash` and credential verification would add only easy members.
