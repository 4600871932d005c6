# Verified model of the agent engine's cores

This project models the stateful cores of an agent engine written in Go and
proves what they are for. Each module follows one component:

- `Wrappers`, `RunTypes`, `Recovery`, `ToolProtocol`, `SessionActor`, `Machine`: the durable
  event log of a run, the tool protocol that writes it, and crash recovery that
  folds it. The writer is a step system with a crash enabled after every step;
  the reader is the recovery code; the safety theorem links the two.
- `Lru`, `ByteEncoder`, `Bpe`, `Tokenizer`: a bounded LRU cache, the byte
  alphabet, greedy byte-pair merging, and token counting through the cache.
- `Bytes`, `FrameCodec`: the length-prefixed frames of the IPC channel.
- `SessionRotation`, `DeviceLogin`: refresh-token rotation and device-code
  polling, as interleavings of atomic store steps.
- `Messages`, `ToolRound`, `AgentLoop`: tool-call pairing, parallel dispatch
  folded back in order, and the segment and round loops of a run.
- `Compaction`, `TokenBudget`, `MemoryLadder`: the compaction latch, the integer
  budget of a context window, and the memory degradation ladder.
- `Coalescer`, `StreamJoin`: merging of delta events, and joining a run's
  history to its live events.
- `FileTree`, `Cas`, `Checkpoint`, `CheckpointStore`: the content-addressed
  store, snapshots, restoration with conflict detection, and collection.

Code that changes state is modelled by classes and loops proved against
specification functions; the lemmas are about those functions. Protocols are
step systems over values with an invariant kept by every step. I/O results,
clocks, random ids, provider replies and scheduling are parameters, chosen
freely by whoever calls.

## Where the code does less than it says

The model follows the code. Where a comment promises more, a lemma gives the
exact condition:

- "Recovery is idempotent" (`internal/engine/engine.go:860-863`): a second pass
  changes nothing only if the log has no gap and the first pass was not the
  automatic resumption that used up the maximum, because each such pass is
  counted. With a maximum of n, pass n + 1 of one process fails a healthy parked
  run (`RecoverIdempotentIff`, `PassesUntilFailed`, `SecondPassFails`).
- The maximum is there so that a run that keeps crashing does not loop across
  restarts (`internal/engine/recovery.go:103-108`): the counter dies with the
  process, so a restart never finds it reached (`RestartForgetsAttempts`,
  `RestartResumesAgain`).
- A call that took effect and has no result is always seen by recovery: only if
  its id had no logged result before the call was requested
  (`UnresolvedListedIff`; `ReusedIdIsMissed` is a run that defeats it). And when
  the wait for a tool is given up, its failure may be logged before it takes
  effect; such an effect is lost to recovery too (`UnconfirmedListedIff`,
  `AbandonedIsMissed`).
- Terminal runs stay terminal: true of the machine, not of the actor, which lets
  one request through (`TerminalLeftIff`, `ParkingReopens`).
- Revoking a login's sessions ends it: only while no refresh of it is in flight,
  because the store's rotation does not ask whether the old row is revoked
  (`RevocationFinalIff`, with the run `RevokedChainRevives`). The revoker is any
  caller of the store's interface; this repository itself only revokes sessions
  whose tokens nobody was given.
- The in-process fallback redeems a device code once: only for codes with an
  expiry, and only while no claim that finds the table full has a clock past that
  expiry. Polls read their clocks before they claim, so such a claim can come
  early (`FallbackOnceIff`, with the run `RedeemedTwice`).
- "The two halves join without a gap" (`internal/engine/engine.go:741-746`): not
  for events published without their number, after a failed history read, or for
  events that parallel tool calls publish in another order than they append them
  (`MissingIff`, with the runs `UnnumberedLeavesGap` and `SwappedLeavesGap`). And a
  run that ends between the history read and the terminal check closes the stream
  without its last event (`EndShownIff`, `EndLostAtCheck`). If instead the history
  has the end of the run and the run's record does not show it yet at the check,
  the live copy is skipped and the stream never closes by itself
  (`ShownThenLiveNeverCloses`, `LateRecordStaysOpen`; `ClosesIff` says when a live
  stream still can).
- `Put` repairs a damaged blob: only if the damage changed its size
  (`PutGetIff`, `DamageStays`).
- An unforced restore compares the disk with the snapshot, so it writes back
  only what is already there (`UnforcedRollsBackNothing`).
- `Restore` of a manifest fails as soon as the manifest records an absent file
  (`AbsentFilesCannotBeHandedOut`, `OneAbsentFileIsEnough`).
- High-retention tool results are documented as never cut
  (`internal/context/message.go:44-46`): snipping spares them, but trimming cuts
  one exactly when it is old, longer than both limits and unmarked, and the
  context is still above the pruning threshold after low results were snipped
  (`HighIsRewrittenIff`, `HighIsNeverSnipped`, with the conversation of
  `WrittenFileIsCut`).

## Model

| member | source | states |
|---|---|---|
| RunTypes.TerminalIffNotResumable | internal/types/t02_run.go:66-128 | of the eleven declared states, the terminal ones (no successor in the table) are exactly those that are not resumable |
| RunTypes.ReachedFrom | internal/types/t02_run.go:66-128 | the transition table by its columns: from which states each state can be reached |
| Recovery.VerifySequence | internal/engine/recovery.go:379-396 | accepts a log iff its numbers are positive and consecutive; reports the highest number even for a broken log |
| Recovery.FoldEvents | internal/engine/recovery.go:346-371 | folds session, state, round and attempts; a run that died recovering comes out queued |
| Recovery.FoldKeepsState | internal/engine/recovery.go:346-371 | the folded state is that of the newest event carrying a declared state |
| Recovery.FoldWithoutStates | internal/engine/recovery.go:346-371 | a log without declared states folds to created |
| Recovery.IncompleteCalls | internal/engine/recovery.go:404-452 | the map-and-order loop computes the unfinished calls of the log |
| Recovery.CollectCalls | internal/engine/recovery.go:407-440 | the map holds the record of every call seen so far, the order slice their keys in first-seen order |
| Recovery.HasResultIff | internal/engine/recovery.go:404-452 | a call counts as started, or as closed, iff an event of the log says so under its key |
| Recovery.IncompleteExact | internal/engine/recovery.go:404-452 | a key is listed iff some tool event carries it and no result event does, in first-seen order, once |
| Recovery.SplitCalls | internal/engine/recovery.go:225-252 | the loop computes the two lists of the plan, which `ListsByFacts` gives by the events and the store |
| Recovery.Inspect | internal/engine/recovery.go:171-283 | the method computes the plan, whose decision, lists and fields `DecisionByFacts`, `ListsByFacts` and `PlanFields` give by the events and the store |
| Recovery.SplitPartitions | internal/engine/recovery.go:225-252 | uncertain and replayable partition the incomplete calls, and all three lists are in first-seen order |
| Recovery.NothingUncertainIff | internal/engine/recovery.go:225-252 | no call is uncertain iff every started call without a result is safe to replay |
| Recovery.ResumeAutoIff | internal/engine/recovery.go:171-283 | resumption without asking iff the log is contiguous, the run live, the budget not spent and every started call without a result safe |
| Recovery.ListsByFacts | internal/engine/recovery.go:225-252 | on the events and the store alone: in a live run with a sound log a key is uncertain iff it was started, has no result, and is neither pinned as idempotent nor, without a pin, idempotent under its first name; every other logged key without a result is replayable, and nothing else is |
| Recovery.DoubtBlocks | internal/engine/recovery.go:225-283 | such a call keeps any run from being resumed without asking |
| Recovery.DecisionByFacts | internal/engine/recovery.go:171-283 | each of the four decisions, for every log, store and budget, in terms of the events, the newest state and the attempts used |
| Recovery.PlanFields | internal/engine/recovery.go:171-283 | the plan names the newest session, the highest round, the last number and the newest state, a recovering one as queued |
| Recovery.ParkIsStable | internal/engine/engine.go:918-983 | the event recovery appends to park a run changes neither round nor lists of the next inspection; the decision changes only to failing, when the counter has reached the maximum by then, and otherwise the next pass appends nothing |
| Recovery.FailureSettlesIffContiguous | internal/engine/engine.go:904-916 | a recorded failure makes the next pass skip the run iff the log was contiguous; otherwise it is failed again; the counter plays no part |
| Recovery.RecoverIdempotentIff | internal/engine/engine.go:857-883 | a second pass of the process, with the counter the first one left, appends nothing iff the log has no gap and the first pass was not the automatic resumption that reached the maximum |
| Recovery.PassesUntilFailed | internal/engine/engine.go:940-979 | over any number of passes an automatically resumed run is parked once, stays, is failed by the pass that finds the maximum reached, and stays failed |
| Recovery.SecondPassFails | internal/engine/recovery.go:253-266 | with a maximum of one, the second pass fails a healthy parked run |
| Recovery.RestartForgetsAttempts | internal/engine/engine.go:366-378 | the first pass of a process fails a run iff its log is empty or has a gap, however often the run crashed before |
| Recovery.RestartResumesAgain | internal/engine/recovery.go:103-108 | a parked run that the same process would fail is resumed again by the next one |
| Recovery.RunRecord.Park | internal/engine/engine.go:970-979 | parks with one event unless the run is parked already or the table forbids it |
| Recovery.RunRecord.ApplyRecoveryPlan | internal/engine/engine.go:899-983 | acts on each decision, with registration and append that may fail; an automatic resumption is counted once the run is registered, parked or not |
| Recovery.RunRecord.Recover | internal/engine/engine.go:864-883 | one pass is inspection with the counter as it stands, then the plan; the attempt is counted iff a registered run is resumed automatically, and exactly which event is appended, and when |
| ToolProtocol.ReachableInv | internal/engine/engine.go:1583-1699 | over every interleaving and crash the log stays contiguous and every execution has a started event before it |
| ToolProtocol.StartedBefore | internal/engine/engine.go:1599-1615 | every execution has a started event with its id on disk before it happens |
| ToolProtocol.MarkersAreSpent | internal/engine/engine.go:1599-1615 | a marker is good for one execution, and requesting a call again takes it away |
| ToolProtocol.UnresolvedListedIff | internal/engine/recovery.go:404-452 | an execution without a result is listed as incomplete, and as started, iff no result was logged under its key before it was requested |
| ToolProtocol.UnconfirmedListedIff | internal/engine/engine.go:1635-1661 | an execution that no later result confirms is listed iff its key had no result at request time and none was logged between request and execution |
| ToolProtocol.NeverReplayed | internal/engine/recovery.go:225-252 | an executed call whose class is not safe is never offered for replay, even with reused ids |
| ToolProtocol.CrashSafety | internal/engine/engine.go:1599-1615 | such a call without a result, freshly requested, is uncertain whenever the run is live, and recovery never resumes without asking |
| ToolProtocol.CrashSafetyByFacts | internal/engine/recovery.go:225-252 | on the events and the store alone: an executed call whose id no result closes is uncertain in a live run and blocks automatic resumption iff neither its pinned class nor, without one, that of its first name is idempotent |
| ToolProtocol.DistinctIdsAccounted | internal/engine/recovery.go:171-283 | with distinct ids every executed call of a live run is reported, replayable by class, or uncertain, and in only one of these |
| ToolProtocol.ReusedIdIsMissed | internal/engine/recovery.go:404-452 | a run that reuses an id after its result loses the second execution: recovery resumes without asking |
| ToolProtocol.AbandonedIsMissed | internal/engine/engine.go:1643-1653 | a run in which a failure is logged for an abandoned call that then takes effect: recovery resumes without asking |
| ToolProtocol.ToolRunner.RequestCall | internal/agent/loop.go:864-880 | logging a request is the request step of the protocol |
| ToolProtocol.ToolRunner.MarkToolStarted | internal/engine/engine.go:1674-1699 | the marker is appended, or nothing changes and the call reports an error |
| ToolProtocol.ToolRunner.RunTool | internal/engine/engine.go:1599-1615 | the executor marks, then executes iff the marker was stored |
| ToolProtocol.ToolRunner.DispatchToolCall | internal/engine/engine.go:1582-1661 | a tool runs before the call returns iff its call has an id, none with that id is in flight, the scheduler admits it, the wait is not given up and the marker was stored; an executor that had begun when the wait was given up is left to itself, and the registration goes on every exit |
| ToolProtocol.ToolRunner.FinishDetached | internal/engine/engine.go:1567-1575 | such an executor goes on from where it was: it executes iff its marker is or gets stored |
| SessionActor.Actor.Handle | internal/engine/actor.go:198-219 | every request leads to the state and answer of the actor's specification, also when the append fails |
| SessionActor.Actor.ApplyTransition | internal/engine/actor.go:393-449 | checks the table, appends one event carrying the new state, and only then changes memory |
| SessionActor.Actor.ApplyMessage | internal/engine/actor.go:454-481 | appends a stateless event and counts it |
| SessionActor.Actor.ApplyRunUpdate | internal/engine/actor.go:484-512 | registers or mutates a run without an event |
| SessionActor.Actor.ApplyTerminal | internal/engine/actor.go:515-585 | closes a run with one event, folds a repeated close into memory only, rejects an illegal one |
| SessionActor.VerdictByFields | internal/engine/actor.go:393-585 | unknown run, illegal move and failed append, by the request, the state and the transition table |
| SessionActor.ServeFrame | internal/engine/actor.go:393-585 | a request touches only the run it names and its log; a refused one touches nothing; the session version counts transitions, closes and updates |
| SessionActor.TransitionRecords | internal/engine/actor.go:393-449 | the fields of the run and the one event a served transition leaves |
| SessionActor.CloseRecords | internal/engine/actor.go:515-585 | the fields a served close leaves: empty answer, error, reason and list keep the old ones, completed iff closed terminally once; and its event, unless the close is repeated |
| SessionActor.MessageRecords | internal/engine/actor.go:454-481 | a message is one event without a state and moves only number and version |
| SessionActor.TypeTellsState | internal/engine/actor.go:393-449 | the type of a logged state change tells the state, for every state with a type of its own |
| SessionActor.ServeAgrees | internal/engine/actor.go:393-585 | one request, stored or not, keeps memory equal to the fold of the log |
| SessionActor.AlwaysAgrees | internal/engine/actor.go:393-585 | so does any sequence of requests, append failures, crashes and restarts from the log |
| SessionActor.RehydratedAsLogged | internal/engine/recovery.go:346-371 | a run registered again after a restart has the newest state, the highest round and the last number of its log |
| SessionActor.MidRequestCrash | internal/engine/recovery.go:346-371 | dying between append and memory leaves a log that folds to the state the request was about to set, and to the old one for every other run |
| SessionActor.NoChangeWithoutEvent | internal/engine/actor.go:393-449 | a run's state moves only with an appended event that carries it; a failed append moves nothing |
| SessionActor.TerminalLeftIff | internal/engine/actor.go:525-534 | a terminal run leaves its state iff it is closed with a state that is not terminal; all other changes follow the table |
| SessionActor.ParkingReopens | internal/engine/actor.go:525-534 | parking a completed run makes it wait again, with an event |
| Machine.Machine.TransitionTo | internal/agent/state.go:160-222 | which of the four answers is given, that an accepted move is recorded even when the sink fails, and that a rejected one changes nothing |
| Machine.Machine.Advance | internal/agent/state.go:160-222 | a move keeps the bounded history equal to the last 256 moves of a legal walk |
| Machine.TerminalAbsorbs | internal/agent/state.go:160-222 | no sequence of requests leaves a terminal state, and any live state can still be cancelled |
| Machine.MachineAheadOfActorIff | internal/engine/actor.go:393-449 | machine and actor agree after a request iff it was refused, stored, or a self-move: a failed append leaves the machine ahead |
| Lru.TrimmedIsLongest | internal/context/lru.go:289-315 | eviction from the back ends at the longest most-recently-used prefix that fits both caps |
| Lru.TrimmedByCaps | internal/context/lru.go:289-315 | what is left is within both caps, and one more item would have been over one of them |
| Lru.FrontSurvivesIff | internal/context/lru.go:126-154 | what was just written survives its own eviction iff it alone is within the byte cap |
| Lru.SizesAdd | internal/context/lru.go:317-330 | estimated sizes add up, 24 bytes for a non-empty slice |
| Lru.LengthOfOne | internal/context/lru.go:317-330 | a character counts as its one to four UTF-8 bytes |
| Lru.ExpiredIff | internal/context/lru.go:105-145 | an entry has expired iff there is a time to live and the clock is past it |
| Lru.WithoutAt | internal/context/lru.go:272-285 | removing a key takes its one item out and keeps the order of the others |
| Lru.WithoutMap | internal/context/lru.go:272-285 | removing a key from list and map agree and cost exactly its bytes, so counters stay exact |
| Lru.Cache.Remove | internal/context/lru.go:272-285 | removes one key everywhere; the clamp of the byte counter at zero is never reached |
| Lru.Cache.Get | internal/context/lru.go:105-122 | a hit iff stored and not expired; it moves the key to the front, an expired one is dropped |
| Lru.Cache.MoveToFront | internal/context/lru.go:126-145 | rewriting a stored key keeps counters exact and puts it first |
| Lru.Cache.Put | internal/context/lru.go:126-154 | the new recency sequence is the longest fitting prefix of key-first, also when the new entry itself does not fit |
| Lru.Cache.Enforce | internal/context/lru.go:289-302 | the two eviction loops together compute that prefix |
| Lru.Cache.Delete | internal/context/lru.go:157-167 | deletes exactly the key |
| Lru.Cache.Clear | internal/context/lru.go:171-186 | empties map, list and counters and reports the exact bytes |
| Lru.Cache.PurgeExpired | internal/context/lru.go:189-204 | keeps exactly the unexpired entries in order, whatever order the map is walked in |
| Lru.Cache.Resize | internal/context/lru.go:208-214 | new caps, same trimming |
| ByteEncoder.BuildTable | internal/context/byteencoder.go:26-67 | the four loops fill the table with the code of every byte |
| ByteEncoder.CodeInjective | internal/context/byteencoder.go:26-67 | no two bytes share a character |
| ByteEncoder.CodeByRange | internal/context/byteencoder.go:26-67 | the table by ranges: printable bytes to themselves, the 68 others to 256 and on in order |
| ByteEncoder.EncodeText | internal/context/tokenizer.go:204-214 | encodes a text byte by byte through the table |
| ByteEncoder.EncodeDecode | internal/context/byteencoder.go:26-67 | every byte string is recovered from its encoding |
| Bpe.FindBest | internal/context/tokenizer.go:231-247 | the scan finds the leftmost pair of least rank, or that there is none |
| Bpe.Rebuild | internal/context/tokenizer.go:249-258 | rebuilding the word joins exactly that pair |
| Bpe.Merge | internal/context/tokenizer.go:219-266 | the loop terminates with the merged word |
| Bpe.MergedIsNormalForm | internal/context/tokenizer.go:219-266 | merging loses no text, ends with no mergeable pair, never grows or empties the word |
| Bpe.MergedIsDerived | internal/context/tokenizer.go:219-266 | the result is reached by merging the leftmost least-rank pair, step by step |
| Bpe.DerivationsMeet | internal/context/tokenizer.go:219-266 | every such run that cannot go on ends in the same word |
| Bpe.StepsByRanks | internal/context/tokenizer.go:219-266 | a step joins the leftmost pair of least rank, on the ranks themselves |
| Bpe.SettledByRanks | internal/context/tokenizer.go:219-266 | a word is settled iff no two neighbours have a rank |
| Tokenizer.TokensAreLossless | internal/context/tokenizer.go:168-266 | the bytes of a pre-token are recovered from its tokens |
| Tokenizer.TokensInjective | internal/context/tokenizer.go:168-266 | different byte strings have different token lists |
| Tokenizer.CountBounds | internal/context/tokenizer.go:168-188 | for a splitter that loses nothing: at most one token per byte, at least one unless the text is empty, exactly one per byte without merges |
| Tokenizer.TrimmedSound | internal/context/lru.go:289-315 | eviction keeps only entries that are the merge result of their key |
| Tokenizer.FreshSound | internal/context/lru.go:189-204 | so does expiry |
| Tokenizer.BpeTokenizer.BpeOf | internal/context/tokenizer.go:219-266 | through the cache, at any time, the result is the pure merge of the token |
| Tokenizer.BpeTokenizer.RunesOf | internal/context/tokenizer.go:272-282 | one symbol per encoded byte |
| Tokenizer.BpeTokenizer.CountTokens | internal/context/tokenizer.go:168-188 | the count is that of the uncached algorithm |
| Tokenizer.BpeTokenizer.RunHistory | internal/context/tokenizer.go:168-188 | over any history of counts, evictions, expiries, clears, deletes and resizes the counts do not depend on the cache |
| Bytes.NumberOfBigEndian | internal/ipc/protocol.go:180-196 | a number within the width is read back from its big-endian bytes |
| Bytes.BigEndianOfNumber | internal/ipc/protocol.go:229-245 | any bytes are the big-endian bytes of the number they are read as |
| Bytes.BigEndianTruncates | internal/ipc/protocol.go:196 | writing a length too wide for its field keeps it modulo the field |
| FrameCodec.WriteFrame | internal/ipc/protocol.go:162-211 | nothing when a field is longer than 65535 bytes; otherwise as much of the encoding as the writer takes, and success iff that is all of it |
| FrameCodec.ReadFrame | internal/ipc/protocol.go:215-280 | the staged reader computes the decoder on the unread bytes, and leaves what the decoder leaves |
| FrameCodec.HeaderFields | internal/ipc/protocol.go:162-245 | the numbers read from a header are those of the frame, its payload length modulo 2^32 |
| FrameCodec.HeaderRebuilt | internal/ipc/protocol.go:162-245 | a header is determined by its numbers |
| FrameCodec.WireLayout | internal/ipc/protocol.go:162-211 | every byte of an encoded frame: magic, version, the lengths, sequence and two's-complement deadline with the most significant byte first, then the parts |
| FrameCodec.ErrorsByBytes | internal/ipc/protocol.go:215-280 | acceptance and each error by the bytes read |
| FrameCodec.RestByBytes | internal/ipc/protocol.go:215-280 | what is left unread after a short read, an error in the header and a success |
| FrameCodec.RoundTripIff | internal/ipc/protocol.go:162-280 | reading a written frame gives it back (version normalised) and leaves the tail iff version is 0 or 1 and the payload fits 32 bits and the limit |
| FrameCodec.ReadBack | internal/ipc/protocol.go:215-280 | whatever the reader accepts re-encodes to exactly the bytes it consumed |
| FrameCodec.EncodingsPrefixFree | internal/ipc/protocol.go:162-280 | equal streams start with equal frames: no encoding is a proper prefix of another |
| FrameCodec.StreamRoundTrip | internal/ipc/protocol.go:162-280 | concatenated frames plus any tail read back frame by frame, leaving the tail |
| FrameCodec.StreamReadBack | internal/ipc/protocol.go:215-280 | any frames taken from a stream re-encode to the bytes taken |
| SessionRotation.BuildSession | internal/account/session.go:18-46 | a session exists iff its deadline is ahead, and its access token never outlives the deadline |
| SessionRotation.LoginHolds | internal/account/session.go:62-85 | a login holds for thirty days and its first access token for fifteen minutes |
| SessionRotation.ReachableInv | internal/account/session.go:88-138 | the rotation invariant holds after every interleaving of logins, refreshes, revocations and crashes |
| SessionRotation.ExchangedOnce | internal/account/service.go:64-75 | a refresh token is exchanged at most once, and then its session is revoked |
| SessionRotation.OneLivePerChain | internal/account/session.go:88-138 | a chain has at most one session that is not revoked |
| SessionRotation.DeadlineIsAbsolute | internal/account/session.go:153-158 | all sessions of a chain share one refresh deadline and no access token passes it |
| SessionRotation.DeadForever | internal/account/session.go:88-138 | a fully revoked chain with no refresh in flight stays revoked over every continuation |
| SessionRotation.InFlightRevives | internal/gateway/store/account.go:255-283 | a refresh in flight during the revocation can still complete, at the time it had read, and leave a live session |
| SessionRotation.RevocationFinalIff | internal/account/store.go:28-30 | after any run that revoked all sessions of a chain, that is final over every continuation iff no refresh of the chain is in flight |
| SessionRotation.RevokedChainRevives | internal/account/session.go:88-138 | a run from the start in which a fully revoked chain gets a live session again |
| SessionRotation.ExchangeIff | internal/account/session.go:87-138 | in every reachable world, with its lock free, a session is exchanged by locking, loading and rotating iff it is not revoked, its user active and its login's deadline ahead, for a successor of the same chain and deadline; otherwise nothing changes |
| SessionRotation.VerdictByFields | internal/account/session.go:87-138 | each answer of a refresh by the fields of the row, the clock readings, the user and the store |
| SessionRotation.ExchangedByFault | internal/account/session.go:126-138 | what each fault of the store's transaction leaves: nothing written, the exchange, or the exchange with its successor revoked |
| SessionRotation.LocksAreHeld | internal/account/session.go:95-99 | after every interleaving each locked stripe is held by a refresh in flight, so a crash leaves none locked |
| SessionRotation.Service.LoadSession | internal/account/session.go:100-124 | the checks between lock and rotation, their order and answers; the lock is let go unless all pass; going on, revoked and expired by the row's own fields |
| SessionRotation.Service.RotateSession | internal/account/session.go:126-138 | builds and stores the successor; when the store reports an error the successor is revoked, written or not |
| SessionRotation.Service.Refresh | internal/account/session.go:88-138 | one call is the lock, load, rotate and compensating steps, with the answer for every outcome of each, and holds no lock afterwards; tokens iff the token is well formed and found, its row not revoked, both clock readings before its refresh deadline, the user active and the store without fault, and then exactly the exchange of the row |
| DeviceLogin.ReachableInv | internal/account/device.go:49-105 | at most one winner, and every session and the poll that made it know each other, after every interleaving |
| DeviceLogin.RedeemedOnce | internal/gateway/store/account.go:417-456 | at most one poll ever returns tokens, and then the code is consumed |
| DeviceLogin.LosersCleanUp | internal/account/device.go:88-105 | a poll that has returned left a live session iff it won |
| DeviceLogin.OneSessionPerCode | internal/account/device.go:49-105 | once all polls returned, the live sessions are exactly the winner's |
| DeviceLogin.OpenCodeRedeems | internal/account/device.go:49-105 | in every reachable world a code that is neither consumed nor out of time can be approved and exchanged for one live session |
| DeviceLogin.NothingWithoutApproval | internal/account/device.go:66-80 | without an approval every poll is refused or dead and no session exists |
| DeviceLogin.PollEnds | internal/account/device.go:88-105 | how a whole poll ends, what becomes of its session and whether the code is used up, by what each step met |
| DeviceLogin.Service.ConsumeDeviceCode | internal/gateway/store/account.go:427-456 | the conditional update succeeds iff the code was approved and the transaction did not fail |
| DeviceLogin.Service.Redeem | internal/account/device.go:88-105 | issue, consume, revoke on failure: tokens iff the session was stored, the code approved and its consumption succeeded |
| DeviceLogin.Service.Settle | internal/account/device.go:96-105 | consumes, or revokes the session; which of the three answers |
| DeviceLogin.Service.Check | internal/account/device.go:49-87 | the first failing check decides the answer: form, code lookup, expiry, status, user; each answer by the code's row, the clock and the user |
| DeviceLogin.Service.PollDeviceLogin | internal/account/device.go:49-105 | one call is the read, issue, consume and compensate steps, with the answer for every outcome of each; tokens iff approved, in time, for an active user, stored and consumed |
| DeviceLogin.PollWinsOrCleansUp | internal/account/device.go:88-105 | a poll wins iff it was let through, its session stored and the code consumed; one that does not leaves no new live session if the revocation succeeds |
| DeviceLogin.UsedDeviceCodes.TryClaim | internal/account/service.go:77-103 | grants a code iff it is not recorded with a later expiry, pruning a large table without losing such records |
| DeviceLogin.BlockedUntilExpiry | internal/account/service.go:84-103 | a granted code stays recorded as long as no clock has reached its expiry, whatever else is claimed or pruned |
| DeviceLogin.RefusedIff | internal/account/service.go:84-103 | for clocks in any order: all later claims on a recorded code are refused iff each comes before its expiry and no claim finds the table full with a clock past it |
| DeviceLogin.FallbackOnceIff | internal/account/device.go:156-173 | the in-process table refuses every later redemption iff the code has an expiry and no claim in between clears it |
| DeviceLogin.RedeemedTwice | internal/account/service.go:90-98 | from the empty table, a run of claims in which a code with an expiry is redeemed twice |
| Messages.ValidateToolPairing | internal/context/manager.go:386-410 | the loop accepts a conversation iff every tool message answers a pending call once |
| Messages.PairedIff | internal/context/manager.go:386-410 | accepted iff every assistant turn parses and every tool message answers an id that an earlier turn asked for and none has answered since |
| Messages.PairingIgnoresContent | internal/context/manager.go:386-410 | the verdict does not depend on texts |
| ToolRound.JoinedFillsEverySlot | internal/agent/loop.go:1019-1051 | all goroutines are done iff every slot is filled, each with its own call's outcome, and never more than the limit ran |
| ToolRound.OrderIndependent | internal/agent/loop.go:1019-1051 | the slots do not depend on the order goroutines start and finish in |
| ToolRound.ApplyToolDecisions | internal/agent/loop.go:955-1003 | nothing parks iff every confirmation was decided; then, in order, a call is denied iff its id, or without an entry its tool's name, maps to a refusal, and what the model is told follows from the decisions and the tool's result |
| ToolRound.ToldByDecision | internal/agent/loop.go:955-1003 | parking, refusal and the text for every outcome, on the decisions map alone |
| ToolRound.Conversation.Observe | internal/agent/loop.go:864-950 | a parked round appends nothing; otherwise exactly one tool message per call in request order, then the notes |
| ToolRound.Conversation.ObserveRound | internal/agent/loop.go:864-950 | for every interleaving of the dispatch, once all goroutines are joined: a parked round appends nothing, any other appends exactly the message of each call, in request order; each message by the decisions map and the tool's result: the refusal text, the permission layer's text for an approved call, a success unchanged |
| ToolRound.RoundOrderIndependent | internal/agent/loop.go:1019-1051 | rounds whose tools answer alike add the same messages, whatever the order of starts and finishes |
| ToolRound.ResultsMatchCalls | internal/agent/loop.go:1102-1205 | the i-th message is a tool message with the i-th call's id and outcome |
| ToolRound.RoundPairingIff | internal/agent/loop.go:864-950 | a completed round keeps a paired conversation paired iff the provider's ids are neither empty nor repeated |
| AgentLoop.Loop.FinishWithAnswer | internal/agent/loop.go:693-733 | completed iff answer, closure and transition were all taken, in that order; otherwise what had been taken |
| AgentLoop.Loop.HandleEmptyAnswer | internal/agent/loop.go:738-769 | one more try within the cap, else a failure that is not completed |
| AgentLoop.Loop.RunRound | internal/agent/loop.go:537-688 | one provider call at most, no counter passes its cap; the outcome is the verdict on the reply unless the sink refused an event, the end of the round included; only a completed round emits all closing events; the outcome by the fields of the reply, and no answer for a reply that breaks |
| AgentLoop.Loop.FollowReply | internal/agent/loop.go:583-688 | what compaction, finish reason and observation make of a reply, and which counter goes up; each outcome by finish reason, blankness, calls, compaction and observation |
| AgentLoop.Loop.RunSegment | internal/agent/loop.go:416-453 | the rounds of a segment are that many steps of the flat loop, unless refused or cancelled |
| AgentLoop.Loop.RunSegments | internal/agent/loop.go:416-479 | all segments are the rounds of the budget, and the continuations stay within theirs |
| AgentLoop.Loop.EndCancelled | internal/agent/loop.go:1580-1604 | a cancelled run emits at most one closure, and no answer |
| AgentLoop.Loop.EndFailed | internal/agent/loop.go:1607-1628 | a failed run emits at most one more closure, and no answer |
| AgentLoop.Loop.ForceWrapUp | internal/agent/loop.go:1450-1569 | at most one more provider call, whose reply decides the state; completed only with the closing events |
| AgentLoop.Loop.RoundBudgetIsProduct | internal/agent/loop.go:354-365 | the round budget is rounds per segment times segments |
| AgentLoop.VerdictByReply | internal/agent/loop.go:537-683 | where each reply leads, by its own fields: completed only on a text the model stopped at or on one cut short with the continuations spent |
| AgentLoop.Loop.FlatEnds | internal/agent/loop.go:342-490 | the loop ends at the first reply that does not lead to another round, with every continuation and retry counted from the replies, or when the rounds are used up |
| AgentLoop.Loop.WholeEnds | internal/agent/loop.go:342-490 | a whole run by its replies: planning, plan mode, rounds and wrap-up |
| AgentLoop.Loop.DefaultCaps | internal/agent/loop.go:613-632 | by default a model always cut short is asked four times, one always silent twice |
| AgentLoop.Loop.Prepare | internal/agent/loop.go:376-411 | queueing, planning and plan mode: at most two provider calls, one if the run goes on, and never completed |
| AgentLoop.Loop.RunPlanning | internal/agent/loop.go:1332-1393 | only a cancellation in the planning phase stops the run |
| AgentLoop.Loop.RunPlanMode | internal/agent/plan_mode.go:96-160 | an approved plan goes on without a call; otherwise the reply decides between waiting, cancelled and failed |
| AgentLoop.Loop.Run | internal/agent/loop.go:342-487 | from any state of the conversation: at most the round budget plus two provider calls, planning and wrap-up included, no counter passes its cap, at most the allowed continuations more; completed iff one final answer, then one closure, then the completed transition last; without refusals and cancellation the run ends as planning, one flat loop of all its rounds and a wrap-up would; when nothing is refused or cancelled, the state and the number of provider calls follow from the replies alone, and no answer is taken by a run that does not complete |
| Compaction.Compressor.SnipPass | internal/context/compress.go:163-184 | rewrites in place exactly the old, long, unclipped results of the class, each judged on the messages as they were; the reported saving is exact and positive per cut |
| Compaction.Compressor.SnippedTexts | internal/context/compress.go:240-273 | such a pass changes only texts between the first message and the protected tail |
| Compaction.Compressor.PrunedTexts | internal/context/compress.go:187-215 | so does pruning |
| Compaction.Compressor.CutTexts | internal/context/compress.go:219-229 | so does cutting assistant texts, wherever it stops |
| Compaction.Compressor.SnipStaleToolResults | internal/context/compress.go:240-273 | low-retention results, and medium ones only if no low one was cut |
| Compaction.Compressor.PrunePass | internal/context/compress.go:187-215 | rewrites exactly the long unpruned results, snipping those of the highest class; the saving is exact and may be negative |
| Compaction.Compressor.AssistantPass | internal/context/compress.go:219-229 | cuts long assistant texts without calls up to the first point within the limit; the reported saving is too high by one marker per cut |
| Compaction.Compressor.TrimContext | internal/context/compress.go:140-234 | the three stages, each entered only above its threshold on the result of the one before, with the exact account of the reported saving |
| Compaction.Compressor.TrimmedTexts | internal/context/compress.go:136-139 | trimming changes only texts between the first message and the protected tail |
| Compaction.Compressor.HighIsRewrittenIff | internal/context/compress.go:187-215 | trimming rewrites a high-retention result iff it is old, longer than both limits, unmarked, and the measure is above the first threshold before and above the second after low results were snipped |
| Compaction.Compressor.HighIsNeverSnipped | internal/context/compress.go:240-273 | snipping alone never touches one |
| Compaction.RetentionByTool | internal/context/message.go:52-84 | which tools' results are of the highest and the middle class |
| Compaction.NameIsNearest | internal/context/message.go:89-118 | a result's tool is the one its nearest earlier turn names it by |
| Compaction.Compressor.SnippedIff | internal/context/compress.go:158-183 | which results are snipped and to what, by position, role, length, markers and class |
| Compaction.Compressor.PrunedIff | internal/context/compress.go:185-214 | which results are pruned and to what |
| Compaction.Compressor.CutStopsAtFirst | internal/context/compress.go:217-229 | long assistant texts are cut in order, up to the first after which the measure is within the limit |
| Compaction.Compressor.TrimmedReaches | internal/context/compress.go:140-235 | trimming ends within the hard limit or with every old long text cut, and cuts none if the results were enough |
| Compaction.Compressor.StaleByClass | internal/context/compress.go:240-273 | results of the middle class are snipped only when there was nothing low to snip |
| Compaction.UnnamedIsLow | internal/context/message.go:89-118 | a result that no earlier turn names is of the lowest class |
| Compaction.ContextManager.TrimThresholds | internal/context/compress.go:303-326 | the thresholds of trimming: four fifths of the input budget rounded down, and three quarters of that |
| Compaction.VersionCounts | internal/context/manager.go:220-293 | the version counts rewritings and requests, one each |
| Compaction.ContainsIff | internal/context/message.go:159-166 | a marker is found wherever it is |
| Compaction.ThresholdsRoundDown | internal/context/manager.go:227-236 | the four thresholds are 62.5, 75, 100 and 112.5 percent of the base rounded down, in order |
| Compaction.ZoneByPrompt | internal/context/manager.go:220-262 | the band of a prompt by the numbers |
| Compaction.SoftNoticeOnce | internal/context/manager.go:220-262 | after a soft notice no prompt falls into the soft band again |
| Compaction.TriggersCounted | internal/context/manager.go:262-293 | of prompts that trimming does not bring down the first ones are answered by a request, up to two in all |
| Compaction.BelowReleases | internal/context/manager.go:256-266 | a prompt below the bands gives both requests back |
| Compaction.WrittenFileIsCut | internal/context/message.go:44-46 | with the default settings and the thresholds of one base, a conversation in which the record of a written file is cut |
| Compaction.ContextManager.Decide | internal/context/manager.go:220-293 | one step of the latch and exactly the rewriting its band calls for; any changed text is old, raises the rewrite version and keeps the pairing verdict; a stuck latch rewrites nothing |
| Compaction.ContextManager.AtTrigger | internal/context/manager.go:262-293 | at the trigger: trim, and ask for a summary unless that was counted and enough |
| Compaction.LatchAlwaysOk | internal/context/manager.go:220-293 | over all call sequences the counter is at most 2, equals 2 iff stuck, and every summary raises the version |
| Compaction.AtMostTwoSummaries | internal/context/manager.go:220-293 | between resets the summaries asked for are exactly the counter's increase, so at most two |
| Compaction.StuckUntilBelow | internal/context/manager.go:256-266 | a stuck latch stays stuck, and asks for nothing, until a prompt falls below the bands |
| TokenBudget.ComputeBudget | internal/context/budget.go:105-149 | any window and ratios: segments non-negative, total within the window; the scaled shares when they fit, and otherwise those shares shrunk to exactly the window |
| TokenBudget.Reserve | internal/context/budget.go:120-125 | margin and usable part add up to the window, and the usable part is never empty |
| TokenBudget.ShrinkTo | internal/context/budget.go:163-198 | any limit and segments: unchanged without input; otherwise each segment its share rounded towards zero, the recent conversation what is left and at least nothing; with a positive limit and positive segments the total is exactly the limit |
| TokenBudget.ShrinkIsExact | internal/context/budget.go:163-198 | in that last case nothing is cut off at zero and no segment falls below its share |
| TokenBudget.SharesFit | internal/context/budget.go:163-198 | shares rounded down never exceed what is available |
| TokenBudget.ScaleRoundsDown | internal/context/budget.go:151-159 | a share above the minimum is the exact one rounded down |
| TokenBudget.ScaledByRatios | internal/context/budget.go:126-149 | each segment is its own ratio of the usable part rounded down, or the minimum |
| TokenBudget.MarginRoundsUp | internal/context/budget.go:120-125 | the margin is the exact one rounded up, unless that leaves nothing |
| TokenBudget.KeptByLimit | internal/context/budget.go:163-175 | the output reserve is kept if it leaves a token, and a quarter of the limit otherwise |
| TokenBudget.DefaultBudget | internal/context/budget.go:105-149 | the seven segments of a window of 100000 tokens without options |
| MemoryLadder.BandQuarters | internal/context/membudget.go:334-359 | rounding a three-level band cuts it at one and three quarters |
| MemoryLadder.TargetByNumbers | internal/context/membudget.go:311-359 | the target level as a number for all thresholds and usages |
| MemoryLadder.TargetMonotone | internal/context/membudget.go:311-328 | for ordered thresholds the target level never falls when usage rises |
| MemoryLadder.BandReachable | internal/context/membudget.go:334-359 | the first, second and third level of a band are reachable iff it spans 1, 2 and 4 units |
| MemoryLadder.AllReachableIff | internal/context/membudget.go:311-359 | every level from 0 to 7 is reachable iff both bands span at least 4 units |
| MemoryLadder.BetweenCounts | internal/context/membudget.go:364-399 | a climb runs each reclaimer in range as often as it is registered and no other |
| MemoryLadder.BetweenSorted | internal/context/membudget.go:364-399 | along a climb levels only rise |
| MemoryLadder.BetweenSplits | internal/context/membudget.go:275-309 | climbing in stages runs what one climb would, in the same order |
| MemoryLadder.RegistrationOrderIrrelevant | internal/context/membudget.go:247-252 | the same registrations in any order run the same reclaimers, by rising level |
| MemoryLadder.Manager.Register | internal/context/membudget.go:247-252 | inserts behind those of its level; the list stays sorted and loses nothing |
| MemoryLadder.Manager.Sink | internal/context/membudget.go:410-417 | the exchange loop computes that insertion |
| MemoryLadder.Manager.ApplyLevel | internal/context/membudget.go:364-399 | going up runs exactly the reclaimers between the levels, going down none |
| MemoryLadder.Manager.Climb | internal/context/membudget.go:275-309 | climbing level by level runs exactly the reclaimers in between, in level order |
| MemoryLadder.Manager.Descend | internal/context/membudget.go:275-309 | descending enters every level in between and runs nothing |
| MemoryLadder.Manager.EvaluateWithUsage | internal/context/membudget.go:275-309 | for any thresholds, reaches the target through every level in between, one at a time, running each reclaimer in (old, target] once in level order |
| Coalescer.FoldConserves | internal/engine/backpressure.go:258-284 | folding an event into a frame keeps delivered plus pending equal to published for every key |
| Coalescer.FlushConserves | internal/engine/backpressure.go:298-320 | so does turning a frame into one event |
| Coalescer.MergedFields | internal/engine/backpressure.go:298-320 | a merged event has the texts and count of its frame, no number, and the rest from the newest event |
| Coalescer.Coalescer.Publish | internal/engine/backpressure.go:244-284 | the event passes, folds or fills its frame; texts, counts, limits and the timer invariant are kept |
| Coalescer.Coalescer.EmitFrame | internal/engine/backpressure.go:298-320 | delivers the one frame and nothing else |
| Coalescer.Coalescer.Flush | internal/engine/backpressure.go:287-296 | everything pending is delivered |
| Coalescer.Coalescer.Close | internal/engine/backpressure.go:323-340 | afterwards, for every run and type, what was delivered is what was published: both texts in order, and the count |
| StreamJoin.StreamRun | internal/engine/engine.go:759-812 | history first, then the live events it did not cover, up to a terminal one or until the client leaves |
| StreamJoin.DeliveryRises | internal/engine/engine.go:759-812 | delivered numbers rise strictly and are above the requested one, whatever history and channel hold |
| StreamJoin.ReachableInv | internal/engine/backpressure.go:69-147 | publications come in any order, and events may be announced before they are appended; the channel was given each numbered event published since the subscription, unless the reader was cut off before |
| StreamJoin.SystemRunsTheLoop | internal/engine/engine.go:759-812 | after every interleaving the client has what the loop makes of the history read and the items taken, with the terminal check as the system answered it |
| StreamJoin.MissingIff | internal/engine/engine.go:747-812 | a number up to the last one delivered is missing iff the history did not cover it and its event was published without its number, or before the subscription, or was not offered before a larger number was |
| StreamJoin.GaplessPrefix | internal/engine/engine.go:741-757 | if every event is published with its number and after all earlier ones, and the history can be read, the delivery is a contiguous piece of the log from the requested number on |
| StreamJoin.EndShownIff | internal/engine/engine.go:783-812 | a stream that closed by itself has shown the end of the run iff it closed on the terminal event, or the history covered it; at the check everything after the history is lost |
| StreamJoin.EndLostAtCheck | internal/engine/engine.go:783-787 | a run that ends between the history read and the check closes the stream without its last event |
| StreamJoin.ClosesIff | internal/engine/engine.go:789-812 | a live stream can still close by itself iff a terminal item that will be due waits in its channel, or the reader is connected and the end of the run is still to be published |
| StreamJoin.ShownThenLiveNeverCloses | internal/engine/engine.go:783-800 | when the history delivered the end and the live part was entered all the same, no continuation with numbered publications closes the stream |
| StreamJoin.LateRecordStaysOpen | internal/engine/engine.go:783-800 | a run whose record shows its end too late: its stream stays open over every continuation |
| StreamJoin.SwappedLeavesGap | internal/engine/engine.go:1688-1697 | two numbered events published in the other order than appended leave a gap |
| StreamJoin.UnnumberedLeavesGap | internal/engine/engine.go:1383-1393 | an event published without its number reaches a live client as unnumbered and leaves a gap |
| FileTree.WriteEffect | internal/checkpoint/restore.go:97-106 | a write sets its own path, creates only missing directories above it and leaves every other path alone |
| FileTree.CallsByTree | internal/checkpoint/restore.go:84-106 | what a look shows and when writing and removing fail, by the tree |
| FileTree.FailuresSpareFiles | internal/checkpoint/restore.go:84-106 | a failing call changes no file |
| FileTree.WriteKeepsWellFormed | internal/checkpoint/restore.go:122-128 | writing, even a failing write, leaves everything standing in directories |
| FileTree.RemoveKeepsWellFormed | internal/checkpoint/restore.go:84-90 | so does removing, which never removes a directory in use |
| Cas.PutGetIff | internal/checkpoint/cas.go:92-113 | what is put can be got back iff no damaged blob of the same size stands in its place |
| Cas.DamageStays | internal/checkpoint/cas.go:99-107 | damage that keeps the size is not repaired |
| Cas.GetIsHonest | internal/checkpoint/cas.go:143-156 | a content is handed out only under its own hash, and whenever the blob is undamaged |
| Cas.PutElsewhere | internal/checkpoint/cas.go:92-113 | putting never disturbs another or an undamaged blob |
| Cas.Store.Keep | internal/checkpoint/cas.go:92-113 | the deduplicating write: fails iff the blob must be written and cannot be, and then changes nothing |
| Cas.Store.GetByHash | internal/checkpoint/cas.go:143-156 | content, absence or damage of a blob |
| Cas.Store.Verify | internal/checkpoint/cas.go:168-181 | accepts a reference iff its blob is undamaged and of the recorded size, if one is recorded |
| Cas.Store.Delete | internal/checkpoint/cas.go:184-195 | deletes in order up to the first blob that is there and cannot be removed |
| Cas.Store.ListHashes | internal/checkpoint/cas.go:198-218 | every blob once |
| Cas.Store.TotalSize | internal/checkpoint/cas.go:221-240 | the bytes of all blobs |
| Checkpoint.CaptureExact | internal/checkpoint/manifest.go:181-214 | a capture succeeds iff every path is absent or a readable file whose content is stored or can be, and then records each truly, in order |
| Checkpoint.CapturedBlobs | internal/checkpoint/manifest.go:181-214 | a captured content can be read back iff no damaged blob of its size was there before; good blobs stay good |
| Checkpoint.ConflictIffDiffers | internal/checkpoint/manifest.go:382-393 | a conflict is a difference in existence or content and nothing else; times do not matter |
| Checkpoint.ForcedSettlesIff | internal/checkpoint/restore.go:50-111 | from any disk, an error-free forced restore brings back the last entry of a path iff no later file was put back beneath a path that should be absent |
| Checkpoint.CaptureEditRestore | internal/checkpoint/restore.go:50-111 | capture, any edits, error-free forced restore: every requested path has its old presence, content and mode |
| Checkpoint.OverbuiltExample | internal/checkpoint/manifest.go:218-237 | a snapshot built file by file can make that condition fail |
| Checkpoint.UnforcedChangesNothing | internal/checkpoint/restore.go:69-82 | without force no file changes content, comes or goes; the differing entries are exactly the conflicts, in order; only matching files are rewritten |
| Checkpoint.UnforcedRollsBackNothing | internal/checkpoint/restore.go:43-49 | an entry differs from the disk after an unforced restore iff it did before |
| Checkpoint.RestoreElsewhere | internal/checkpoint/restore.go:50-111 | paths nobody asked for keep what they have, errors or not, but for new parent directories |
| Checkpoint.EveryEntryReported | internal/checkpoint/restore.go:12-22 | each requested entry has one fate, and the four lists are exactly the paths with theirs, in order |
| Checkpoint.FateMeans | internal/checkpoint/restore.go:50-111 | what each of the five fates means for the disk and when an entry is passed over or conflicts |
| Checkpoint.FailedWriteLeavesDirectories | internal/checkpoint/restore.go:97-106 | a file that could not be written is an error and leaves the directories made for it |
| Checkpoint.RestoreNeedsOnlyItsBlobs | internal/checkpoint/restore.go:92-96 | a restore depends only on the blobs its entries name |
| Checkpoint.AbsentFilesCannotBeHandedOut | internal/checkpoint/manifest.go:148-161 | a captured manifest's references are handed out iff every captured file existed and its blob is undamaged |
| Checkpoint.OneAbsentFileIsEnough | internal/checkpoint/manifest.go:148-161 | the capture of one absent file succeeds and is never handed out |
| CheckpointStore.Store.Capture | internal/checkpoint/manifest.go:181-214 | the capture loop, the blobs it stored before a path that could not be read or kept ended it, and the manifest it writes last or not at all |
| CheckpointStore.Store.CaptureFile | internal/checkpoint/manifest.go:218-237 | only the first version of a path is recorded, so paths stay distinct |
| CheckpointStore.Store.RestoreTo | internal/checkpoint/restore.go:50-111 | the restore loop computes the specified outcome and disk, and changes nothing for an unknown or invalid id |
| CheckpointStore.Store.Restore | internal/checkpoint/manifest.go:148-161 | the references in order, iff all of them verify |
| CheckpointStore.Store.List | internal/checkpoint/manifest.go:270-292 | every manifest with a usable id once |
| CheckpointStore.ValidIdIff | internal/checkpoint/manifest.go:414-422 | a usable name is not empty and has no separator and no double dot |
| CheckpointStore.MarksAreTheQueries | internal/checkpoint/gc.go:79-108 | a manifest is marked iff the active, pinned, unfinished, recent or window query names it, and marking fails iff one of the five does |
| CheckpointStore.Store.Mark | internal/checkpoint/gc.go:79-108 | the union of the answers to the five retention queries, each by its own field, or failure when one fails |
| CheckpointStore.Store.Condemned | internal/checkpoint/gc.go:109-115 | exactly the listed manifests that nothing marked, each once |
| CheckpointStore.Store.DropManifests | internal/checkpoint/gc.go:116-128 | registrations first, then files; on success exactly those, on failure nothing else |
| CheckpointStore.Store.SweepBlobs | internal/checkpoint/gc.go:130-165 | what is referenced stays; on success nothing else does, and freed plus remaining bytes are the bytes before |
| CheckpointStore.Store.Sweep | internal/checkpoint/gc.go:109-166 | both sweeps: what is kept stays, on success nothing else does, and it succeeds iff no call in it fails |
| CheckpointStore.SweptByQueries | internal/checkpoint/gc.go:70-166 | after any collection what a query names has its file, its registration and its blobs; after a finished one a usable name in none of the answers is gone, and so is every blob without a registration |
| CheckpointStore.Store.GC | internal/checkpoint/gc.go:70-166 | whatever fails, kept manifests and referenced blobs survive; on success exactly those do, with exact counts; on the five query fields: what one of them names survives, one that fails aborts with nothing changed; and the exact condition under which a collection is broken off |
| CheckpointStore.KeptRestoresAsBefore | internal/checkpoint/gc.go:64-69 | after any collection, even one broken off, a kept and registered manifest restores with the same outcome and disk, and stays registered |
| CheckpointStore.BlobSurvivesIff | internal/checkpoint/gc.go:130-151 | a blob outlives a finished collection iff a registration that is left names it; what a running capture stored is lost |
| CheckpointStore.CollectionSettles | internal/checkpoint/gc.go:70-166 | collecting twice with the same marks is collecting once |

## Left out

- Transports, sockets, HTTP, SQL, JSON, prompts, the expert catalogue, wiring and front end: I/O, data or glue.
- SHA-256 is a hash without collisions; random ids and tokens are fresh values; floating-point ratios are reals, so rounding of floats is not modelled.
- Width of 64-bit counters and sizes: they are unbounded here, except in the frame codec, where every width is explicit.
- The pre-token regex: a parameter; losslessness is per pre-token because the regex does not cover every character. The heuristic count used when the tokenizer data cannot be loaded is not modelled.
- Statistics: cache hits, misses and eviction callbacks, bus counters and the number of recovered runs, tiers and labels of compaction, reclaimed byte counts and level-change hooks.
- `Lru.Cache`: the map shares no entry objects with the list; each holds the entry as a value.
- Scanning for runs in flight, plan notes and the checkpoint looked up for a plan: an inspection starts from the run's log and the answers of the idempotency store.
- Tool events written beside the actor also stamp states on the log; the agreement proved for the actor is about its own events and honest updates of run records.
- SessionActor.AlwaysAgrees: covers run updates that leave `State` alone, because an update that sets it writes no event.
- Deadlines of frames.
- Starting a device login, approval by user code, the touch of the last-polled time and the lookup of users; a poll is given what the lookups of its code and user answer.
- Several processes refreshing one token: the striped lock is per process, as the store's contract says.
- An assistant message whose call list is an empty array is taken as one without a call list.
- A machine record of a run that is out of step with its log when recovery meets it again in the same process.
- The tools a plan selects, reviews, usage accounting and the texts of events in the agent loop; what a review appends is a list of notes.
- AgentLoop.Loop.Run: exactly one closure is claimed for completed runs only; several failing exits emit none, and a sink failure can lead to a second one.
- Context-cancellation in the middle of checkpoint calls; a cancelled restore is a restore of a prefix.
- Checkpoint.CaptureExact: a capture sees one disk; a file edited between its fingerprint and its copy is not modelled.
- Case-insensitive names, links, and Windows' own error for a path beneath a file; the tree fails the way POSIX does.
- Partly created parent directories when creating one fails, and residues of temporary files.
- The order of listed manifests by creation time, unreadable manifest files (skipped by the listing), defaults of the retention settings, and `Save` of bare references.
- Token counts shrinking under pruning is not claimed: the marker can outweigh a short cut.
- The coalescer's methods are atomic steps; the moment between filling a frame and flushing it is not modelled. The order slice of the coalescer keeps flushed keys; its growth is not bounded. A durable event may overtake pending deltas of its run, so order is claimed per key.
