# vouch-core, modelled and proved

vouch-core is a content-addressed store of claims that converges whatever order
events arrive in, a sync protocol between two such stores, the deterministic CBOR
codec its identities rest on, a fold of claims into things, and an actor that ties
them to pipes. This project models those parts and proves what their comments
promise.

## How it is laid out

Each file is one module of the same name.

- **Codec.** `Bytes`, `Utf8` (what counts as text), `Values`, `Cbor` (what is written and what is read, as functions),
  `CborLaws` (accepted bytes are canonical), `CborRoundTrip` (values read back),
  `Frames` (headers, event frames, CBOR sequences), `Refusals` (which defect is named), `CborCoder` (the encoder that grows
  a buffer and the decoder that advances a position, proved against those functions).
- **Store.** `Rows` (rows, edge maps, single writes), `Storage` (the memory backend with
  its undo log, as a class), `Ingest` (one ingest as a list of writes), `Converge` (the
  closed form of a store), `Indexes` (edge indexes and arrivals), `Health` (the same from
  the rows alone), `Crash`, `Queries` (listings, fingerprints, fsck), `Sorted`,
  `ClaimStores` (the store class over its backend), `Wire` and `EdgeWalks` (the structural
  check and the deep edge walk), `Walks` and `Recognition` (what the walk finds, which bodies
  redact), `Fsck` (what each line of it means), `Tallies` (what reports and counts mean),
  `Backup` and `Dumps`, `Misnaming` (whose claims a
  redaction may touch).
- **Sync.** `Protocol` (messages, cursors, responder), `Responding` (the responder over a
  store it changes), `Sessions` (the session as a value, and its termination), `Shapes`,
  `SyncSessions` (the session object), `SyncStates` (the cursor table), `Exchanges` and
  `Convergence` (a whole session against an honest responder), `Remembered` (what it leaves in
  its row), `Accounts` (its tally adds up), `Push` (push frames),
  `Links` (two stores and their messages as steps), `Trailing` (cursors), `Settling` (the
  settled cache), `Windows` (what a reconciliation shows us, and when the cache is sound),
  `QuietRuns` (how a caller can see to it), `Overtaking` (what it costs when it is not).
- **Fold.** `Graphs` (reachability and components by worklists), `Folding`, `FoldLaws`,
  `FoldReadings` (what a component shows, said of the claims' bodies), `Edits`.
- **Peer.** `Actors` (turns of the actor as a value), `Turns` (what each does), `Fanouts` (news
  reaches watchers), `Serving` (sessions converge against an actor), `Discretion` (what may leave a peer),
  `Privacy` (what its answers depend on), `Peers` (the actor's core, its tables changed in
  place).

A class is proved against a function: every method says which function of the old
state the new state is, and the laws are proved about the functions.

## Modelling choices

- **Hashes.** Ids are numbers. In `Wire` an id is the 32-byte digest of the header read
  big-endian, so ids order as bytes do, and a set of events on which the digest does not
  collide yields a `World`: what each id is the hash of. Everywhere else the world is a
  parameter and an artifact is `Genuine` when it says what its id pins.
- **Fingerprints** XOR independent digests, so a fingerprint is the set of the digests'
  inputs and XOR is symmetric difference.
- **Ingest-only.** Arrival, cursor and fsck statements are for stores built by ingest.
- **Truthful and unstripped.** Session convergence assumes that redactions name their
  target's real log and that redact claims are held with their bodies: the store compares
  the declared log, and a session does not fetch the body of a claim that is redacted.
  `Misnaming.TruthfulMeans` says which histories meet the first, and
  `Convergence.SessionLeavesApart` what a session gives without the second.
- **Full pipes.** Whether an attempt to send finds room is an arbitrary function of the
  attempt.

## What turned out not to hold

`sync/notify.rs:127-131` says that a frame matching the settled cache counts only claims
we hold. The fingerprint a reconciliation remembers is the one the peer's closing `Status`
reports, and that may count claims no hash list had us fetch. Two ways lead there:

- A claim lands at the peer between the answer to `Hashes` and the answer to the closing
  `Status`. `Overtaking.HeartbeatOvertakes` is a run from two fresh stores in which the
  next heartbeat then moves the pull cursor past a claim we lack.
- The log was pushed and not pulled: `session.rs:547-561` remembers the fingerprint all the
  same. `Overtaking.PushOnlyOvertakes` is such a run, with nothing landing anywhere once
  the session began. The actor's own sessions pull what they push (`peer.rs:999-1004`).

The exact condition is about what the peer showed. Let *listed* be its store when it
answered `Hashes` and *closing* its store when it answered the closing `Status`. In every
run whatever, by the time that status lands a pulling session holds all of *listed*
(`Windows.RunIsSteady`), so the remembered fingerprint mentions only claims held if and
only if we hold what is in *closing* and not in *listed*; for a log that is not pulled, if
and only if we hold all of *closing* (`Windows.OnlyArrivalsMatter`). Over whole runs, every
remembered fingerprint is understood and every count trails at every boundary if and only
if each closing status landed so (`Windows.CacheIsSoundExactly`), and whether one did is
what the next heartbeat shows (`Overtaking.NextHeartbeatTells`). Every run meets it in which
sessions pull what they push and nothing we lack lands at the peer while a reconciliation
of its log is past its hash list (`QuietRuns.QuietIsSound`).

`peer.rs:53-61` says that nothing a peer follows or merged can leak by syncing with it. Its
reads keep that (`Privacy.AnswersTellOnlyOwnLog`); its acknowledgements do not. A reader
that follows a stranger's log acknowledges a fresh event of it, one that does not answers
nothing (`Privacy.PushTellsFollowing`); of two that both follow it, the one that merged the
claim answers nothing (`Privacy.PushTellsMerged`); and an offered blob is taken by the one
that merged a claim referring to it (`Privacy.OfferTellsMerged`). What pushes can tell of
some logs is exactly this: which of them are accepted, and of those which claims are held
and which bodies are still wanting, neither held nor redacted for good
(`Privacy.PushesTell`).

`store.rs:860-865` says that redaction is own-log-only. The code compares the log the redact
body declares, not the log its target is of, so a stranger's redact claim that names a claim
as of its own log drops that claim's body (`Misnaming.StrangerRedacts`). A claim of another
log is redacted exactly so (`Misnaming.StrangersRedactByMisnaming`), and a store's
redactions are own-log redactions exactly when whatever misnamed a target came under a
greater id than a redaction from the target's own log (`Misnaming.OwnLogOnlyMeans`).

`store.rs:487-491` says that two stores with the same state dump identical streams. The
state says nothing of tags and the first tag seen stays: two events that differ in their
tag alone, in the other order, leave the same state and another dump
(`Dumps.TwoTagsTwoDumps`). The dumps agree exactly when the tags do (`Dumps.DumpsAgree`).

## Model

| member | source | states |
|---|---|---|
| CborLaws.HeadIsMinimal | crates/vouch-core/src/cbor.rs:224-264 | a head that is read is the minimal head of what it says, at the bytes it was read from |
| CborLaws.HeadIsRead | crates/vouch-core/src/cbor.rs:30-47 | every head written is read back as the same major type and argument |
| CborLaws.TagKeepsBytes | crates/vouch-core/src/cbor.rs:359-417 | recognising a tag never changes the bytes the value encodes to |
| CborLaws.ValueIsCanonical | crates/vouch-core/src/cbor.rs:286-353 | wherever the decoder accepts a value, the bytes it consumed are that value's encoding: map order, minimal heads and tags included |
| CborLaws.CanonicalBytes | crates/vouch-core/src/cbor.rs:420-428 | for every byte string, if `from_bytes` accepts it then `to_bytes` of the result is that byte string |
| CborLaws.DecoderIsInjective | crates/vouch-core/src/cbor.rs:420-428 | two accepted byte strings with the same value are the same |
| CborRoundTrip.ValueIsReadBack | crates/vouch-core/src/cbor.rs:82-141 | an encoded value within the decoder's limits is read back at any position of any buffer |
| CborRoundTrip.EncodeDecode | crates/vouch-core/src/cbor.rs:144-148 | `from_bytes(to_bytes(v)) == v` exactly when `v` is within the limits: nesting, i64 blob sizes, and no generic tag around a recognised shape |
| Utf8.TextIsSpelled | crates/vouch-core/src/cbor.rs:295-305 | a text string is accepted exactly when it spells a sequence of Unicode scalar values, surrogates excluded, in the forms of section 3 of RFC 3629 |
| Cbor.AscendingIsSorted | crates/vouch-core/src/cbor.rs:99-117 | the canonical key order leaves one listing of a key set, so checking order on reading and sorting on writing agree |
| CborCoder.Encoder.Head | crates/vouch-core/src/cbor.rs:30-47 | appends the head bytes and nothing else |
| CborCoder.Encoder.EncodeEvent | crates/vouch-core/src/cbor.rs:66-79 | appends the frame of an event |
| CborCoder.Encoder.EncodeValue | crates/vouch-core/src/cbor.rs:82-141 | appends exactly the canonical encoding to whatever was there |
| CborCoder.Encoder.EncodeMap | crates/vouch-core/src/cbor.rs:99-117 | entries come out sorted by their keys' encodings |
| CborCoder.Encoder.EncodeHeader | crates/vouch-core/src/claim.rs:108-117 | appends the canonical header bytes |
| CborCoder.ToBytes | crates/vouch-core/src/cbor.rs:144-148 | the encoding, in a fresh buffer |
| CborCoder.Order | crates/vouch-core/src/cbor.rs:99-117 | the keys in the one canonical order |
| CborCoder.Decoder.Take | crates/vouch-core/src/cbor.rs:186-201 | the bytes taken or the offset and reason of the refusal, and where the position ends up |
| CborCoder.Decoder.Head | crates/vouch-core/src/cbor.rs:224-264 | the step-by-step head decoder computes the specified head or the specified error |
| CborCoder.Decoder.Key | crates/vouch-core/src/cbor.rs:319-340 | one key, strictly above the previous encoding, with the offset moved back on a violation |
| CborCoder.Decoder.Items | crates/vouch-core/src/cbor.rs:310-316 | the item loop computes the recursive reading of the items |
| CborCoder.Decoder.Entries | crates/vouch-core/src/cbor.rs:317-341 | the entry loop, inserting as it goes, computes the collected reading of the entries |
| CborCoder.Decoder.Value | crates/vouch-core/src/cbor.rs:286-353 | the recursive decoder with its position computes the specified value or error |
| CborCoder.ParseValue | crates/vouch-core/src/cbor.rs:423-428 | exactly one value and nothing after it |
| CborCoder.ParseHeader | crates/vouch-core/src/claim.rs:126-150 | the header decoder computes the specified header or error |
| CborCoder.ParseFrame | crates/vouch-core/src/claim.rs:255-289 | one frame from the front and the bytes it took, or the specified error |
| CborCoder.ParseEvent | crates/vouch-core/src/claim.rs:239-248 | exactly one frame |
| Frames.HeaderIsCanonical | crates/vouch-core/src/claim.rs:124-150 | header bytes that decode are the canonical bytes of the header, at our version |
| Frames.HeaderRoundTrip | crates/vouch-core/src/claim.rs:108-150 | a header reads back from its canonical bytes exactly when its version is ours |
| Frames.OtherVersionIsNamed | crates/vouch-core/src/claim.rs:126-140 | a header of any other version is refused naming the version it claims |
| Refusals.TrailingIsNamed | crates/vouch-core/src/cbor.rs:420-428 | anything after a value is refused as trailing, at the value's end |
| Refusals.WideHeadIsNamed | crates/vouch-core/src/cbor.rs:224-264 | a head wider than its argument needs is refused as non-minimal |
| Refusals.DepthIsBounded | crates/vouch-core/src/cbor.rs:286-300 | nesting is read down to 128 levels and refused as too deep beyond |
| Refusals.KeysAreNamed | crates/vouch-core/src/cbor.rs:314-350 | keys that are not text, or not well-formed, are refused as such |
| Refusals.LengthsAreNamed | crates/vouch-core/src/cbor.rs:200-222 | an input that ends early, a length beyond it and a length that overflows are told apart |
| Frames.HeaderTrailingIsNamed | crates/vouch-core/src/claim.rs:126-150 | anything after a header is refused as trailing |
| Frames.FrameIsCanonical | crates/vouch-core/src/claim.rs:255-289 | the bytes a frame decode consumed are the frame's encoding |
| Frames.FrameIsRead | crates/vouch-core/src/claim.rs:230-289 | a frame at the front of a longer buffer is read back whole |
| Frames.EventRoundTrip | crates/vouch-core/src/claim.rs:232-248 | a buffer decodes to an event exactly when it is that event's encoding |
| Frames.CutFrameFails | crates/vouch-core/src/claim.rs:250-254 | no proper prefix of a frame is a frame |
| Frames.CutStream | crates/vouch-core/src/claim.rs:250-254 | a stream cut at any byte yields exactly its complete frames, then an error if and only if the cut is inside one |
| Frames.ReadBack | crates/vouch-core/src/claim.rs:250-254 | an uncut stream reads back whole |
| Wire.WalkFindsMentions | crates/vouch-core/src/value.rs:315-357 | the deep walk collects a claim exactly when the body mentions it: by reference, by quote, or inside a quote within the depth bound |
| Walks.WalkFindsBlobs | crates/vouch-core/src/value.rs:315-357 | the blob edges are exactly the blobs a body refers to, itself or inside a quote that checks, within the depth bound |
| Walks.WalkCountsRefused | crates/vouch-core/src/value.rs:315-357 | what is counted as skipped is each quote the walk meets that is too deep or fails its check |
| Recognition.ClassifyMeans | crates/vouch-core/src/claim.rs:187-206 | an event is taken for a claim exactly when its header decodes and a body it carries is at most 64 KiB, hashes to what the header pins and is a map; under the hash of its header, in the header's log |
| Recognition.RedactionIsRecognised | crates/vouch-core/src/store.rs:860-877 | a claim redacts exactly what its decoded body names under `redacts`, if its `type` is "redact" and the named log is its header's |
| Recognition.RedactionTakesEffect | crates/vouch-core/src/store.rs:351-379 | once such an event is among those loaded, in any order, the target is on record as redacted and a content target's body is not held |
| Wire.ClassifiedIsWellformed | crates/vouch-core/src/claim.rs:187-207 | an event that passes its check and is stored can be sent again and checks into the same artifact |
| Wire.EventsAreGenuine | crates/vouch-core/src/claim.rs:171-207 | events whose hashes do not collide determine, by id, one log, one header and one body |
| EdgeWalks.EdgeWalk.Walk | crates/vouch-core/src/value.rs:315-357 | the walk that appends as it goes adds exactly the specified edges to those already found |
| EdgeWalks.EdgeWalk.WalkEmbed | crates/vouch-core/src/value.rs:319-340 | a quote is counted as a reference and walked through, or skipped past the bound or when it fails its check |
| Rows.RemoveEdgeUnlinks | crates/vouch-core/src/storage.rs:126-139 | removing an edge removes that edge only and leaves no empty set |
| Rows.SameEdges | crates/vouch-core/src/storage.rs:118-139 | an edge map without empty sets is determined by its edges |
| Storage.RemoveUndoesAdd | crates/vouch-core/src/storage.rs:196-203 | taking back an added edge restores the map exactly |
| Storage.AddUndoesRemove | crates/vouch-core/src/storage.rs:205-213 | putting back a removed edge restores the map exactly, keys included |
| Storage.MemoryClaimStorage.PutClaim | crates/vouch-core/src/storage.rs:158-171 | the write, and an undo log that still unwinds to the state at begin |
| Storage.MemoryClaimStorage.AddBacklink | crates/vouch-core/src/storage.rs:196-203 | the same for an edge, logged only when it is new |
| Storage.MemoryClaimStorage.RemoveBacklink | crates/vouch-core/src/storage.rs:205-213 | the same for a removed edge, logged only when it was there |
| Storage.MemoryClaimStorage.SetRedaction | crates/vouch-core/src/storage.rs:256-268 | the same for a redaction upsert |
| Storage.MemoryClaimStorage.PurgeOlderThan | crates/vouch-core/src/storage.rs:295-353 | claims received before the cutoff go with their outgoing edges and the redactions of them; others stay; all of it can be rolled back |
| Storage.MemoryClaimStorage.Begin | crates/vouch-core/src/storage.rs:355-361 | opens a transaction at the present state, refused when one is open |
| Storage.MemoryClaimStorage.Commit | crates/vouch-core/src/storage.rs:363-368 | keeps the state and forgets how to undo it |
| Storage.MemoryClaimStorage.Rollback | crates/vouch-core/src/storage.rs:370-379 | brings back the state at begin exactly, whatever was written, removed or purged since |
| Ingest.RedactionEffect | crates/vouch-core/src/store.rs:335-381 | after a redaction: the smaller redactor on record, the target's body dropped if it is content, exactly its edges gone |
| Ingest.StoreEffect | crates/vouch-core/src/store.rs:267-334 | after a claim that is no duplicate: one row changed and exactly the kept body's edges added |
| Converge.IngestConverges | crates/vouch-core/src/store.rs:237-334 | one ingest moves the closed form from the set seen to the set seen with one more |
| Converge.ReplayConverges | crates/vouch-core/src/store.rs:237-381 | after any history: ids are those seen, each redactor is the least that names its target, a body is held exactly if seen and a redact claim's or unredacted |
| Converge.SeenDeterminesVector | crates/vouch-core/src/store.rs:122-133 | the set of events seen determines the state vector |
| Converge.OrderIndependent | crates/vouch-core/src/store.rs:596-620 | histories that saw the same events, in any order and multiplicity, have the same state vector |
| Converge.Idempotent | crates/vouch-core/src/store.rs:237-334 | redelivering an event seen before performs no write at all |
| Crash.CrashThenRedelivery | crates/vouch-core/src/store.rs:351-379 | any prefix of one ingest's writes, then the same event again, gives the uninterrupted state, indexes and arrivals included |
| Indexes.IngestKeepsIndexes | crates/vouch-core/src/store.rs:285-300 | backlinks and blob referrers stay exactly the edges of the held bodies |
| Indexes.IngestKeepsDense | crates/vouch-core/src/store.rs:309-318 | arrivals of a log stay 0 to n - 1; a new claim is appended and nothing moves |
| Indexes.ReplayIsSound | crates/vouch-core/src/store.rs:237-381 | all of it together after every ingest-only run |
| Health.ReplayIsHealthy | crates/vouch-core/src/store.rs:237-381 | after every ingest-only run redactions and bodies are explained by the rows that are held |
| Health.Absorb | crates/vouch-core/src/store.rs:237-334 | all that one more artifact does: which claims, bodies, redactions and arrival positions |
| Queries.ServedInOrder | crates/vouch-core/src/store.rs:466-485 | what is served past a cursor is the rest of the arrival order |
| Queries.FingerprintDecides | crates/vouch-core/src/store.rs:513-561 | fingerprints of a log agree exactly when claims, bodies and redactions of the log do |
| Queries.FsckIsExact | crates/vouch-core/src/store.rs:686-810 | after an ingest-only run whose events pass their check the fsck reports exactly the redact claims that are themselves redacted, and only as still holding a body |
| Fsck.ProblemMeans | crates/vouch-core/src/store.rs:697-810 | on any store, damaged ones included, each line of the fsck is reported exactly when what it says is wrong with the rows |
| Backup.LoadedFsckIsExact | crates/vouch-core/src/store.rs:697-810 | the same for a store built from any wire events, every row re-checked from its bytes: header decoded, id and body hash recomputed, body decoded |
| ClaimStores.ClaimStore.ApplyRedaction | crates/vouch-core/src/store.rs:341-381 | the in-place redaction performs the specified writes in order and tells whether anything took effect |
| ClaimStores.ClaimStore.IngestInner | crates/vouch-core/src/store.rs:237-334 | the in-place ingest leaves the specified state and the specified report |
| ClaimStores.ClaimStore.IngestAt | crates/vouch-core/src/store.rs:201-235 | one transaction; an event that fails its check leaves exactly the state before |
| Tallies.ReportMeans | crates/vouch-core/src/store.rs:237-334 | every field of an ingest's report, in terms of the rows before and after |
| Tallies.ProgressIsChange | crates/vouch-core/src/store.rs:237-334 | an ingest reports progress exactly when it changed the store |
| Tallies.RowsKeepTheirPlace | crates/vouch-core/src/store.rs:300-333 | a new claim keeps its tag, goes to the end of its log and was received now; a held one keeps tag, place and time, whatever arrives later |
| ClaimStores.ClaimStore.PurgeOlderThan | crates/vouch-core/src/store.rs:655-679 | one transaction lets go of exactly the claims received before the cutoff, their edges and the redactions of them |
| ClaimStores.ClaimStore.CountLog | crates/vouch-core/src/store.rs:505-512 | the scan counts the log's claims |
| ClaimStores.ClaimStore.ServeSince | crates/vouch-core/src/store.rs:472-485 | the collected and sorted events are the log past the cursor in arrival order |
| ClaimStores.ClaimStore.LogHashes | crates/vouch-core/src/store.rs:573-584 | every claim of the log with whether it has a body, ascending by id |
| ClaimStores.ClaimStore.Fingerprint | crates/vouch-core/src/store.rs:535-561 | XORing digest by digest yields the log's fingerprint |
| ClaimStores.ClaimStore.VerifyIntegrity | crates/vouch-core/src/store.rs:697-810 | the passes over rows, arrivals, both indexes and redactions report exactly what is wrong: no false alarm, nothing missed |
| Backup.RowsSuffice | crates/vouch-core/src/store.rs:487-502 | what a store holds leads to the same closed form as everything it ever saw |
| Backup.BackupRoundTrip | crates/vouch-core/src/store.rs:487-502 | the dump reads back untorn and, ingested into an empty store, reproduces the state vector, redactions of redactions included |
| Dumps.DumpsAgree | crates/vouch-core/src/store.rs:487-502 | two stores with the same state vector dump identical streams if and only if they hold each claim under the same tag |
| Dumps.DumpIsInOrder | crates/vouch-core/src/store.rs:487-502 | a dump goes log by log, by id within a log |
| Dumps.TwoTagsTwoDumps | crates/vouch-core/src/store.rs:487-502 | the input on which equal states dump differently: one tombstone under two tags, in both orders |
| Misnaming.StrangersRedactByMisnaming | crates/vouch-core/src/store.rs:860-877 | one ingest redacts a claim of another log, and drops its body, if and only if the redact body names it as of the redactor's log |
| Misnaming.StrangerRedacts | crates/vouch-core/src/store.rs:860-877 | the input: a redact claim of log 8 that names log 7's claim as of log 8 drops its body |
| Misnaming.TruthfulMeans | crates/vouch-core/src/store.rs:860-877 | a store built by deliveries meets the truthfulness that session convergence asks for exactly when nothing delivered misnames its target |
| Misnaming.OwnLogOnlyMeans | crates/vouch-core/src/store.rs:351-379 | every redaction a store records is by a claim of its target's log exactly when each misnaming came under a greater id than a redaction from the target's own log |
| Responding.AcceptPublished | crates/vouch-core/src/sync/respond.rs:67-80 | publishing event by event leaves the specified store, and the tallies are exact |
| Responding.Answer | crates/vouch-core/src/sync/respond.rs:23-84 | every answer is the specified function of the store, and only a publish changes the store |
| Tallies.AckTallies | crates/vouch-core/src/sync/respond.rs:67-80 | a publish is acknowledged with the number of its events that were news where they landed and of those that fail their check |
| Sessions.FeedIsNearer | crates/vouch-core/src/sync/session.rs:382-564 | whatever a well-shaped answer says, feeding it lowers (logs left, settle laps left, phase, items left) and keeps the session valid |
| Sessions.SettlingIsNearer | crates/vouch-core/src/sync/session.rs:275-326 | settling ends the log, spends a lap or moves on, lying counts and changing instances included |
| Sessions.TakeAllKeepsPlace | crates/vouch-core/src/sync/session.rs:330-347 | taking peer-served events in touches the store, the tally and the clean flag only |
| Tallies.SessionTallies | crates/vouch-core/src/sync/session.rs:330-347 | taking events in: the pulled claims are those gained, unasked and failing events are counted apart, and the log stays clean exactly when there were none |
| SyncSessions.SyncSession.constructor | crates/vouch-core/src/sync/session.rs:157-202 | one plan a log, pulled first, pushed logs marked or appended |
| SyncSessions.SyncSession.BeginPrimaryPush | crates/vouch-core/src/sync/session.rs:256-263 | stages the log past the push cursor, or moves on |
| SyncSessions.SyncSession.SettleWith | crates/vouch-core/src/sync/session.rs:275-326 | the in-place settle leaves the specified session, rows and store |
| SyncSessions.SyncSession.NextRequest | crates/vouch-core/src/sync/session.rs:352-379 | the outstanding request, the same until fed |
| SyncSessions.SyncSession.StageWants | crates/vouch-core/src/sync/session.rs:478-494 | the wanted ids are exactly what they have that we lack or may heal, ascending, and none if the log is not pulled |
| SyncSessions.SyncSession.StageOffers | crates/vouch-core/src/sync/session.rs:496-514 | the offers are exactly the rows they lack or may heal, ascending by id, and none if the log is not pushed |
| SyncSessions.SyncSession.FeedHashes | crates/vouch-core/src/sync/session.rs:472-531 | both differences staged, and the session fetching, publishing or resettling as they ask |
| SyncSessions.SyncSession.Feed | crates/vouch-core/src/sync/session.rs:382-564 | consuming an answer leaves the specified session, store and cursor rows; a wrong shape changes nothing |
| Exchanges.LevelAgrees | crates/vouch-core/src/sync/session.rs:33-43 | stores that lack nothing of each other that a session would move hold the same claims, bodies and redactions of the log |
| Exchanges.LevelLeaves | crates/vouch-core/src/sync/session.rs:484-487 | which bodies two stores that lack nothing of each other may still hold apart, exactly |
| Exchanges.TakeFrom | crates/vouch-core/src/sync/session.rs:532-546 | taking in what a store may offer only closes gaps, and closes the gap of everything complete |
| Convergence.NewSessionPlans | crates/vouch-core/src/sync/session.rs:157-180 | however the lists repeat, each log is planned once, both ways if asked both |
| Convergence.WantsAreLacks | crates/vouch-core/src/sync/session.rs:478-494 | what is wanted of an honest peer is exactly what we lack of it |
| Convergence.OffersAre | crates/vouch-core/src/sync/session.rs:496-514 | what is offered is exactly what the peer does not hold, or holds without the body we have |
| Convergence.ExchangeKeeps | crates/vouch-core/src/sync/session.rs:382-564 | the invariant of a session against an honest responder, step by step: finished logs are level, staged batches cover what is lacking |
| Convergence.SessionClosesGaps | crates/vouch-core/src/sync/session.rs:275-564 | any two proper stores, any plan: when the session completes nothing of a pulled log is lacking here and nothing of a pushed log there, pull-only and push-only plans included |
| Convergence.SessionConverges | crates/vouch-core/src/sync/session.rs:275-564 | any two proper stores, any cursor counts with nothing settled: a completed session leaves the same log on both sides, by equality or by reconciling |
| Convergence.SessionLeavesApart | crates/vouch-core/src/sync/session.rs:484-487 | where redact claims may be held stripped: a completed session still leaves the same ids of the log on both sides, and the bodies that stay apart are exactly those of redact claims one side holds stripped and redacted, stripped on some side from the start, and of claims such a one redacts |
| Convergence.IngestedStoresConverge | crates/vouch-core/src/sync/session.rs:157-564 | the same end to end from two delivery histories and a new session, with equal fingerprints |
| Accounts.SessionAddsUp | crates/vouch-core/src/sync/session.rs:33-60 | over a whole honest session the claims reported as pulled are the claims the store gained |
| Remembered.EqualitySettles | crates/vouch-core/src/sync/session.rs:311-316 | a settle with no more to pull, against a peer that agrees on the log, saves a row that remembers the peer's fingerprint with its counts unmoved, and ends the log |
| Remembered.NextPushSettles | crates/vouch-core/src/sync/notify.rs:104-143 | after such a settle the peer's next frame settles by the memory wherever the model fits its events |
| Remembered.DifferenceEndsOrReconciles | crates/vouch-core/src/sync/session.rs:317-325 | a difference remembered from before ends the log and changes nothing; any other is reconciled |
| Remembered.MoreToPullLaps | crates/vouch-core/src/sync/session.rs:302-310 | more arrived while we worked: one more lap, at most twice |
| Remembered.RebornStartsOver | crates/vouch-core/src/sync/session.rs:283-301 | a peer reborn at settle time costs a lap and starts the row over, from the first position both ways |
| Remembered.ContactTakesUpRow | crates/vouch-core/src/sync/session.rs:383-417 | first contact takes the row up on its incarnation and starts it over on another |
| Remembered.ExchangeRemembers | crates/vouch-core/src/sync/session.rs:311-561 | every log an honest session ends is remembered under the peer's fingerprint, by equality or by reconciling |
| Remembered.SessionThenPush | crates/vouch-core/src/sync/notify.rs:104-143 | after a session of one log, from any cursor counts, the peer's next frame settles by the memory wherever the model fits and the pull reaches the peer's count |
| Trailing.StepSafe | crates/vouch-core/src/sync/session.rs:20-24 | every step of the system, aborts, retries, other writers and rebirths included, keeps cursors behind the data |
| Trailing.CursorsNeverRunAhead | crates/vouch-core/src/sync/session.rs:419-467 | the same over every run without frames |
| Trailing.SavedCursorsTrail | crates/vouch-core/src/sync/state.rs:27-38 | every peer position below the saved pull is a claim we hold, every position of ours below the saved push is held by the peer, and neither count exceeds the other side's log |
| Trailing.LogIsAsLongAsPulled | crates/vouch-core/src/sync/state.rs:27-38 | a log pulled to n holds at least n claims |
| Push.ClaimTokenAfter | crates/vouch-core/src/store.rs:535-561 | which claim entries a fingerprint has after one ingest, from the state before |
| Push.SenderDeltaIsExact | crates/vouch-core/src/sync/notify.rs:156-174 | the sender's new fingerprint is the old one XOR the delta exactly when the claim is new there and unsuppressed or, for a redaction, first in its log with the target's body on both shelves or neither |
| Push.CacheFollowsPush | crates/vouch-core/src/sync/notify.rs:104-143 | a frame of any number of newly landed events, the model fitting each where it lands: the remembered fingerprint follows the sender's, the frame settles and the pull reaches the sender's count |
| Push.FoldDelta | crates/vouch-core/src/sync/notify.rs:156-174 | folding digest by digest computes the delta |
| Push.FrameOutcome | crates/vouch-core/src/sync/notify.rs:123-143 | a sender's frame, on stores and row: it settles when the logs agree, else exactly when the followed memory is the sender's fingerprint; settling remembers that fingerprint and raises the pull to the sender's count, not settling leaves the pull |
| Tallies.FrameTallies | crates/vouch-core/src/sync/notify.rs:98-122 | what a frame's report counts, and that a frame reporting no progress changed nothing |
| Push.Apply | crates/vouch-core/src/sync/notify.rs:85-147 | the in-place loop leaves the specified store, row and report |
| Settling.UnderstoodMeans | crates/vouch-core/src/sync/notify.rs:127-131 | a log's fingerprint mentions only claims we hold exactly when we hold the log's claims |
| Settling.AdvanceIsUnderstood | crates/vouch-core/src/sync/notify.rs:104-122 | advancing a remembered fingerprint by a push mentions nothing that is not held |
| Settling.HearSure | crates/vouch-core/src/sync/notify.rs:123-143 | an honest frame, late or repeated, may fast-forward the pull: it still counts only claims we hold |
| Settling.StepSure | crates/vouch-core/src/sync/notify.rs:123-143 | every step of the system but a closing status we do not understand keeps cached fingerprints understood and counts behind the data, frames included |
| Windows.StepSteady | crates/vouch-core/src/sync/session.rs:472-546 | every step whatever: a pulling session past its hash list holds or still wants all that was listed, on the incarnation that listed it |
| Windows.RunIsSteady | crates/vouch-core/src/sync/session.rs:472-546 | the same over every run, earlier mistakes and frames included |
| Windows.OnlyArrivalsMatter | crates/vouch-core/src/sync/session.rs:547-561 | in every run from fresh stores, when a clean closing status lands: its fingerprint is remembered and mentions only claims held exactly when we hold what the peer gained since it answered the hash list; for a log not pulled, exactly when we hold all of it |
| Windows.CacheIsSoundExactly | crates/vouch-core/src/sync/notify.rs:127-131 | over every run from fresh stores: remembered fingerprints are understood and counts trail at every boundary if and only if no closing status was remembered before such late arrivals were held |
| Windows.SavedSettledIsHeld | crates/vouch-core/src/sync/notify.rs:123-143 | after every such run a cached fingerprint mentions only claims held, and the counts a frame may have moved still trail |
| QuietRuns.StepUndisturbed | crates/vouch-core/src/sync/session.rs:472-561 | in a quiet step the peer's log gains, since its hash list, only claims we hold: our own publishes, late answers and rebirths included |
| QuietRuns.QuietIsSound | crates/vouch-core/src/sync/notify.rs:127-131 | every run whose sessions pull what they push and in which nothing we lack lands at the peer past a hash list keeps the promise at every boundary |
| Overtaking.NextHeartbeatTells | crates/vouch-core/src/sync/notify.rs:123-143 | after a run careful so far, the heartbeat following a closing status keeps the pull behind the data exactly when that landing was careful |
| Overtaking.HeartbeatOvertakes | crates/vouch-core/src/sync/notify.rs:123-137 | a concrete run in which one foreign claim lands in the window and a heartbeat moves the pull past it |
| Overtaking.PushOnlyOvertakes | crates/vouch-core/src/sync/session.rs:547-561 | a concrete run in which a push-only session, with nothing landing once it began, remembers claims never fetched and a heartbeat moves the pull past them |
| Graphs.History | crates/vouch-core/src/fold.rs:243-256 | the worklist finds exactly the claims some path of references reaches |
| Graphs.Undirected | crates/vouch-core/src/fold.rs:202-211 | the map of neighbours is the reference relation both ways |
| Graphs.Visit | crates/vouch-core/src/fold.rs:219-232 | one run of the stack finds exactly the claims joined to its start |
| Graphs.ConnectedComponents | crates/vouch-core/src/fold.rs:198-235 | the list is exactly the classes of undirected joining, each once, whatever the iteration order |
| Graphs.ClassesPartition | crates/vouch-core/src/fold.rs:198-235 | two claims share a class exactly when joined, and otherwise their classes are disjoint |
| Folding.GatherCandidates | crates/vouch-core/src/fold.rs:265-284 | each field's claims are exactly the entitled ones that set it |
| Folding.FoldField | crates/vouch-core/src/fold.rs:286-312 | frontier and history of one field, filtered in place from the sorted history |
| Folding.FrontierIsSorted | crates/vouch-core/src/fold.rs:301-310 | filtering the sorted history is sorting the undominated claims |
| Folding.BuildComponent | crates/vouch-core/src/fold.rs:237-336 | the component built in place is the specified one |
| Folding.Fold | crates/vouch-core/src/fold.rs:156-196 | the result is the set of components of what is kept, pairwise disjoint |
| FoldLaws.ComponentsAreBlocks | crates/vouch-core/src/fold.rs:1-10 | every kept claim is in exactly one component, with exactly the claims a path of references joins it to |
| FoldLaws.OrderDoesNotMatter | crates/vouch-core/src/fold.rs:36-43 | the set of components does not depend on the order or repetition of the view |
| FoldLaws.FrontierCovers | crates/vouch-core/src/fold.rs:24-33 | every contribution is on the frontier or in the history of a member |
| FoldLaws.FrontierIsCausal | crates/vouch-core/src/fold.rs:286-312 | on an acyclic set each field's frontier is non-empty, no member reaches another, and it covers the field's whole history |
| FoldReadings.KeptSays | crates/vouch-core/src/fold.rs:156-172 | what is kept of a view: accepted claims whose `type` is one of the three words |
| FoldReadings.FieldReads | crates/vouch-core/src/fold.rs:258-312 | a field is shown exactly when a root, or an edit by a root's author, sets it; its history quotes each such claim once, by the time it goes by and then by hash, and its frontier those no other has in its history |
| FoldReadings.ComponentReads | crates/vouch-core/src/fold.rs:314-336 | a component is keyed by its least claim and lists exactly its comments with a text, each once, by hash |
| Edits.OldReach | crates/vouch-core/src/fold.rs:36-43 | a new claim nobody names changes nothing about what old claims reach |
| Edits.NewClasses | crates/vouch-core/src/fold.rs:198-235 | a new claim referencing one component joins that component and leaves the others as they were |
| Edits.NewFrontier | crates/vouch-core/src/fold.rs:286-312 | with the edit entered, the frontier is the edit and whatever it does not reach |
| Edits.EditSets | crates/vouch-core/src/fold.rs:286-312 | the edit is on record, and stands alone exactly when it reaches the whole frontier |
| Edits.ReconcilingEdit | src/ui/modals/edit_recommendation.rs:15-38 | a root author's edit that references all of a field's frontier and sets the field becomes its frontier |
| Edits.EditTouchesNothingElse | crates/vouch-core/src/fold.rs:28-34 | other fields, the comments and every other component are unchanged |
| Edits.StrayEditIsInert | crates/vouch-core/src/fold.rs:12-17 | an edit by anyone but a root's author sets nothing |
| Edits.StaysAcyclic | crates/vouch-core/src/fold.rs:36-43 | a new claim nobody names closes no cycle |
| Edits.FrontierStaysCausal | crates/vouch-core/src/fold.rs:286-312 | with an edit entered, whatever it reconciles, every frontier of every component is again non-empty, an antichain and covers its history |
| Edits.HistoriesAreCausal | crates/vouch-core/src/fold.rs:24-43 | every fold of a history in which nothing is named before it exists has causal frontiers throughout: acyclicity is no assumption there |
| Actors.AdvanceRests | crates/vouch-core/src/peer.rs:1044-1090 | after a session advances every stored session waits for an answer |
| Fanouts.LandedReachesWatchers | crates/vouch-core/src/peer.rs:640-666 | what landed is framed once to each watcher but its source that has room, with the log's count and fingerprint as they now are, and to no one else |
| Fanouts.MintTellsWatchers | crates/vouch-core/src/peer.rs:591-636 | speaking: our claim is in the store and every watcher of our log is told of it at once |
| Fanouts.NewsIsChange | crates/vouch-core/src/peer.rs:949-985 | an accepted event is news to pass on exactly when it changed the store |
| Fanouts.FrameIsPassedOn | crates/vouch-core/src/peer.rs:819-851 | a frame that changed the store is passed on to the log's other watchers |
| Turns.RequestIsAnswered | crates/vouch-core/src/peer.rs:670-690 | a request is answered on its pipe and whatever landed is framed to the other watchers |
| Turns.OfferedBlobIsKept | crates/vouch-core/src/peer.rs:900-931 | a wanted blob is kept when offered, and the watchers of every log that refers to it are woken |
| Turns.WatchIsHonoured | crates/vouch-core/src/peer.rs:697-712 | a pipe watches exactly the served logs it last announced and gets a heartbeat for each |
| Turns.FrameIsApplied | crates/vouch-core/src/peer.rs:819-851 | a frame is applied to the store and its pipe's row; one that does not settle makes the pipe due for a session |
| Turns.AdvanceAsks | crates/vouch-core/src/peer.rs:1044-1090 | a session sends its next request and waits for that answer; a finished one is put away |
| Turns.NoRoomGivesUp | crates/vouch-core/src/peer.rs:1044-1090 | with no room on the pipe a session is given up, to be started again |
| Turns.ResponseIsFed | crates/vouch-core/src/peer.rs:1017-1041 | the awaited answer is fed; one of the wrong shape ends the session and changes neither store nor rows; any other changes nothing |
| Turns.PumpStarts | crates/vouch-core/src/peer.rs:989-1015 | after a pump every dirty free pipe asks for the first status of what is followed there, or is just clean; no other pipe is touched |
| Turns.FollowStartsSession | crates/vouch-core/src/peer.rs:536-548 | following is enough: after the turn and a pump a free pipe has been told what is followed there and asked for a status |
| Turns.UnfollowAnnounces | crates/vouch-core/src/peer.rs:549-556 | unfollowing forgets the log everywhere and tells every pipe it was followed through |
| Turns.MintMakesDue | crates/vouch-core/src/peer.rs:628-634 | speaking makes every pipe due where our own log is followed |
| Turns.ConnectIsFresh | crates/vouch-core/src/peer.rs:506-534 | a new pipe never replaces one |
| Turns.CollectionKeepsReferred | crates/vouch-core/src/blob.rs:132-145 | collecting blobs keeps exactly those some held body refers to |
| Turns.RetentionLetsGo | crates/vouch-core/src/store.rs:655-679 | retention lets go of exactly the claims received before the cutoff, the edges from them and the redactions of them |
| Serving.ReadsAreHonest | crates/vouch-core/src/peer.rs:859-945 | status, since and hashes of a served log are answered as the honest responder does |
| Serving.SinceIsClipped | crates/vouch-core/src/sync/respond.rs:30-45 | a since is answered from the first position past the cursor on, as many as asked and at most 1024 |
| Serving.ClaimsAreAnswered | crates/vouch-core/src/peer.rs:879-887 | asked claims are answered with the row of each that is held in a served log, in order, and nothing else |
| Serving.PublishIsHonest | crates/vouch-core/src/peer.rs:949-985 | a publish into accepted logs is taken and acknowledged as the honest responder does |
| Serving.AnswersAreHonest | crates/vouch-core/src/peer.rs:856-945 | an actor that serves the plan answers every request of a session exactly as the honest responder would |
| Serving.ServedSessionClosesGaps | crates/vouch-core/src/sync/session.rs:275-564 | against such an actor, whatever else it holds, a pulled log is not lacking here and a pushed one not there |
| Serving.ServedSessionConverges | crates/vouch-core/src/sync/session.rs:275-564 | and a log pulled and pushed ends as the same in both stores |
| Discretion.FeedKeepsVoice | crates/vouch-core/src/peer.rs:989-1015 | a session asked to push at most our log never has anything else in hand |
| Discretion.AnswerIsOwn | crates/vouch-core/src/peer.rs:856-982 | an answer within the owned scope carries only our events, and what landed is filed under its own log |
| Discretion.LandedStaysDiscreet | crates/vouch-core/src/peer.rs:640-666 | frames go only to watchers, and only our log is watched |
| Discretion.TurnStaysDiscreet | crates/vouch-core/src/peer.rs:504-713 | every command and pipe event keeps all of it |
| Discretion.OnlyYourLogLeaves | crates/vouch-core/src/peer.rs:53-61 | in every run of an owned peer, whoever connects and whatever they ask, every event in any answer, frame or publish is of the peer's own log |
| Discretion.FollowsStayLive | crates/vouch-core/src/peer.rs:715-723 | in every run what counts as followed is followed through pipes that are up |
| Privacy.AnswersTellOnlyOwnLog | crates/vouch-core/src/peer.rs:53-61 | two peers that agree on their own log, whatever else they hold: every read is answered alike; a blob asked for exactly when it is none of their own log's or they hold it alike; a blob offered exactly when both miss it or neither does; and every push of the own log or of logs neither follows |
| Privacy.PushesTell | crates/vouch-core/src/peer.rs:949-985 | what acknowledgements tell, exactly: two peers answer every push of some logs alike if and only if they accept the same of those logs, hold the same claims of each they accept and want for the same bodies |
| Privacy.NewsMeans | crates/vouch-core/src/store.rs:237-334 | an artifact is news to a store unless its claim is held and so is all the artifact has of it: no body, or a body held or redacted for good |
| Privacy.AcksTellFollowing | crates/vouch-core/src/peer.rs:949-985 | an event of a log one peer accepts and the other does not is acknowledged alike exactly when the first holds all of it already; of a log both accept, exactly when both do or neither does |
| Privacy.PushTellsFollowing | crates/vouch-core/src/peer.rs:53-61 | two readers with the same empty store, one following a stranger's log: a fresh event of it tells them apart |
| Privacy.PushTellsMerged | crates/vouch-core/src/peer.rs:53-61 | two readers that follow the same log, one having merged a claim of it: that claim tells them apart |
| Privacy.OfferTellsMerged | crates/vouch-core/src/peer.rs:900-931 | two readers, one having merged a claim that refers to a blob: offering the blob tells them apart |
| Privacy.AlikeStays | crates/vouch-core/src/peer.rs:949-985 | one more event keeps stores alike in what they hold and want of a log, whatever they hold besides |
| Peers.Core.Landed | crates/vouch-core/src/peer.rs:640-666 | the frames placed are the specified ones, in order, as room allows |
| Peers.Core.AcceptPublish | crates/vouch-core/src/peer.rs:949-985 | the in-place loop leaves the specified store, tallies and news |
| Peers.Core.RespondScoped | crates/vouch-core/src/peer.rs:856-945 | the answer, the store and the news are the specified ones |
| Actors.DropPipeForgets | crates/vouch-core/src/peer.rs:715-723 | a dropped pipe is in no table and no follow afterwards, no follow is left empty, and every other follow is as it was |
| Peers.Core.ApplyFrame | crates/vouch-core/src/peer.rs:819-851 | a frame is taken in and passed on as specified |
| Peers.Core.AdvanceSession | crates/vouch-core/src/peer.rs:1044-1090 | the next request is sent or the session put away, as specified |
| Peers.Core.SessionResponse | crates/vouch-core/src/peer.rs:1017-1041 | only the awaited answer is fed, and a wrong one ends the session |
| Peers.Core.Pump | crates/vouch-core/src/peer.rs:989-1015 | sessions start on exactly the free pipes with appetite |
| Peers.Core.Mint | crates/vouch-core/src/peer.rs:591-636 | our claim is ingested, framed to watchers and queued where we follow our own log |
| Peers.Core.PipeEvent | crates/vouch-core/src/peer.rs:670-713 | one message off a pipe makes the specified turn |

## Left out

- Cryptography: tags, signatures, encryption and key derivation; only an injective content hash is kept, so nothing is said about authenticity or secrecy.
- Storage failures: the memory backend never fails, so the branches that pass on a storage error and the poisoning they lead to are not modelled, beyond the flag set during an ingest.
- Other backends: SQLite and files are outside this model; `Crash` covers a backend without transactions through the order of writes.
- Retention: `purge_older_than` is modelled for rollback and for what may leave a peer; arrival, cursor and fsck statements are for runs without it, since purging lets arrival positions repeat and can leave a redaction without its redactor.
- Integer widths: counts, positions and tallies are unbounded; the codec's 64-bit limits are explicit.
- Paths of edges: where in a body an edge was found is not kept, only its target.
- EdgeWalks.EdgeWalk.Walk: map entries are walked in canonical key order, where the source walks them in plain string order; the order of a row's edge list is local and the edges are the same.
- ClaimStores.ClaimStore.VerifyIntegrity: reports a set of problems, and a row holds its decoded body with the bytes it came from, so "decoded body and body bytes disagree" cannot arise; every failure of the structural check is one problem.
- Push.Apply: the report's list of missing blobs is left out with the media cache.
- Convergence.SessionClosesGaps: says nothing when a cached settled fingerprint ends a session early, which the source means to finish with unequal stores.
- Peers.Core.ApplyFrame: fetching wanted blobs after a frame is left out with the media policy.
- Peers.Core.AdvanceSession: the taps and the blob fetching at the end of a session are left out.
- Peers.Core.Mint: starts from the composed claim; composing it from a draft and storing its attachments are left out.
- Peers.Core.PipeEvent: answers to blob requests of our own are dropped, and nothing is fetched eagerly.
- Links: one session at a time per peer name; two pipes of the same name, which would share cursor rows, are not modelled.
- Media: blob fetching, eager fetching and the answers to blob requests of our own are not modelled; scoped serving and acceptance of blobs is.
- Peers.Core.Pump: pipes and watchers are visited in ascending order of pipe, where the source visits them in hash map order; what may be sent does not depend on it.
- Taps: the local firehose and authored streams never leave the process.
- Async machinery: channels, executors and backpressure timing; a full pipe is a message not sent.
- Folding.FoldField: `current` and the timeline are display choices over the frontier and would add only easy members.
- Attestations, profiles, drafts, the user interface, relay, registry and transports.
