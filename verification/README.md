# ocservia verification

A Dafny model of the stateful parts of ocservia, with proofs of what they keep over every
run. `dafny verify dfyconfig.toml` checks all of it.

| files | component |
|---|---|
| `Signer*.dfy` | the certificate signer: a transactional ledger with a digest index and a numbered audit trail, its HTTP handler, crash points, revocation lists, `check` and `restore` |
| `BindingRecord.dfy`, `Rebind*.dfy` | moving an agent to another controller: the `active-binding` codec, a protocol of atomic writes that may be killed anywhere and run again, and its histories together with the controllers |
| `Enrollment.dfy` | bootstrap enrolment at a controller |
| `Compaction*.dfy`, `RetentionCursor.dfy`, `RetentionFairness.dfy` | retention of retired bindings: bounded compaction of the command journal, and the cursor that schedules it |
| `Migration*.dfy` | schema migration: admission of the receipt journal, the one-time epoch transition, revisions one transaction at a time |
| `FixedWindow.dfy`, `Auth*.dfy` | login admission and login log sampling |
| `Rout*.dfy` | the table of methods per route |
| `IfMatch.dfy` | the two readers of revision preconditions and the ETags they are given |
| `Text.dfy` | string order, cutting, decimal numbers |

How it is modelled. Each operation that changes state has a specification function on a
value (`SignStep`, `AdmitStep`, `CompactStep`, ...). A class with the source's fields carries
the imperative code, whose methods are proved equal to that function. Beside it stands a second
account of what the operation is for, written without it: a register without buckets or digests
(`SignerBook`), the past calls and answers (`AuthHistory`), patterns as lists of segments
(`RoutePatterns`), receipts column by column (`MigrationJournal`), journal columns
(`CompactionAnswers`), tables of answers (`RebindAnswers`, `Enrollment.AnsweredExactly`). The two
are proved to agree. A run is a sequence of
events from the initial state, and the theorems hold for every run. A transaction commits as
a whole or leaves no trace. A kill is a prefix of the atomic writes of a command. Clocks,
the network, SHA-256, JSON, X.509 and the SQL of the migration steps are parameters. What is
relied on about them is written down as a predicate: `Signer.Trusted` (JSON and UUID text
round-trip), `SignerSteps.MintedFor` (the issued chain ends with the authority's chain and
carries the requested serial, key and subject), `Migration.SqlWorks` (the SQL leads to the
fingerprints in the artifacts; used only for progress, never for safety),
`SignerTamper.GoodDigest` (no digest is empty; collisions are not excluded).

Assumptions: clock readings do not go backwards in lock order (limiter and log bounds),
operation, node and certificate identifiers and tokens are fresh where the source draws them at
random, the set of controllers and their command keys do not change, the
agent's environment file does not change during a transfer, and idempotency keys are
primary keys.

## Where the code does less than one might expect

Each of these is proved, with the exact condition where there is one.

- Waiting the advertised time always helps, except that with a source limit of zero or less
  a caller is refused for the source rate for ever (`AuthLimits.WaitingHelps`).
- Log sampling loses an event exactly when it meets a counter saturated at 2^64 - 1
  (`AuthLogging.LostOnlyToSaturation`).
- With a transfer unfinished, no command of the tool writes anything, ever, exactly when its
  operation directory has no `state.json` yet or it waits for enrolment with an unusable staged
  identity (`RebindProgress.StopsExactlyWhen`, `RebindProgress.StoppedForGood`). A `prepare` or
  a staging killed on its way leads there (`RebindProgress.KilledPrepareStops`,
  `RebindProgress.KilledStagingStops`).
- `prepare` fixes token, key and controller, and no command replaces them. An unfinished
  transfer can still be finished exactly when it is not stopped, its controller can still answer
  its token while it waits for enrolment, and from then on its node has a session grant in time,
  or is not revoked and the key is the controller's own
  (`RebindWorldResults.FinishesExactlyWhen`). So an operation prepared with an expired or foreign token, for a name
  already taken or with a wrong key never finishes and keeps every other from being prepared
  (`RebindWorldResults.MisfitStops`), and the same happens to one whose node is approved before
  the answer is recorded or revoked before a session grant.
- The tool compares the new node with the source's node only. A node used before would block the
  operation for good (`RebindProgress.UsedNodeIsStuck`, `RebindProgress.BlockedForGood`), but no
  controller gives one out (`RebindWorldResults.NeverBlocked`), and one that has had the endpoint
  refuses it altogether (`RebindWorldResults.ReturningIsRefused`).
- docs/operations/agent-lifecycle.md says that a wrong key leaves the source authority untouched.
  The tool compares the key with the source's only and `commit` publishes the record before a
  session is verified (`RebindResults.CommitResumes` holds for every key), so the binding changes
  and only the session check fails.
- Until the record is published, each rerun of `commit` finds out the blocked flag again, so
  the target is the same in everything but that flag (`RebindResults.CommitResumes`).
- Compaction selects rows without a tombstone but reports completion by looking at all rows.
  A row with both a tombstone and a result keeps it from ever reporting completion, and
  nothing else does (`CompactionResults.CompleteOnTime`, `CompactionResults.NeverComplete`). No
  run of the tool makes such a row; only another writer could (`CompactionResults.RunProgress`,
  `CompactionResults.FreshIsComplete`).
- The retention cursor is fair under every error the loop collects. With errors it does not
  collect (a `TypeError`, say), it is fair exactly when only the operation whose turn comes last
  has one (`RetentionFairness.FairExactlyWhen`).
- Runs go through the names in order exactly when each ends with a name that leads the next run
  on: shorter than 128 bytes and, stripped of white space, still between itself and the next
  name (`RetentionFairness.ScheduledExactlyWhen`). A longer name at the end of a run stops all
  later runs (`RetentionFairness.LongNameExample`), and without white space at the ends of names
  nothing else does (`RetentionFairness.ReadableExactlyWhen`). A name with white space at its end may be visited
  again and again instead of the others (`RetentionFairness.TrailingSpaceRepeats`). Operations,
  whose names are UUIDs, have no such names (`RetentionFairness.OperationsKeep`).
- If-Match also accepts a plus sign and leading zeros, and a minus before zero
  (`IfMatch.AcceptedVersions`).
- The audit counter is 64 bits wide, so the signer's theorems are about runs of fewer than
  2^64 events.

## Model

| member | source | states |
|---|---|---|
| Text.TwentyDigitKeys | signer/store.go:239 | audit keys of all 64-bit numbers have 20 characters, are distinct, and sort as the numbers do |
| Text.DecimalInjective | signer/store.go:268-274 | distinct numbers print as distinct serials |
| SignerInvariant.OriginOfIndexKey | signer/store.go:171-184 | an index key can be split back into its bucket and record key, whatever the record key contains, and is no header key |
| SignerInvariant.OriginIsExact | signer/store.go:183-184 | any key of that form is the index key of the record it names |
| SignerInvariant.PutKeepsIndex | signer/store.go:242-247 | storing a record keeps the two-way index: every record has its digest, and `meta` holds nothing else but the header |
| SignerInvariant.IndexedImpliesDigests | signer/store.go:169-190 | the two-way index passes both digest passes of the check |
| SignerInvariant.NumberedNext | signer/store.go:229-240 | the next audit key is new, and the entries stay numbered without gaps |
| SignerInvariant.RecordKeeps | signer/store.go:279-284 | a record with its audit entry keeps index and numbering, and changes only that record and that entry |
| SignerInvariant.InitialInv | signer/store.go:113-125 | a new store satisfies the invariant |
| SignerInvariant.InvImpliesConsistent | signer/store.go:146-221 | the invariant implies everything `check` looks at |
| SignerService.Transaction.Put | signer/store.go:242-247 | record and digest are written together |
| SignerService.Transaction.AppendEntry | signer/store.go:229-240 | the sequence moves on by one, modulo 2^64, and the entry is stored under the padded number |
| SignerService.Store.Sign | signer/store.go:249-292 | signing with a crash at prepare, signed, commit or reply, or a storage fault: the ledger and answer of the specification |
| SignerService.Store.Revoke | signer/store.go:294-331 | the same for revocation |
| SignerService.Store.MatchKey | signer/bindings.go:74-85 | the inner loop gives an approved key the last exported public key that matches it, or none |
| SignerService.Store.ImportBinding | signer/bindings.go:70-113 | import: age by two clock readings, node and endpoint, matched keys, validity, and no replacement of another or disabled binding |
| SignerService.Store.SaveBinding | signer/bindings.go:89-112 | the transaction of the import |
| SignerService.Store.Disable | signer/bindings.go:115-135 | disabling is recorded once |
| SignerService.Store.ExportCrl | signer/store.go:371-393 | the export takes its own audit number and lists the revoked records, or fails as a whole |
| SignerService.CollectRevoked | signer/store.go:379-392 | the loop over the issued records collects exactly the revoked entries, and fails iff a record cannot be read |
| SignerService.CheckDigests | signer/store.go:169-178 | true iff each record has its digest in the index |
| SignerService.CheckIndex | signer/store.go:179-190 | true iff each index entry matches the record it names |
| SignerService.CheckIssuances | signer/store.go:191-212 | true iff each issued record passes the per-record facts |
| SignerService.CheckBindings | signer/store.go:213-219 | true iff each binding is valid and under its own node |
| SignerService.Check | signer/store.go:146-221 | the loops of the start-up check succeed iff the ledger is consistent |
| SignerSteps.SignIsLawful | signer/store.go:249-287 | signing adds one sound, unrevoked record with one audit entry, or changes nothing |
| SignerSteps.RevokeIsLawful | signer/store.go:294-326 | with a nonblank reason, revoking only sets reason and time of an unrevoked record, with one audit entry, or changes nothing |
| SignerSteps.ImportIsLawful | signer/bindings.go:70-113 | an import adds one valid, enabled binding with one audit entry, or changes nothing |
| SignerSteps.DisableIsLawful | signer/bindings.go:115-135 | disabling only sets the flag of an enabled binding, with one audit entry, or changes nothing |
| SignerSteps.LawfulInv | signer/store.go:146-331 | every lawful change keeps the invariant and moves the sequence by one iff it changes anything |
| SignerSteps.LawfulExtends | signer/store.go:249-331 | records are write-once but for the revoked and disabled flags, and audit entries never change |
| SignerSteps.LawfulCounted | signer/store.go:279-284 | each recorded change adds one to issued + revoked + bindings + disabled |
| SignerRuns.HttpIsLawful | signer/http.go:109-148 | whatever the request, its fate and the state of the process, the handler makes a lawful change; its validation supplies the ledger's preconditions |
| SignerRuns.RunGood | signer/store.go:229-331 | every run of requests, retries, crashes, imports, disabling, exports and restarts keeps the invariant |
| SignerRuns.ReachableIsConsistent | signer/store.go:146-221 | every reachable ledger passes the start-up check |
| SignerRuns.AuditAccount | signer/store.go:229-331 | the audit sequence is issued + revoked + bindings + disabled + committed exports |
| SignerRuns.LaterExtends | signer/store.go:249-331 | every later ledger extends every earlier one: one-way flags, nothing removed |
| SignerResults.SerialNumbers | signer/http.go:130-131 | every nonzero identifier has a positive serial of at most 39 digits that the revoke request accepts, and distinct identifiers have distinct serials |
| SignerResults.SignTwice | signer/store.go:254-262 | signing again changes nothing: the same answer for the same CSR digest, 409 for another |
| SignerResults.RevokeTwice | signer/store.go:305-310 | revoking again changes nothing: accepted for the same reason, 409 for another |
| SignerResults.ImportTwice | signer/bindings.go:92-103 | importing the same binding again is accepted and changes nothing, whatever its export time |
| SignerResults.DisabledForGood | signer/bindings.go:94-96 | a disabled binding cannot be replaced, and disabling it again changes nothing |
| SignerResults.SignedStands | signer/http.go:124-128 | a successful sign answer carries the chain that is stored |
| SignerResults.RepliesStand | signer/store.go:249-292 | every chain and digest ever answered is still the stored one |
| SignerResults.AnswersAgree | signer/store.go:249-292 | all successful sign answers for one identifier are equal, through crashes and retries |
| SignerResults.CrlIsExact | signer/store.go:371-401 | a list has the next audit number and contains an entry iff that certificate is revoked at that time |
| SignerResults.EntriesGrow | signer/store.go:379-392 | a later ledger lists all earlier entries with unchanged times |
| SignerResults.CrlHistory | signer/store.go:371-401 | over any run the numbers of revocation lists strictly increase and each list contains the earlier ones (section 5.2.3 of RFC 5280) |
| SignerResults.SnapshotKeepsRevocations | signer/store.go:356-369 | a snapshot of the history accepted with minimum m contains every revocation audited up to m, and its next list has a number above m |
| SignerRefinement.RefinesBook | signer/store.go:249-340 | after any history of requests, crashes, imports, exports and restarts the file holds exactly the cards, bindings and log of a plain register, and the latch is the register's |
| SignerRefinement.AnsweredByBook | signer/http.go:109-153 | every request of every history is answered as the register says: for a sign 400, 503, 422, the authority's error, 409 or 200 with the chain, for a revocation 400, 503, 404, 409 or 204 |
| SignerRefinement.HandleAgrees | signer/http.go:139-147 | one request keeps ledger and register alike, for every fate of the process |
| SignerRefinement.FirstSignSucceeds | signer/store.go:263-292 | the first good request is answered 200 with the authority's chain, and the record holds this CSR, its digest, the chain and the serial of the identifier, unrevoked |
| SignerRefinement.StoppedUntilRestart | signer/http.go:139-147 | once an error other than a status was met, every request is answered 503 and changes nothing until a restart |
| SignerRefinement.ImportedByBook | signer/bindings.go:70-113 | an import is accepted iff it is timely, matches, makes a good binding, and the node is unbound or bound to the same |
| SignerRefinement.BindingIs | signer/bindings.go:47-68 | a binding is valid iff it has one good key for each of the two purposes, with different names and contents, and its other fields are well formed |
| SignerRefinement.ListedByBook | signer/store.go:371-395 | a revocation list has the next number of the log and lists exactly the revoked cards with their times |
| SignerRefinement.RestoredByBook | signer/store.go:356-368 | a snapshot is accepted iff its log is as long as required |
| SignerTamper.AcceptedRecord | signer/store.go:191-211 | each record of an accepted file has the CSR's digest and a certificate of this authority for the CSR's key and name, with the number that names the record |
| SignerTamper.AcceptedBinding | signer/store.go:213-219 | each binding of an accepted file is good and under its own node |
| SignerTamper.ForeignIsRefused | signer/store.go:162-168 | a file accepted for one issuer is refused for every other, and version, policy and sequence are as expected |
| SignerTamper.IndexFixesRecords | signer/store.go:169-190 | two accepted files with the same `meta` hold the same records, as far as digests tell |
| SignerTamper.TamperingIsSeen | signer/store.go:169-190 | a record changed, added or taken away without its index entry makes the file refused |
| BindingRecord.SplitJoined | scripts/rebind-agent.py:188 | splitting joined lines gives them back, for all line-breaking characters of `splitlines` |
| BindingRecord.DecodeEncode | scripts/rebind-agent.py:187-195 | decoding what `target_record` prints returns the fields |
| BindingRecord.EncodeDecode | scripts/rebind-agent.py:187-195 | whatever is accepted is valid and is exactly what encoding the result prints |
| BindingRecord.EncodeInjective | scripts/rebind-agent.py:399-401 | different bindings have different records |
| Rebind.Files.Prepare | scripts/rebind-agent.py:514-542 | the writes of `prepare`, in order, under its guards |
| Rebind.Files.Enrol | scripts/rebind-agent.py:287-315 | the writes of `enroll`: stage, note the attempt, save the new node |
| Rebind.Files.Commit | scripts/rebind-agent.py:404-453 | the writes of `commit` from any phase, in order |
| Rebind.Files.PublishAuthority | scripts/rebind-agent.py:412-453 | publication from `enrolled` or `committing`, or its continuation if the record is already active |
| Rebind.Files.Transfer | scripts/rebind-agent.py:426-451 | identity moved, record saved, then made active; stops if the target place is taken or the identity is not the right one |
| Rebind.TransferResult | scripts/rebind-agent.py:426-451 | each of these writes is allowed when it comes, and they end with exactly the target record active and saved, and other identities untouched |
| RebindInvariant.StepInv | scripts/rebind-agent.py:404-453 | every atomic write keeps where authority and identity may be, phase by phase |
| RebindResults.RunInv | scripts/rebind-agent.py:287-453 | so does every history of commands killed at any write |
| RebindResults.CrashSafety | scripts/rebind-agent.py:404-453 | the active authority is the untouched source or exactly the saved record, whose flag is the saved one; the identity is complete in staging or in the target, and in exactly one of them unless the target place was taken before |
| RebindResults.OneUnfinished | scripts/rebind-agent.py:515-518 | at most one operation is unfinished |
| RebindResults.BlockIsKept | scripts/rebind-agent.py:428-449 | the saved record decodes to the target with the saved `mutations_blocked`, never weaker than the block on the source |
| RebindResults.AuthorityChain | scripts/rebind-agent.py:399-453 | over any chain of transfers the endpoint is constant, a block is never lifted, and controller, key and node change each time |
| RebindResults.PublishedFromActive | scripts/rebind-agent.py:413-451 | each published binding starts from the binding then active |
| RebindResults.CommitResumes | scripts/rebind-agent.py:404-453 | from every crash point, `commit` run again leads to the one target, saved and active, with the identity in place, unless that place is taken, and then the authority is untouched |
| RebindResults.SameTarget | scripts/rebind-agent.py:287-453 | after enrolment the target of an operation never changes, and no identity in place is ever changed or removed |
| RebindProgress.StopsExactlyWhen | scripts/rebind-agent.py:295-300 | with an operation unfinished, no command writes anything iff it has no `state.json` yet or waits for enrolment with an unusable staged identity |
| RebindProgress.StoppedForGood | scripts/rebind-agent.py:515-518 | and then no file changes however many commands are run |
| RebindProgress.KilledPrepareStops | scripts/rebind-agent.py:535-542 | a `prepare` killed before its first save, on any host with nothing unfinished, leads there for good |
| RebindProgress.KilledStagingStops | rust/crates/agent-identity/src/lib.rs:108-127 | so does a staging killed on its way, after `prepare` went through |
| RebindProgress.BlockedForGood | scripts/rebind-agent.py:438-439 | once the target place is taken it stays so: after any further commands and kills, `commit` only notes the attempt, and the authority is unchanged |
| RebindProgress.UsedNodeIsStuck | scripts/rebind-agent.py:312-315 | a node used before is accepted at enrolment, and the operation is then blocked for good |
| RebindProgress.TransferRun | scripts/rebind-agent.py:404-453 | a whole transfer leaves nothing unfinished, the new binding active, and exactly one identity more in place |
| Enrollment.BootstrapService.EnrolBootstrap | control-plane/internal/enrollment/service.go:463-556 | one enrolment: environment and endpoint of the token, the pending node of a used one, else a new node if it is in time, the endpoint is unknown and the name free |
| Enrollment.EnrolKeeps | control-plane/internal/enrollment/service.go:500-546 | there is one node for each endpoint, every used token leads to the node it was used for, nodes stay and none becomes pending again |
| Enrollment.AnswerIsOwn | control-plane/internal/enrollment/service.go:484-519 | a node given out is the endpoint's own and pending, and is either the new one or was already there, pending, for this endpoint |
| Enrollment.KnownIsRefused | control-plane/internal/enrollment/service.go:484-505 | a controller that has had the endpoint as more than a pending node answers it with no token |
| Enrollment.RefusedStays | control-plane/internal/enrollment/service.go:480-505 | a token refused to an endpoint stays refused whatever the controller does later, unless this endpoint itself uses it |
| Enrollment.AnsweredExactly | control-plane/internal/enrollment/service.go:480-556 | the whole table: a new node, the pending node of a used token, or a refusal that changes nothing, field by field |
| RebindWorld.AnswerIsNew | scripts/rebind-agent.py:312-315 | the node an enrolment is answered with has no identity in place on this host |
| RebindWorld.NextInv | scripts/rebind-agent.py:287-453 | every event of tool, controllers and other agents keeps: nodes are where they were given out, identities in place belong to operations past enrolment, verified nodes were granted a session |
| RebindWorldResults.NeverBlocked | scripts/rebind-agent.py:438-439 | in every history with controllers the target place is never taken, so no transfer is blocked |
| RebindWorldResults.CommitFinishesHere | scripts/rebind-agent.py:404-453 | and `commit` with a session finishes from every crash point |
| RebindWorldResults.OneEndpoint | scripts/rebind-agent.py:399-401 | every operation of every history has the endpoint of the original enrolment |
| RebindWorldResults.HopelessForGood | scripts/rebind-agent.py:295-302 | whatever controllers, other agents and commands do, a stopped operation, a refused token, a wrong key or a node revoked too early stays so |
| RebindWorldResults.FinishesExactlyWhen | scripts/rebind-agent.py:287-478 | an unfinished operation can still be finished iff it is none of these |
| RebindWorldResults.MisfitStops | scripts/rebind-agent.py:520-542 | an operation just prepared is hopeless iff its controller refuses the token or has another key, and then for good |
| RebindWorldResults.ReturningIsRefused | control-plane/internal/enrollment/service.go:500-505 | a transfer back to a controller of a finished one is hopeless |
| RebindProgress.RunNoneTaken | scripts/rebind-agent.py:312-315 | with new node identifiers the target place is never taken |
| RebindProgress.CommitAlwaysFinishes | scripts/rebind-agent.py:404-453 | and then `commit` finishes from every crash point |
| RebindAnswers.PrepareExactly | scripts/rebind-agent.py:514-550 | `prepare` writes nothing unless the preflight and all its tests pass; then it leaves one prepared operation with the present authority as source |
| RebindAnswers.EnrolExactly | scripts/rebind-agent.py:287-317 | what `enroll` leaves of any files: nothing new, a staged identity, the noted attempt, or the new node |
| RebindAnswers.CommitElsewhere | scripts/rebind-agent.py:404-417 | `commit` writes nothing before enrolment, after verification, or for an authority that is neither the source's nor its own |
| Compaction.OldestFirst | scripts/retain-agent.py:77 | the batch has the right size, is in order without duplicates, and nothing left out is older |
| Compaction.BatchSize | scripts/retain-agent.py:77 | the batch is min(32, eligible) eligible rows |
| Compaction.Fetch | scripts/retain-agent.py:77 | selecting the least row again and again gives that batch |
| Compaction.RetiredJournal.CompactRow | scripts/retain-agent.py:78-83 | one row: tombstone with both digests, result cleared, effect emptied |
| Compaction.RetiredJournal.CompactRows | scripts/retain-agent.py:78-83 | the loop compacts exactly the fetched rows |
| Compaction.RetiredJournal.Open | scripts/retain-agent.py:75-76 | the tombstone table exists afterwards, and the retired binding is noted once |
| Compaction.RetiredJournal.Compact | scripts/retain-agent.py:63-86 | the whole transaction: refused without a change under its guards, else one batch and the report |
| CompactionResults.EvidenceIsConserved | scripts/retain-agent.py:63-86 | after any committed and aborted runs no row is gone, each result and effect is as it was or buried by its own digest, and floors, metadata and older tombstones are unchanged |
| CompactionResults.ProvedRowsStay | scripts/retain-agent.py:77 | a row with a privileged proof keeps its result and its effect |
| CompactionResults.StepProgress | scripts/retain-agent.py:77-86 | a run reduces the eligible rows by min(32, eligible), stays acceptable, and reports completion iff all were taken and none was stuck |
| CompactionResults.RunProgress | scripts/retain-agent.py:77-86 | k committed runs reduce them by min(32 k, eligible) |
| CompactionResults.CompleteOnTime | scripts/retain-agent.py:84-86 | run number k + 1 reports completion iff 32 (k + 1) covers the rows and no row had both tombstone and result |
| CompactionResults.FreshIsComplete | scripts/retain-agent.py:75-86 | on a journal never compacted before, run number k + 1 reports completion iff 32 (k + 1) covers the rows |
| CompactionResults.NeverComplete | scripts/retain-agent.py:84-86 | a journal with such a row is acceptable, has nothing to do and never completes |
| CompactionAnswers.RefusedExactlyWhen | scripts/retain-agent.py:64-74 | a journal is refused iff its schema or authority is another or a command is open or needs reconciliation; then no run ever changes anything of it |
| CompactionAnswers.RowByRow | scripts/retain-agent.py:75-86 | each row is kept as it is, or was due and is buried by its digests with the time of the run; older rows come first; the retired binding is noted |
| RetentionCursor.CursorRoundTrip | scripts/retain-agent.py:174-189 | the cursor reads back as written iff the name is shorter than 128 bytes and has no white space at its ends |
| RetentionCursor.OperationNamesAreFaithful | scripts/rebind-agent.py:252-256 | the names of operations, which are the text of a UUID, read back as written |
| RetentionCursor.Coordinator.Choose | scripts/retain-agent.py:178-180 | the filter and slice give the next 32 names after the cursor, or the first 32 |
| RetentionCursor.Coordinator.Run | scripts/retain-agent.py:172-190 | one run: who is visited, when the cursor moves, and when it is reported as failed |
| RetentionFairness.ScheduledExactlyWhen | scripts/retain-agent.py:172-189 | runs that no error ends follow the order of the names iff each ends with a name that leads the next run on |
| RetentionFairness.OperationsKeep | scripts/retain-agent.py:177-189 | listings of operations do so from every position |
| RetentionFairness.EveryNameIsVisited | scripts/retain-agent.py:172-190 | from any position each of n names is visited within ceil(n / 32) + 1 runs, however operations fail with collected errors, on such a listing |
| RetentionFairness.UncaughtBlocks | scripts/retain-agent.py:182-189 | an operation with an uncollected error, next after the cursor, is the only one visited, for ever, whatever the listing |
| RetentionFairness.FairExactlyWhen | scripts/retain-agent.py:172-190 | operations that always end the same way are all visited within ceil(n / 32) + 1 runs iff none but the one whose turn comes last has an uncollected error |
| RetentionFairness.ReadableExactlyWhen | scripts/retain-agent.py:174-189 | for names without white space at their ends the cursor is readable after any runs iff each run ended with a name shorter than 128 bytes |
| RetentionFairness.LongNameStops | scripts/retain-agent.py:174-189 | a run that ends with a longer name writes it, and no later run visits anything |
| RetentionFairness.LongNameExample | scripts/retain-agent.py:174-189 | a listing on which this happens |
| RetentionFairness.TrailingSpaceRepeats | scripts/retain-agent.py:174-189 | a listing on which a name with white space at its end is visited again and again instead of the other |
| Migration.Admit | control-plane/migrations/artifacts.go:157-204 | a journal is admitted iff it is an optional pinned previous receipt followed by a contiguous run of exact receipts; the head and whether the transition is pending |
| Migration.JournalPrefix | control-plane/migrations/artifacts.go:172-203 | nonempty prefixes of a journal are journals |
| Migration.JournalExtends | control-plane/migrations/artifacts.go:172-203 | a journal with the next correct receipt is a journal with the next head |
| Migration.LaterReleaseAdmits | control-plane/migrations/artifacts.go:157-204 | artifacts with more revisions admit the same journal with the same head |
| Migration.Installed | control-plane/migrations/artifacts.go:215-237 | a fresh install is admitted at the last revision |
| Migration.RevisionApplied | control-plane/migrations/artifacts.go:239-294 | a revision that commits moves an admitted database to the next revision and its fingerprint |
| Migration.Transitioned | control-plane/migrations/artifacts.go:264-293 | a transition that commits leaves exactly the base receipt, admitted at revision zero |
| Migration.MigrationConverges | control-plane/migrations/artifacts.go:296-353 | whatever it started from, a run that succeeds ends at the last revision with the fingerprint of a fresh install; a killed or failed run leaves a supported state |
| Migration.RerunIsIdle | control-plane/migrations/artifacts.go:325-351 | a further run changes nothing, and succeeds if the month partitions can be made |
| Migration.MigrationFinishes | control-plane/migrations/artifacts.go:296-353 | with SQL that does what the fingerprints say, a run from any supported state succeeds |
| Migration.LaterReleaseSupports | control-plane/migrations/artifacts.go:157-204 | what one release can start from, so can every later one |
| Migration.KilledRunsConverge | control-plane/migrations/artifacts.go:296-353 | through any number of killed or failed runs, each with its own clock and of the same release or a later one, the next complete run ends at the schema of a fresh install of its release |
| Migration.Connection.ApplyRevisions | control-plane/migrations/artifacts.go:343-349 | the loop over the revisions above the head, one transaction each |
| Migration.Connection.Run | control-plane/migrations/artifacts.go:296-353 | the runner: install, admit, check, transition, revisions, and the outcome of making the month partitions |
| MigrationJournal.AdmittedExactly | control-plane/migrations/artifacts.go:153-204 | a journal is admitted iff its columns are, one by one, those of the pinned checkpoint, the first checkpoint and the following revisions, each verified and not before it was started |
| MigrationJournal.NoOtherReceipts | control-plane/migrations/artifacts.go:175-202 | epochs and revisions fix checksum, state and steps of every admitted row |
| MigrationJournal.ChangedIsRefused | control-plane/migrations/artifacts.go:198-200 | a row with another checksum, state or step, or not verified in time, spoils the journal |
| MigrationJournal.FinishesExactlyWhen | control-plane/migrations/artifacts.go:296-353 | with working SQL a run succeeds iff the database is in a supported state, and leaves any other as it was |
| MigrationJournal.CommitsOnlyExpected | control-plane/migrations/artifacts.go:239-294 | the transition commits iff its SQL gives the expected fingerprint before and after the old metadata is dropped |
| MigrationJournal.UpgradeFixesSchema | control-plane/migrations/artifacts.go:61-93 | the upgrade artifact fixes the schema artifact it is accepted with |
| MigrationJournal.OnePrevious | control-plane/migrations/artifacts.go:96-113 | every accepted pair starts from the one pinned previous checkpoint |
| MigrationJournal.NextReleaseIsAccepted | control-plane/migrations/artifacts.go:50-115 | a release with one revision more, checkpointed and covered, is accepted and is a later release |
| FixedWindow.BoundedFresh | control-plane/internal/api/auth_limits.go:56-58 | a new window keeps every half-open minute within twice the limit |
| FixedWindow.BoundedSpend | control-plane/internal/api/auth_limits.go:59-75 | so does spending from a window with room |
| AuthLimits.AuthAdmission.AdmitReason | control-plane/internal/api/auth_limits.go:39-80 | one call under the mutex: sweep, capacity, source, global and slot, in that order |
| AuthLimits.AuthAdmission.SpendBudget | control-plane/internal/api/auth_limits.go:56-75 | the part after the capacity test |
| AuthLimits.AuthAdmission.DeleteExpired | control-plane/internal/api/auth_limits.go:44-48 | the sweep leaves exactly the windows still running |
| AuthLimits.AuthAdmission.Acquire | control-plane/internal/api/auth_limits.go:82-89 | a slot is taken iff one is free |
| AuthLimits.AuthAdmission.Release | control-plane/internal/api/auth_limits.go:79 | a slot is given back and nothing else changes |
| AuthLimits.RefusalSpendsNothing | control-plane/internal/api/auth_limits.go:53-72 | a refusal leaves slots and every window as any caller would meet them |
| AuthLimits.AdmissionSpendsOne | control-plane/internal/api/auth_limits.go:70-75 | an admission charges one slot, its source and the global window by one, and no other source |
| AuthLimits.RunAccounted | control-plane/internal/api/auth_limits.go:39-80 | the invariant of every run with a clock that does not go back |
| AuthLimits.MinuteBound | control-plane/internal/api/auth_limits.go:39-80 | in every half-open minute a source is admitted at most 2 x perSource times, and all together at most 2 x globalLimit when it is set |
| AuthLimits.SlotsAndCapacity | control-plane/internal/api/auth_limits.go:53-89 | never more than 4096 sources, and the slots in use are the admissions not yet released |
| AuthLimits.RefinesUnswept | control-plane/internal/api/auth_limits.go:43-61 | without a capacity refusal every answer is that of a limiter that never deletes a window |
| AuthLimits.RetryAfterSeconds | control-plane/internal/api/auth_limits.go:128 | the header is the wait rounded up to whole seconds |
| AuthLimits.WaitingHelps | control-plane/internal/api/auth_limits.go:51-67 | after the advertised wait a caller is refused again for the same rate or capacity reason iff it is the source rate and the limit is not positive |
| AuthHistory.AnsweredByHistory | control-plane/internal/api/auth_limits.go:39-81 | in every run an answer is given iff the past calls and answers call for it: the source rate iff the source has its limit of admissions in the running minute, likewise globally, a slot iff fewer are out than allowed, capacity iff the source is not tracked and 4096 others are, with the exact wait |
| AuthHistory.RunMirrors | control-plane/internal/api/auth_limits.go:42-76 | windows, sweep time and slots are functions of the past |
| AuthHistory.AdmittedBelowTheLimits | control-plane/internal/api/auth_limits.go:59-75 | below the limits of the last minute, with a slot free and room, every call is admitted |
| AuthLogging.AuthLogState.Admit | control-plane/internal/api/auth_logging.go:78-95 | one event: the new counters, whether it is written, and the suppressed counts |
| AuthLogging.EventsConserved | control-plane/internal/api/auth_logging.go:78-95 | for each kind, seen = written + reported + pending + lost |
| AuthLogging.LostOnlyToSaturation | control-plane/internal/api/auth_logging.go:91-93 | seen = written + reported + pending iff no event of the kind met a saturated counter |
| AuthLogging.WrittenBounded | control-plane/internal/api/auth_logging.go:68-95 | the invariant behind the bound on written events |
| AuthLogging.MinuteWritten | control-plane/internal/api/auth_logging.go:68-95 | at most 10 written per kind in a window and 20 in any half-open minute |
| AuthLogging.WrittenExactly | control-plane/internal/api/auth_logging.go:68-95 | an event is written iff fewer than ten of its kind came before it in its minute, and the first event after a minute reports the excess of each kind |
| Routing.SplitLength | control-plane/internal/api/routing.go:119 | a text has one part more than separators, so the prefilter counts parts |
| Routing.ParsedIsWellFormed | control-plane/internal/api/routing.go:61-82 | a parsed pattern has nonempty segments that are its path split, and is dynamic iff one is a parameter |
| Routing.MatchSegments | control-plane/internal/api/routing.go:107-114 | the loop of cuts accepts iff the split text fits segment by segment |
| Routing.LastSegmentFits | control-plane/internal/api/routing.go:103-106 | the early suffix test turns away nothing that fits |
| Routing.MatchPath | control-plane/internal/api/routing.go:96-115 | the matcher is path equality for static rules and split-and-compare of the trimmed path for parameter rules |
| RouteTable.WithAdds | control-plane/internal/api/routing.go:15-22 | a method set stays sorted without duplicates and gains exactly the method |
| RouteTable.AscendingUnique | control-plane/internal/api/routing.go:20 | a set of methods has one sorted list |
| RouteTable.MethodRegistrar.HandleFunc | control-plane/internal/api/routing.go:38-59 | the loop refuses overlapping shapes, extends the rule of the same path or adds one; a refusal, here or by the request multiplexer, leaves the table alone |
| RouteTable.FindMethods | control-plane/internal/api/routing.go:117-129 | the loop returns the first rule that passes the filter and matches |
| RouteTable.FilterIsFree | control-plane/internal/api/routing.go:119-124 | the segment filter leaves out no rule that matches |
| RouteTable.BothMatch | control-plane/internal/api/routing.go:84-94 | rules that match the same path overlap |
| RouteTable.OverlapIsShared | control-plane/internal/api/routing.go:84-94 | rules of different paths overlap iff some request path matches both |
| RouteTable.TableDescribes | control-plane/internal/api/routing.go:38-59 | an accepted table holds each path once, with exactly its registered methods, pairwise apart |
| RouteTable.AcceptedWhenApart | control-plane/internal/api/routing.go:38-82 | patterns are accepted iff each parses and no request path matches two of different paths |
| RouteTable.AtMostOneMatches | control-plane/internal/api/routing.go:117-129 | at most one rule of an accepted table matches a path |
| RouteTable.LookupIsExact | control-plane/internal/api/routing.go:117-129 | a path is found iff a registered pattern matches it, with the sorted list of exactly the methods registered under that pattern's path |
| RouteTable.OrderDoesNotMatter | control-plane/internal/api/routing.go:38-129 | registration order changes neither what is accepted nor any answer |
| RoutePatterns.ParsePrinted | control-plane/internal/api/routing.go:60-83 | the text of a method and a list of literals and parameters is read back as these |
| RoutePatterns.ParsesExactly | control-plane/internal/api/routing.go:60-83 | a text is accepted iff it is such a text |
| RoutePatterns.MatchesExactly | control-plane/internal/api/routing.go:97-117 | a rule with parameters matches exactly the paths made by filling them in, with any slashes around; one without matches its path |
| RoutePatterns.AllowsWhatIsRegistered | control-plane/internal/api/routing.go:38-58 | for a path that a registered pattern stands for, a method is allowed iff the text of that method with the pattern's path was registered |
| RoutePatterns.FoundExactly | control-plane/internal/api/routing.go:119-132 | a path is found iff a registered text is that of a pattern that stands for it |
| IfMatch.ReadersAgree | control-plane/internal/api/operations.go:337-366 | `expectedRevision` yields v iff `desiredExpectedVersion` yields v and v >= 1, for every header and body |
| IfMatch.AcceptedVersions | control-plane/internal/api/userstate.go:129-158 | a version is accepted iff the header, if present, writes it (zeros and a sign allowed), the body, if present, says it, and one is present |
| IfMatch.ReadsWhatItMeans | control-plane/internal/api/userstate.go:131-143 | a header parses to a number iff it is that number's ETag up to sign and leading zeros, within 63 bits |
| IfMatch.ETagRoundTrip | control-plane/internal/api/userstate.go:125 | parsing a printed ETag gives N back for every int64 N >= 1 (N >= 0 for a desired state), is refused below, and with a body only if it says N |

## Left out

- X.509, RSA, OAEP, PEM and CSR parsing, and the issuing of certificates: parameters with the contracts above.
- `seal` and the public key lookup of the signer, which read one enabled binding, pick its key by purpose and encrypt with it.
- SignerService.Check: without the page check of bbolt and nested buckets under a record bucket.
- The signer's HTTP token, media type, body limits and `slots` bound.
- A revocation list whose signing fails after the commit keeps its number: it is an export that was committed and not published.
- File ownership, permissions, locks, service control, subprocesses and SQLite connections of the Python tools; only atomic replace, rename and transactions remain.
- How `commit` finds unresolved work: a boolean given by the environment. A session grant has an expiry and needs an approved node and the right key; its signature is not modelled.
- Enrollment.BootstrapService.EnrolBootstrap: the limit on pending nodes is a boolean, and request validation, proof of possession, sealing keys, capabilities and the audit entry are left out, as is enrolment with other kinds of tokens.
- `retain_one`, which decides by phase, age and active binding whether an operation is due, starts the compaction and, once it is complete and old enough, removes the token and the detail fields.
- RetentionFairness.EveryNameIsVisited: about listings that keep the schedule, as those of operations do; on others only when the runs leave it, and the two examples, are stated.
- A cursor file or directory name that is not valid UTF-8, and a compaction stopped by the time or step limit other than as an abort.
- CompactionResults.CompleteOnTime: the journal is not written by anyone else between runs, which the agent guarantees by refusing a journal marked as retired.
- Migration connection, lock and fingerprint queries; the partition leaves, which no fingerprint covers; the marker syntax of the artifacts, of which `Migration.WellRead` states what `control-plane/internal/database/schemaartifact/artifact.go` guarantees.
- What `http.ServeMux` itself refuses: a boolean given by the environment. The compatibility routes.
- Approvals, audit retention, event streams, authorization, the web interface and the release scripts.
