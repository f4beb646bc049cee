# Nexus Cloud: a verified model

This project models the parts of Nexus Cloud whose correctness is hardest to see from the
code, and proves what they promise over whole runs: with writes that fail or are cut off,
power losses, retried decisions, revocations, arbitrary model answers and arbitrary networks.
To check it, run `dafny verify dfyconfig.toml` in this directory (Dafny 4.11).

Five parts, each in its own files:

- **The catalog decision store** (`JsonStore*`, `Catalog*`, `Text`). The file system is
  modelled down to inodes: what a running program sees, what the device holds of each file and
  of the directory, and the directory changes not yet synced. Every system call of a save, of a
  retried sync, and of a recovery with its repair may fail or be cut after any part of its
  effect. A power loss keeps any subset of the unsynced directory changes and, of an unsynced
  file, its old contents, its new ones, or neither. `rename()` is atomic. Catalog operations run
  on top of it, through a process with a memory of its own, and a restart reads the catalog
  back through the store's own sanitizer (`CatalogReload`). `PlatformStateStore` is a contrast:
  the platform state file, which picks the newest candidate by modification time.
- **The exposure registry** (`Tables`, `RegistryState`, `RegistryEffects`, `RegistryLaws`,
  `RegistryGrants`, `RegistryRoutes`, `RouteRules`, `ToolRegistry`, `DomainTakeover`,
  `FederatedExposure`). Tools, addresses, public URLs, exposures, domain bindings, guardian
  decisions and maintenance windows, every operation on them, and the routing table built from
  them.
- **The agent loop** (`AgentGate`, `AgentLoop`, `AgentRules`). The strict gate, the repeat guard, the evidence
  and conflict counters and the bounded loop. Each iteration takes one arbitrary `Turn`:
  whatever the model answers, the classifiers say and the tools return.
- **Gossip federation** (`Gossip`, `GossipEffects`, `GossipNetwork`, `GossipRuns`,
  `GossipVouching`). Any number of honest nodes,
  with announcements, answers in flight, losses, failed saves, expiry, the operator's own trust
  requests, and restarts that may find any files the node ever tried to save, in any order.
- **Placement, node trust and the effective catalog** (`Scheduler`, `NodeTrust`,
  `CatalogResolution`, `CatalogRules`).

The objects whose fields the code assigns are classes here (`JsonStoreDisk.Disk`,
`CatalogRegistry.Registry`, `PlatformStateStore.PlatformState`, `ToolRegistry.ToolRegistry`,
`Gossip.FederationNode`, `NodeTrust.ControlPlane`, `NodeTrust.DataPlane`). Their methods, and the
agent's loop, are proved against functions or against the promised properties themselves. The
laws are proved about those functions; and what each operation leaves behind, and each rule lets
through, is stated once more from the records alone, without those functions (`*Effects`, `*Rules`,
`CatalogFormat`, `CatalogTimes`).

Where the code and its comments or expectations part ways, the model follows the code and says
exactly when the expectation holds:

- A recovery that cannot read the primary file treats it as absent and may replace the committed
  value by the backup (`JsonStoreRuns.CommittedIffReadable`, `UnreadablePrimaryIsReplaced`).
- A commit whose replacement cannot be read back leaves memory and disk apart
  (`CatalogRuns.CommitAgreesIff`).
- The platform state file may come back one save old after a clean save
  (`PlatformStateStore.RecoveredAfterSave`), or one save ahead after a save that never finished
  (`UncommittedIsRecoveredIff`). So a restart can undo what the process had done: trust that an
  announcement took back returns (`GossipRuns.TrustReturnsIff`), a domain learnt last is forgotten
  (`DomainIsForgottenIff`), a quarantined node is picked again (`NodeTrust.QuarantineIsForgottenIff`),
  each exactly when the backup of the last save was stamped later than its temporary file. Who is
  listed, who was ever trusted, and that barred nodes are not ready hold through every restart;
  what is never forgotten, last signed or never ready again holds while no restart brings back an
  older save (`GossipRuns.OlderAfterCleanSaveIff`).
- The ledger explains the catalog up to the first operation that commits an approval or a
  rollback outside it, and no further (`CatalogLaws.LedgerRebuildsCatalog`,
  `ExplainedIffRecorded`).
- The comment above `listActiveRoutes` says that a blocking decision on a tool removes its
  routes; the code looks decisions up per record. A denied website stays routed under its own
  host (`RegistryRoutes.DenialIsPerRecord`, `DeniedHostStaysRouted`). A tool has no route exactly
  when it has no upstream or each of its live records is blocked, while no tool id holds a colon
  (`OfferedIff`, `RoutedIffOpen`); with colons, keys can collide and the first offer stands
  (`RoutedIff`).
- A verified domain that another tool requests, and the guardian clears, becomes that tool's and
  stays verified under a token nobody has presented
  (`RegistryGrants.VerifiedDomainIsHandedOverIff`; `DomainTakeover.VerifiedDomainChangesHands` is
  the run). All along a run every verified domain was verified for the tool that has held it since
  exactly when that never happens (`RegistryGrants.OwnedIff`).
- The comment in `patchToolMetadata` says that a proxy's authentication flag can change nowhere
  else. That holds while the tool stays registered (`RegistryGrants.GateInRuns`); the flag is
  dropped when the tool is removed and registers again (`ReregistrationDropsTheGate`).
- A destructive action whose confidence is not a number passes every threshold
  (`AgentGate.NotANumberPasses`); the floor holds exactly when it is a number
  (`ConfidenceFloorIff`).
- The stream ends without an answer exactly when an exception that nothing catches cuts an
  iteration off (`AgentLoop.BrokenOffIff`): a reply whose content is not a text, an answer whose
  confidence is no number, a goal or simulation with a count that is none, a parallel group that
  takes too long, or any other.
- Nodes that share a URL hide each other from later joiners. Joiners are always told of the
  earlier ones, other than those the operator has overwritten or a restart has lost, exactly when
  no two nodes the answerer takes in share a URL (`GossipRuns.AlwaysToldIff`). Any announcement under a trusted peer's domain takes the trust
  back (`GossipRuns.AnnouncementResetsTrust`).
- A fraction of a replica is placed as a whole one (`Scheduler.WholeRoundsUp`).
- Emptying a tenant's list of enabled apps enables every app
  (`CatalogResolution.NarrowingIsStricterIff`).

## Model

| member | source | states |
|---|---|---|
| JsonStoreDisk.Disk.WriteJsonStoreAtomic | src/persistence/json-store.ts:99-127 | the save, call by call with its `replaced` flag and cleanup, for every combination of failures and cuts |
| JsonStoreDisk.Disk.IsJsonStoreSnapshotCurrent | src/persistence/json-store.ts:129-135 | true exactly when the primary file can be read and holds the expected value |
| JsonStoreDisk.Disk.SyncJsonStoreSnapshot | src/persistence/json-store.ts:138-142 | the retry of the file and directory syncs |
| JsonStoreDisk.Disk.ReadCandidate | src/persistence/json-store.ts:82-97 | a candidate is found exactly when the file is there, can be read and holds a whole value, and is that value; a missing, torn or unreadable file is none |
| JsonStoreDisk.Disk.LoadJsonStoreWithRecovery | src/persistence/json-store.ts:144-208 | recovery with its priority, repair write and cleanup, cut anywhere |
| JsonStoreRuns.WriteKeeps | src/persistence/json-store.ts:99-127 | whatever fails, the store stays sound, and all or none of a save becomes visible: none when it throws, all when it returns or throws after the replacement |
| JsonStoreRuns.RetryKeeps | src/persistence/json-store.ts:138-142 | a retried sync changes nothing visible and, if it returns, makes the visible value durable |
| JsonStoreRuns.LoadKeeps | src/persistence/json-store.ts:144-208 | a recovery, its repair included, keeps the store sound however it is cut |
| JsonStoreRuns.PowerLossKeeps | src/persistence/json-store.ts:111-121 | every directory a power loss can leave names only whole, attempted values where it must |
| JsonStoreRuns.RecoveryReturnsLastCommit | src/persistence/json-store.ts:144-208 | after any run, recovery returns exactly the last value whose rename took effect; before any commit, the empty value or an attempted one |
| JsonStoreRuns.RecoveredWasAttempted | src/persistence/json-store.ts:150-171 | recovery never returns a torn or invented value |
| JsonStoreRuns.AcknowledgedIsDurable | src/persistence/json-store.ts:116-142 | once a save or a retried sync has returned, any further run and power loss recovers that value or one attempted later |
| JsonStoreRuns.UnconfirmedReplacementCanBeLost | src/persistence/json-store.ts:118-125 | a post-replacement error means visible but not confirmed: a power loss can bring the old value back |
| JsonStoreRuns.CommittedIffReadable | src/persistence/json-store.ts:82-97 | with the committed value nowhere else, recovery returns it exactly when the primary file could be read |
| JsonStoreRuns.UnreadablePrimaryIsReplaced | src/persistence/json-store.ts:185-193 | the failing input: two clean saves and one unreadable primary make the superseded value the committed one |
| JsonStoreEffects.CleanWriteDoes | src/persistence/json-store.ts:99-127 | a save in which nothing fails leaves the value as the synced primary file, the directory synced, no temporary file, and as the backup what the primary file held, if that was asked for |
| JsonStoreEffects.WriteEnds | src/persistence/json-store.ts:99-127 | a save that throws has replaced nothing and removed its temporary file if it could; one that returns, or throws after the replacement, has replaced; only what returns is settled |
| JsonStoreEffects.RetryDoes | src/persistence/json-store.ts:138-142 | a retry without faults syncs the primary file and the directory and changes no contents; without a primary file it throws |
| JsonStoreEffects.RetryReturns | src/persistence/json-store.ts:138-142 | a retry returns exactly when there is a primary file and neither sync fails |
| JsonStoreEffects.LoadGives | src/persistence/json-store.ts:150-208 | recovery gives the sanitized value of the first usable file among primary, temporary and backup, and the empty value exactly when none is usable |
| JsonStoreEffects.LoadDoes | src/persistence/json-store.ts:178-208 | a usable primary file is left alone; otherwise the recovered value becomes the primary file without a new backup; a temporary file is removed unless it won and could not be repaired from |
| PlatformStateStore.PlatformState.WriteSnapshotAtomic | src/state.ts:364-391 | the save in its stages: which of the temporary file, the backup and the primary file hold what, and since when, for every stage at which it fails or dies; the backup is untouched until the temporary file is complete |
| PlatformStateStore.PlatformState.MutateState | src/state.ts:461-471 | memory keeps the change exactly when the save returned; the file holds it whenever the rename was reached, even when memory was rolled back |
| PlatformStateStore.PlatformState.RecoverFromDisk | src/state.ts:393-447 | recovery by newest modification time among the primary file, the temporary files left behind and the backup; its repair write; and which temporary files stay |
| PlatformStateStore.RecoveredAfterSave | src/state.ts:377-412 | after a clean save with no younger temporary file about, the new state is recovered exactly when the backup was not stamped later, or holds the same |
| PlatformStateStore.UncommittedIsRecoveredIff | src/state.ts:393-447 | a save that died before its rename is recovered exactly when its temporary file is newer than the primary and every earlier temporary file and not older than the backup, or the file that wins without it holds the same |
| PlatformStateStore.FilesHoldAttempts | src/state.ts:364-391 | however a save fails or dies, the files hold nothing but states someone tried to save |
| PlatformStateStore.RecoveryHoldsAttempts | src/state.ts:393-447 | so do the files after a recovery, and what it returns was one of them |
| PlatformStateStore.NormalSaveIsSuperseded | src/state.ts:377-412 | a concrete clean save that a restart loses |
| PlatformStateStore.WriteDoes | src/state.ts:364-391 | what each of the files holds after a save, for every way it can stop |
| PlatformStateStore.SourceIs | src/state.ts:393-412 | the primary file wins exactly when it is as young as every other, the backup exactly when it is younger than every other, a temporary file otherwise |
| PlatformStateStore.RecoveryDoes | src/state.ts:412-447 | a winning primary file stays as it is; otherwise the recovered state is put there unless the repair stops first; the backup and the other temporary files stay, and when the one under the fixed name goes |
| CatalogRecords.ProposalRoundTrip | src/systems-api/catalog.ts:144-176 | validating a written proposal gives it back exactly when it is valid |
| CatalogRecords.ApprovalRoundTrip | src/systems-api/catalog.ts:178-222 | the same for approvals |
| CatalogRecords.ValidatedProposalIsValid | src/systems-api/catalog.ts:144-176 | what the proposal validator accepts is trimmed, distinct, in vocabulary and in range |
| CatalogRecords.ValidatedApprovalIsValid | src/systems-api/catalog.ts:178-222 | the same for approvals, with every controlled field |
| CatalogRecords.ValidationIdempotent | src/systems-api/catalog.ts:106-222 | both validators, applied to their own output, change nothing |
| CatalogFormat.ProposalReadIff | src/systems-api/catalog.ts:144-176 | a JSON value is accepted, and becomes this very proposal, exactly when its fields by name read so: vocabularies, trimmed and distinct texts, a timestamp and a version in range |
| CatalogFormat.ApprovalReadIff | src/systems-api/catalog.ts:178-222 | the same for approvals |
| CatalogTimes.TimestampIff | src/systems-api/catalog.ts:130-138 | a text is a timestamp exactly when it is what some instant of the calendar, leap years included, prints as |
| CatalogFormat.TablesAre | src/systems-api/store.ts:442-495 | what a load keeps of each saved table: every entry under a name that reads, as what it reads as, and nothing else |
| CatalogFormat.LedgerIs | src/systems-api/store.ts:442-495 | the ledger keeps the complete audit events about the catalog, unchanged and in order; the seed version is kept when it is whole and in range |
| CatalogFormat.EntrySays | src/systems-api/registry.ts:335-356 | an entry as it is written: whose catalog, which decision, by whom, when, and under which key if one was given |
| CatalogState.ApprovalKeeps | src/systems-api/registry.ts:289-298 | an approval pushes onto the tool's stack, leaves other tools alone, and keeps reviews honest |
| CatalogState.RollbackKeeps | src/systems-api/registry.ts:304-315 | a rollback pops, and is refused exactly at the bottom |
| CatalogState.SubmitKeeps | src/systems-api/registry.ts:243-263 | a submission moves no stack and keeps reviews honest; it is refused exactly without a tool id, when it did not validate, or when it is stale; `CatalogEffects.SubmissionIsStored` says what it stores |
| CatalogState.DecisionKeeps | src/systems-api/registry.ts:317-356 | a decision keeps every law, and moves exactly its tool's stack by its action |
| CatalogState.OperationKeeps | src/systems-api/registry.ts:210-356 | every catalog operation keeps stacks well shaped, reviews honest and ledger keys unique |
| CatalogEffects.RecordIsWhatIsStored | src/systems-api/registry.ts:185-200 | the record shown: the stored proposal and approval with the stored review, or, without one, pending while the proposal is newer; none exactly when nothing is stored |
| CatalogEffects.SubmissionIsStored | src/systems-api/registry.ts:253-263 | a committed submission stores the proposal, puts it up for review if it differs from the stored one, changes nothing else, shows it, and it can be approved |
| CatalogEffects.SeedingDoes | src/systems-api/registry.ts:265-298 | a seeded approval commits exactly with a tool id and a valid approval; the approval, history and review it leaves |
| CatalogEffects.ReviewDoes | src/systems-api/registry.ts:274-302 | a review commits exactly with a proposal on record, and leaves its status and all else as it was |
| CatalogEffects.RollbackDoes | src/systems-api/registry.ts:282-315 | a rollback commits exactly with a history; the approval, history and review it leaves |
| CatalogEffects.DecisionDoes | src/systems-api/registry.ts:317-356 | a decision under a fresh key commits exactly when its action can be taken, leaves what the action leaves, and adds exactly one entry with what was shown before and after |
| CatalogEffects.SeedVersionDoes | src/systems-api/registry.ts:210-218 | the seed version is taken from 1 to the largest safe integer and becomes the larger of the two |
| CatalogEffects.SeedVersionOnlyGrows | src/systems-api/registry.ts:210-218 | over any run it never goes back and reaches every version that was taken |
| CatalogEffects.CommitEnds | src/systems-api/registry.ts:220-237 | a commit reported as not made was not made on disk; an unconfirmed one was, and is in memory exactly when it could be read back; a committed one is settled on disk and in memory |
| CatalogLaws.ApprovedMeansApproved | src/systems-api/registry.ts:185-200 | in every reachable catalog, "approved" means there is an approval and no proposal has a higher version |
| CatalogLaws.BracketedRunRestores | src/systems-api/registry.ts:289-315 | well-bracketed interleavings over many tools restore a tool's approval and history |
| CatalogLaws.RollbackRefusedAtBottom | src/systems-api/registry.ts:304-306 | a rollback, recorded or plain, is refused exactly when no approval is left |
| CatalogLaws.LedgerRebuildsCatalog | src/systems-api/registry.ts:330-355 | folding the ledger rebuilds every stack when approvals go only through decisions |
| CatalogLaws.ExplainedIffRecorded | src/systems-api/registry.ts:265-287 | one operation on an explained catalog leaves it explained exactly when it does not commit an approval or a rollback outside the ledger |
| CatalogLaws.DecisionRecordsKey | src/systems-api/registry.ts:324-329 | after a decision under a key, any decision under that key commits the catalog unchanged |
| CatalogLaws.ReplaysChangeNothing | src/systems-api/registry.ts:324-329 | through any run, a replayed key changes nothing and no key has two entries |
| CatalogSnapshot.SanitizeCatalog | src/systems-api/store.ts:442-495 | the loops that read a catalog back, against the entries that have a name and parse |
| CatalogSnapshot.CatalogRoundTrip | src/systems-api/store.ts:442-495 | loading what was saved is the identity on catalogs with validated records |
| CatalogSnapshot.ReachableCatalogLoadsBack | src/systems-api/store.ts:442-495 | every reachable catalog loads back as it was: proposals, approvals, reviews, histories and ledger |
| CatalogSnapshot.RevalidationChangesNothing | src/systems-api/registry.ts:185-200 | revalidating the records of a reachable catalog when they are read changes nothing |
| CatalogReload.RereadIsIdentityIff | src/systems-api/store.ts:442-495 | what a restart makes of a saved catalog is that catalog exactly when all its records are ones their validators accept |
| CatalogReload.SanitizedIsNormalized | src/systems-api/store.ts:442-495 | whatever is on disk, a restart puts only validated records in memory |
| CatalogReload.KeysReadBack | src/systems-api/registry.ts:358-360 | the ledger entries a restart keeps hold a key exactly when the ledger that was saved did |
| CatalogReload.EntryKeyReadBack | src/systems-api/registry.ts:335-356 | an entry written to disk shows its key exactly when the caller gave one |
| CatalogRegistry.Registry.CommitCatalog | src/systems-api/registry.ts:220-237 | disk first, then memory; a post-replacement error is reconciled and the sync retried |
| CatalogRegistry.Registry.Persist | src/systems-api/registry.ts:117-119 | other changes: memory first, then disk |
| CatalogRegistry.Registry.FindDecisionByKey | src/systems-api/registry.ts:358-360 | the first ledger entry under the key; none exactly when no entry has it |
| CatalogRegistry.Registry.DecideCatalog | src/systems-api/registry.ts:317-356 | state change and audit event in one commit; a known key commits what is there; the record returned is the one shown afterwards |
| CatalogRegistry.Registry.SaveCatalogProposal | src/systems-api/registry.ts:253-263 | a proposal, refused when invalid or stale; once committed it is the stored one, and the record returned, the one shown afterwards, has it |
| CatalogRegistry.Registry.SaveApprovedCatalog | src/systems-api/registry.ts:265-272 | a seeded approval; returns the record shown afterwards |
| CatalogRegistry.Registry.SetCatalogReviewStatus | src/systems-api/registry.ts:274-280 | deferral or rejection outside the ledger; returns the record shown afterwards |
| CatalogRegistry.Registry.RollbackApprovedCatalog | src/systems-api/registry.ts:282-287 | a rollback outside the ledger; returns the record shown afterwards |
| CatalogRegistry.Registry.SetCatalogSeedVersion | src/systems-api/registry.ts:210-218 | the seed version only grows, within the safe integers |
| CatalogRuns.StoreEnvIsFaithful | src/systems-api/store.ts:442-495 | the store's own sanitizer leaves every catalog of validated records alone, which is all that the laws below ask of a restart |
| CatalogRuns.FaultyRunKeeps | src/systems-api/registry.ts:220-237 | what the operations keep on validated records holds, through any faults, of memory and of every recoverable catalog |
| CatalogRuns.DecisionsHappenOnce | src/systems-api/registry.ts:317-360 | retries mixed with failures, crashes, reloads through the sanitizer and power losses leave at most one ledger entry per key |
| CatalogRuns.LedgerExplainsFaultyRuns | src/systems-api/registry.ts:330-355 | the ledger explains the stacks through any such run: each keyed decision took effect once or not at all |
| CatalogRuns.CommitAgreesIff | src/systems-api/registry.ts:220-237 | after a commit memory and disk agree, except exactly when the file was replaced, could not be read back, and differs |
| CatalogRuns.MemoryMatchesDisk | src/systems-api/registry.ts:117-119 | in every run from an empty disk with a readable file, memory and disk hold the same catalog after every outcome of every commit, save and restart |
| CatalogRuns.AcknowledgedDecisionIsDurable | src/systems-api/registry.ts:220-237 | once an operation has returned, any later power loss brings back its catalog or one whose save began later |
| CatalogRuns.ReplayConfirms | src/systems-api/registry.ts:324-329 | after an unconfirmed commit the new catalog is visible, and a replay that returns confirms that very catalog |
| RegistryLaws.OperationKeeps | src/systems-api/registry.ts:587-1199 | every operation keeps keys unique in all seven tables, timestamps with their states, and an active public URL backed by an active website address of the same tool and text |
| RegistryLaws.RunConsistent | src/systems-api/registry.ts:587-1199 | so does every run |
| RegistryLaws.RestartIsConsistent | src/state.ts:449-454 | the state stays consistent when a restart joins decisions and windows of one time with the other tables of another |
| RegistryEffects.RegistrationDoes | src/systems-api/registry.ts:458-494 | the tool a registration leaves: what it was given, and for a known tool what it had; registration status, heartbeats and the authentication flag carry over |
| RegistryEffects.HeartbeatDoes | src/systems-api/registry.ts:611-645 | a heartbeat makes the tool live, counts, and heals an offline tool unless it names a health; the rest stays |
| RegistryEffects.PatchDoes | src/systems-api/registry.ts:666-712 | a patch sets every field it names, the authentication flag included, and no other |
| RegistryEffects.SwitchesDo | src/systems-api/registry.ts:647-751 | expiry takes a tool offline, enabling and disabling set whether it is exposed, and nothing else |
| RegistryEffects.DeregistrationDoes | src/systems-api/registry.ts:714-721 | removal takes out the one tool and leaves every other record |
| RegistryEffects.AddressRequestDoes | src/systems-api/registry.ts:753-872 | the address, decision, tool, public URL and exposure an address request leaves, field by field, and their places; all else stays |
| RegistryEffects.ExposureRequestDoes | src/systems-api/registry.ts:922-996 | the exposure, decision and tool an exposure request leaves; all else stays |
| RegistryEffects.DomainRequestDoes | src/systems-api/registry.ts:1107-1160 | without an active public URL nothing changes; otherwise the binding and decision it leaves: denied, quarantined, or as the domain stood |
| RegistryEffects.DomainChangeDoes | src/systems-api/registry.ts:1170-1199 | the binding after its token was presented, or after its revocation; a wrong token changes nothing |
| RegistryEffects.AddressRevocationDoes | src/systems-api/registry.ts:874-920 | every matching address is revoked where it stands, the public URL exactly when a website is among them, and the tool is retired exactly when none of its addresses is left active |
| RegistryEffects.RevocationReturns | src/systems-api/registry.ts:874-920 | the list returned: the records revoked, as they are afterwards, in the order of the table |
| RegistryEffects.ExposureRevocationDoes | src/systems-api/registry.ts:1041-1097 | every address, URL, exposure and domain of the tool is revoked where it stands, the tool is no longer exposed, and all else stays |
| RegistryEffects.MaintenanceDoes | src/maintenance/index.ts:32-78 | a window takes its place, one that revises another keeps its start, and ending one takes out that one alone |
| RegistryLaws.AddressRequestKeeps | src/systems-api/registry.ts:753-872 | an address request keeps keys, timestamps and the backing of public URLs |
| RegistryLaws.AddressRequestReplaces | src/systems-api/registry.ts:753-872 | an address request touches the one address with its key and, for a website, the one public URL of its tool, active exactly when cleared |
| RegistryLaws.AddressRevocationKeeps | src/systems-api/registry.ts:874-920 | so does an address revocation |
| RegistryLaws.AddressRevocationRevokes | src/systems-api/registry.ts:874-920 | it revokes every match and nothing else, and the tool's public URL exactly when a website is among them |
| RegistryLaws.ExposureRevocationKeeps | src/systems-api/registry.ts:1041-1097 | a successful exposure revocation leaves the tool no active address, exposure or verified domain |
| RegistryLaws.UnbackedLasts | src/systems-api/registry.ts:587-1199 | that lasts through any run without a new request or verification for the tool |
| RegistryGrants.ActivationNeedsClearance | src/systems-api/registry.ts:753-1199 | an address or exposure turns active only in an operation the guardian cleared; a domain turns verified only by its token, or stays so under a cleared request, perhaps another tool's |
| RegistryGrants.ActiveAddressWasCleared | src/systems-api/registry.ts:753-792 | every active address of a reachable state was granted by a cleared request of the run |
| RegistryGrants.ActiveExposureWasCleared | src/systems-api/registry.ts:794-996 | so was every active exposure |
| RegistryGrants.VerifiedDomainWasGranted | src/systems-api/registry.ts:1107-1184 | every verified domain of a reachable state was verified by its token, or handed on by a cleared request, in the run |
| RegistryGrants.DomainOwnerMovesIff | src/systems-api/registry.ts:1107-1160 | a domain binding changes its tool exactly when another tool with an active public URL requests the domain |
| RegistryGrants.VerifiedDomainIsHandedOverIff | src/systems-api/registry.ts:1130-1143 | a verified domain is another tool's and still verified after a step exactly when that tool, with an active public URL, requests it and the guardian clears it; the token is then one nobody presented |
| RegistryGrants.OwnedIff | src/systems-api/registry.ts:1107-1184 | all along a run every verified domain was verified by its token for the tool that has held it ever since, exactly when no step hands a verified domain over |
| DomainTakeover.VerifiedDomainChangesHands | src/systems-api/registry.ts:1107-1184 | the run that shows it, from the empty registry: one tool binds and verifies a domain, another requests it and holds it verified |
| FederatedExposure.ActiveAddressWasVouchedFor | src/guardian/index.ts:45-53 | every active address of a reachable registry was granted for a local upstream, or while a peer that answers for the upstream was trusted on a signed request, the last under its domain unless a restart brought back an older table |
| RegistryGrants.OnlyPatchesMoveTheGate | src/systems-api/registry.ts:690-697 | the authentication flag of a registered tool changes by a patch that names it and by nothing else |
| RegistryGrants.GateInRuns | src/systems-api/registry.ts:690-697 | over a run, a registered tool keeps the flag while nothing patches it and nothing removes the tool |
| RegistryGrants.ReregistrationDropsTheGate | src/systems-api/registry.ts:484-489 | the failing input: removal and a new registration drop the flag |
| RegistryRoutes.RoutesRefineRecords | src/systems-api/registry.ts:1260-1354 | the routing table lists, each once, exactly the keys offered by active or verified records with an upstream and no blocking decision on their subject |
| RegistryRoutes.MaintenanceOnlyAnnotates | src/systems-api/registry.ts:1335-1353 | maintenance windows neither add, drop nor move routes |
| RegistryRoutes.RevokedToolStaysUnrouted | src/systems-api/registry.ts:1041-1097 | after a successful revocation no route of the tool exists or comes back until something is requested or verified for it |
| RegistryRoutes.WebsiteRequestActivatesExposure | src/systems-api/registry.ts:794-829 | a granted website request also activates an exposure with the same text |
| RegistryRoutes.DenialIsPerRecord | src/systems-api/registry.ts:1254-1287 | denying an address decision on record leaves the key of the tool's active exposure routed, against the comment |
| RegistryRoutes.DeniedHostStaysRouted | src/systems-api/registry.ts:1254-1287 | the run that shows it: register, a cleared website request, and its denial leave the same host routed |
| RegistryRoutes.OfferedIff | src/systems-api/registry.ts:1254-1333 | a tool is offered a route exactly when it has an upstream and a live record no blocking decision names |
| RegistryRoutes.RoutedIff | src/systems-api/registry.ts:1260-1354 | a tool is routed exactly when one of its offers is the first under its key; a collision of keys keeps the first |
| RegistryRoutes.RoutedIffOpen | src/systems-api/registry.ts:1254-1354 | while no tool id holds a colon, a tool is routed exactly when it is offered a route |
| RouteRules.RoutesFollowRecords | src/systems-api/registry.ts:1260-1354 | every route is the host of an active address, an active exposure or a verified domain whose subject no decision on record denies, suspends or quarantines; it carries the tool's upstream, protection and authentication flag, and the first maintenance window over it |
| RouteRules.RecordsAreRouted | src/systems-api/registry.ts:1260-1354 | and every such record of a tool with an upstream has its host routed to the tool |
| RouteRules.AddressesComeFirst | src/systems-api/registry.ts:1260-1333 | where several records offer one host to one tool, the table shows the address, or else the exposure, or else the custom domain |
| RouteRules.RulingDecides | src/guardian/index.ts:198-260 | a ruling on a decision on record rules its subject out exactly when it denies, suspends or quarantines, and changes nothing about any other |
| RouteRules.RulingMovesRoutes | src/systems-api/registry.ts:1254-1333 | so a ruled record offers a route exactly when the ruling clears it, the record is live and its tool has an upstream |
| ToolRegistry.ToolRegistry.RegisterTool | src/systems-api/registry.ts:587-609 | registration or update of a tool, keeping the registry consistent; returns the tool on record |
| ToolRegistry.ToolRegistry.RecordHeartbeat | src/systems-api/registry.ts:611-645 | a heartbeat; returns the tool on record, or null exactly when there is none |
| ToolRegistry.ToolRegistry.ExpireHeartbeat | src/systems-api/registry.ts:647-664 | a missed heartbeat; returns the tool on record, or null |
| ToolRegistry.ToolRegistry.PatchToolMetadata | src/systems-api/registry.ts:666-712 | a metadata patch; absent fields keep their value; returns the tool on record, or null |
| ToolRegistry.ToolRegistry.DeregisterTool | src/systems-api/registry.ts:714-721 | removes the one tool with the id and returns it |
| ToolRegistry.ToolRegistry.EnableTool | src/systems-api/registry.ts:723-751 | enabling and disabling; returns the tool on record, or null |
| ToolRegistry.ToolRegistry.RequestSystemsApiAddress | src/systems-api/registry.ts:753-872 | an address request across all five tables, under the guardian's ruling; returns the address on record, or null exactly for an unknown tool |
| ToolRegistry.ToolRegistry.IssuePublicUrl | src/systems-api/registry.ts:794-829 | its website half |
| ToolRegistry.ToolRegistry.RevokePublicUrlRecord | src/systems-api/registry.ts:563-573 | revokes the tool's public URL and no other |
| ToolRegistry.ToolRegistry.RevokeSystemsApiAddress | src/systems-api/registry.ts:874-920 | the upsert loop over the matching addresses and its cascade; returns exactly the revoked records, in order |
| ToolRegistry.ToolRegistry.RequestToolExposure | src/systems-api/registry.ts:922-996 | an exposure request under the guardian's ruling; returns the exposure on record, or null exactly for an unknown tool |
| ToolRegistry.ToolRegistry.RevokeSystemsApiExposure | src/systems-api/registry.ts:1041-1097 | the cascade over exposures, URLs, addresses and domains; null exactly when the tool has no exposure |
| ToolRegistry.ToolRegistry.RequestDomainBinding | src/systems-api/registry.ts:1107-1160 | a domain request: refused exactly without an active public URL, otherwise ruled on; returns the binding on record |
| ToolRegistry.ToolRegistry.VerifyDomainBinding | src/systems-api/registry.ts:1170-1184 | succeeds exactly for a known domain and its own token |
| ToolRegistry.ToolRegistry.RevokeDomainBinding | src/systems-api/registry.ts:1186-1199 | revokes one domain; returns the binding on record, or null exactly when there is none |
| ToolRegistry.ToolRegistry.RuleOnDecision | src/guardian/index.ts:198-260 | an operator's ruling changes a decision on record and creates none; returns the decision on record, or null |
| ToolRegistry.ToolRegistry.SetMaintenance | src/maintenance/index.ts:32-58 | a revised window keeps its start; returns the window on record |
| ToolRegistry.ToolRegistry.EndMaintenance | src/maintenance/index.ts:61-78 | ends one window |
| ToolRegistry.ToolRegistry.ListActiveRoutes | src/systems-api/registry.ts:1260-1354 | the three loops with their set of seen keys build exactly the declared routing table, which is the one `RouteRules` describes by the records |
| RegistryState.EvaluateGuardianRequest | src/guardian/index.ts:128-184 | exactly which requests are cleared, and exactly which are denied; the rest are quarantined, and none suspended |
| AgentGate.StrictDoubtAssessment | src/agent.py:2362-2485 | the reasons listed are exactly the doubts there are, each once; the score is their weight, positive exactly when a reason is listed |
| AgentGate.UndoubtedAction | src/agent.py:2192-2208 | an undoubted action meets no unresolved conflict and, when guarded, enough evidence, a confidence not below the threshold and a complete contract |
| AgentGate.ConfidenceFloorIff | src/agent.py:2400-2410 | a guarded action that is not doubted meets the confidence threshold exactly when its confidence is a number |
| AgentGate.NotANumberPasses | src/agent.py:2400-2410 | the failing input: a command whose confidence is not a number is not doubted, whatever the threshold |
| AgentGate.DistinctIsDeduped | src/agent.py:2479 | removing duplicate reasons changes nothing |
| AgentLoop.OpenIsPassing | src/agent.py:3794-3838 | the gate's rule, from the turn's own signals and the configuration: a gated action passes exactly when no field is missing, nothing contradicts it, no self-check objects and no conflict is open, and, outside an explicit clone, the request spells out what its kind needs and evidence and confidence reach the thresholds in force |
| AgentRules.KindsAre | src/agent.py:2192-2208 | the five sets of dangerous kinds, by what they share |
| AgentRules.WeightIs | src/agent.py:2378-2455 | how much each reason adds to the score |
| AgentLoop.Gate | src/agent.py:3794-3838 | an action passes exactly when that rule lets it through, and the run ends with a clarification otherwise; destructive kinds meet thresholds no configuration lowers |
| AgentLoop.RepeatGuard | src/agent.py:3840-3869 | an attempt passes exactly when its signature was tried less than twice, or never for a listing |
| AgentLoop.TakeBuiltin | src/agent.py:4462-4521 | a structured result: evidence counts and settles, a failure is remembered, a hard blocker ends the run |
| AgentLoop.TakePlain | src/agent.py:4644-4738 | the same for file-system tools, where an evidence kind counts whatever its text says; what the conversation is told |
| AgentLoop.UseTool | src/agent.py:4336-4460 | a tool is dispatched exactly when persona, safety and approval policies permit it; its result moves the counters and goes, cut to length, into the conversation |
| AgentLoop.UseGroup | src/agent.py:4173-4272 | grouped tools count against the budget and are not dispatched under a conflict |
| AgentLoop.Respond | src/agent.py:3973-4074 | the run ends with an answer that is never blank, revised when the confidence the answer itself states is low |
| AgentLoop.Opening | src/agent.py:3577-3636 | injected context goes in front of the conversation |
| AgentLoop.Stop | src/agent.py:3710-3714 | a stopped run hands back every message, injected ones included |
| AgentLoop.TakeAction | src/agent.py:3794-4738 | which actions dispatch a tool, which end the run, which an exception cuts off, and what the counters become |
| AgentLoop.Act | src/agent.py:3716-4738 | one iteration, from the model's answer on, with failed providers, unreadable replies and missing actions |
| AgentLoop.BrokenOffIff | src/agent.py:3716-4738 | a run ends without an answer exactly when one of its iterations asked the model and an uncaught exception cut it off |
| AgentLoop.StreamAgentTask | src/agent.py:3357-4766 | at most 24 iterations; exactly one answer, last, and none exactly when an iteration was cut off by an exception that nothing catches; guarded kinds only after evidence and with a confidence not below the floor; in strict mode nothing is dispatched after a conflict; tool budget and repeat bounds hold; every tool start was let through by the gate's rule on its own turn's signals, by the repeat guard and by every policy; injected messages untouched and left out of the answer's history unless stopped; and the iterations follow one another, and end, for the reasons given |
| AgentRules.SignatureTells | src/agent.py:3840-3869 | calls whose telling fields are short and hold no separator count as repeats exactly when they agree in all of them |
| AgentRules.BlockerIs | src/agent.py:3441-3457 | which results are hard blockers, by what they mention; timeouts block clones only |
| AgentRules.ConflictIs | src/agent.py:4462-4738 | which results leave a conflict: blockers, failed statuses, and plain texts that mention a failure and are no evidence |
| AgentRules.ServesIs | src/agent.py:3870-4460 | a single tool is dispatched exactly for a kind the loop does not serve itself that passes gate, guard and policies, and when it is a built-in one |
| AgentRules.TroubledIs | src/agent.py:3716-4738 | exactly which iterations an exception cuts off, by the turn's own fields |
| AgentRules.EndingIs | src/agent.py:3676-3714 | a run ends for its budget, or for the stop flag, exactly when its last iteration found it so, the budget first |
| AgentRules.AnswerIs | src/agent.py:3973-4074 | the answer is never blank: the model's own, a fixed text for a blank one, or the trimmed revision exactly when the stated confidence is below three quarters and both are long enough |
| AgentRules.InjectedIs | src/agent.py:3577-3636 | what is put in front of the conversation: memory before knowledge, each acknowledged, and nothing for a direct answer |
| Gossip.FederationNode.HandleInboundAnnouncement | src/federation/gossip.ts:99-166 | takes an announcement in, ordinary or bootstrap, with failed saves, and lists every known peer but itself |
| Gossip.FederationNode.ListPeers | src/federation/gossip.ts:117-129 | the filter and map over the peers |
| Gossip.FederationNode.TakeReply | src/federation/gossip.ts:188-192 | merges a reply entry by entry, up to the first failed save |
| Gossip.FederationNode.LoadPersistedPeers | src/federation/gossip.ts:54-60 | reloading upserts each known node afresh, in place, up to the one whose save fails |
| Gossip.FederationNode.TrustPeer | src/federation/service.ts:79-84 | the operator's upsert: trusted exactly when signed |
| Gossip.FederationNode.ApplyPeerTrustExpiry | src/federation/service.ts:143-164 | expires exactly the peers that run out and counts them |
| Gossip.Authorize | src/federation/service.ts:90-128 | the first peer that matches decides, by its own trust: allowed exactly when it is trusted, or verified where that is enough; unregistered exactly when nobody matches |
| GossipEffects.AnnouncementDoes | src/federation/gossip.ts:99-116 | a complete announcement by another node stores its peer, pending, in its place; any other changes nothing |
| GossipEffects.SettlingDoes | src/federation/gossip.ts:104-166 | a bootstrap announcement verifies the first peer under the address if it is pending, and an ordinary one gives its pools to the first peer with the identifier |
| GossipEffects.ListingIs | src/federation/gossip.ts:117-129 | the peers passed on: exactly those with an identifier and an address other than the node's own, in order |
| GossipEffects.ReplyDoes | src/federation/gossip.ts:188-192 | after a reply, the last entry taken in for an address stands under it, and addresses without one keep what they had |
| GossipEffects.RequestDoes | src/federation/service.ts:79-84 | the operator's request stores a peer without an identifier, trusted exactly when it is signed |
| GossipEffects.ReloadDoes | src/federation/gossip.ts:54-60 | loading sets the peers with an identifier and an address back to pending and leaves the others alone |
| GossipEffects.RestartDoes | src/state.ts:251-294 | a restart puts the recovered table in memory, each peer as it was saved but for its pools |
| GossipEffects.ExpiryDoes | src/federation/service.ts:143-164 | exactly the peers whose trust has run out and is neither revoked nor expired expire, degraded unless blocked |
| GossipEffects.ExpiryCounts | src/federation/service.ts:143-164 | and they are counted, each once |
| GossipNetwork.StepKeeps | src/federation/gossip.ts:99-197 | every step, a restart included, keeps tables keyed and owners true, and trust within what was ever signed, in memory, in every file and in every reply |
| GossipRuns.ListedWasAnnounced | src/federation/gossip.ts:99-197 | in every run, whatever restarts bring back, every listed DID and URL was announced by its owner; no node lists itself; domains are unique |
| GossipRuns.OlderAfterCleanSaveIff | src/state.ts:377-412 | after a clean save a restart brings back an older table exactly when the save's backup was stamped later than its temporary file and held something else |
| GossipRuns.DomainsAreKept | src/federation/peers.ts:58-65 | no node ever forgets a domain while no restart brings back an older table |
| GossipRuns.DomainIsForgottenIff | src/state.ts:377-412 | the failing run: the domain trusted last is forgotten by a restart exactly when that save's backup was stamped later |
| GossipRuns.TrustedWasSigned | src/federation/peers.ts:41-56 | a trusted peer's domain was signed for by the operator: last of all upserts, unless a restart has brought back an older table since |
| GossipRuns.TrustReturnsIff | src/federation/gossip.ts:54-60 | the failing run: trust that an announcement took back returns at a restart exactly when that save's backup was stamped later |
| GossipRuns.AuthorizedWasSigned | src/federation/service.ts:90-128 | so was the domain of the peer behind every action allowed at the trusted level |
| GossipVouching.TrustLevels | src/federation/gossip.ts:99-166 | a complete bootstrap announcement leaves its domain verified and healthy, an ordinary one pending and unknown; a signed request leaves it trusted, an unsigned one pending |
| GossipVouching.VerifiedWasVouchedFor | src/federation/gossip.ts:139-166 | in every run a verified peer rests on a complete bootstrap announcement of its domain, the last thing upserted there unless a restart brought back an older table |
| GossipVouching.AuthorizedWasVouchedFor | src/federation/service.ts:90-128 | an action allowed at the verified level rests on a signed request or on such an announcement |
| GossipRuns.AnnouncementResetsTrust | src/federation/gossip.ts:99-103 | an announcement under a peer's domain leaves it pending |
| GossipRuns.LaterJoinerIsTold | src/federation/gossip.ts:99-130 | where no two nodes taken in share a URL, the reply to a joiner names everyone who joined before and was neither overwritten by the operator nor lost in a restart |
| GossipRuns.LaterJoinerLearns | src/federation/gossip.ts:170-197 | having taken that reply in, the joiner knows them |
| GossipRuns.SharedUrlHidesTheEarlier | src/federation/peers.ts:58-65 | a table that takes in two announcements under one URL knows the second announcer and no longer the first |
| GossipRuns.SharedUrlIsNotTold | src/federation/gossip.ts:99-130 | the run that shows it: two nodes announce themselves under one URL, and the reply to the second omits the first |
| GossipRuns.AlwaysToldIff | src/federation/gossip.ts:99-130 | joiners of a node are told of every earlier joiner it has not lost in these ways, in every run, exactly when no two nodes it takes in share a URL |
| Scheduler.PlanPlaces | src/control-plane/scheduler.ts:3-27 | placements sum to the replicas asked for, rounded up; differ by at most one; are positive; and name the first min(replicas, eligible) eligible nodes in order |
| Scheduler.PlanNames | src/control-plane/scheduler.ts:3-27 | only eligible nodes are named, each once |
| Scheduler.PlanIsEmptyIff | src/control-plane/scheduler.ts:11-13 | a plan is empty exactly when no node is eligible or nothing is asked for |
| Scheduler.WholeRoundsUp | src/control-plane/scheduler.ts:15-21 | a fractional request is placed rounded up |
| Scheduler.WholeIsExact | src/control-plane/scheduler.ts:15-21 | a whole request is placed as it is |
| NodeTrust.ReadyIsClearedInRuns | src/control-plane/service.ts:70-152 | over any run, with failed saves and with restarts that bring back any list ever to be saved, a ready node is never quarantined, revoked or expired |
| NodeTrust.ReadinessOnlyFades | src/control-plane/service.ts:70-152 | while no restart brings back an older list, a node that is not ready never is again |
| NodeTrust.ChosenIsEligible | src/data-plane/service.ts:201-218 | choosing by status alone never picks a barred node, and finds one exactly when the scheduler has an eligible one, whatever restarts bring back |
| NodeTrust.BarredIsNeverChosen | src/data-plane/service.ts:201-218 | a node barred once is never picked later, even when its trust is restored, while no restart brings back an older list |
| NodeTrust.QuarantineIsForgottenIff | src/data-plane/service.ts:201-204 | the failing run: a quarantined node is picked after a restart exactly when that save's backup was stamped later |
| NodeTrust.ControlPlane.RegisterNode | src/control-plane/registration.ts:13-36 | a new node, ready and verified |
| NodeTrust.ControlPlane.PromoteNodeTrust | src/control-plane/service.ts:70-85 | promotion of one node; returns it as it is now, or null exactly when there is none |
| NodeTrust.ControlPlane.QuarantineNodeTrust | src/control-plane/service.ts:87-101 | quarantine drains a ready node; returns it as it is now, or null exactly when there is none |
| NodeTrust.ControlPlane.RevokeNodeTrust | src/control-plane/service.ts:103-117 | revocation takes a node offline; returns it as it is now, or null exactly when there is none |
| NodeTrust.ControlPlane.ApplyNodeTrustExpiry | src/control-plane/service.ts:132-152 | expires the nodes that run out and counts them; `NodeTrust.EventDoes` says which |
| NodeTrust.EventDoes | src/control-plane/service.ts:70-152 | trust, expiry and status of every node after each event, field by field: which node changes, which run out, and that all others stay |
| NodeTrust.ControlPlane.ChooseNode | src/data-plane/service.ts:201-204 | the first ready node |
| NodeTrust.DataPlane.SaveUnit | src/data-plane/service.ts:94-99 | upsert of a runtime unit |
| NodeTrust.DataPlane.StopWorkload | src/data-plane/service.ts:220-244 | stops every running unit of the workload, touches no other, and returns exactly those it stopped, in order |
| NodeTrust.StopDoes | src/data-plane/service.ts:220-244 | exactly the running units of the workload are stopped, where they stand, and returned as they are afterwards, in order |
| CatalogResolution.ResolveEffectiveCatalog | src/catalog/resolution.ts:107-172 | the two loops and the sort against the declared catalog, whose entries and order `CatalogRules` describes from the apps and their limits |
| CatalogRules.EntriesFollowRules | src/catalog/resolution.ts:107-172 | every entry is a platform app's or a new local app's: a platform app may be launched exactly when it is approved, not restricted, in neither disabled list, in the enabled list if there is one, online and not refused; which availability and shelf are shown; the same for local apps |
| CatalogRules.AppsHaveEntries | src/catalog/resolution.ts:107-172 | and every platform app, and every local app under a new id, has its entry |
| CatalogRules.OrderIs | src/catalog/resolution.ts:87-100 | pinned apps stand first in the order of the pins, then recent ones in theirs, then the others by name and id |
| CatalogResolution.EffectiveIsOrdered | src/catalog/resolution.ts:87-100 | for every total preorder of texts, a sorted permutation of the entries, pinned apps first in the order of the pins |
| CatalogResolution.SortIsStable | src/catalog/resolution.ts:90-99 | entries that compare equal keep their order |
| CatalogResolution.LocalsJoin | src/catalog/resolution.ts:148-169 | all platform entries first, then exactly the local apps that come first under an id of their own |
| CatalogResolution.LocalIdsAreNew | src/catalog/resolution.ts:148-149 | no local app shares its id with an entry in front of it |
| CatalogResolution.PreferencesOnlyReorder | src/catalog/resolution.ts:107-172 | preferences only reorder and mark; availability and launchability do not depend on them |
| CatalogResolution.DisablingNeverLaunches | src/catalog/resolution.ts:118-145 | a launchable entry of a stricter catalog is, unchanged, an entry of the laxer one |
| CatalogResolution.DisablingMoreIsStricter | src/catalog/resolution.ts:118-131 | enlarging either list of disabled apps is stricter |
| CatalogResolution.NarrowingIsStricterIff | src/catalog/resolution.ts:119 | narrowing the enabled list is stricter exactly when it does not empty it |

## Left out

- HTTP routing, sessions, CORS and the 200/202/503 mapping of catalog decisions: plumbing around the operations modelled here.
- JSON as text: values are trees. The previous and new record an audit event renders into a string are kept as the tree they render (`JText`).
- JsonStoreDisk.Disk.WriteJsonStoreAtomic: creating the directory and rendering the payload are one step before anything is touched; the hook that tests install after the replacement is a failure of the directory sync.
- JsonStoreDisk.Disk.LoadJsonStoreWithRecovery: a sanitizer that throws is an unreadable file; the repair's date stamps are not kept.
- JsonStoreRuns.AcknowledgedIsDurable: assumes that the recoveries in between can read the primary file; `CommittedIffReadable` says what happens otherwise.
- Several processes writing one store: a store has a single writer.
- PlatformStateStore.PlatformState.WriteSnapshotAtomic: only the names, values and modification times of the files; what a power loss does to unsynced data is modelled for the JSON store only. Equally old temporary files are listed in the order they were left.
- CatalogState.SubmitKeeps: proposals and approvals arrive as the validator's result, with `None` for what it turned down; `CatalogRecords` models the validators themselves.
- CatalogSnapshot.CatalogRoundTrip: the other tables' sanitizers (tools, addresses, domains) are not modelled; tables start empty or from a saved reachable state.
- RegistryEffects.AddressRequestDoes: lower case is that of the ASCII letters; other alphabets keep theirs.
- Names that an object prototype already has, as keys of the saved dictionaries.
- RegistryLaws.OperationKeeps: record identifiers, labels, descriptions, canonical targets, the activity history with its cap, and events are not kept; times are integers and do not have to grow.
- RegistryLaws.RunConsistent: a run is the life of one process whose saves succeed; `RestartIsConsistent` joins any two points of it, and `CatalogRuns` follows the JSON store through failures.
- RegistryState.EvaluateGuardianRequest: what the guardian reads off host names (valid, local or private, known to a trusted peer, refused) is given with each request; `FederatedExposure` ties the peer to federation.
- ToolRegistry.ToolRegistry.RegisterTool: a catalog proposal that comes with a registration or patch is `CatalogRegistry.Registry.SaveCatalogProposal`; saving the tables is `Registry.Persist`.
- AgentGate.StrictDoubtAssessment: what the text classifiers say is arbitrary; the log of excused clone doubts is not kept; `strip` knows the spaces of `Text.IsSpace`; scores and finite confidences are exact, not floating point.
- AgentLoop.StreamAgentTask: an uncaught exception other than the named ones is arbitrary, before, while or after the action's tool runs; exceptions before the first iteration, texts shown to the user, usage records and checkpoints are left out; tools inside a group pass no gate in the code and are not constrained here; the tools of a direct clone count as notes.
- The provider fallback chain and the cost ordering of providers: the model's answer is arbitrary, so nothing here depends on them.
- Gossip.FederationNode.HandleInboundAnnouncement: pools are opaque, short ids are derived from the DID and not kept, and signatures on announcements do not exist in the code; nodes announce only themselves.
- GossipNetwork.StepKeeps: the HTTP handler turns ordinary announcements of peers it does not trust away; here every announcement may arrive.
- GossipRuns.LaterJoinerIsTold: asks that no two nodes the answerer takes in share a URL; `AlwaysToldIff` proves that this is exactly when it holds.
- Gossip.Authorize: the comparison of host names is a parameter.
- NodeTrust.ReadinessOnlyFades: identifiers are random, so none is registered twice; `refreshNodeHeartbeat` has no caller and is not an event; an unparseable expiry date does not occur.
- NodeTrust.DataPlane.StopWorkload: container commands, ports, mounts and health checks.
- CatalogResolution.EffectiveIsOrdered: `localeCompare` is an arbitrary total preorder of texts.
- Storage pools, S3 signing, provider budgets, regex classifiers and seed tables.
