/** The registry process: catalog operations that draft a catalog, commit it through the
    crash-safe store, and make it visible in memory. `X` is the rest of the registry, which
    every save carries along. */
module CatalogRegistry {
  import opened Wrappers
  import opened JsonStore
  import opened JsonStoreDisk
  import opened CatalogRecords
  import opened CatalogState

  datatype Snapshot<X> = Snapshot(tables: X, catalog: Catalog)

  /** `reread` is whether the primary file can be read back after a post-replacement error. */
  datatype CommitFaults = CommitFaults(write: WriteFaults, reread: bool, syncFile: Fault, syncDir: Fault)

  datatype CommitResult = NotAttempted | Committed | NotCommitted | Unconfirmed | Died

  /** The process after an operation: memory, files, and how the operation ended. */
  datatype Process<X> = Process(mem: Snapshot<X>, fs: Fs<Snapshot<X>>, result: CommitResult)

  function CommitOutcome<X(==)>(mem: Snapshot<X>, fs: Fs<Snapshot<X>>, next: Catalog, f: CommitFaults): Process<X> {
    var snapshot := Snapshot(mem.tables, next);
    var w := WriteOutcome(fs, snapshot, true, f.write);
    match w.result
    case Returned => Process(snapshot, w.fs, Committed)
    case Threw => Process(mem, w.fs, NotCommitted)
    case Crashed => Process(mem, w.fs, Died)
    case ThrewPostReplace =>
      if !(f.reread && Primary(w.fs) == Some(Valid(snapshot))) then Process(mem, w.fs, Unconfirmed)
      else
        var s := SyncOutcome(w.fs, f.syncFile, f.syncDir);
        Process(snapshot, s.fs,
                match s.result case Returned => Committed case Crashed => Died case _ => Unconfirmed)
  }

  function Performed<X(==)>(mem: Snapshot<X>, fs: Fs<Snapshot<X>>, op: Op, f: CommitFaults): Process<X> {
    match PlanOf(mem.catalog, op)
    case Refused => Process(mem, fs, NotAttempted)
    case Commit(next) => CommitOutcome(mem, fs, next, f)
  }

  lemma ProposalShown(c: Catalog, toolId: string)
    ensures RecordOf(c, toolId).Some? && RecordOf(c, toolId).value.proposal.Some? <==> toolId in c.proposals
  {
  }

  lemma LedgerNotShown(c: Catalog, ledger: seq<AuditEvent>, toolId: string)
    ensures RecordOf(c.(ledger := ledger), toolId) == RecordOf(c, toolId)
  {
  }

  class Registry<!X(==)> {
    const disk: Disk<Snapshot<X>>
    var tables: X
    var catalog: Catalog

    ghost function Memory(): Snapshot<X>
      reads this
    {
      Snapshot(tables, catalog)
    }

    ghost predicate Is(p: Process<X>)
      reads this, disk
    {
      Memory() == p.mem && disk.State() == p.fs
    }

    constructor (disk: Disk<Snapshot<X>>, loaded: Snapshot<X>)
      ensures this.disk == disk && Memory() == loaded
    {
      this.disk := disk;
      tables, catalog := loaded.tables, loaded.catalog;
    }

    /** Persists a complete snapshot before making its catalog visible in memory. */
    method CommitCatalog(next: Catalog, f: CommitFaults) returns (result: CommitResult)
      modifies this`catalog, disk
      ensures var p := CommitOutcome(old(Memory()), old(disk.State()), next, f); Is(p) && result == p.result
      ensures result == Committed ==> catalog == next
    {
      var snapshot := Snapshot(tables, next);
      var written := disk.WriteJsonStoreAtomic(snapshot, true, f.write);
      if written == Crashed {
        return Died;
      } else if written == Threw {
        return NotCommitted;
      } else if written == ThrewPostReplace {
        var current := disk.IsJsonStoreSnapshotCurrent(snapshot, f.reread);
        if !current {
          return Unconfirmed;
        }
        // The replacement is visible: keep memory aligned with it, then retry the sync.
        catalog := next;
        var synced := disk.SyncJsonStoreSnapshot(f.syncFile, f.syncDir);
        return match synced case Returned => Committed case Crashed => Died case _ => Unconfirmed;
      }
      catalog := next;
      return Committed;
    }

    /** A change outside the catalog: memory first, then the whole registry to disk. */
    method Persist(changed: X, f: WriteFaults) returns (written: WriteResult)
      modifies this`tables, disk
      ensures Memory() == Snapshot(changed, old(catalog))
      ensures Written(disk.State(), written) == WriteOutcome(old(disk.State()), Memory(), true, f)
    {
      tables := changed;
      written := disk.WriteJsonStoreAtomic(Snapshot(tables, catalog), true, f);
    }

    /** The first ledger entry under a key. */
    method FindDecisionByKey(key: string) returns (found: Option<AuditEvent>)
      ensures found.Some? <==> KeyUsed(catalog, key)
      ensures found.Some? ==> exists i :: (0 <= i < |catalog.ledger| && catalog.ledger[i] == found.value
                && found.value.key == key && forall j :: 0 <= j < i ==> catalog.ledger[j].key != key)
    {
      for i := 0 to |catalog.ledger|
        invariant forall j :: 0 <= j < i ==> catalog.ledger[j].key != key
      {
        if catalog.ledger[i].key == key {
          return Some(catalog.ledger[i]);
        }
      }
      return None;
    }

    /** Catalog state and its audit event share one commit; a replayed key commits what is
        already there. */
    method DecideCatalog(
        toolId: string, action: Action, actor: string, approved: Option<ApprovedCatalog>, key: string,
        at: string, f: CommitFaults) returns (result: CommitResult, record: Option<CatalogRecord>)
      modifies this`catalog, disk
      ensures var p := Performed(old(Memory()), old(disk.State()),
                                 Decide(toolId, action, actor, approved, key, at), f);
        Is(p) && result == p.result
      ensures record == if result == Committed then RecordOf(catalog, toolId) else None
    {
      hide CommitOutcome, ApplyApproval, ApplyRollback, ApplyReview, RecordOf;
      ProposalShown(catalog, toolId);
      if key != "" {
        var replay := FindDecisionByKey(key);
        if replay.Some? {
          result := CommitCatalog(catalog, f);
          record := if result == Committed then RecordOf(catalog, toolId) else None;
          return;
        }
      }
      var next := catalog;
      var previous := RecordOf(next, toolId);
      if action == Approve {
        if previous.None? || previous.value.proposal.None? || approved.None? {
          return NotAttempted, None;
        }
        next := ApplyApproval(next, toolId, approved.value);
      } else if action == Rollback {
        var rolledBack := ApplyRollback(next, toolId);
        if rolledBack.None? {
          return NotAttempted, None;
        }
        next := rolledBack.value;
      } else {
        if previous.None? || previous.value.proposal.None? {
          return NotAttempted, None;
        }
        next := ApplyReview(next, toolId, if action == Defer then Deferred else Rejected);
      }
      var current := RecordOf(next, toolId);
      LedgerNotShown(next, next.ledger + [AuditEvent(toolId, action, actor, key, at, previous, current)], toolId);
      next := next.(ledger := next.ledger + [AuditEvent(toolId, action, actor, key, at, previous, current)]);
      result := CommitCatalog(next, f);
      record := if result == Committed then current else None;
    }

    method SaveCatalogProposal(toolId: string, valid: Option<CatalogProposal>, f: CommitFaults)
      returns (result: CommitResult, record: Option<CatalogRecord>)
      modifies this`catalog, disk
      ensures var p := Performed(old(Memory()), old(disk.State()), Submit(toolId, valid), f);
        Is(p) && result == p.result
      ensures record == if result == Committed then RecordOf(catalog, toolId) else None
      ensures result == Committed ==>
        && valid.Some? && catalog.proposals == old(catalog.proposals)[toolId := valid.value]
        && record.Some? && record.value.proposal == valid
    {
      if toolId == "" || valid.None? || !CanSubmit(catalog, toolId, valid.value) {
        return NotAttempted, None;
      }
      var next := catalog;
      var changed := Lookup(next.proposals, toolId) != valid;
      next := next.(proposals := next.proposals[toolId := valid.value]);
      if changed {
        next := next.(reviews := next.reviews[toolId := Pending]);
      }
      result := CommitCatalog(next, f);
      record := if result == Committed then RecordOf(catalog, toolId) else None;
    }

    method SaveApprovedCatalog(toolId: string, valid: Option<ApprovedCatalog>, f: CommitFaults)
      returns (result: CommitResult, record: Option<CatalogRecord>)
      modifies this`catalog, disk
      ensures var p := Performed(old(Memory()), old(disk.State()), SeedApprove(toolId, valid), f);
        Is(p) && result == p.result
      ensures record == if result == Committed then RecordOf(catalog, toolId) else None
    {
      if toolId == "" || valid.None? {
        return NotAttempted, None;
      }
      result := CommitCatalog(ApplyApproval(catalog, toolId, valid.value), f);
      record := if result == Committed then RecordOf(catalog, toolId) else None;
    }

    method SetCatalogReviewStatus(toolId: string, reject: bool, f: CommitFaults)
      returns (result: CommitResult, record: Option<CatalogRecord>)
      modifies this`catalog, disk
      ensures var p := Performed(old(Memory()), old(disk.State()), Review(toolId, reject), f);
        Is(p) && result == p.result
      ensures record == if result == Committed then RecordOf(catalog, toolId) else None
    {
      var shown := RecordOf(catalog, toolId);
      if shown.None? || shown.value.proposal.None? {
        return NotAttempted, None;
      }
      result := CommitCatalog(ApplyReview(catalog, toolId, if reject then Rejected else Deferred), f);
      record := if result == Committed then RecordOf(catalog, toolId) else None;
    }

    method RollbackApprovedCatalog(toolId: string, f: CommitFaults)
      returns (result: CommitResult, record: Option<CatalogRecord>)
      modifies this`catalog, disk
      ensures var p := Performed(old(Memory()), old(disk.State()), PlainRollback(toolId), f);
        Is(p) && result == p.result
      ensures record == if result == Committed then RecordOf(catalog, toolId) else None
    {
      var next := ApplyRollback(catalog, toolId);
      if next.None? {
        return NotAttempted, None;
      }
      result := CommitCatalog(next.value, f);
      record := if result == Committed then RecordOf(catalog, toolId) else None;
    }

    method SetCatalogSeedVersion(version: int, f: CommitFaults) returns (result: CommitResult)
      modifies this`catalog, disk
      ensures var p := Performed(old(Memory()), old(disk.State()), SetSeedVersion(version), f);
        Is(p) && result == p.result
    {
      if version < 1 || version > MAX_SAFE_INTEGER {
        return NotAttempted;
      }
      var next := catalog;
      if next.seedVersion.None? || next.seedVersion.value < version {
        next := next.(seedVersion := Some(version));
      }
      result := CommitCatalog(next, f);
    }
  }
}
