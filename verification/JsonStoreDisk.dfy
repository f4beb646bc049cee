/** The store's operations as the program runs them: system calls in order, a flag for
    whether the replacement happened, and a catch clause. */
module JsonStoreDisk {
  import opened Wrappers
  import opened JsonStore

  /** How a system call ended, as the running program experiences it. */
  datatype Status = Completed | Raised | Killed

  class Disk<!T(==)> {
    var inodes: seq<Inode<T>>
    var dir: Dir
    var durable: Dir
    var pending: seq<DirOp>
    var renamed: seq<Content<T>>

    ghost function State(): Fs<T>
      reads this
    {
      Fs(inodes, dir, durable, pending, renamed)
    }

    constructor ()
      ensures State() == Fresh()
    {
      inodes, dir, durable, pending, renamed := [], NO_FILES, NO_FILES, [], [];
    }

    /** The operating system's part: one call, succeeding, failing or never returning. */
    method Call(call: Syscall<T>, fault: Fault) returns (status: Status)
      modifies this
      ensures match Do(old(State()), call, fault)
        case Going(fs) => State() == fs && status == Completed
        case Failing(fs) => State() == fs && status == Raised
        case Dead(fs) => State() == fs && status == Killed
    {
      var a := Do(Fs(inodes, dir, durable, pending, renamed), call, fault);
      inodes, dir, durable, pending, renamed :=
        a.fs.inodes, a.fs.dir, a.fs.durable, a.fs.pending, a.fs.renamed;
      status := match a case Going(_) => Completed case Failing(_) => Raised case Dead(_) => Killed;
    }

    method WriteJsonStoreAtomic(value: T, backupCurrentPrimary: bool, f: WriteFaults)
      returns (result: WriteResult)
      modifies this
      ensures Written(State(), result) == WriteOutcome(old(State()), value, backupCurrentPrimary, f)
    {
      if f.prepare.Error? {
        return Threw;
      } else if f.prepare.Cut? {
        return Crashed;
      }
      var replaced := false;
      var status := Completed;
      label try: {
        if backupCurrentPrimary && dir.primary.Some? {
          status := Call(CopyPrimaryToBackup, f.copy);
          if status != Completed { break try; }
          status := Call(SyncBackup, f.syncBackup);
          if status != Completed { break try; }
        }
        status := Call(WriteTemp(value), f.write);
        if status != Completed { break try; }
        status := Call(SyncTemp, f.syncTemp);
        if status != Completed { break try; }
        status := Call(RenameTemp, f.rename);
        if status != Completed { break try; }
        replaced := true;
        status := Call(SyncDirectory, f.syncDir);
      }
      if status == Completed {
        return Returned;
      } else if status == Killed {
        return Crashed;
      }
      var cleanup := Call(UnlinkTemp, f.cleanup);
      if cleanup == Killed {
        return Crashed;
      }
      return if replaced then ThrewPostReplace else Threw;
    }

    /** Whether the primary file can be read and holds `expected`. */
    method IsJsonStoreSnapshotCurrent(expected: T, readable: bool) returns (current: bool)
      ensures current <==> readable && Primary(State()) == Some(Valid(expected))
    {
      var found := Primary(Fs(inodes, dir, durable, pending, renamed));
      current := readable && found == Some(Valid(expected));
    }

    method SyncJsonStoreSnapshot(syncFile: Fault, syncDir: Fault) returns (result: WriteResult)
      modifies this
      ensures Written(State(), result) == SyncOutcome(old(State()), syncFile, syncDir)
    {
      if dir.primary.None? {
        return Threw;
      }
      var status := Call(SyncPrimary, syncFile);
      if status == Completed {
        status := Call(SyncDirectory, syncDir);
      }
      return match status case Completed => Returned case Raised => Threw case Killed => Crashed;
    }

    method ReadCandidate(name: Option<nat>, readable: bool) returns (found: Option<T>)
      ensures found.Some? <==> readable && Read(State(), name).Some? && Read(State(), name).value.Valid?
      ensures found.Some? ==> Read(State(), name) == Some(Valid(found.value))
    {
      if name.None? || name.value >= |inodes| || !readable {
        return None;
      }
      match inodes[name.value].data
      case Torn => return None;
      case Valid(v) => return Some(v);
    }

    /** Collects the readable candidates in priority order and takes the first; repairs the
        primary file unless it was the winner; removes the temporary file unless that was. */
    method LoadJsonStoreWithRecovery(env: Env<T>, f: LoadFaults) returns (result: LoadResult<T>)
      modifies this
      ensures Opened(State(), result) == LoadOutcome(old(State()), env, f)
    {
      var candidates: seq<(Source, T)> := [];
      var p := ReadCandidate(dir.primary, f.readable.primary);
      if p.Some? { candidates := candidates + [(FromPrimary, p.value)]; }
      var t := ReadCandidate(dir.temp, f.readable.temp);
      if t.Some? { candidates := candidates + [(FromTemp, t.value)]; }
      var b := ReadCandidate(dir.backup, f.readable.backup);
      if b.Some? { candidates := candidates + [(FromBackup, b.value)]; }
      if |candidates| == 0 {
        return Loaded(env.empty, FromNothing, false);
      }
      var (source, found) := candidates[0];
      var value := env.sanitize(found);
      var repaired := false;
      if source != FromPrimary {
        var r := WriteJsonStoreAtomic(value, false, f.repair);
        if r == Crashed {
          return LoadCrashed;
        }
        repaired := r == Returned;
      }
      if source != FromTemp {
        var cleanup := Call(UnlinkTemp, f.cleanup);
        if cleanup == Killed {
          return LoadCrashed;
        }
      }
      return Loaded(value, source, repaired);
    }
  }
}
