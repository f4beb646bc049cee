/** What the store's operations leave in the files: a write that goes well and one that does not, the
    retry, and what a recovery picks, repairs and removes. */
module JsonStoreEffects {
  import opened Wrappers
  import opened JsonStore
  import opened JsonStoreRuns

  /** The file under the name exists and holds the value, whole. */
  ghost predicate Whole<T>(fs: Fs<T>, name: Option<nat>, v: T) {
    name.Some? && name.value < |fs.inodes| && fs.inodes[name.value].data == Valid(v)
  }

  /** And the device holds it too. */
  ghost predicate OnDevice<T>(fs: Fs<T>, name: Option<nat>) {
    name.Some? && name.value < |fs.inodes| && fs.inodes[name.value].stable == fs.inodes[name.value].data
  }

  /** No change of the directory can be lost. */
  ghost predicate Settled<T>(fs: Fs<T>) {
    fs.durable == fs.dir && fs.pending == []
  }

  predicate Faultless(f: WriteFaults) {
    f.prepare == NoFault && f.copy == NoFault && f.syncBackup == NoFault && f.write == NoFault && f.syncTemp == NoFault
    && f.rename == NoFault && f.syncDir == NoFault
  }

  ghost predicate InPlace<T>(fs: Fs<T>) {
    GoodDir(fs, fs.dir)
  }

  // ---------- writing ----------

  /** The backup step, when nothing fails in it. */
  lemma CleanBackup<T>(fs: Fs<T>, backup: bool, f: WriteFaults) returns (x: Fs<T>)
    requires InPlace(fs) && Faultless(f)
    ensures (if backup && fs.dir.primary.Some?
             then Then(Do(fs, CopyPrimaryToBackup, f.copy), SyncBackup, f.syncBackup)
             else Going(fs)) == Going(x)
    ensures InPlace(x) && x.dir.primary == fs.dir.primary && Primary(x) == Primary(fs) && x.renamed == fs.renamed
    ensures backup && fs.dir.primary.Some? ==>
      Read(x, x.dir.backup) == Primary(fs) && OnDevice(x, x.dir.backup)
    ensures !(backup && fs.dir.primary.Some?) ==> x == fs
  {
    x := fs;
    if backup && fs.dir.primary.Some? {
      x := Effect(fs, CopyPrimaryToBackup, Fully);
      assert Read(x, x.dir.backup) == Primary(fs);
      x := Effect(x, SyncBackup, Fully);
    }
  }

  lemma CleanTemp<T>(fs: Fs<T>, v: T) returns (x: Fs<T>)
    requires InPlace(fs)
    ensures x == Effect(Effect(fs, WriteTemp(v), Fully), SyncTemp, Fully)
    ensures InPlace(x) && Whole(x, x.dir.temp, v) && OnDevice(x, x.dir.temp)
    ensures x.dir == fs.dir.(temp := x.dir.temp) && x.renamed == fs.renamed && |fs.inodes| <= |x.inodes|
    ensures forall i :: 0 <= i < |fs.inodes| && Some(i) != fs.dir.temp ==> x.inodes[i] == fs.inodes[i]
  {
    x := Effect(Effect(fs, WriteTemp(v), Fully), SyncTemp, Fully);
  }

  /** A write in which nothing fails returns. The value is then under the primary name, synced, with
      the directory; no temporary file is left; and the backup holds what the primary file held if
      that was asked for, and is untouched otherwise. */
  lemma CleanWriteDoes<T>(fs: Fs<T>, v: T, backup: bool, f: WriteFaults)
    requires InPlace(fs) && Faultless(f)
    ensures var w := WriteOutcome(fs, v, backup, f);
      && w.result == Returned && w.fs.renamed == fs.renamed + [Valid(v)]
      && Whole(w.fs, w.fs.dir.primary, v) && OnDevice(w.fs, w.fs.dir.primary)
      && w.fs.dir.temp == None && Settled(w.fs)
      && (if backup && fs.dir.primary.Some?
          then Read(w.fs, w.fs.dir.backup) == Primary(fs) && OnDevice(w.fs, w.fs.dir.backup)
          else w.fs.dir.backup == fs.dir.backup && Read(w.fs, w.fs.dir.backup) == Read(fs, fs.dir.backup))
  {
    hide GoodDir;
    var x := CleanBackup(fs, backup, f);
    var y := CleanTemp(x, v);
    assert Replacement(fs, v, backup, f) == Going(Effect(y, RenameTemp, Fully));
    CleanRename(x, y, v);
  }

  lemma CleanRename<T>(x: Fs<T>, y: Fs<T>, v: T)
    requires InPlace(x) && InPlace(y) && Whole(y, y.dir.temp, v) && OnDevice(y, y.dir.temp)
    requires y.dir == x.dir.(temp := y.dir.temp) && y.renamed == x.renamed && |x.inodes| <= |y.inodes|
    requires forall i :: 0 <= i < |x.inodes| && Some(i) != x.dir.temp ==> y.inodes[i] == x.inodes[i]
    ensures var z := Effect(Effect(y, RenameTemp, Fully), SyncDirectory, Fully);
      && z.renamed == x.renamed + [Valid(v)] && Whole(z, z.dir.primary, v) && OnDevice(z, z.dir.primary)
      && z.dir.temp == None && Settled(z) && z.dir.backup == x.dir.backup
      && Read(z, z.dir.backup) == Read(x, x.dir.backup)
      && (OnDevice(x, x.dir.backup) ==> OnDevice(z, z.dir.backup))
  {
  }

  /** Whether the replacement has taken place by the time a write ends. */
  ghost predicate Replaced<T>(before: Fs<T>, after: Fs<T>, v: T) {
    after.renamed == before.renamed + [Valid(v)]
  }

  lemma CallRenames<T>(a: Attempt<T>, call: Syscall<T>, fault: Fault)
    requires !call.RenameTemp?
    ensures Then(a, call, fault).fs.renamed == a.fs.renamed
  {
  }

  lemma CleanUpDoes<T>(fs: Fs<T>, fault: Fault, result: WriteResult)
    ensures var w := CleanedUp(fs, fault, result);
      && w.fs.renamed == fs.renamed && (w.result == result || w.result == Crashed)
      && (fault.NoFault? ==> w.result == result && w.fs.dir == fs.dir.(temp := None) && w.fs.inodes == fs.inodes)
  {
  }

  /** A write that throws has replaced nothing, and has removed its temporary file if it could; one
      that returns or throws after the replacement has replaced, and only what returns is settled;
      one that dies may have done either. */
  lemma WriteEnds<T>(fs: Fs<T>, v: T, backup: bool, f: WriteFaults, l: Ledger<T>)
    requires Holds(fs, l)
    ensures var w := WriteOutcome(fs, v, backup, f);
      && (f.prepare.Error? ==> w == Written(fs, Threw))
      && (w.result == Threw ==>
            w.fs.renamed == fs.renamed
            && (f.prepare.NoFault? && f.cleanup.NoFault? ==> w.fs.dir.temp == None))
      && (w.result == Returned ==> Replaced(fs, w.fs, v) && Settled(w.fs))
      && (w.result == ThrewPostReplace ==> Replaced(fs, w.fs, v) && f.syncDir.Error?)
      && (w.result == Crashed ==> Replaced(fs, w.fs, v) || w.fs.renamed == fs.renamed)
  {
    hide Holds, CleanedUp;
    if f.prepare.NoFault? {
      var a := Replacement(fs, v, backup, f);
      ReplacementRenames(fs, v, backup, f, l);
      match a {
        case Dead(_) =>
        case Failing(x) => CleanUpDoes(x, f.cleanup, Threw);
        case Going(x) =>
          CallRenames(a, SyncDirectory, f.syncDir);
          var b := Do(x, SyncDirectory, f.syncDir);
          if b.Failing? { CleanUpDoes(b.fs, f.cleanup, ThrewPostReplace); }
      }
    }
  }

  lemma ReplacementRenames<T>(fs: Fs<T>, v: T, backup: bool, f: WriteFaults, l: Ledger<T>)
    requires Holds(fs, l)
    ensures var a := Replacement(fs, v, backup, f);
      && (a.Going? ==> Replaced(fs, a.fs, v)) && (a.Failing? ==> a.fs.renamed == fs.renamed)
      && (a.Dead? ==> Replaced(fs, a.fs, v) || a.fs.renamed == fs.renamed)
  {
    hide Holds, Effect;
    var l' := Trying(l, v);
    assert Holds(fs, l') by { StillHolds(fs, l, v); }
    var start: Attempt<T> := Going(fs);
    CallRenames(start, CopyPrimaryToBackup, f.copy);
    CallRenames(Do(fs, CopyPrimaryToBackup, f.copy), SyncBackup, f.syncBackup);
    var b := BackedUp(fs, backup, f, l');
    CallRenames(b, WriteTemp(v), f.write);
    CallRenames(Then(b, WriteTemp(v), f.write), SyncTemp, f.syncTemp);
    var c := TempWritten(b, v, f.write, f.syncTemp, l');
    RenameRenames(c, v, f.rename);
  }

  lemma StillHolds<T>(fs: Fs<T>, l: Ledger<T>, v: T)
    requires Holds(fs, l)
    ensures Holds(fs, Trying(l, v))
  {
  }

  lemma RenameRenames<T>(c: Attempt<T>, v: T, fault: Fault)
    requires c.Going? ==> Read(c.fs, c.fs.dir.temp) == Some(Valid(v))
    ensures var a := Then(c, RenameTemp, fault);
      && (a.Going? ==> Replaced(c.fs, a.fs, v)) && (a.Failing? ==> a.fs.renamed == c.fs.renamed)
      && (a.Dead? ==> Replaced(c.fs, a.fs, v) || a.fs.renamed == c.fs.renamed)
  {
  }

  /** A retry that meets no fault syncs the primary file and the directory and changes no contents;
      without a primary file it throws. */
  lemma RetryDoes<T>(fs: Fs<T>, syncFile: Fault, syncDir: Fault)
    requires InPlace(fs)
    ensures fs.dir.primary.None? ==> SyncOutcome(fs, syncFile, syncDir) == Written(fs, Threw)
    ensures fs.dir.primary.Some? && syncFile == NoFault && syncDir == NoFault ==>
      var w := SyncOutcome(fs, syncFile, syncDir);
      && w.result == Returned && w.fs.dir == fs.dir && Settled(w.fs) && OnDevice(w.fs, fs.dir.primary)
      && |w.fs.inodes| == |fs.inodes| && forall i :: 0 <= i < |fs.inodes| ==> w.fs.inodes[i].data == fs.inodes[i].data
  {
  }

  /** Nor does a retry return without having called both. */
  lemma RetryReturns<T>(fs: Fs<T>, syncFile: Fault, syncDir: Fault)
    ensures SyncOutcome(fs, syncFile, syncDir).result == Returned
      <==> fs.dir.primary.Some? && syncFile == NoFault && syncDir == NoFault
  {
  }

  // ---------- recovery ----------

  /** The file under the name can be read and is whole. */
  ghost predicate Usable<T>(fs: Fs<T>, name: Option<nat>, readable: bool) {
    readable && name.Some? && name.value < |fs.inodes| && fs.inodes[name.value].data.Valid?
  }

  /** Where a recovery's value comes from: the primary file if it is usable, else the temporary one,
      else the backup, and from nothing only if none is. */
  ghost predicate From<T>(fs: Fs<T>, r: Readable, source: Source) {
    match source
    case FromPrimary => Usable(fs, fs.dir.primary, r.primary)
    case FromTemp => !Usable(fs, fs.dir.primary, r.primary) && Usable(fs, fs.dir.temp, r.temp)
    case FromBackup =>
      !Usable(fs, fs.dir.primary, r.primary) && !Usable(fs, fs.dir.temp, r.temp)
      && Usable(fs, fs.dir.backup, r.backup)
    case FromNothing =>
      !Usable(fs, fs.dir.primary, r.primary) && !Usable(fs, fs.dir.temp, r.temp)
      && !Usable(fs, fs.dir.backup, r.backup)
  }

  function NameOf(d: Dir, source: Source): Option<nat> {
    match source
    case FromPrimary => d.primary case FromTemp => d.temp case FromBackup => d.backup case FromNothing => None
  }

  lemma CandidateIs<T>(fs: Fs<T>, name: Option<nat>, readable: bool)
    ensures Candidate(fs, name, readable).Some? <==> Usable(fs, name, readable)
    ensures Candidate(fs, name, readable).Some? ==> Whole(fs, name, Candidate(fs, name, readable).value)
  {
  }

  lemma WinnerIs<T>(fs: Fs<T>, r: Readable)
    ensures var (source, found) := Winner(fs, r);
      && From(fs, r, source) && (found.None? <==> source == FromNothing)
      && (found.Some? ==> Whole(fs, NameOf(fs.dir, source), found.value))
  {
    CandidateIs(fs, fs.dir.primary, r.primary);
    CandidateIs(fs, fs.dir.temp, r.temp);
    CandidateIs(fs, fs.dir.backup, r.backup);
  }

  /** What a recovery gives back: the empty value from no file, or else the sanitized value of the first
      usable file in that order. */
  lemma LoadGives<T>(fs: Fs<T>, env: Env<T>, f: LoadFaults)
    requires LoadOutcome(fs, env, f).result.Loaded?
    ensures var r := LoadOutcome(fs, env, f).result;
      && From(fs, f.readable, r.source)
      && (r.source == FromNothing ==> r.value == env.empty)
      && (r.source != FromNothing ==>
            var c := Read(fs, NameOf(fs.dir, r.source));
            c.Some? && c.value.Valid? && r.value == env.sanitize(c.value.value))
  {
    hide Winner, WriteOutcome, CleanedUp, From;
    WinnerIs(fs, f.readable);
    var (source, found) := Winner(fs, f.readable);
    if found.Some? {
      assert Read(fs, NameOf(fs.dir, source)) == Some(Valid(found.value));
      assert LoadOutcome(fs, env, f).result.source == source;
    }
  }

  /** What it does to the files. A usable primary file is left alone and the temporary file removed.
      Otherwise, if all goes well, the recovered value becomes the primary file, synced, without a
      new backup; if the repair cannot even begin, the files stay as they are, except that a temporary
      file that did not win is removed. Without a usable file nothing is touched. */
  lemma LoadDoes<T>(fs: Fs<T>, env: Env<T>, f: LoadFaults, source: Source)
    requires InPlace(fs) && From(fs, f.readable, source) && f.cleanup == NoFault
    ensures var o := LoadOutcome(fs, env, f);
      && (source == FromNothing ==> o.fs == fs)
      && (source == FromPrimary ==>
            o.fs.dir == fs.dir.(temp := None) && o.fs.inodes == fs.inodes && o.result.Loaded? && !o.result.repaired)
      && ((source == FromTemp || source == FromBackup) && Faultless(f.repair) ==>
            && o.result.Loaded? && o.result.repaired
            && Whole(o.fs, o.fs.dir.primary, o.result.value) && OnDevice(o.fs, o.fs.dir.primary)
            && o.fs.dir.temp == None && o.fs.dir.backup == fs.dir.backup)
      && (source == FromTemp && f.repair.prepare.Error? ==> o.fs == fs && o.result.Loaded? && !o.result.repaired)
      && (source == FromBackup && f.repair.prepare.Error? ==>
            o.fs.dir == fs.dir.(temp := None) && o.fs.inodes == fs.inodes && o.result.Loaded? && !o.result.repaired)
  {
    hide Winner, Whole, Usable, GoodDir, CleanedUp, OnDevice, Settled, Replacement;
    WinnerIs(fs, f.readable);
    var (winner, found) := Winner(fs, f.readable);
    assert winner == source;
    if found.Some? {
      var v := env.sanitize(found.value);
      var mid := fs;
      if source != FromPrimary && Faultless(f.repair) {
        CleanWriteDoes(fs, v, false, f.repair);
        mid := WriteOutcome(fs, v, false, f.repair).fs;
      }
      CleanUpDoes(mid, f.cleanup, Threw);
      CleanUpDoes(mid, f.cleanup, Returned);
      StillWhole(mid, mid.(dir := mid.dir.(temp := None)), v);
      if mid.dir.temp.None? { NothingToClean(mid, f.cleanup, Returned); }
    }
  }

  lemma NothingToClean<T>(fs: Fs<T>, fault: Fault, result: WriteResult)
    requires fs.dir.temp.None? && fault == NoFault
    ensures CleanedUp(fs, fault, result) == Written(fs, result)
  {
  }

  lemma StillWhole<T>(fs: Fs<T>, after: Fs<T>, v: T)
    requires after.inodes == fs.inodes && after.dir.primary == fs.dir.primary
    ensures Whole(after, after.dir.primary, v) <==> Whole(fs, fs.dir.primary, v)
  {
  }
}
