/** The platform state file. It resembles the JSON store but keeps less: recovery takes the
    newest file by modification time, the backup is copied after the temporary file was
    written, and a failed save rolls memory back even when the file was already replaced. */
module PlatformStateStore {
  import opened Wrappers

  datatype Stamped<+T> = Stamped(value: T, mtime: int)

  /** The files that hold a whole state. `fixedTemp` is a temporary file under the fixed name of
      earlier releases; nothing writes it any more. */
  datatype Files<+T> = Files(
    primary: Option<Stamped<T>>, temps: seq<Stamped<T>>, fixedTemp: Option<Stamped<T>>, backup: Option<Stamped<T>>)

  function NoFiles<T>(): Files<T> {
    Files(None, [], None, None)
  }

  /** Sorting newest first with a stable sort and taking the head. */
  function Newest<T>(candidates: seq<Stamped<T>>): (i: nat)
    requires candidates != []
    ensures i < |candidates|
    ensures forall j :: 0 <= j < |candidates| ==> candidates[j].mtime <= candidates[i].mtime
    ensures forall j :: 0 <= j < i ==> candidates[j].mtime < candidates[i].mtime
  {
    var n := |candidates| - 1;
    if n == 0 then 0
    else
      var i := Newest(candidates[..n]);
      if candidates[n].mtime > candidates[i].mtime then n else i
  }

  function AsSeq<T>(o: Option<T>): seq<T> {
    match o case None => [] case Some(x) => [x]
  }

  /** The files in the order in which recovery lists them. */
  function Candidates<T>(f: Files<T>): seq<Stamped<T>> {
    AsSeq(f.primary) + f.temps + AsSeq(f.fixedTemp) + AsSeq(f.backup)
  }

  function Recovered<T>(f: Files<T>): Option<T> {
    var candidates := Candidates(f);
    if candidates == [] then None else Some(candidates[Newest(candidates)].value)
  }

  /** How far a write had come when it stopped: before the temporary file was complete, before
      the backup was touched, in the middle of copying it, after the copy, after the rename. */
  datatype Stage = Unwritten | Written | Copying | Copied | Renamed

  /** A failing write removes its temporary file, if it can; a dying one does not. */
  datatype Fault = NoFault | Raises(stage: Stage, unlinked: bool) | Dies(stage: Stage)

  datatype Ending = Returned | Threw | Died

  predicate Replaced(fault: Fault) {
    fault.NoFault? || fault.stage.Renamed?
  }

  predicate BackedUp(fault: Fault) {
    fault.NoFault? || fault.stage.Copied? || fault.stage.Renamed?
  }

  /** Whether a complete temporary file is left behind. */
  predicate LeavesTemp(fault: Fault) {
    match fault
    case NoFault => false
    case Raises(stage, unlinked) => !unlinked && !stage.Unwritten? && !stage.Renamed?
    case Dies(stage) => !stage.Unwritten? && !stage.Renamed?
  }

  function EndingOf(fault: Fault): Ending {
    match fault case NoFault => Returned case Raises(_, _) => Threw case Dies(_) => Died
  }

  /** The files after a write: the temporary file is stamped first, the backup is a copy of the
      old primary stamped afterwards, and a half-copied backup is no candidate. */
  function AfterWrite<T>(
      f: Files<T>, value: T, backupCurrentPrimary: bool, wroteAt: int, copiedAt: int, fault: Fault): Files<T>
  {
    f.(primary := if Replaced(fault) then Some(Stamped(value, wroteAt)) else f.primary,
       temps := if LeavesTemp(fault) then f.temps + [Stamped(value, wroteAt)] else f.temps,
       backup :=
         if !backupCurrentPrimary || f.primary.None? then f.backup
         else if BackedUp(fault) then Some(Stamped(f.primary.value.value, copiedAt))
         else if fault.stage.Copying? then None
         else f.backup)
  }

  datatype Source = FromPrimary | FromTemp | FromBackup

  function SourceOf<T>(f: Files<T>, i: nat): Source {
    if i < |AsSeq(f.primary)| then FromPrimary
    else if i < |AsSeq(f.primary) + f.temps + AsSeq(f.fixedTemp)| then FromTemp
    else FromBackup
  }

  /** The files after a recovery: unless the primary file won, the winner is written back as the
      primary one, without a backup, and recovery goes on even if that fails. A winning temporary
      file stays where it is; only when none won is the one under the fixed name removed. */
  function AfterRecovery<T>(f: Files<T>, repairAt: int, fault: Fault, unlinked: bool): Files<T> {
    var candidates := Candidates(f);
    if candidates == [] then f
    else
      var source := SourceOf(f, Newest(candidates));
      var repaired := if source == FromPrimary then f
                      else AfterWrite(f, candidates[Newest(candidates)].value, false, repairAt, repairAt, fault);
      if source != FromTemp && unlinked && !(source != FromPrimary && fault.Dies?)
      then repaired.(fixedTemp := None) else repaired
  }

  class PlatformState<T> {
    var memory: T
    var primary: Option<Stamped<T>>
    var temps: seq<Stamped<T>>
    var fixedTemp: Option<Stamped<T>>
    var backup: Option<Stamped<T>>

    ghost function State(): Files<T>
      reads this
    {
      Files(primary, temps, fixedTemp, backup)
    }

    constructor (initial: T)
      ensures memory == initial && State() == NoFiles()
    {
      memory, primary, temps, fixedTemp, backup := initial, None, [], None, None;
    }

    /** Writes the temporary file at `wroteAt`, then copies the backup at `copiedAt` if asked
        to, then renames; renaming keeps the temporary file's modification time. */
    method WriteSnapshotAtomic(value: T, backupCurrentPrimary: bool, wroteAt: int, copiedAt: int, fault: Fault)
      returns (ending: Ending)
      modifies this`primary, this`temps, this`backup
      ensures ending == EndingOf(fault)
      ensures State() == AfterWrite(old(State()), value, backupCurrentPrimary, wroteAt, copiedAt, fault)
      ensures ending != Returned && fault.stage.Unwritten? ==> State() == old(State())
    {
      ending := EndingOf(fault);
      if ending != Returned && fault.stage.Unwritten? {
        return;
      }
      var temp := Stamped(value, wroteAt);
      if backupCurrentPrimary && primary.Some? && !(ending != Returned && fault.stage.Written?) {
        backup := None;
        if ending == Returned || !fault.stage.Copying? {
          backup := Some(primary.value.(mtime := copiedAt));
        }
      }
      if ending == Returned || fault.stage.Renamed? {
        primary := Some(temp);
        return;
      }
      if LeavesTemp(fault) {
        temps := temps + [temp];
      }
    }

    /** Applies `next` in memory and saves; an exception restores the snapshot taken first. */
    method MutateState(next: T, wroteAt: int, copiedAt: int, fault: Fault) returns (ending: Ending)
      modifies this
      ensures ending == EndingOf(fault)
      ensures ending != Died ==> memory == if ending == Returned then next else old(memory)
      ensures State() == AfterWrite(old(State()), next, true, wroteAt, copiedAt, fault)
    {
      var before := memory;
      memory := next;
      ending := WriteSnapshotAtomic(memory, true, wroteAt, copiedAt, fault);
      if ending == Threw {
        memory := before;
      }
    }

    /** Takes the newest readable file and repairs the primary one. `unlinked` is whether the
        removal of the temporary file under the fixed name succeeds. */
    method RecoverFromDisk(empty: T, repairAt: int, fault: Fault, unlinked: bool) returns (ending: Ending)
      modifies this
      ensures ending != Died ==> memory == Recovered(old(State())).GetOr(empty)
      ensures ending == Died ==> fault.Dies?
      ensures State() == AfterRecovery(old(State()), repairAt, fault, unlinked)
    {
      ending := Returned;
      var files := Files(primary, temps, fixedTemp, backup);
      var candidates := Candidates(files);
      if candidates == [] {
        memory := empty;
        return;
      }
      var winner := Newest(candidates);
      var source := SourceOf(files, winner);
      if source != FromPrimary {
        var repair := WriteSnapshotAtomic(candidates[winner].value, false, repairAt, repairAt, fault);
        if repair == Died {
          return Died;
        }
      }
      if source != FromTemp && unlinked {
        fixedTemp := None;
      }
      memory := candidates[winner].value;
    }
  }

  // ---------- which save comes back ----------

  /** After a clean save of `next`, with no younger temporary file left behind by another, a
      restart recovers `next` exactly when the backup copy is not newer than the temporary file
      was (or holds the same state). The copy is made second, so any tick of the clock between
      the two brings the previous state back. */
  lemma RecoveredAfterSave<T>(f: Files<T>, next: T, wroteAt: int, copiedAt: int)
    requires f.primary.Some? && forall c :: c in f.temps + AsSeq(f.fixedTemp) ==> c.mtime <= wroteAt
    ensures var previous := f.primary.value.value;
      Recovered(AfterWrite(f, next, true, wroteAt, copiedAt, NoFault)) == Some(next)
      <==> copiedAt <= wroteAt || previous == next
    ensures copiedAt > wroteAt ==>
      Recovered(AfterWrite(f, next, true, wroteAt, copiedAt, NoFault)) == Some(f.primary.value.value)
  {
    var candidates := Candidates(AfterWrite(f, next, true, wroteAt, copiedAt, NoFault));
    var others := f.temps + AsSeq(f.fixedTemp);
    var last := |candidates| - 1;
    assert candidates[0] == Stamped(next, wroteAt) && candidates[last] == Stamped(f.primary.value.value, copiedAt);
    assert forall i :: 0 < i < last ==> candidates[i] == others[i - 1];
    var i := Newest(candidates);
    if copiedAt <= wroteAt {
      assert i == 0 by { assert candidates[0].mtime <= candidates[i].mtime; }
    } else {
      assert i == last by { assert candidates[last].mtime <= candidates[i].mtime; }
    }
  }

  /** The first save of all leaves no backup, and is recovered. */
  lemma RecoveredAfterFirst<T>(next: T, wroteAt: int, copiedAt: int)
    ensures AfterWrite(NoFiles(), next, true, wroteAt, copiedAt, NoFault) ==
      Files(Some(Stamped(next, wroteAt)), [], None, None)
    ensures Recovered(AfterWrite(NoFiles(), next, true, wroteAt, copiedAt, NoFault)) == Some(next)
  {
    assert Candidates(AfterWrite(NoFiles(), next, true, wroteAt, copiedAt, NoFault)) == [Stamped(next, wroteAt)];
  }

  /** Whether a temporary file stamped `wroteAt`, listed after the others, is the newest. */
  ghost predicate Outlasts<T>(f: Files<T>, wroteAt: int) {
    && (forall c :: c in AsSeq(f.primary) + f.temps ==> c.mtime < wroteAt)
    && (forall c :: c in AsSeq(f.fixedTemp) + AsSeq(f.backup) ==> c.mtime <= wroteAt)
  }

  /** A save that dies before its rename and leaves its temporary file is recovered exactly when
      that file is newer than the primary and every earlier temporary file and not older than the
      backup, or the file that wins without it holds the same state. */
  lemma UncommittedIsRecoveredIff<T>(f: Files<T>, next: T, wroteAt: int)
    ensures Recovered(f.(temps := f.temps + [Stamped(next, wroteAt)])) == Some(next)
      <==> Outlasts(f, wroteAt) || Recovered(f) == Some(next)
  {
    var left, right := AsSeq(f.primary) + f.temps, AsSeq(f.fixedTemp) + AsSeq(f.backup);
    var temp := Stamped(next, wroteAt);
    assert Candidates(f) == left + right;
    assert Candidates(f.(temps := f.temps + [temp])) == left + [temp] + right;
    NewestWith(left, temp, right);
    if left + right == [] { assert Outlasts(f, wroteAt); }
  }

  lemma NewestUnique<T>(s: seq<Stamped<T>>, i: nat)
    requires i < |s| && (forall j :: 0 <= j < |s| ==> s[j].mtime <= s[i].mtime)
    requires forall j :: 0 <= j < i ==> s[j].mtime < s[i].mtime
    ensures Newest(s) == i
  {
    hide Newest;
    assert s[Newest(s)].mtime <= s[i].mtime <= s[Newest(s)].mtime;
  }

  /** One more candidate wins, or changes nothing. */
  lemma NewestWith<T>(left: seq<Stamped<T>>, c: Stamped<T>, right: seq<Stamped<T>>)
    ensures var all := left + [c] + right;
      var wins := (forall x :: x in left ==> x.mtime < c.mtime) && (forall x :: x in right ==> x.mtime <= c.mtime);
      if wins then all[Newest(all)] == c
      else left + right != [] && all[Newest(all)] == (left + right)[Newest(left + right)]
  {
    hide Newest;
    var all := left + [c] + right;
    var at := |left|;
    if (forall x :: x in left ==> x.mtime < c.mtime) && (forall x :: x in right ==> x.mtime <= c.mtime) {
      forall k | 0 <= k < |all| ensures all[k].mtime <= c.mtime && (k < at ==> all[k].mtime < c.mtime) {
        if k < at { assert all[k] in left; } else if k > at { assert all[k] in right; }
      }
      NewestUnique(all, at);
    } else {
      var others := left + right;
      var x :| (x in left && x.mtime >= c.mtime) || (x in right && x.mtime > c.mtime);
      assert x in others;
      NewestElsewhere(left, c, right, x);
    }
  }

  lemma NewestElsewhere<T>(left: seq<Stamped<T>>, c: Stamped<T>, right: seq<Stamped<T>>, x: Stamped<T>)
    requires (x in left && x.mtime >= c.mtime) || (x in right && x.mtime > c.mtime)
    ensures var all := left + [c] + right;
      left + right != [] && all[Newest(all)] == (left + right)[Newest(left + right)]
  {
    hide Newest;
    var all := left + [c] + right;
    var others := left + right;
    var at := |left|;
    var n: nat;
    if x in left && x.mtime >= c.mtime {
      n :| n < |left| && left[n] == x;
    } else {
      var k: nat :| k < |right| && right[k] == x;
      n := at + k;
    }
    assert others[n] == x;
    var j := Newest(others);
    assert others[n].mtime <= others[j].mtime && (n < j ==> others[n].mtime < others[j].mtime);
    var i := if j < at then j else j + 1;
    forall k | 0 <= k < |all| ensures all[k].mtime <= all[i].mtime && (k < i ==> all[k].mtime < all[i].mtime) {
      if k != at {
        var o := if k < at then k else k - 1;
        assert all[k] == others[o];
      }
    }
    NewestUnique(all, i);
  }

  // ---------- where a recovered state comes from ----------

  /** Every file holds a state that someone tried to save. */
  ghost predicate HoldsOnly<T>(f: Files<T>, attempts: set<T>) {
    forall c :: c in Candidates(f) ==> c.value in attempts
  }

  /** Writes and recoveries, however they fail or die, put nothing else on disk, so a restart
      recovers a state whose save was attempted, or the empty one if there is no file. */
  lemma FilesHoldAttempts<T>(
      f: Files<T>, attempts: set<T>, value: T, backup: bool, wroteAt: int, copiedAt: int, fault: Fault)
    requires HoldsOnly(f, attempts)
    ensures HoldsOnly(AfterWrite(f, value, backup, wroteAt, copiedAt, fault), attempts + {value})
  {
    var n := AfterWrite(f, value, backup, wroteAt, copiedAt, fault);
    forall c | c in Candidates(n) ensures c.value in attempts + {value} {
      assert c in Candidates(f) || c.value == value || (f.primary.Some? && c.value == f.primary.value.value) by {
        assert forall x :: x in Candidates(f) <==>
          x in AsSeq(f.primary) || x in f.temps || x in AsSeq(f.fixedTemp) || x in AsSeq(f.backup);
      }
      if f.primary.Some? { assert Candidates(f)[0] == f.primary.value; }
    }
  }

  lemma RecoveryHoldsAttempts<T>(f: Files<T>, attempts: set<T>, repairAt: int, fault: Fault, unlinked: bool)
    requires HoldsOnly(f, attempts)
    ensures HoldsOnly(AfterRecovery(f, repairAt, fault, unlinked), attempts)
    ensures Recovered(f).Some? ==> Recovered(f).value in attempts
  {
    var candidates := Candidates(f);
    if candidates != [] {
      var value := candidates[Newest(candidates)].value;
      assert candidates[Newest(candidates)] in candidates;
      FilesHoldAttempts(f, attempts, value, false, repairAt, repairAt, fault);
      assert attempts + {value} == attempts;
      var repaired := AfterWrite(f, value, false, repairAt, repairAt, fault);
      assert forall c :: c in Candidates(repaired.(fixedTemp := None)) ==> c in Candidates(repaired);
    }
  }

  /** Two saves one tick apart, no fault anywhere, and a restart that loses the second. */
  method NormalSaveIsSuperseded() returns (found: int)
    ensures found == 1
  {
    var s := new PlatformState<int>(0);
    var first := s.MutateState(1, 10, 11, NoFault);
    RecoveredAfterSave(s.State(), 2, 20, 21);
    var second := s.MutateState(2, 20, 21, NoFault);
    var ending := s.RecoverFromDisk(0, 30, NoFault, true);
    found := s.memory;
  }

  // ---------- what a write and a recovery leave ----------

  /** A write that reaches its rename leaves its value as the primary file and no temporary file. One
      that stops before leaves the primary file alone, and its own complete temporary file behind if it
      died, or failed and could not remove it. The backup, if one was asked for and there is something
      to back up, is the old primary once it has been copied, nothing while it is being copied, and
      what it was before that. */
  lemma WriteDoes<T>(f: Files<T>, value: T, backup: bool, wroteAt: int, copiedAt: int, fault: Fault)
    ensures var n := AfterWrite(f, value, backup, wroteAt, copiedAt, fault);
      var temp := Stamped(value, wroteAt);
      var renamed := fault == NoFault || fault.stage == Renamed;
      && n.fixedTemp == f.fixedTemp
      && (renamed ==> n.primary == Some(temp) && n.temps == f.temps)
      && (!renamed ==>
            && n.primary == f.primary
            && n.temps == if fault.stage != Unwritten && (fault.Dies? || !fault.unlinked)
                          then f.temps + [temp] else f.temps)
      && (if !backup || f.primary == None then n.backup == f.backup
          else if renamed || fault.stage == Copied then n.backup == Some(Stamped(f.primary.value.value, copiedAt))
          else if fault.stage == Copying then n.backup == None
          else n.backup == f.backup)
  {
  }

  /** The primary file is as young as every other; the backup is younger than every other. */
  ghost predicate PrimaryWins<T>(f: Files<T>) {
    f.primary.Some? && forall c :: c in f.temps + AsSeq(f.fixedTemp) + AsSeq(f.backup) ==>
      c.mtime <= f.primary.value.mtime
  }

  ghost predicate BackupWins<T>(f: Files<T>) {
    f.backup.Some? && forall c :: c in AsSeq(f.primary) + f.temps + AsSeq(f.fixedTemp) ==>
      c.mtime < f.backup.value.mtime
  }

  lemma PrimaryIs<T>(f: Files<T>)
    requires f.primary.Some?
    ensures Newest(Candidates(f)) == 0 <==> PrimaryWins(f)
    ensures Candidates(f)[0] == f.primary.value
  {
    hide Newest;
    var all, rest := Candidates(f), f.temps + AsSeq(f.fixedTemp) + AsSeq(f.backup);
    assert all == [f.primary.value] + rest;
    assert forall j :: 0 < j < |all| ==> all[j] == rest[j - 1];
    if PrimaryWins(f) { NewestUnique(all, 0); } else { YoungerElsewhere(all, rest, Newest(all)); }
  }

  lemma BackupIs<T>(f: Files<T>)
    requires f.backup.Some?
    ensures Newest(Candidates(f)) == |Candidates(f)| - 1 <==> BackupWins(f)
    ensures Candidates(f)[|Candidates(f)| - 1] == f.backup.value
  {
    hide Newest;
    var all, front := Candidates(f), AsSeq(f.primary) + f.temps + AsSeq(f.fixedTemp);
    assert all == front + [f.backup.value];
    assert forall j :: 0 <= j < |front| ==> all[j] == front[j];
    if BackupWins(f) { NewestUnique(all, |front|); } else { OlderElsewhere(all, front, Newest(all)); }
  }

  lemma SourceIs<T>(f: Files<T>)
    requires Candidates(f) != []
    ensures var source := SourceOf(f, Newest(Candidates(f)));
      (source == FromPrimary <==> PrimaryWins(f)) && (source == FromBackup <==> BackupWins(f))
    ensures PrimaryWins(f) ==> Recovered(f) == Some(f.primary.value.value)
    ensures BackupWins(f) ==> Recovered(f) == Some(f.backup.value.value)
  {
    hide Newest, PrimaryWins, BackupWins;
    if f.primary.Some? { PrimaryIs(f); } else { NoneWins(f); }
    if f.backup.Some? { BackupIs(f); } else { NoneWins(f); }
  }

  lemma NoneWins<T>(f: Files<T>)
    ensures f.primary.None? ==> !PrimaryWins(f)
    ensures f.backup.None? ==> !BackupWins(f)
  {
  }

  lemma YoungerElsewhere<T>(all: seq<Stamped<T>>, rest: seq<Stamped<T>>, i: nat)
    requires |all| == |rest| + 1 && (forall j :: 0 < j < |all| ==> all[j] == rest[j - 1])
    requires i < |all| && (forall j :: 0 <= j < |all| ==> all[j].mtime <= all[i].mtime)
    requires exists c :: c in rest && c.mtime > all[0].mtime
    ensures i > 0
  {
    var c :| c in rest && c.mtime > all[0].mtime;
    var k :| 0 <= k < |rest| && rest[k] == c;
    assert all[k + 1] == c;
  }

  lemma OlderElsewhere<T>(all: seq<Stamped<T>>, front: seq<Stamped<T>>, i: nat)
    requires |all| == |front| + 1 && (forall j :: 0 <= j < |front| ==> all[j] == front[j])
    requires i < |all| && (forall j :: 0 <= j < |all| ==> all[j].mtime <= all[i].mtime)
    requires forall j :: 0 <= j < i ==> all[j].mtime < all[i].mtime
    requires exists c :: c in front && c.mtime >= all[|front|].mtime
    ensures i < |front|
  {
    var c :| c in front && c.mtime >= all[|front|].mtime;
    var k :| 0 <= k < |front| && front[k] == c;
    assert all[k] == c;
  }

  /** A recovery leaves a winning primary file as it is, and otherwise, unless the repair stops before
      its rename, puts the recovered state there. The backup and the other temporary files stay; the
      one under the fixed name goes if it can be removed, unless a temporary file won or the repair
      died first. */
  lemma RecoveryDoes<T>(f: Files<T>, repairAt: int, fault: Fault, unlinked: bool)
    requires Candidates(f) != []
    ensures var n := AfterRecovery(f, repairAt, fault, unlinked);
      && n.backup == f.backup && f.temps <= n.temps
      && (PrimaryWins(f) ==> n.primary == f.primary && n.temps == f.temps)
      && (!PrimaryWins(f) && (fault == NoFault || fault.stage == Renamed) ==>
            n.primary == Some(Stamped(Recovered(f).value, repairAt)) && n.temps == f.temps)
      && (!PrimaryWins(f) && !(fault == NoFault || fault.stage == Renamed) ==> n.primary == f.primary)
      && n.fixedTemp == (if unlinked && (PrimaryWins(f) || (BackupWins(f) && !fault.Dies?)) then None else f.fixedTemp)
  {
    hide Newest, PrimaryWins, BackupWins;
    SourceIs(f);
  }
}
