/** What the store keeps over arbitrary runs of writes, retries, recoveries, process crashes
    and power losses. */
module JsonStoreRuns {
  import opened Wrappers
  import opened JsonStore

  // ---------- the invariant ----------

  ghost predicate Apart(a: Option<nat>, b: Option<nat>) {
    a.Some? && b.Some? ==> a.value != b.value
  }

  ghost predicate InRange(a: Option<nat>, n: nat) {
    a.Some? ==> a.value < n
  }

  /** A directory that power loss could leave, next to the one now visible. The file under
      its primary name is synced and readable, and no name through which a later write goes
      in place refers to it. */
  ghost predicate GoodDir<T>(fs: Fs<T>, d: Dir) {
    && InRange(d.primary, |fs.inodes|) && InRange(d.temp, |fs.inodes|) && InRange(d.backup, |fs.inodes|)
    && Apart(d.primary, d.temp) && Apart(d.primary, d.backup) && Apart(d.temp, d.backup)
    && Apart(d.primary, fs.dir.temp) && Apart(d.primary, fs.dir.backup)
    && Apart(d.backup, fs.dir.temp) && Apart(d.temp, fs.dir.backup)
    && (d.primary.Some? ==>
          fs.inodes[d.primary.value].data.Valid?
          && fs.inodes[d.primary.value].stable == fs.inodes[d.primary.value].data)
  }

  ghost predicate Attempted<T>(c: Content<T>, attempts: set<T>) {
    c.Valid? ==> c.value in attempts
  }

  /** Holds of every file system the store can produce, `attempts` being the values whose
      write has begun. */
  ghost predicate Sound<T>(fs: Fs<T>, attempts: set<T>) {
    && (forall i :: 0 <= i < |fs.inodes| ==>
          Attempted(fs.inodes[i].data, attempts) && Attempted(fs.inodes[i].stable, attempts))
    && GoodDir(fs, fs.dir)
    && (forall keep :: GoodDir(fs, Replay(fs.durable, fs.pending, keep)))
    && (fs.dir.primary.Some? <==> fs.renamed != [])
    && (fs.dir.primary.Some? ==>
          fs.inodes[fs.dir.primary.value].data == fs.renamed[|fs.renamed| - 1])
  }

  ghost predicate PrimaryIn<T>(fs: Fs<T>, d: Dir, since: set<T>) {
    match Read(fs, d.primary)
    case Some(Valid(v)) => v in since
    case _ => false
  }

  /** Whatever a power loss keeps, the primary file exists and holds a value of `since`. */
  ghost predicate Anchored<T>(fs: Fs<T>, since: set<T>) {
    && PrimaryIn(fs, fs.dir, since)
    && (forall keep :: PrimaryIn(fs, Replay(fs.durable, fs.pending, keep), since))
  }

  /** Attempts so far, and the values attempted since the last acknowledgement, if any. */
  datatype Ledger<T> = Ledger(attempts: set<T>, since: Option<set<T>>)

  ghost predicate Holds<T>(fs: Fs<T>, l: Ledger<T>) {
    && Sound(fs, l.attempts)
    && (l.since.Some? ==> Anchored(fs, l.since.value))
  }

  ghost function Trying<T>(l: Ledger<T>, v: T): Ledger<T> {
    Ledger(l.attempts + {v}, if l.since.Some? then Some(l.since.value + {v}) else None)
  }

  // ---------- single calls ----------

  lemma FreshIsSound<T>()
    ensures Sound(Fresh<T>(), {})
  {
    var fs := Fresh<T>();
    forall keep ensures GoodDir(fs, Replay(fs.durable, fs.pending, keep)) {
    }
  }

  /** A power loss after one more directory change keeps what one before it could have
      kept, with or without that change on top. */
  lemma ReplayOneMore(d: Dir, ops: seq<DirOp>, op: DirOp, keep: seq<bool>)
    ensures Replay(d, ops + [op], keep) == Replay(d, ops, keep)
         || Replay(d, ops + [op], keep) == Apply(Replay(d, ops, keep), op)
  {
    assert (ops + [op])[..|ops|] == ops;
  }

  lemma ChangeKeeps<T>(before: Fs<T>, after: Fs<T>, op: DirOp, l: Ledger<T>)
    requires after.durable == before.durable && after.pending == before.pending + [op]
    requires after.dir == Apply(before.dir, op)
    requires forall d :: GoodDir(before, d) ==> GoodDir(after, d) && GoodDir(after, Apply(d, op))
    requires forall since, d :: GoodDir(before, d) && PrimaryIn(before, d, since) && (l.since == Some(since)) ==>
      PrimaryIn(after, d, since) && PrimaryIn(after, Apply(d, op), since)
    requires Holds(before, l)
    ensures GoodDir(after, after.dir)
    ensures forall keep :: GoodDir(after, Replay(after.durable, after.pending, keep))
    ensures l.since.Some? ==> Anchored(after, l.since.value)
  {
    forall keep
      ensures GoodDir(after, Replay(after.durable, after.pending, keep))
      ensures l.since.Some? ==> PrimaryIn(after, Replay(after.durable, after.pending, keep), l.since.value)
    {
      ReplayOneMore(before.durable, before.pending, op, keep);
      assert GoodDir(before, Replay(before.durable, before.pending, keep));
    }
  }

  lemma PutTempKeeps<T>(fs: Fs<T>, c: Content<T>, l: Ledger<T>)
    requires Holds(fs, l) && Attempted(c, l.attempts)
    ensures Holds(PutTemp(fs, c), l)
  {
    var after := PutTemp(fs, c);
    if fs.dir.temp.None? {
      ChangeKeeps(fs, after, CreateTemp(|fs.inodes|), l);
    } else {
      InPlaceKeeps(fs, after, l);
    }
  }

  lemma PutBackupKeeps<T>(fs: Fs<T>, c: Content<T>, l: Ledger<T>)
    requires Holds(fs, l) && Attempted(c, l.attempts)
    ensures Holds(PutBackup(fs, c), l)
  {
    var after := PutBackup(fs, c);
    if fs.dir.backup.None? {
      ChangeKeeps(fs, after, CreateBackup(|fs.inodes|), l);
    } else {
      InPlaceKeeps(fs, after, l);
    }
  }

  /** Changing files that no possible directory names primary. */
  lemma InPlaceKeeps<T>(fs: Fs<T>, after: Fs<T>, l: Ledger<T>)
    requires Holds(fs, l)
    requires after.dir == fs.dir && after.durable == fs.durable && after.pending == fs.pending
    requires after.renamed == fs.renamed && |after.inodes| == |fs.inodes|
    requires forall i :: 0 <= i < |fs.inodes| ==>
      Attempted(after.inodes[i].data, l.attempts) && Attempted(after.inodes[i].stable, l.attempts)
    requires forall i: nat ::
      (&& i < |fs.inodes| && fs.inodes[i].data == fs.inodes[i].stable
       && Apart(Some(i), fs.dir.temp) && Apart(Some(i), fs.dir.backup))
      ==> after.inodes[i] == fs.inodes[i]
    ensures Holds(after, l)
  {
    forall d | GoodDir(fs, d)
      ensures GoodDir(after, d) && (d.primary.Some? ==> Read(after, d.primary) == Read(fs, d.primary))
    {
    }
    forall keep
      ensures GoodDir(after, Replay(after.durable, after.pending, keep))
      ensures l.since.Some? ==> PrimaryIn(after, Replay(after.durable, after.pending, keep), l.since.value)
    {
      assert GoodDir(fs, Replay(fs.durable, fs.pending, keep));
    }
  }

  lemma SyncFileKeeps<T>(fs: Fs<T>, name: Option<nat>, l: Ledger<T>)
    requires Holds(fs, l)
    requires name == fs.dir.temp || name == fs.dir.backup || name == fs.dir.primary
    ensures Holds(SyncFile(fs, name), l)
  {
    InPlaceKeeps(fs, SyncFile(fs, name), l);
  }

  /** The temporary file is there, synced, and holds a value attempted since the last
      acknowledgement. */
  ghost predicate CanRename<T>(fs: Fs<T>, l: Ledger<T>) {
    && fs.dir.temp.Some? && fs.dir.temp.value < |fs.inodes|
    && fs.inodes[fs.dir.temp.value].data.Valid?
    && fs.inodes[fs.dir.temp.value].stable == fs.inodes[fs.dir.temp.value].data
    && (l.since.Some? ==> fs.inodes[fs.dir.temp.value].data.value in l.since.value)
  }

  lemma RenameKeeps<T>(fs: Fs<T>, l: Ledger<T>)
    requires Holds(fs, l) && CanRename(fs, l)
    ensures Holds(Effect(fs, RenameTemp, Fully), l)
  {
    ChangeKeeps(fs, Effect(fs, RenameTemp, Fully), ReplacePrimary(fs.dir.temp.value), l);
  }

  lemma SyncDirectoryKeeps<T>(fs: Fs<T>, l: Ledger<T>)
    requires Holds(fs, l)
    ensures Holds(Effect(fs, SyncDirectory, Fully), l)
  {
    var after := Effect(fs, SyncDirectory, Fully);
    forall keep
      ensures Replay(after.durable, after.pending, keep) == fs.dir
    {
    }
  }

  lemma UnlinkKeeps<T>(fs: Fs<T>, l: Ledger<T>)
    requires Holds(fs, l)
    ensures Holds(Effect(fs, UnlinkTemp, Fully), l)
  {
    if fs.dir.temp.Some? {
      ChangeKeeps(fs, Effect(fs, UnlinkTemp, Fully), DropTemp, l);
    }
  }

  /** No call of the store, however far it got, breaks the invariant; only a rename asks
      anything of the state it starts from. */
  lemma EffectKeeps<T>(fs: Fs<T>, call: Syscall<T>, done: Progress, l: Ledger<T>)
    requires Holds(fs, l)
    requires call.WriteTemp? ==> call.value in l.attempts
    requires call.RenameTemp? ==> CanRename(fs, l)
    ensures Holds(Effect(fs, call, done), l)
  {
    match call
    case CopyPrimaryToBackup =>
      PutBackupKeeps(fs, if done == Fully then Primary(fs).GetOr(Torn) else Torn, l);
    case WriteTemp(v) => PutTempKeeps(fs, if done == Fully then Valid(v) else Torn, l);
    case SyncBackup => SyncFileKeeps(fs, fs.dir.backup, l);
    case SyncTemp => SyncFileKeeps(fs, fs.dir.temp, l);
    case SyncPrimary => SyncFileKeeps(fs, fs.dir.primary, l);
    case RenameTemp =>
      RenameKeeps(fs, l);
    case SyncDirectory => SyncDirectoryKeeps(fs, l);
    case UnlinkTemp => UnlinkKeeps(fs, l);
  }

  // ---------- whole operations ----------

  ghost function AfterWrite<T>(l: Ledger<T>, v: T, result: WriteResult): Ledger<T> {
    if result == Returned then Ledger(l.attempts + {v}, Some({v})) else Trying(l, v)
  }

  /** Where a call leaves the store, whether it succeeds, fails or is cut. */
  ghost function Reached<T>(call: Syscall<T>, fault: Fault): Progress {
    match fault
    case NoFault => Fully
    case Error(d) => ErrorProgress(call, d)
    case Cut(d) => d
  }

  lemma {:induction false} NothingKept(d: Dir, ops: seq<DirOp>)
    ensures Replay(d, ops, []) == d
    decreases |ops|
  {
    if ops != [] {
      NothingKept(d, ops[..|ops| - 1]);
    }
  }

  /** What the device's directory holds under the primary name has not changed. */
  ghost predicate Undisturbed<T>(fs: Fs<T>, after: Fs<T>) {
    after.durable == fs.durable && Read(after, fs.durable.primary) == Read(fs, fs.durable.primary)
  }

  lemma EffectUndisturbed<T>(fs: Fs<T>, call: Syscall<T>, done: Progress, attempts: set<T>)
    requires Sound(fs, attempts) && !call.SyncDirectory?
    ensures Undisturbed(fs, Effect(fs, call, done))
  {
    NothingKept(fs.durable, fs.pending);
    assert GoodDir(fs, Replay(fs.durable, fs.pending, []));
  }

  lemma CallKeeps<T>(a: Attempt<T>, call: Syscall<T>, fault: Fault, l: Ledger<T>)
    requires Holds(a.fs, l)
    requires call.WriteTemp? ==> call.value in l.attempts
    requires call.RenameTemp? && a.Going? ==> CanRename(a.fs, l)
    ensures Holds(Then(a, call, fault).fs, l)
    ensures !call.SyncDirectory? ==> Undisturbed(a.fs, Then(a, call, fault).fs)
  {
    if a.Going? {
      assert Then(a, call, fault).fs == Effect(a.fs, call, Reached(call, fault));
      EffectKeeps(a.fs, call, Reached(call, fault), l);
      if !call.SyncDirectory? {
        EffectUndisturbed(a.fs, call, Reached(call, fault), l.attempts);
      }
    }
  }

  /** Only the rename changes what readers see under the primary name. */
  lemma EffectPrimary<T>(fs: Fs<T>, call: Syscall<T>, done: Progress)
    requires GoodDir(fs, fs.dir) && !call.RenameTemp?
    ensures Primary(Effect(fs, call, done)) == Primary(fs)
  {
  }

  lemma CallPrimary<T>(a: Attempt<T>, call: Syscall<T>, fault: Fault)
    requires GoodDir(a.fs, a.fs.dir) && !call.RenameTemp?
    ensures Primary(Then(a, call, fault).fs) == Primary(a.fs)
  {
    if a.Going? {
      assert Then(a, call, fault).fs == Effect(a.fs, call, Reached(call, fault));
      EffectPrimary(a.fs, call, Reached(call, fault));
    }
  }

  lemma BackedUp<T>(fs: Fs<T>, backup: bool, f: WriteFaults, l: Ledger<T>)
    returns (a: Attempt<T>)
    requires Holds(fs, l)
    ensures a == (if backup && fs.dir.primary.Some?
                  then Then(Do(fs, CopyPrimaryToBackup, f.copy), SyncBackup, f.syncBackup)
                  else Going(fs))
    ensures Holds(a.fs, l) && Primary(a.fs) == Primary(fs) && Undisturbed(fs, a.fs)
  {
    a := Going(fs);
    if backup && fs.dir.primary.Some? {
      CallKeeps(a, CopyPrimaryToBackup, f.copy, l);
      CallPrimary(a, CopyPrimaryToBackup, f.copy);
      a := Do(fs, CopyPrimaryToBackup, f.copy);
      CallKeeps(a, SyncBackup, f.syncBackup, l);
      CallPrimary(a, SyncBackup, f.syncBackup);
      a := Then(a, SyncBackup, f.syncBackup);
    }
  }

  lemma TempWritten<T>(a: Attempt<T>, v: T, write: Fault, sync: Fault, l: Ledger<T>)
    returns (c: Attempt<T>)
    requires Holds(a.fs, l) && v in l.attempts && (l.since.Some? ==> v in l.since.value)
    ensures c == Then(Then(a, WriteTemp(v), write), SyncTemp, sync)
    ensures Holds(c.fs, l) && Primary(c.fs) == Primary(a.fs) && Undisturbed(a.fs, c.fs)
    ensures c.Going? ==> CanRename(c.fs, l) && Read(c.fs, c.fs.dir.temp) == Some(Valid(v))
  {
    var b := Then(a, WriteTemp(v), write);
    CallKeeps(a, WriteTemp(v), write, l);
    CallPrimary(a, WriteTemp(v), write);
    c := Then(b, SyncTemp, sync);
    CallKeeps(b, SyncTemp, sync, l);
    CallPrimary(b, SyncTemp, sync);
  }

  lemma ReplacementKeeps<T>(fs: Fs<T>, v: T, backup: bool, f: WriteFaults, l: Ledger<T>)
    requires Holds(fs, l) && v in l.attempts && (l.since.Some? ==> v in l.since.value)
    ensures var a := Replacement(fs, v, backup, f);
      && Holds(a.fs, l) && Undisturbed(fs, a.fs)
      && (Primary(a.fs) == Primary(fs) || (!a.Failing? && Primary(a.fs) == Some(Valid(v))))
      && (a.Going? ==> Primary(a.fs) == Some(Valid(v)))
  {
    var a := BackedUp(fs, backup, f, l);
    var c := TempWritten(a, v, f.write, f.syncTemp, l);
    CallKeeps(c, RenameTemp, f.rename, l);
    assert Replacement(fs, v, backup, f) == Then(c, RenameTemp, f.rename);
  }

  lemma CleanUpKeeps<T>(fs: Fs<T>, fault: Fault, result: WriteResult, l: Ledger<T>)
    requires Holds(fs, l)
    ensures Holds(CleanedUp(fs, fault, result).fs, l) && Undisturbed(fs, CleanedUp(fs, fault, result).fs)
    ensures Primary(CleanedUp(fs, fault, result).fs) == Primary(fs)
  {
    CallKeeps(Going(fs), UnlinkTemp, fault, l);
    CallPrimary(Going(fs), UnlinkTemp, fault);
  }

  /** A directory sync that returns pins the visible primary down. */
  lemma SyncAnchors<T>(fs: Fs<T>, v: T, l: Ledger<T>)
    requires Holds(fs, l) && Primary(fs) == Some(Valid(v))
    ensures Anchored(Effect(fs, SyncDirectory, Fully), {v})
  {
    var after := Effect(fs, SyncDirectory, Fully);
    forall keep ensures Replay(after.durable, after.pending, keep) == fs.dir {
    }
  }

  /** A write keeps the invariant whatever goes wrong in it, and all of it or none of it
      becomes visible: none when it throws, all when it returns or throws after the
      replacement. */
  lemma WriteKeeps<T>(fs: Fs<T>, v: T, backup: bool, f: WriteFaults, l: Ledger<T>)
    requires Holds(fs, l)
    ensures var w := WriteOutcome(fs, v, backup, f);
      && Holds(w.fs, AfterWrite(l, v, w.result))
      && (w.result == Threw ==> Primary(w.fs) == Primary(fs))
      && (w.result == Returned || w.result == ThrewPostReplace ==> Primary(w.fs) == Some(Valid(v)))
      && (Primary(w.fs) == Primary(fs) || Primary(w.fs) == Some(Valid(v)))
  {
    var l' := Trying(l, v);
    assert Holds(fs, l');
    if f.prepare.NoFault? {
      var a := Replacement(fs, v, backup, f);
      ReplacementKeeps(fs, v, backup, f, l');
      match a {
        case Dead(x) =>
        case Failing(x) => CleanUpKeeps(x, f.cleanup, Threw, l');
        case Going(x) =>
          var b := Do(x, SyncDirectory, f.syncDir);
          CallKeeps(a, SyncDirectory, f.syncDir, l');
          CallPrimary(a, SyncDirectory, f.syncDir);
          if b.Going? {
            SyncAnchors(x, v, l');
          } else if b.Failing? {
            CleanUpKeeps(b.fs, f.cleanup, ThrewPostReplace, l');
          }
      }
    }
  }

  ghost function AfterRetry<T>(l: Ledger<T>, w: Written<T>): Ledger<T> {
    match (w.result, Primary(w.fs))
    case (Returned, Some(Valid(v))) => l.(since := Some({v}))
    case _ => l
  }

  lemma RetryKeeps<T>(fs: Fs<T>, syncFile: Fault, syncDir: Fault, l: Ledger<T>)
    requires Holds(fs, l)
    ensures var w := SyncOutcome(fs, syncFile, syncDir);
      Holds(w.fs, AfterRetry(l, w)) && Primary(w.fs) == Primary(fs)
  {
    if fs.dir.primary.Some? {
      var a := Do(fs, SyncPrimary, syncFile);
      CallKeeps(Going(fs), SyncPrimary, syncFile, l);
      CallPrimary(Going(fs), SyncPrimary, syncFile);
      CallKeeps(a, SyncDirectory, syncDir, l);
      CallPrimary(a, SyncDirectory, syncDir);
      if a.Going? && syncDir.NoFault? {
        SyncAnchors(a.fs, Primary(a.fs).value.value, l);
      }
    }
  }

  /** A recovery attempts a write only when its winner is not the primary file. */
  ghost function AfterLoad<T>(fs: Fs<T>, env: Env<T>, f: LoadFaults, l: Ledger<T>): Ledger<T> {
    var (source, found) := Winner(fs, f.readable);
    if source == FromTemp || source == FromBackup then
      var v := env.sanitize(found.value);
      AfterWrite(l, v, WriteOutcome(fs, v, false, f.repair).result)
    else l
  }

  lemma LoadKeeps<T>(fs: Fs<T>, env: Env<T>, f: LoadFaults, l: Ledger<T>)
    requires Holds(fs, l)
    ensures Holds(LoadOutcome(fs, env, f).fs, AfterLoad(fs, env, f, l))
  {
    var (source, found) := Winner(fs, f.readable);
    if found.Some? {
      var v := env.sanitize(found.value);
      var mid := fs;
      if source != FromPrimary {
        WriteKeeps(fs, v, false, f.repair, l);
        mid := WriteOutcome(fs, v, false, f.repair).fs;
      }
      var l' := AfterLoad(fs, env, f, l);
      CleanUpKeeps(mid, f.cleanup, Threw, l');
    }
  }

  lemma PowerLossKeeps<T>(fs: Fs<T>, keep: seq<bool>, fates: nat -> Fate, l: Ledger<T>)
    requires Holds(fs, l)
    ensures Holds(PowerLoss(fs, keep, fates), l)
  {
    var d := Replay(fs.durable, fs.pending, keep);
    var after := PowerLoss(fs, keep, fates);
    assert GoodDir(fs, d);
    forall i | 0 <= i < |after.inodes|
      ensures after.inodes[i] == Survivor(fs.inodes[i], fates(i))
    {
    }
    assert GoodDir(after, d);
    forall k ensures Replay(after.durable, after.pending, k) == d {
    }
  }

  // ---------- runs ----------

  datatype Event<T> =
    | Write(value: T, backup: bool, write: WriteFaults)
    | Retry(syncFile: Fault, syncDir: Fault)
    | Load(load: LoadFaults)
    | PowerCut(keep: seq<bool>, fates: nat -> Fate)

  datatype World<T> = World(fs: Fs<T>, ledger: Ledger<T>)

  ghost function Step<T>(w: World<T>, e: Event<T>, env: Env<T>): World<T> {
    match e
    case Write(v, backup, f) =>
      var o := WriteOutcome(w.fs, v, backup, f);
      World(o.fs, AfterWrite(w.ledger, v, o.result))
    case Retry(file, dir) =>
      var o := SyncOutcome(w.fs, file, dir);
      World(o.fs, AfterRetry(w.ledger, o))
    case Load(f) => World(LoadOutcome(w.fs, env, f).fs, AfterLoad(w.fs, env, f, w.ledger))
    case PowerCut(keep, fates) => World(PowerLoss(w.fs, keep, fates), w.ledger)
  }

  /** A run may stop anywhere: every event may carry a cut at any of its calls. */
  ghost function Run<T>(w: World<T>, events: seq<Event<T>>, env: Env<T>): World<T>
    decreases |events|
  {
    if events == [] then w else Run(Step(w, events[0], env), events[1..], env)
  }

  ghost function Initial<T>(): World<T> {
    World(Fresh(), Ledger({}, None))
  }

  lemma StepKeeps<T>(w: World<T>, e: Event<T>, env: Env<T>)
    requires Holds(w.fs, w.ledger)
    ensures Holds(Step(w, e, env).fs, Step(w, e, env).ledger)
  {
    match e
    case Write(v, backup, f) => WriteKeeps(w.fs, v, backup, f, w.ledger);
    case Retry(file, dir) => RetryKeeps(w.fs, file, dir, w.ledger);
    case Load(f) => LoadKeeps(w.fs, env, f, w.ledger);
    case PowerCut(keep, fates) => PowerLossKeeps(w.fs, keep, fates, w.ledger);
  }

  lemma {:induction false} RunKeeps<T>(w: World<T>, events: seq<Event<T>>, env: Env<T>)
    requires Holds(w.fs, w.ledger)
    ensures Holds(Run(w, events, env).fs, Run(w, events, env).ledger)
    decreases |events|
  {
    if events != [] {
      StepKeeps(w, events[0], env);
      RunKeeps(Step(w, events[0], env), events[1..], env);
    }
  }

  /** Recovery invents nothing: what it returns was attempted, or is the empty value. */
  lemma RecoveredWasAttempted<T>(fs: Fs<T>, attempts: set<T>, env: Env<T>, f: LoadFaults)
    requires Sound(fs, attempts)
    ensures match LoadOutcome(fs, env, f).result
      case LoadCrashed => true
      case Loaded(value, _, _) =>
        value == env.empty || exists a :: a in attempts && value == env.sanitize(a)
  {
    var (source, found) := Winner(fs, f.readable);
    if found.Some? {
      assert found.value in attempts;
    }
  }

  /** Nor does its repair write anything else. */
  lemma LoadAttempted<T>(fs: Fs<T>, l: Ledger<T>, env: Env<T>, f: LoadFaults)
    requires Holds(fs, l)
    ensures match LoadOutcome(fs, env, f).result
      case LoadCrashed => true
      case Loaded(value, _, _) => value == env.empty || exists a :: a in l.attempts && value == env.sanitize(a)
    ensures forall v :: v in AfterLoad(fs, env, f, l).attempts ==>
      v in l.attempts || exists a :: a in l.attempts && v == env.sanitize(a)
  {
    hide WriteOutcome, LoadOutcome;
    RecoveredWasAttempted(fs, l.attempts, env, f);
    var (source, found) := Winner(fs, f.readable);
    if found.Some? {
      assert found.value in l.attempts;
    }
  }

  /** After any run, a recovery that can read the primary file returns the last value whose
      rename took effect; if there is none, it returns the empty value or one whose write
      was begun. */
  lemma RecoveryReturnsLastCommit<T>(events: seq<Event<T>>, env: Env<T>, f: LoadFaults)
    ensures var w := Run(Initial(), events, env);
      match LoadOutcome(w.fs, env, f).result
      case LoadCrashed => true
      case Loaded(value, source, repaired) =>
        if w.fs.renamed != [] && f.readable.primary then
          && w.fs.renamed[|w.fs.renamed| - 1].Valid?
          && value == env.sanitize(w.fs.renamed[|w.fs.renamed| - 1].value)
          && source == FromPrimary && !repaired
        else
          value == env.empty || exists a :: a in w.ledger.attempts && value == env.sanitize(a)
  {
    FreshIsSound<T>();
    RunKeeps(Initial(), events, env);
    var w := Run(Initial(), events, env);
    RecoveredWasAttempted(w.fs, w.ledger.attempts, env, f);
  }

  /** The values whose write was begun during `events`. */
  ghost function Begun<T>(events: seq<Event<T>>): set<T> {
    if events == [] then {}
    else (if events[0].Write? then {events[0].value} else {}) + Begun(events[1..])
  }

  ghost predicate PrimaryReadable<T>(events: seq<Event<T>>) {
    forall e :: e in events && e.Load? ==> e.load.readable.primary
  }

  lemma {:induction false} AnchorLasts<T>(w: World<T>, s: set<T>, events: seq<Event<T>>, env: Env<T>)
    requires Holds(w.fs, w.ledger) && w.ledger.since.Some? && w.ledger.since.value <= s
    requires PrimaryReadable(events)
    ensures Run(w, events, env).ledger.since.Some?
    ensures Run(w, events, env).ledger.since.value <= s + Begun(events)
    decreases |events|
  {
    if events != [] {
      var e := events[0];
      var next := Step(w, e, env);
      StepKeeps(w, e, env);
      var s' := s + if e.Write? then {e.value} else {};
      assert next.ledger.since.Some? && next.ledger.since.value <= s' by {
        assert e in events;
        assert PrimaryIn(w.fs, w.fs.dir, w.ledger.since.value);
      }
      AnchorLasts(next, s', events[1..], env);
    }
  }

  /** An event that tells its caller the visible value is safe: a write, or the retry of a
      directory sync, that returns normally. */
  ghost predicate Acknowledges<T>(w: World<T>, e: Event<T>) {
    match e
    case Write(v, backup, f) => WriteOutcome(w.fs, v, backup, f).result == Returned
    case Retry(file, dir) => SyncOutcome(w.fs, file, dir).result == Returned
    case _ => false
  }

  lemma AcknowledgementAnchors<T>(w: World<T>, ack: Event<T>, env: Env<T>)
    requires Holds(w.fs, w.ledger) && Acknowledges(w, ack)
    ensures var next := Step(w, ack, env);
      && Primary(next.fs).Some? && Primary(next.fs).value.Valid?
      && next.ledger.since == Some({Primary(next.fs).value.value})
      && (ack.Write? ==> Primary(next.fs).value.value == ack.value)
      && (ack.Retry? ==> Primary(next.fs) == Primary(w.fs))
  {
    match ack
    case Write(v, backup, f) => WriteKeeps(w.fs, v, backup, f, w.ledger);
    case Retry(file, dir) => RetryKeeps(w.fs, file, dir, w.ledger);
    case _ =>
  }

  /** Acknowledged means durable: once an event has acknowledged the visible value, a power
      loss after any further run leaves a store that recovers that value or one whose write
      began later. */
  lemma AcknowledgedIsDurable<T>(
      before: seq<Event<T>>, ack: Event<T>, after: seq<Event<T>>,
      keep: seq<bool>, fates: nat -> Fate, f: LoadFaults, env: Env<T>)
    requires Acknowledges(Run(Initial(), before, env), ack)
    requires PrimaryReadable(after) && f.readable.primary
    ensures var acked := Step(Run(Initial(), before, env), ack, env);
      var w := Run(acked, after, env);
      && Primary(acked.fs).Some? && Primary(acked.fs).value.Valid?
      && (match LoadOutcome(PowerLoss(w.fs, keep, fates), env, f).result
          case LoadCrashed => true
          case Loaded(value, source, _) =>
            source == FromPrimary
            && exists a :: a in {Primary(acked.fs).value.value} + Begun(after) && value == env.sanitize(a))
  {
    FreshIsSound<T>();
    RunKeeps(Initial(), before, env);
    var w0 := Run(Initial(), before, env);
    var w1 := Step(w0, ack, env);
    AcknowledgementAnchors(w0, ack, env);
    StepKeeps(w0, ack, env);
    AnchorLasts(w1, w1.ledger.since.value, after, env);
    RunKeeps(w1, after, env);
    AnchoredRecovers(Run(w1, after, env), keep, fates, f, env);
  }

  lemma AnchoredRecovers<T>(w: World<T>, keep: seq<bool>, fates: nat -> Fate, f: LoadFaults, env: Env<T>)
    requires Holds(w.fs, w.ledger) && w.ledger.since.Some? && f.readable.primary
    ensures match LoadOutcome(PowerLoss(w.fs, keep, fates), env, f).result
      case LoadCrashed => true
      case Loaded(value, source, _) =>
        source == FromPrimary && exists a :: a in w.ledger.since.value && value == env.sanitize(a)
  {
    PowerLossKeeps(w.fs, keep, fates, w.ledger);
    var fs := PowerLoss(w.fs, keep, fates);
    assert PrimaryIn(fs, fs.dir, w.ledger.since.value);
  }

  // ---------- where the guarantees end ----------

  /** A post-replacement error leaves the new value visible and, with nothing synced since
      the rename, a power loss can still bring the old one back. */
  lemma UnconfirmedReplacementCanBeLost<T>(
      fs: Fs<T>, attempts: set<T>, v: T, backup: bool, f: WriteFaults, fates: nat -> Fate)
    requires Sound(fs, attempts) && fs.durable == fs.dir
    requires WriteOutcome(fs, v, backup, f).result == ThrewPostReplace && f.syncDir == Error(Nothing)
    ensures var after := WriteOutcome(fs, v, backup, f).fs;
      && Primary(after) == Some(Valid(v))
      && Primary(PowerLoss(after, [], fates)) == Primary(fs)
  {
    var l := Ledger(attempts + {v}, None);
    WriteKeeps(fs, v, backup, f, Ledger(attempts, None));
    ReplacementKeeps(fs, v, backup, f, l);
    var x := Replacement(fs, v, backup, f).fs;
    CleanUpKeeps(x, f.cleanup, ThrewPostReplace, l);
    var after := WriteOutcome(fs, v, backup, f).fs;
    assert Undisturbed(fs, after);
    NothingKept(after.durable, after.pending);
    assert GoodDir(after, Replay(after.durable, after.pending, []));
  }

  ghost predicate Recovers<T>(found: Option<T>, env: Env<T>, value: T) {
    found.Some? && env.sanitize(found.value) == value
  }

  /** A recovery that does not read the primary file could still come up with `value`. */
  ghost predicate Elsewhere<T>(fs: Fs<T>, env: Env<T>, value: T) {
    || env.empty == value
    || Recovers(Candidate(fs, fs.dir.temp, true), env, value)
    || Recovers(Candidate(fs, fs.dir.backup, true), env, value)
  }

  /** An unreadable primary is the one thing that makes a recovery miss the committed value:
      with that value nowhere else, a recovery that finishes returns it exactly when it could
      read the primary file. */
  lemma CommittedIffReadable<T>(fs: Fs<T>, attempts: set<T>, env: Env<T>, f: LoadFaults)
    requires Sound(fs, attempts) && fs.renamed != []
    requires !Elsewhere(fs, env, env.sanitize(Primary(fs).value.value))
    requires LoadOutcome(fs, env, f).result.Loaded?
    ensures LoadOutcome(fs, env, f).result.value == env.sanitize(Primary(fs).value.value)
        <==> f.readable.primary
  {
  }

  ghost const NO_FAULTS := WriteFaults(NoFault, NoFault, NoFault, NoFault, NoFault, NoFault, NoFault, NoFault)

  /** The input that shows it: two clean writes, then a recovery that cannot read the primary
      file. It returns the superseded value, and makes it the committed one. */
  lemma UnreadablePrimaryIsReplaced<T>(old_: T, new_: T, env: Env<T>)
    requires env.sanitize(old_) != env.sanitize(new_)
    ensures var run := [Write(old_, true, NO_FAULTS), Write(new_, true, NO_FAULTS)];
      var w := Run(Initial(), run, env);
      var o := LoadOutcome(w.fs, env, LoadFaults(Readable(false, true, true), NO_FAULTS, NoFault));
      && Primary(w.fs) == Some(Valid(new_))
      && o.result == Loaded(env.sanitize(old_), FromBackup, true)
      && Primary(o.fs) == Some(Valid(env.sanitize(old_)))
  {
    hide WriteOutcome, LoadOutcome, Primary;
    var first := Step(Initial(), Write(old_, true, NO_FAULTS), env);
    var second := Step(first, Write(new_, true, NO_FAULTS), env);
    var run := [Write(old_, true, NO_FAULTS), Write(new_, true, NO_FAULTS)];
    assert run[1..] == [Write(new_, true, NO_FAULTS)];
    assert Run(first, run[1..], env) == Run(second, run[1..][1..], env);
    FirstWrite(old_);
    SecondWrite(old_, new_);
    BackupLoaded(old_, new_, env);
  }

  function OneFile<T>(v: T): Fs<T> {
    Fs([Inode(Valid(v), Valid(v))], Dir(Some(0), None, None), Dir(Some(0), None, None), [], [Valid(v)])
  }

  function TwoFiles<T>(old_: T, new_: T): Fs<T> {
    var dir := Dir(Some(2), None, Some(1));
    Fs([Inode(Valid(old_), Valid(old_)), Inode(Valid(old_), Valid(old_)), Inode(Valid(new_), Valid(new_))],
       dir, dir, [], [Valid(old_), Valid(new_)])
  }

  lemma FirstWrite<T>(v: T)
    ensures WriteOutcome(Fresh(), v, true, NO_FAULTS) == Written(OneFile(v), Returned)
  {
  }

  lemma SecondWrite<T>(old_: T, new_: T)
    ensures WriteOutcome(OneFile(old_), new_, true, NO_FAULTS) == Written(TwoFiles(old_, new_), Returned)
  {
  }

  lemma BackupLoaded<T>(old_: T, new_: T, env: Env<T>)
    ensures var f := LoadFaults(Readable(false, true, true), NO_FAULTS, NoFault);
      var o := LoadOutcome(TwoFiles(old_, new_), env, f);
      && Primary(TwoFiles(old_, new_)) == Some(Valid(new_))
      && o.result == Loaded(env.sanitize(old_), FromBackup, true)
      && Primary(o.fs) == Some(Valid(env.sanitize(old_)))
  {
  }
}
