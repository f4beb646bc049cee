/** The crash-safe JSON store: one value per path, replaced by an atomic rename, with a
    temporary and a backup file beside it.

    The file system below is modelled down to inodes. A write to a file that already has a
    name changes the inode in place; creating, renaming and unlinking change the directory.
    Neither kind of change survives a power loss until it is synced: `Inode.stable` is what
    the device holds of a file, `Fs.durable` what it holds of the directory, and
    `Fs.pending` the directory changes made since. */
module JsonStore {
  import opened Wrappers

  /** What a reader finds in an existing file: a parseable value, or something else. */
  datatype Content<+T> = Torn | Valid(value: T)

  datatype Inode<+T> = Inode(data: Content<T>, stable: Content<T>)

  /** The three names the store uses: `path`, `path.tmp` and `path.bak`. */
  datatype Dir = Dir(primary: Option<nat>, temp: Option<nat>, backup: Option<nat>)

  datatype DirOp =
    | CreateTemp(inode: nat)
    | CreateBackup(inode: nat)
    | ReplacePrimary(inode: nat)
    | DropTemp

  /** `dir` is the directory as running programs see it. `renamed` is an observer's record,
      read by no operation: the contents moved onto the primary name since the last power
      loss, preceded by the contents that power loss left there, if any. */
  datatype Fs<+T> = Fs(
    inodes: seq<Inode<T>>,
    dir: Dir,
    durable: Dir,
    pending: seq<DirOp>,
    renamed: seq<Content<T>>)

  const NO_FILES := Dir(None, None, None)

  function Fresh<T>(): Fs<T> {
    Fs([], NO_FILES, NO_FILES, [], [])
  }

  function Apply(d: Dir, op: DirOp): Dir {
    match op
    case CreateTemp(i) => d.(temp := Some(i))
    case CreateBackup(i) => d.(backup := Some(i))
    case ReplacePrimary(i) => d.(primary := Some(i), temp := None)
    case DropTemp => d.(temp := None)
  }

  /** The directory a power loss leaves behind when it keeps the unsynced changes selected
      by `keep`. A rename is kept or lost as a whole. */
  function Replay(d: Dir, ops: seq<DirOp>, keep: seq<bool>): Dir {
    if ops == [] then d
    else
      var n := |ops| - 1;
      var before := Replay(d, ops[..n], keep);
      if n < |keep| && keep[n] then Apply(before, ops[n]) else before
  }

  /** What a name refers to, if it exists. */
  function Read<T>(fs: Fs<T>, name: Option<nat>): Option<Content<T>> {
    if name.Some? && name.value < |fs.inodes| then Some(fs.inodes[name.value].data) else None
  }

  function Primary<T>(fs: Fs<T>): Option<Content<T>> {
    Read(fs, fs.dir.primary)
  }

  // ---------- system calls ----------

  /** How much of a call's effect took place before it failed or the process died. */
  datatype Progress = Nothing | Partly | Fully

  datatype Fault = NoFault | Error(done: Progress) | Cut(done: Progress)

  datatype Syscall<+T> =
    | CopyPrimaryToBackup
    | SyncBackup
    | WriteTemp(value: T)
    | SyncTemp
    | RenameTemp
    | SyncDirectory
    | SyncPrimary
    | UnlinkTemp

  function Change<T>(fs: Fs<T>, op: DirOp): Fs<T> {
    fs.(dir := Apply(fs.dir, op), pending := fs.pending + [op])
  }

  /** Open-for-writing truncates an existing file in place and creates a missing one. */
  function PutTemp<T>(fs: Fs<T>, content: Content<T>): Fs<T> {
    match fs.dir.temp
    case Some(i) =>
      if i < |fs.inodes| then fs.(inodes := fs.inodes[i := fs.inodes[i].(data := content)]) else fs
    case None =>
      Change(fs.(inodes := fs.inodes + [Inode(content, Torn)]), CreateTemp(|fs.inodes|))
  }

  function PutBackup<T>(fs: Fs<T>, content: Content<T>): Fs<T> {
    match fs.dir.backup
    case Some(i) =>
      if i < |fs.inodes| then fs.(inodes := fs.inodes[i := fs.inodes[i].(data := content)]) else fs
    case None =>
      Change(fs.(inodes := fs.inodes + [Inode(content, Torn)]), CreateBackup(|fs.inodes|))
  }

  function SyncFile<T>(fs: Fs<T>, name: Option<nat>): Fs<T> {
    if name.Some? && name.value < |fs.inodes| then
      var i := name.value;
      fs.(inodes := fs.inodes[i := fs.inodes[i].(stable := fs.inodes[i].data)])
    else fs
  }

  function Effect<T>(fs: Fs<T>, call: Syscall<T>, done: Progress): Fs<T> {
    if done == Nothing then fs
    else
      match call
      case CopyPrimaryToBackup =>
        PutBackup(fs, if done == Fully then Primary(fs).GetOr(Torn) else Torn)
      case WriteTemp(v) => PutTemp(fs, if done == Fully then Valid(v) else Torn)
      case SyncBackup => if done == Fully then SyncFile(fs, fs.dir.backup) else fs
      case SyncTemp => if done == Fully then SyncFile(fs, fs.dir.temp) else fs
      case SyncPrimary => if done == Fully then SyncFile(fs, fs.dir.primary) else fs
      case RenameTemp =>
        // rename() is atomic: half of it is none of it.
        if done == Fully && Read(fs, fs.dir.temp).Some? then
          Change(fs, ReplacePrimary(fs.dir.temp.value))
            .(renamed := fs.renamed + [fs.inodes[fs.dir.temp.value].data])
        else fs
      case SyncDirectory =>
        if done == Fully then fs.(durable := fs.dir, pending := []) else fs
      case UnlinkTemp =>
        if done == Fully && fs.dir.temp.Some? then Change(fs, DropTemp) else fs
  }

  /** A rename that reports an error did not happen. */
  function ErrorProgress<T>(call: Syscall<T>, done: Progress): Progress {
    if call.RenameTemp? then Nothing else done
  }

  /** A program part-way through its calls: still going, unwinding an exception, or dead. */
  datatype Attempt<+T> = Going(fs: Fs<T>) | Failing(fs: Fs<T>) | Dead(fs: Fs<T>)

  function Do<T>(fs: Fs<T>, call: Syscall<T>, fault: Fault): Attempt<T> {
    match fault
    case NoFault => Going(Effect(fs, call, Fully))
    case Error(done) => Failing(Effect(fs, call, ErrorProgress(call, done)))
    case Cut(done) => Dead(Effect(fs, call, done))
  }

  function Then<T>(a: Attempt<T>, call: Syscall<T>, fault: Fault): Attempt<T> {
    if a.Going? then Do(a.fs, call, fault) else a
  }

  // ---------- the store's operations, as functions ----------

  /** One fault per call of a write. `prepare` stands for creating the directory and
      rendering the payload, before anything in the store is touched. */
  datatype WriteFaults = WriteFaults(
    prepare: Fault, copy: Fault, syncBackup: Fault, write: Fault, syncTemp: Fault,
    rename: Fault, syncDir: Fault, cleanup: Fault)

  datatype WriteResult = Returned | Threw | ThrewPostReplace | Crashed

  datatype Written<+T> = Written(fs: Fs<T>, result: WriteResult)

  /** Everything up to and including the rename. */
  function Replacement<T>(fs: Fs<T>, value: T, backup: bool, f: WriteFaults): Attempt<T> {
    var copied :=
      if backup && fs.dir.primary.Some?
      then Then(Do(fs, CopyPrimaryToBackup, f.copy), SyncBackup, f.syncBackup)
      else Going(fs);
    Then(Then(Then(copied, WriteTemp(value), f.write), SyncTemp, f.syncTemp), RenameTemp, f.rename)
  }

  /** Best-effort removal of the temporary file: an error is swallowed, a crash is not. */
  function CleanedUp<T>(fs: Fs<T>, fault: Fault, result: WriteResult): Written<T> {
    var a := Do(fs, UnlinkTemp, fault);
    if a.Dead? then Written(a.fs, Crashed) else Written(a.fs, result)
  }

  function WriteOutcome<T>(fs: Fs<T>, value: T, backup: bool, f: WriteFaults): Written<T> {
    match f.prepare
    case Error(_) => Written(fs, Threw)
    case Cut(_) => Written(fs, Crashed)
    case NoFault =>
      match Replacement(fs, value, backup, f)
      case Dead(x) => Written(x, Crashed)
      case Failing(x) => CleanedUp(x, f.cleanup, Threw)
      case Going(x) =>
        match Do(x, SyncDirectory, f.syncDir)
        case Going(y) => Written(y, Returned)
        case Failing(y) => CleanedUp(y, f.cleanup, ThrewPostReplace)
        case Dead(y) => Written(y, Crashed)
  }

  /** The retry of the directory sync after a post-replacement error. */
  function SyncOutcome<T>(fs: Fs<T>, syncFile: Fault, syncDir: Fault): Written<T> {
    if fs.dir.primary.None? then Written(fs, Threw)
    else
      match Then(Do(fs, SyncPrimary, syncFile), SyncDirectory, syncDir)
      case Going(x) => Written(x, Returned)
      case Failing(x) => Written(x, Threw)
      case Dead(x) => Written(x, Crashed)
  }

  datatype Source = FromPrimary | FromTemp | FromBackup | FromNothing

  /** Whether reading each file succeeds; an unreadable file is treated as no candidate. */
  datatype Readable = Readable(primary: bool, temp: bool, backup: bool)

  datatype LoadFaults = LoadFaults(readable: Readable, repair: WriteFaults, cleanup: Fault)

  /** What a store is opened with: the value of an empty store and the sanitizer. */
  datatype Env<!T> = Env(empty: T, sanitize: T -> T)

  datatype LoadResult<+T> =
    | Loaded(value: T, source: Source, repaired: bool)
    | LoadCrashed

  datatype Opened<+T> = Opened(fs: Fs<T>, result: LoadResult<T>)

  function Candidate<T>(fs: Fs<T>, name: Option<nat>, readable: bool): Option<T> {
    match Read(fs, name)
    case Some(Valid(v)) => if readable then Some(v) else None
    case _ => None
  }

  /** The candidate of highest priority: primary, then temporary, then backup. */
  function Winner<T>(fs: Fs<T>, r: Readable): (Source, Option<T>) {
    var p := Candidate(fs, fs.dir.primary, r.primary);
    var t := Candidate(fs, fs.dir.temp, r.temp);
    var b := Candidate(fs, fs.dir.backup, r.backup);
    if p.Some? then (FromPrimary, p)
    else if t.Some? then (FromTemp, t)
    else if b.Some? then (FromBackup, b)
    else (FromNothing, None)
  }

  function LoadOutcome<T>(fs: Fs<T>, env: Env<T>, f: LoadFaults): Opened<T> {
    var (source, found) := Winner(fs, f.readable);
    if found.None? then Opened(fs, Loaded(env.empty, FromNothing, false))
    else
      var value := env.sanitize(found.value);
      var repair := if source == FromPrimary then Written(fs, Threw)
                    else WriteOutcome(fs, value, false, f.repair);
      if repair.result == Crashed then Opened(repair.fs, LoadCrashed)
      else if source == FromTemp then
        Opened(repair.fs, Loaded(value, source, repair.result == Returned))
      else
        var cleaned := CleanedUp(repair.fs, f.cleanup, repair.result);
        if cleaned.result == Crashed then Opened(cleaned.fs, LoadCrashed)
        else Opened(cleaned.fs, Loaded(value, source, repair.result == Returned))
  }

  // ---------- power loss ----------

  /** What becomes of a file whose latest contents were never synced. */
  datatype Fate = Stale | Scrambled | Current

  ghost function Survivor<T>(n: Inode<T>, fate: Fate): Inode<T> {
    var c := if n.data == n.stable then n.stable
             else match fate case Stale => n.stable case Scrambled => Torn case Current => n.data;
    Inode(c, c)
  }

  /** Power loss keeps any subset of the unsynced directory changes and, of every unsynced
      file, its last synced contents, its latest contents, or neither. */
  ghost function PowerLoss<T>(fs: Fs<T>, keep: seq<bool>, fates: nat -> Fate): Fs<T> {
    var dir := Replay(fs.durable, fs.pending, keep);
    var inodes := seq(|fs.inodes|, (i: nat) requires i < |fs.inodes| => Survivor(fs.inodes[i], fates(i)));
    var after := Fs(inodes, dir, dir, [], []);
    after.(renamed := match Primary(after) case Some(c) => [c] case None => [])
  }
}
