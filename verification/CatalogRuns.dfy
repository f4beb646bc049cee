/** The registry over faulty runs: catalog operations and other saves that fail or die at any
    system call, restarts that recover from disk, and power losses. */
module CatalogRuns {
  import opened Wrappers
  import opened JsonStore
  import opened CatalogRecords
  import opened CatalogState
  import opened CatalogRegistry
  import opened CatalogSnapshot
  import CatalogReload
  import CatalogLaws
  import Store = JsonStoreRuns

  datatype Happening<X> =
    | Operate(op: Op, commit: CommitFaults)
    | Mutate(tables: X, write: WriteFaults)
    | Restart(load: LoadFaults)
    | PowerFailure(keep: seq<bool>, fates: nat -> Fate, load: LoadFaults)

  /** `mem` is `None` while no process runs. `store` is the disk with its attempts. */
  datatype World<X(==)> = World(mem: Option<Snapshot<X>>, store: Store.World<Snapshot<X>>)

  /** A commit's effect on the store: a write, then, after a post-replacement error, the
      retried sync. */
  ghost function Committing<X>(
      w: Store.World<Snapshot<X>>, snapshot: Snapshot<X>, f: CommitFaults, env: Env<Snapshot<X>>)
    : Store.World<Snapshot<X>>
  {
    var written := Store.Step(w, Store.Write(snapshot, true, f.write), env);
    if WriteOutcome(w.fs, snapshot, true, f.write).result == ThrewPostReplace
       && f.reread && Primary(written.fs) == Some(Valid(snapshot))
    then Store.Step(written, Store.Retry(f.syncFile, f.syncDir), env)
    else written
  }

  ghost function Loading<X>(w: World<X>, f: LoadFaults, env: Env<Snapshot<X>>): World<X> {
    var o := LoadOutcome(w.store.fs, env, f);
    World(match o.result case Loaded(v, _, _) => Some(v) case LoadCrashed => None,
          Store.Step(w.store, Store.Load(f), env))
  }

  /** What the process did with its operation; a dead process does nothing. */
  ghost function Outcome<X>(w: World<X>, h: Happening<X>): Option<Process<X>> {
    if w.mem.Some? && h.Operate? then Some(Performed(w.mem.value, w.store.fs, h.op, h.commit)) else None
  }

  ghost function Step<X>(w: World<X>, h: Happening<X>, env: Env<Snapshot<X>>): World<X> {
    match h
    case Operate(op, f) =>
      if w.mem.None? then w
      else
        var p := Performed(w.mem.value, w.store.fs, op, f);
        var store :=
          match PlanOf(w.mem.value.catalog, op)
          case Refused => w.store
          case Commit(next) => Committing(w.store, Snapshot(w.mem.value.tables, next), f, env);
        World(if p.result == Died then None else Some(p.mem), store)
    case Mutate(tables, f) =>
      if w.mem.None? then w
      else
        var mem := Snapshot(tables, w.mem.value.catalog);
        var result := WriteOutcome(w.store.fs, mem, true, f).result;
        World(if result == Crashed then None else Some(mem),
              Store.Step(w.store, Store.Write(mem, true, f), env))
    case Restart(f) => Loading(w, f, env)
    case PowerFailure(keep, fates, f) =>
      Loading(w.(store := Store.Step(w.store, Store.PowerCut(keep, fates), env)), f, env)
  }

  ghost function Run<X>(w: World<X>, hs: seq<Happening<X>>, env: Env<Snapshot<X>>): World<X>
    decreases |hs|
  {
    if hs == [] then w else Run(Step(w, hs[0], env), hs[1..], env)
  }

  ghost function Initial<X>(): World<X> {
    World(None, Store.Initial())
  }

  /** Sanitizing a loaded snapshot may do what it likes to the tables and to records no
      validator accepts; a normalized catalog it leaves alone. */
  ghost predicate Faithful<X(!new)>(env: Env<Snapshot<X>>) {
    && env.empty.catalog == EMPTY_CATALOG
    && forall s: Snapshot<X> :: Normalized(s.catalog) ==> env.sanitize(s).catalog == s.catalog
  }

  /** The program's own store: catalogs are read back through their sanitizer, tables through
      theirs. */
  function StoreEnv<X>(noTables: X, sanitizeTables: X -> X): Env<Snapshot<X>> {
    Env(Snapshot(noTables, EMPTY_CATALOG),
        (s: Snapshot<X>) => Snapshot(sanitizeTables(s.tables), CatalogReload.Reread(s.catalog)))
  }

  lemma StoreEnvIsFaithful<X(!new)>(noTables: X, sanitizeTables: X -> X)
    ensures Faithful(StoreEnv(noTables, sanitizeTables))
  {
    hide Normalized, CatalogReload.Reread;
    var env := StoreEnv(noTables, sanitizeTables);
    forall s: Snapshot<X> | Normalized(s.catalog) ensures env.sanitize(s).catalog == s.catalog {
      CatalogReload.RereadIsIdentityIff(s.catalog);
    }
  }

  /** Every operation's proposal or approval came out of its validator. */
  ghost predicate Vetted<X>(hs: seq<Happening<X>>) {
    forall i :: 0 <= i < |hs| && hs[i].Operate? ==> Validated(hs[i].op)
  }

  /** The function the process is proved against and the store's own run agree. */
  lemma PerformedMatchesStore<X>(w: World<X>, op: Op, f: CommitFaults, env: Env<Snapshot<X>>)
    requires w.mem.Some?
    ensures Step(w, Operate(op, f), env).store.fs == Performed(w.mem.value, w.store.fs, op, f).fs
  {
    hide PlanOf, WriteOutcome, SyncOutcome;
  }

  lemma StoreHolds<X>(w: World<X>, h: Happening<X>, env: Env<Snapshot<X>>)
    requires Store.Holds(w.store.fs, w.store.ledger)
    ensures Store.Holds(Step(w, h, env).store.fs, Step(w, h, env).store.ledger)
  {
    hide Store.Holds, PlanOf, Performed, Store.Step;
    match h
    case Operate(op, f) =>
      if w.mem.Some? {
        match PlanOf(w.mem.value.catalog, op)
        case Refused =>
        case Commit(next) =>
          var write := Store.Write(Snapshot(w.mem.value.tables, next), true, f.write);
          Store.StepKeeps(w.store, write, env);
          Store.StepKeeps(Store.Step(w.store, write, env), Store.Retry(f.syncFile, f.syncDir), env);
      }
    case Mutate(tables, f) =>
      if w.mem.Some? {
        Store.StepKeeps(w.store, Store.Write(Snapshot(tables, w.mem.value.catalog), true, f), env);
      }
    case Restart(f) => Store.StepKeeps(w.store, Store.Load(f), env);
    case PowerFailure(keep, fates, f) =>
      Store.StepKeeps(w.store, Store.PowerCut(keep, fates), env);
      Store.StepKeeps(Store.Step(w.store, Store.PowerCut(keep, fates), env), Store.Load(f), env);
  }

  lemma {:induction false} RunHolds<X>(w: World<X>, hs: seq<Happening<X>>, env: Env<Snapshot<X>>)
    requires Store.Holds(w.store.fs, w.store.ledger)
    ensures Store.Holds(Run(w, hs, env).store.fs, Run(w, hs, env).store.ledger)
    decreases |hs|
  {
    hide Store.Holds, Step;
    if hs != [] {
      StoreHolds(w, hs[0], env);
      RunHolds(Step(w, hs[0], env), hs[1..], env);
    }
  }

  lemma InitialHolds<X>()
    ensures Store.Holds(Initial<X>().store.fs, Initial<X>().store.ledger)
  {
    Store.FreshIsSound<Snapshot<X>>();
  }

  // ---------- properties of single catalogs ----------

  /** The catalog in memory, and every catalog whose save was begun, is normalized and has `p`. */
  ghost predicate Everywhere<X>(w: World<X>, p: Catalog -> bool) {
    && (w.mem.Some? ==> Normalized(w.mem.value.catalog) && p(w.mem.value.catalog))
    && (forall s :: s in w.store.ledger.attempts ==> Normalized(s.catalog) && p(s.catalog))
  }

  ghost predicate KeptBy<X>(p: Catalog -> bool, h: Happening<X>) {
    h.Operate? ==> Validated(h.op) && forall c :: Normalized(c) && p(c) ==> p(Next(c, h.op))
  }

  ghost const ANY: Catalog -> bool := c => true

  lemma LoadEverywhere<X(!new)>(w: World<X>, f: LoadFaults, env: Env<Snapshot<X>>, p: Catalog -> bool)
    requires Store.Holds(w.store.fs, w.store.ledger) && Faithful(env) && p(EMPTY_CATALOG)
    requires forall s :: s in w.store.ledger.attempts ==> Normalized(s.catalog) && p(s.catalog)
    ensures Everywhere(Loading(w, f, env), p)
  {
    hide Normalized, LoadOutcome, Store.Holds, Store.AfterLoad;
    NothingIsNormalized();
    Store.LoadAttempted(w.store.fs, w.store.ledger, env, f);
  }

  lemma NothingIsNormalized()
    ensures Normalized(EMPTY_CATALOG)
  {
  }

  lemma OperateEverywhere<X(!new)>(w: World<X>, h: Happening<X>, env: Env<Snapshot<X>>, p: Catalog -> bool)
    requires h.Operate? && Everywhere(w, p) && KeptBy(p, h)
    ensures Everywhere(Step(w, h, env), p)
  {
    hide WriteOutcome, SyncOutcome, Normalized, Validated;
    if w.mem.Some? {
      assert p(Next(w.mem.value.catalog, h.op));
      OperationNormalized(w.mem.value.catalog, h.op);
    }
  }

  lemma StepEverywhere<X(!new)>(w: World<X>, h: Happening<X>, env: Env<Snapshot<X>>, p: Catalog -> bool)
    requires Store.Holds(w.store.fs, w.store.ledger) && Faithful(env) && p(EMPTY_CATALOG)
    requires Everywhere(w, p) && KeptBy(p, h)
    ensures Everywhere(Step(w, h, env), p)
  {
    hide Store.Holds, Normalized, Loading, Performed, Committing, PlanOf, WriteOutcome, PowerLoss;
    match h
    case Operate(_, _) => OperateEverywhere(w, h, env, p);
    case Mutate(_, _) =>
    case Restart(f) => LoadEverywhere(w, f, env, p);
    case PowerFailure(keep, fates, f) =>
      var cut := w.(store := Store.Step(w.store, Store.PowerCut(keep, fates), env));
      Store.StepKeeps(w.store, Store.PowerCut(keep, fates), env);
      LoadEverywhere(cut, f, env, p);
  }

  /** A property of the empty catalog that every operation keeps holds, through any faults,
      crashes and power losses, of memory and of everything recovery could return. */
  lemma {:induction false} FaultyRunKeeps<X(!new)>(
      w: World<X>, hs: seq<Happening<X>>, env: Env<Snapshot<X>>, p: Catalog -> bool)
    requires Store.Holds(w.store.fs, w.store.ledger) && Faithful(env) && p(EMPTY_CATALOG)
    requires Everywhere(w, p) && forall i :: 0 <= i < |hs| ==> KeptBy(p, hs[i])
    ensures Everywhere(Run(w, hs, env), p)
    decreases |hs|
  {
    hide Store.Holds, Step, Everywhere, KeptBy;
    if hs != [] {
      StoreHolds(w, hs[0], env);
      StepEverywhere(w, hs[0], env, p);
      FaultyRunKeeps(Step(w, hs[0], env), hs[1..], env, p);
    }
  }

  lemma InitialEverywhere<X>(p: Catalog -> bool)
    ensures Everywhere(Initial<X>(), p)
  {
  }

  /** Exactly once per key: retries mixed with write failures, crashes, reloads and power
      losses leave at most one ledger entry under any key, in memory and in every catalog
      that could be recovered; the stacks and reviews stay sound with it. */
  lemma DecisionsHappenOnce<X(!new)>(hs: seq<Happening<X>>, env: Env<Snapshot<X>>)
    requires Faithful(env) && Vetted(hs)
    ensures var w := Run(Initial(), hs, env);
      && (w.mem.Some? ==> WellFormed(w.mem.value.catalog))
      && (forall s :: s in w.store.ledger.attempts ==> UniqueKeys(s.catalog.ledger))
  {
    hide WellFormed, Next, Run, Store.Holds, Normalized, Validated;
    var p: Catalog -> bool := c => WellFormed(c);
    InitialHolds<X>();
    EmptyIsWellFormed();
    forall i | 0 <= i < |hs| ensures KeptBy(p, hs[i]) {
      OperationsKeepWellFormed(hs[i]);
    }
    FaultyRunKeeps(Initial(), hs, env, p);
    var w := Run(Initial(), hs, env);
    forall s | s in w.store.ledger.attempts ensures UniqueKeys(s.catalog.ledger) {
      WellFormedKeys(s.catalog);
    }
  }

  lemma OperationsKeepWellFormed<X>(h: Happening<X>)
    requires h.Operate? ==> Validated(h.op)
    ensures KeptBy(c => WellFormed(c), h)
  {
    hide WellFormed, Next, Normalized, Validated;
    if h.Operate? {
      forall c | WellFormed(c) ensures WellFormed(Next(c, h.op)) { OperationKeeps(c, h.op); }
    }
  }

  lemma WellFormedKeys(c: Catalog)
    requires WellFormed(c)
    ensures UniqueKeys(c.ledger)
  {
  }

  /** When approvals go only through decisions, the ledger in memory explains every stack,
      whatever failed on the way: each key's decision took effect once or not at all. */
  lemma LedgerExplainsFaultyRuns<X(!new)>(hs: seq<Happening<X>>, env: Env<Snapshot<X>>)
    requires Faithful(env) && Vetted(hs)
    requires forall i :: 0 <= i < |hs| && hs[i].Operate? ==> !CatalogLaws.Unrecorded(hs[i].op)
    ensures var w := Run(Initial(), hs, env);
      w.mem.Some? ==> CatalogLaws.Explained(w.mem.value.catalog)
  {
    hide WellFormed, CatalogLaws.Explained, Next, Run, Store.Holds, Normalized, Validated;
    var p: Catalog -> bool := c => WellFormed(c) && CatalogLaws.Explained(c);
    InitialHolds<X>();
    EmptyIsWellFormed();
    CatalogLaws.LedgerRebuildsCatalog([]);
    assert CatalogLaws.Run(EMPTY_CATALOG, []) == EMPTY_CATALOG;
    forall i | 0 <= i < |hs| ensures KeptBy(p, hs[i]) {
      if hs[i].Operate? {
        forall c | p(c) ensures p(Next(c, hs[i].op)) {
          OperationKeeps(c, hs[i].op);
          CatalogLaws.OperationExplained(c, hs[i].op);
        }
      }
    }
    FaultyRunKeeps(Initial(), hs, env, p);
  }

  // ---------- memory and disk ----------

  /** The catalog in memory is the primary file's, whenever there is a primary file. */
  ghost predicate Agrees<X>(mem: Snapshot<X>, fs: Fs<Snapshot<X>>) {
    match Primary(fs)
    case None => true
    case Some(Torn) => false
    case Some(Valid(s)) => s.catalog == mem.catalog
  }

  /** A commit the process survives leaves memory and disk in agreement, whether it returned
      or threw, except in one case: the file was replaced, the replacement could not be read
      back, and the two catalogs differ. */
  lemma CommitAgreesIff<X>(mem: Snapshot<X>, fs: Fs<Snapshot<X>>, attempts: set<Snapshot<X>>,
                           next: Catalog, f: CommitFaults)
    requires Store.Sound(fs, attempts) && Agrees(mem, fs)
    requires CommitOutcome(mem, fs, next, f).result != Died
    ensures var p := CommitOutcome(mem, fs, next, f);
      Agrees(p.mem, p.fs) <==>
        !(&& WriteOutcome(fs, Snapshot(mem.tables, next), true, f.write).result == ThrewPostReplace
          && !f.reread && next != mem.catalog)
  {
    hide WriteOutcome, SyncOutcome;
    var l := Store.Ledger(attempts, None);
    var snapshot := Snapshot(mem.tables, next);
    Store.WriteKeeps(fs, snapshot, true, f.write, l);
    var w := WriteOutcome(fs, snapshot, true, f.write);
    Store.RetryKeeps(w.fs, f.syncFile, f.syncDir, Store.AfterWrite(l, snapshot, w.result));
  }

  /** The primary file can be read whenever the process reads it. */
  ghost predicate Readings<X>(h: Happening<X>) {
    match h
    case Operate(_, f) => f.reread
    case Mutate(_, _) => true
    case Restart(f) => f.readable.primary
    case PowerFailure(_, _, f) => f.readable.primary
  }

  lemma LoadAgrees<X(!new)>(w: World<X>, f: LoadFaults, env: Env<Snapshot<X>>)
    requires Store.Holds(w.store.fs, w.store.ledger) && Faithful(env) && f.readable.primary
    requires forall s :: s in w.store.ledger.attempts ==> Normalized(s.catalog)
    ensures var o := LoadOutcome(w.store.fs, env, f);
      o.result.Loaded? ==> Agrees(o.result.value, o.fs)
  {
    hide WriteOutcome, Normalized;
    var (source, found) := Winner(w.store.fs, f.readable);
    if found.Some? {
      assert found.value in w.store.ledger.attempts;
      var v := env.sanitize(found.value);
      var fs, l := w.store.fs, w.store.ledger;
      if source != FromPrimary {
        Store.WriteKeeps(fs, v, false, f.repair, l);
        var written := WriteOutcome(fs, v, false, f.repair);
        l := Store.AfterWrite(l, v, written.result);
        fs := written.fs;
      }
      Store.CleanUpKeeps(fs, f.cleanup, Threw, l);
    }
  }

  lemma StepAgrees<X(!new)>(w: World<X>, h: Happening<X>, env: Env<Snapshot<X>>)
    requires Store.Holds(w.store.fs, w.store.ledger) && Faithful(env) && Readings(h)
    requires forall s :: s in w.store.ledger.attempts ==> Normalized(s.catalog)
    requires w.mem.Some? ==> Agrees(w.mem.value, w.store.fs)
    ensures var n := Step(w, h, env); n.mem.Some? ==> Agrees(n.mem.value, n.store.fs)
  {
    hide WriteOutcome, SyncOutcome, LoadOutcome, PowerLoss, PlanOf, CommitOutcome, Agrees, Normalized;
    match h
    case Operate(op, f) =>
      if w.mem.Some? {
        PerformedMatchesStore(w, op, f, env);
        match PlanOf(w.mem.value.catalog, op)
        case Refused =>
        case Commit(next) =>
          if CommitOutcome(w.mem.value, w.store.fs, next, f).result != Died {
            CommitAgreesIff(w.mem.value, w.store.fs, w.store.ledger.attempts, next, f);
          }
      }
    case Mutate(tables, f) => if w.mem.Some? { MutationAgrees(w, tables, f); }
    case Restart(f) => LoadAgrees(w, f, env);
    case PowerFailure(keep, fates, f) =>
      Store.StepKeeps(w.store, Store.PowerCut(keep, fates), env);
      LoadAgrees(w.(store := Store.Step(w.store, Store.PowerCut(keep, fates), env)), f, env);
  }

  lemma MutationAgrees<X>(w: World<X>, tables: X, f: WriteFaults)
    requires Store.Holds(w.store.fs, w.store.ledger) && w.mem.Some? && Agrees(w.mem.value, w.store.fs)
    ensures var mem := Snapshot(tables, w.mem.value.catalog);
      Agrees(mem, WriteOutcome(w.store.fs, mem, true, f).fs)
  {
    hide WriteOutcome;
    Store.WriteKeeps(w.store.fs, Snapshot(tables, w.mem.value.catalog), true, f, w.store.ledger);
  }

  lemma {:induction false} AgreementLasts<X(!new)>(w: World<X>, hs: seq<Happening<X>>, env: Env<Snapshot<X>>)
    requires Store.Holds(w.store.fs, w.store.ledger) && Faithful(env) && Vetted(hs) && Everywhere(w, ANY)
    requires w.mem.Some? ==> Agrees(w.mem.value, w.store.fs)
    requires forall i :: 0 <= i < |hs| ==> Readings(hs[i])
    ensures var n := Run(w, hs, env); n.mem.Some? ==> Agrees(n.mem.value, n.store.fs)
    decreases |hs|
  {
    hide Store.Holds, Step, Agrees, Readings, Normalized, Validated;
    if hs != [] {
      StoreHolds(w, hs[0], env);
      StepAgrees(w, hs[0], env);
      StepEverywhere(w, hs[0], env, ANY);
      AgreementLasts(Step(w, hs[0], env), hs[1..], env);
    }
  }

  /** With a readable primary file, memory and disk hold the same catalog after every outcome
      of every operation and save that leaves a process running, and after every restart. */
  lemma MemoryMatchesDisk<X(!new)>(hs: seq<Happening<X>>, env: Env<Snapshot<X>>)
    requires Faithful(env) && Vetted(hs)
    requires forall i :: 0 <= i < |hs| ==> Readings(hs[i])
    ensures var n := Run(Initial(), hs, env); n.mem.Some? ==> Agrees(n.mem.value, n.store.fs)
  {
    hide Store.Holds, Run, Agrees, Readings, Everywhere, Vetted;
    InitialHolds<X>();
    InitialEverywhere<X>(ANY);
    AgreementLasts(Initial(), hs, env);
  }

  // ---------- acknowledged means durable ----------

  /** The snapshots whose save begins when `h` happens. */
  ghost function BegunBy<X>(w: World<X>, h: Happening<X>): set<Snapshot<X>> {
    if w.mem.None? then {}
    else
      match h
      case Operate(op, _) =>
        (match PlanOf(w.mem.value.catalog, op)
         case Refused => {}
         case Commit(next) => {Snapshot(w.mem.value.tables, next)})
      case Mutate(tables, _) => {Snapshot(tables, w.mem.value.catalog)}
      case _ => {}
  }

  ghost function Begun<X>(w: World<X>, hs: seq<Happening<X>>, env: Env<Snapshot<X>>): set<Snapshot<X>>
    decreases |hs|
  {
    if hs == [] then {} else BegunBy(w, hs[0]) + Begun(Step(w, hs[0], env), hs[1..], env)
  }

  /** Some snapshot is pinned down: the primary holds a value of `since` come what may. */
  ghost predicate Pinned<X>(w: World<X>, s: set<Snapshot<X>>) {
    w.store.ledger.since.Some? && w.store.ledger.since.value <= s
  }

  lemma StepPinned<X>(w: World<X>, h: Happening<X>, env: Env<Snapshot<X>>, s: set<Snapshot<X>>)
    requires Store.Holds(w.store.fs, w.store.ledger) && Pinned(w, s) && Readings(h)
    ensures Pinned(Step(w, h, env), s + BegunBy(w, h))
  {
    hide WriteOutcome, SyncOutcome, PowerLoss, PlanOf, Performed;
    match h
    case Operate(op, f) =>
      if w.mem.Some? {
        match PlanOf(w.mem.value.catalog, op)
        case Refused =>
        case Commit(next) => CommitPinned(w.store, Snapshot(w.mem.value.tables, next), f, env, s);
      }
    case Mutate(tables, f) =>
    case Restart(f) => LoadPinned(w.store, f, env);
    case PowerFailure(keep, fates, f) =>
      Store.StepKeeps(w.store, Store.PowerCut(keep, fates), env);
      LoadPinned(Store.Step(w.store, Store.PowerCut(keep, fates), env), f, env);
  }

  lemma CommitPinned<X>(w: Store.World<Snapshot<X>>, snapshot: Snapshot<X>, f: CommitFaults,
                        env: Env<Snapshot<X>>, s: set<Snapshot<X>>)
    requires Store.Holds(w.fs, w.ledger) && w.ledger.since.Some? && w.ledger.since.value <= s
    ensures var n := Committing(w, snapshot, f, env);
      n.ledger.since.Some? && n.ledger.since.value <= s + {snapshot}
  {
    hide WriteOutcome, SyncOutcome;
    Store.WriteKeeps(w.fs, snapshot, true, f.write, w.ledger);
    var written := Store.Step(w, Store.Write(snapshot, true, f.write), env);
    Store.RetryKeeps(written.fs, f.syncFile, f.syncDir, written.ledger);
  }

  /** With the primary pinned and readable, a recovery writes nothing. */
  lemma LoadPinned<X>(w: Store.World<Snapshot<X>>, f: LoadFaults, env: Env<Snapshot<X>>)
    requires Store.Holds(w.fs, w.ledger) && w.ledger.since.Some? && f.readable.primary
    ensures Store.Step(w, Store.Load(f), env).ledger == w.ledger
    ensures match LoadOutcome(w.fs, env, f).result
      case LoadCrashed => true
      case Loaded(v, _, _) =>
        exists a :: a in w.ledger.since.value && a in w.ledger.attempts && v == env.sanitize(a)
  {
    assert Store.PrimaryIn(w.fs, w.fs.dir, w.ledger.since.value);
  }

  lemma {:induction false} RunPinned<X>(
      w: World<X>, hs: seq<Happening<X>>, env: Env<Snapshot<X>>, s: set<Snapshot<X>>)
    requires Store.Holds(w.store.fs, w.store.ledger) && Pinned(w, s)
    requires forall i :: 0 <= i < |hs| ==> Readings(hs[i])
    ensures Pinned(Run(w, hs, env), s + Begun(w, hs, env))
    decreases |hs|
  {
    hide Store.Holds, Step, BegunBy, Readings;
    if hs != [] {
      StoreHolds(w, hs[0], env);
      StepPinned(w, hs[0], env, s);
      RunPinned(Step(w, hs[0], env), hs[1..], env, s + BegunBy(w, hs[0]));
      assert s + BegunBy(w, hs[0]) + Begun(Step(w, hs[0], env), hs[1..], env) == s + Begun(w, hs, env);
    }
  }

  /** A commit that returns, directly or through the retried sync, pins its snapshot. */
  lemma CommittedIsPinned<X>(w: World<X>, h: Happening<X>, env: Env<Snapshot<X>>)
    requires Store.Holds(w.store.fs, w.store.ledger)
    requires Outcome(w, h).Some? && Outcome(w, h).value.result == Committed
    ensures Pinned(Step(w, h, env), {Outcome(w, h).value.mem})
    ensures Step(w, h, env).mem == Some(Outcome(w, h).value.mem)
  {
    hide WriteOutcome, SyncOutcome, PlanOf;
    match PlanOf(w.mem.value.catalog, h.op)
    case Refused =>
    case Commit(next) =>
      var snapshot := Snapshot(w.mem.value.tables, next);
      Store.WriteKeeps(w.store.fs, snapshot, true, h.commit.write, w.store.ledger);
      var written := Store.Step(w.store, Store.Write(snapshot, true, h.commit.write), env);
      Store.RetryKeeps(written.fs, h.commit.syncFile, h.commit.syncDir, written.ledger);
  }

  lemma PinnedRecovers<X(!new)>(
      w: World<X>, s: set<Snapshot<X>>, keep: seq<bool>, fates: nat -> Fate, f: LoadFaults, env: Env<Snapshot<X>>)
    requires Store.Holds(w.store.fs, w.store.ledger) && Pinned(w, s) && Everywhere(w, ANY)
    requires Faithful(env) && f.readable.primary
    ensures var end := Step(w, PowerFailure(keep, fates, f), env);
      end.mem.Some? ==> exists x :: x in s && end.mem.value.catalog == x.catalog
  {
    hide Store.Holds, LoadOutcome, PowerLoss, Normalized;
    var cut := Store.Step(w.store, Store.PowerCut(keep, fates), env);
    Store.StepKeeps(w.store, Store.PowerCut(keep, fates), env);
    LoadPinned(cut, f, env);
  }

  /** Acknowledged means durable. Once a catalog operation has returned normally, any further
      run followed by a power loss and a restart brings back its catalog, or one whose save
      began later. */
  lemma AcknowledgedDecisionIsDurable<X(!new)>(
      before: seq<Happening<X>>, h: Happening<X>, after: seq<Happening<X>>,
      keep: seq<bool>, fates: nat -> Fate, f: LoadFaults, env: Env<Snapshot<X>>)
    requires Faithful(env) && Vetted(before) && Vetted([h]) && Vetted(after)
    requires var w := Run(Initial(), before, env);
      Outcome(w, h).Some? && Outcome(w, h).value.result == Committed
    requires forall i :: 0 <= i < |after| ==> Readings(after[i])
    requires f.readable.primary
    ensures var w := Run(Initial(), before, env);
      var acked := Step(w, h, env);
      var end := Step(Run(acked, after, env), PowerFailure(keep, fates, f), env);
      end.mem.Some? ==>
        exists s :: s in {Outcome(w, h).value.mem} + Begun(acked, after, env)
                    && end.mem.value.catalog == s.catalog
  {
    hide Store.Holds, Performed, Begun, PlanOf, Normalized, Validated, Run, Step, Everywhere, Pinned, Outcome;
    InitialHolds<X>();
    RunHolds(Initial(), before, env);
    InitialEverywhere<X>(ANY);
    FaultyRunKeeps(Initial(), before, env, ANY);
    var w := Run(Initial(), before, env);
    CommittedIsPinned(w, h, env);
    var acked := Step(w, h, env);
    StoreHolds(w, h, env);
    assert [h][0] == h;
    StepEverywhere(w, h, env, ANY);
    FaultyRunKeeps(acked, after, env, ANY);
    RunPinned(acked, after, env, {Outcome(w, h).value.mem});
    RunHolds(acked, after, env);
    PinnedRecovers(Run(acked, after, env), {Outcome(w, h).value.mem} + Begun(acked, after, env), keep, fates, f, env);
  }

  /** After an unconfirmed commit the new catalog is what memory and disk show, and replaying
      its key confirms it: if the replay returns, that very catalog is pinned. */
  lemma ReplayConfirms<X>(w: World<X>, h: Happening<X>, replay: Happening<X>, env: Env<Snapshot<X>>)
    requires Store.Holds(w.store.fs, w.store.ledger) && h.Operate? && h.op.Decide? && h.op.key != ""
    requires Outcome(w, h).Some? && Outcome(w, h).value.result == Unconfirmed && h.commit.reread
    requires replay.Operate? && replay.op.Decide? && replay.op.key == h.op.key
    ensures var shown := Step(w, h, env);
      && shown.mem.Some? && Primary(shown.store.fs) == Some(Valid(shown.mem.value))
      && shown.mem.value.catalog == Next(w.mem.value.catalog, h.op)
      && Outcome(shown, replay).Some?
      && (Outcome(shown, replay).value.result == Committed ==>
            && Step(shown, replay, env).mem == shown.mem
            && Pinned(Step(shown, replay, env), {shown.mem.value}))
  {
    hide WriteOutcome, SyncOutcome, PlanOf, Next, KeyUsed;
    match PlanOf(w.mem.value.catalog, h.op)
    case Refused =>
    case Commit(next) =>
      var snapshot := Snapshot(w.mem.value.tables, next);
      Store.WriteKeeps(w.store.fs, snapshot, true, h.commit.write, w.store.ledger);
      var written := Store.Step(w.store, Store.Write(snapshot, true, h.commit.write), env);
      Store.RetryKeeps(written.fs, h.commit.syncFile, h.commit.syncDir, written.ledger);
      CatalogLaws.DecisionRecordsKey(w.mem.value.catalog, h.op);
      NextIsPlanned(w.mem.value.catalog, h.op, next);
      var shown := Step(w, h, env);
      StoreHolds(w, h, env);
      assert PlanOf(shown.mem.value.catalog, replay.op) == Commit(shown.mem.value.catalog);
      if Outcome(shown, replay).value.result == Committed {
        CommittedIsPinned(shown, replay, env);
      }
  }

  lemma NextIsPlanned(c: Catalog, op: Op, next: Catalog)
    requires PlanOf(c, op) == Commit(next)
    ensures Next(c, op) == next
  {
  }
}
