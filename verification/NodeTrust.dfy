/** Node trust in the control plane, the nodes the data plane runs workloads on, and the
    runtime units it keeps. */
module NodeTrust {
  import opened Wrappers
  import opened Tables
  import opened Scheduler
  import opened PlatformStateStore

  const BY_ID: Node -> string := (n: Node) => n.id

  datatype Event =
    | Register(id: string, named: bool, expiresAt: int)
    | Promote(id: string, expiresAt: int)
    | Quarantine(id: string)
    | Revoke(id: string)
    | Expire(now: int)

  function Promoted(n: Node, expiresAt: int): Node {
    n.(trust := TrustedNode, trustExpiresAt := expiresAt,
       status := if n.status == OfflineNode then PendingNode else n.status)
  }

  function Quarantined(n: Node): Node {
    n.(trust := QuarantinedTrust, status := if n.status == ReadyNode then DrainingNode else n.status)
  }

  function Revoked(n: Node): Node {
    n.(trust := RevokedTrust, status := OfflineNode)
  }

  predicate RunsOut(n: Node, now: int) {
    n.trust != RevokedTrust && n.trust != ExpiredTrust && n.trustExpiresAt <= now
  }

  function Lapsed(n: Node): Node {
    n.(trust := ExpiredTrust, status := if n.status == ReadyNode then PendingNode else n.status)
  }

  /** Changes the first node with an id, if there is one. */
  function ChangeNode(nodes: seq<Node>, id: string, change: Node -> Node): seq<Node> {
    if nodes == [] then []
    else if nodes[0].id == id then [change(nodes[0])] + nodes[1..]
    else [nodes[0]] + ChangeNode(nodes[1..], id, change)
  }

  /** New nodes carry a fresh id, so registering always adds one. */
  function After(nodes: seq<Node>, e: Event): seq<Node> {
    match e
    case Register(id, named, expiresAt) => nodes + [Node(id, named, ReadyNode, VerifiedTrust, expiresAt)]
    case Promote(id, expiresAt) => ChangeNode(nodes, id, (n: Node) => Promoted(n, expiresAt))
    case Quarantine(id) => ChangeNode(nodes, id, Quarantined)
    case Revoke(id) => ChangeNode(nodes, id, Revoked)
    case Expire(now) => MapWhere(nodes, (n: Node) => RunsOut(n, now), Lapsed)
  }

  // ---------- what each event does, node by node ----------

  ghost predicate IsFirst(nodes: seq<Node>, id: string, i: nat)
    requires i < |nodes|
  {
    nodes[i].id == id && forall j :: 0 <= j < i ==> nodes[j].id != id
  }

  lemma {:induction false} ChangeIs(nodes: seq<Node>, id: string, change: Node -> Node)
    ensures var n := ChangeNode(nodes, id, change);
      |n| == |nodes| && forall i: nat :: i < |nodes| ==>
        n[i] == if IsFirst(nodes, id, i) then change(nodes[i]) else nodes[i]
  {
    if nodes != [] && nodes[0].id != id {
      ChangeIs(nodes[1..], id, change);
      forall i: nat | 0 < i < |nodes| ensures IsFirst(nodes, id, i) <==> IsFirst(nodes[1..], id, i - 1) {
        assert forall j :: 0 < j <= i ==> nodes[j] == nodes[1..][j - 1];
      }
    }
  }

  /** What becomes of a node; `first` says that it is the first with the id of the event. */
  ghost predicate Becomes(e: Event, first: bool, was: Node, now: Node) {
    && now.id == was.id && now.named == was.named
    && (e.Promote? && first ==>
          now.trust == TrustedNode && now.trustExpiresAt == e.expiresAt
          && now.status == if was.status == OfflineNode then PendingNode else was.status)
    && (e.Quarantine? && first ==>
          now.trust == QuarantinedTrust && now.trustExpiresAt == was.trustExpiresAt
          && now.status == if was.status == ReadyNode then DrainingNode else was.status)
    && (e.Revoke? && first ==>
          now.trust == RevokedTrust && now.trustExpiresAt == was.trustExpiresAt && now.status == OfflineNode)
    && (e.Expire? ==>
          var runsOut := was.trust != RevokedTrust && was.trust != ExpiredTrust && was.trustExpiresAt <= e.now;
          now.trustExpiresAt == was.trustExpiresAt
          && now.trust == (if runsOut then ExpiredTrust else was.trust)
          && now.status == if runsOut && was.status == ReadyNode then PendingNode else was.status)
    && (!e.Expire? && !first ==> now == was)
  }

  /** A registration appends a ready, verified node. The others change trust and status of the first
      node with the id: a promoted node is trusted anew, and pending if it was offline; a quarantined
      one drains if it was ready; a revoked one is offline. When the clock runs, every node whose
      trust has run out and is neither revoked nor expired yet expires, and is pending if it was
      ready. */
  lemma EventDoes(nodes: seq<Node>, e: Event)
    ensures e.Register? ==> After(nodes, e) == nodes + [Node(e.id, e.named, ReadyNode, VerifiedTrust, e.expiresAt)]
    ensures !e.Register? ==> |After(nodes, e)| == |nodes| && forall i: nat :: i < |nodes| ==>
      Becomes(e, !e.Expire? && IsFirst(nodes, e.id, i), nodes[i], After(nodes, e)[i])
  {
    hide ChangeNode, IsFirst;
    match e
    case Register(_, _, _) =>
    case Promote(id, expiresAt) => ChangeIs(nodes, id, (n: Node) => Promoted(n, expiresAt));
    case Quarantine(id) => ChangeIs(nodes, id, Quarantined);
    case Revoke(id) => ChangeIs(nodes, id, Revoked);
    case Expire(now) =>
      assert forall i :: 0 <= i < |nodes| ==>
        After(nodes, e)[i] == if RunsOut(nodes[i], now) then Lapsed(nodes[i]) else nodes[i];
  }

  // ---------- runs with failed saves and restarts ----------

  /** A change that is saved, or whose save fails, so that memory is rolled back; or a restart
      that finds some files. */
  datatype Happening = Change(event: Event, saved: bool) | Restart(files: Files<seq<Node>>)

  /** The nodes in memory, with an observer's record: every list whose save was begun. */
  datatype World = World(nodes: seq<Node>, attempts: set<seq<Node>>)

  function Saved(files: Files<seq<Node>>): seq<Node> {
    Recovered(files).GetOr([])
  }

  /** What a restart puts in memory: reading the file back drops nodes without a name. */
  function Restored(files: Files<seq<Node>>): seq<Node> {
    Filter(Saved(files), (n: Node) => n.named)
  }

  /** A restart may find any files that hold lists someone tried to save. */
  ghost function Next(w: World, h: Happening): World {
    match h
    case Change(e, saved) => World(if saved then After(w.nodes, e) else w.nodes, w.attempts + {After(w.nodes, e)})
    case Restart(files) =>
      if HoldsOnly(files, w.attempts) then World(Restored(files), w.attempts + {Restored(files)}) else w
  }

  ghost function Run(hs: seq<Happening>): World {
    if hs == [] then World([], {[]}) else Next(Run(hs[..|hs| - 1]), hs[|hs| - 1])
  }

  // ---------- readiness ----------

  /** A node that is ready is not barred. */
  ghost predicate ReadyIsCleared(nodes: seq<Node>) {
    forall i :: 0 <= i < |nodes| && nodes[i].status == ReadyNode ==> !Barred(nodes[i])
  }

  /** The same nodes in the same places, perhaps with more behind them; what is ready now
      and was there before was ready before. */
  ghost predicate OnlyLoses(before: seq<Node>, after: seq<Node>) {
    && |before| <= |after|
    && forall i :: 0 <= i < |before| ==>
         after[i].id == before[i].id && (after[i].status == ReadyNode ==> before[i].status == ReadyNode)
  }

  /** What a change does to a single node. */
  ghost predicate Tame(change: Node -> Node) {
    forall n :: change(n).id == n.id
      && (change(n).status == ReadyNode ==> n.status == ReadyNode && !Barred(change(n)))
  }

  lemma {:induction false} TameChange(nodes: seq<Node>, id: string, change: Node -> Node)
    requires Tame(change) && ReadyIsCleared(nodes)
    ensures ReadyIsCleared(ChangeNode(nodes, id, change)) && OnlyLoses(nodes, ChangeNode(nodes, id, change))
  {
    if nodes != [] && nodes[0].id != id {
      TameChange(nodes[1..], id, change);
      var rest := ChangeNode(nodes[1..], id, change);
      assert forall i :: 0 < i < |nodes| ==> nodes[i] == nodes[1..][i - 1];
      assert forall i :: 0 < i <= |rest| ==> ([nodes[0]] + rest)[i] == rest[i - 1];
    }
  }

  lemma EventKeeps(nodes: seq<Node>, e: Event)
    requires ReadyIsCleared(nodes)
    ensures ReadyIsCleared(After(nodes, e)) && OnlyLoses(nodes, After(nodes, e))
  {
    hide ChangeNode;
    match e
    case Register(id, named, expiresAt) =>
      assert forall i :: 0 <= i < |nodes| ==> After(nodes, e)[i] == nodes[i];
    case Promote(id, expiresAt) => TameChange(nodes, id, (n: Node) => Promoted(n, expiresAt));
    case Quarantine(id) => TameChange(nodes, id, Quarantined);
    case Revoke(id) => TameChange(nodes, id, Revoked);
    case Expire(now) =>
      var after := After(nodes, e);
      assert forall i :: 0 <= i < |nodes| ==> after[i] == if RunsOut(nodes[i], now) then Lapsed(nodes[i]) else nodes[i];
  }

  lemma {:induction false} FilterMembers<T>(s: seq<T>, keep: T -> bool)
    ensures forall x :: x in Filter(s, keep) <==> x in s && keep(x)
    decreases |s|
  {
    if s != [] {
      FilterMembers(s[..|s| - 1], keep);
      assert s == s[..|s| - 1] + [s[|s| - 1]];
    }
  }

  lemma RestoredMembers(files: Files<seq<Node>>)
    ensures forall n :: n in Restored(files) <==> n in Saved(files) && n.named
    ensures ReadyIsCleared(Saved(files)) ==> ReadyIsCleared(Restored(files))
  {
    hide Filter;
    FilterMembers(Saved(files), (n: Node) => n.named);
    if ReadyIsCleared(Saved(files)) {
      forall i | 0 <= i < |Restored(files)| && Restored(files)[i].status == ReadyNode
        ensures !Barred(Restored(files)[i])
      {
        assert Restored(files)[i] in Saved(files);
      }
    }
  }

  /** The nodes in memory were attempted, and every attempted list has its ready nodes cleared. */
  ghost predicate Cleared(w: World) {
    w.nodes in w.attempts && [] in w.attempts && forall nodes :: nodes in w.attempts ==> ReadyIsCleared(nodes)
  }

  lemma NextKeeps(w: World, h: Happening)
    requires Cleared(w)
    ensures Cleared(Next(w, h))
  {
    hide ReadyIsCleared, After, Restored;
    match h
    case Change(e, _) => EventKeeps(w.nodes, e);
    case Restart(files) =>
      if HoldsOnly(files, w.attempts) {
        RecoveryHoldsAttempts(files, w.attempts, 0, NoFault, false);
        RestoredMembers(files);
      }
  }

  /** Over any run, with failed saves, and with restarts that bring back any list that was ever to be
      saved, ready nodes are never quarantined, revoked or expired: in memory and in every file. */
  lemma {:induction false} ReadyIsClearedInRuns(hs: seq<Happening>)
    ensures Cleared(Run(hs)) && ReadyIsCleared(Run(hs).nodes)
    decreases |hs|
  {
    hide Next, ReadyIsCleared;
    if hs == [] {
      NothingIsCleared();
    } else {
      ReadyIsClearedInRuns(hs[..|hs| - 1]);
      NextKeeps(Run(hs[..|hs| - 1]), hs[|hs| - 1]);
    }
  }

  lemma NothingIsCleared()
    ensures ReadyIsCleared([])
  {
  }

  ghost predicate IsReady(nodes: seq<Node>, id: string) {
    exists n :: n in nodes && n.id == id && n.status == ReadyNode
  }

  /** From `m` on, no restart of the run brings back an older list than the one in memory. */
  ghost predicate NoneOlder(hs: seq<Happening>, m: nat) {
    forall k :: m <= k < |hs| && hs[k].Restart? && HoldsOnly(hs[k].files, Run(hs[..k]).attempts) ==>
      Saved(hs[k].files) == Run(hs[..k]).nodes
  }

  /** Identifiers are random, so none is registered a second time. */
  ghost predicate NotRegistered(hs: seq<Happening>, m: nat, id: string) {
    forall k :: m <= k < |hs| && hs[k].Change? && hs[k].event.Register? ==> hs[k].event.id != id
  }

  lemma StaysUnready(w: World, h: Happening, id: string)
    requires Cleared(w) && !IsReady(w.nodes, id)
    requires h.Change? && h.event.Register? ==> h.event.id != id
    requires h.Restart? && HoldsOnly(h.files, w.attempts) ==> Saved(h.files) == w.nodes
    ensures !IsReady(Next(w, h).nodes, id)
  {
    hide HoldsOnly, ChangeNode;
    match h
    case Change(e, saved) =>
      if saved && IsReady(After(w.nodes, e), id) {
        var after := After(w.nodes, e);
        EventKeeps(w.nodes, e);
        var i :| 0 <= i < |after| && after[i].id == id && after[i].status == ReadyNode;
        assert i >= |w.nodes|;
        if !e.Register? { SameLength(w.nodes, e); }
      }
    case Restart(files) => RestoredMembers(files);
  }

  lemma {:induction false} ChangeLength(nodes: seq<Node>, id: string, change: Node -> Node)
    ensures |ChangeNode(nodes, id, change)| == |nodes|
  {
    if nodes != [] && nodes[0].id != id {
      ChangeLength(nodes[1..], id, change);
    }
  }

  lemma SameLength(nodes: seq<Node>, e: Event)
    requires !e.Register?
    ensures |After(nodes, e)| == |nodes|
  {
    match e
    case Promote(id, expiresAt) => ChangeLength(nodes, id, (n: Node) => Promoted(n, expiresAt));
    case Quarantine(id) => ChangeLength(nodes, id, Quarantined);
    case Revoke(id) => ChangeLength(nodes, id, Revoked);
    case Expire(_) =>
  }

  /** While no restart brings back an older list, a node that is not ready never is again. */
  lemma {:induction false} ReadinessOnlyFades(hs: seq<Happening>, m: nat, id: string)
    requires m <= |hs| && NoneOlder(hs, m) && NotRegistered(hs, m, id) && !IsReady(Run(hs[..m]).nodes, id)
    ensures !IsReady(Run(hs).nodes, id)
    decreases |hs|
  {
    hide Next, IsReady, Cleared, HoldsOnly, Saved;
    if m == |hs| {
      assert hs[..m] == hs;
    } else {
      var last := |hs| - 1;
      var before := hs[..last];
      assert before[..m] == hs[..m];
      assert forall k :: 0 <= k < last ==> before[..k] == hs[..k] && before[k] == hs[k];
      ReadinessOnlyFades(before, m, id);
      ReadyIsClearedInRuns(before);
      assert hs[..last] == before;
      StaysUnready(Run(before), hs[last], id);
    }
  }

  /** The node the data plane picks: the first ready one. */
  function Chosen(nodes: seq<Node>): (n: Option<Node>)
    ensures n.Some? ==> n.value in nodes && n.value.status == ReadyNode
    ensures n.None? <==> forall x :: x in nodes ==> x.status != ReadyNode
  {
    if nodes == [] then None
    else if nodes[0].status == ReadyNode then Some(nodes[0])
    else Chosen(nodes[1..])
  }

  /** The data plane looks at the status only, yet never picks a barred node; and it finds one
      exactly when the scheduler, which looks at trust too, has an eligible one. */
  lemma ChosenIsEligible(hs: seq<Happening>)
    ensures var chosen := Chosen(Run(hs).nodes);
      && (chosen.Some? ==> Eligible(chosen.value))
      && (chosen.None? <==> Filter(Run(hs).nodes, Eligible) == [])
  {
    hide Run, Chosen, Filter;
    ReadyIsClearedInRuns(hs);
    ClearedChoice(Run(hs).nodes);
  }

  lemma ClearedChoice(nodes: seq<Node>)
    requires ReadyIsCleared(nodes)
    ensures Chosen(nodes).Some? ==> Eligible(Chosen(nodes).value)
    ensures Chosen(nodes).None? <==> Filter(nodes, Eligible) == []
  {
    hide Filter;
    var at := FilterIndices(nodes, Eligible);
    var chosen := Chosen(nodes);
    if chosen.Some? {
      var i :| 0 <= i < |nodes| && nodes[i] == chosen.value;
      assert Eligible(nodes[i]) && i in at;
    }
    forall i | 0 <= i < |nodes| && Eligible(nodes[i]) ensures chosen.Some? {
      assert nodes[i] in nodes;
    }
    assert at != [] ==> Eligible(nodes[at[0]]);
  }

  ghost predicate IsBarred(nodes: seq<Node>, id: string) {
    forall n :: n in nodes && n.id == id ==> Barred(n)
  }

  /** A node that is barred at some point of a run is not picked at any later point, even after
      its trust is restored, while no restart in between brings back an older list. */
  lemma BarredIsNeverChosen(hs: seq<Happening>, m: nat, id: string)
    requires m <= |hs| && NoneOlder(hs, m) && NotRegistered(hs, m, id) && IsBarred(Run(hs[..m]).nodes, id)
    ensures var chosen := Chosen(Run(hs).nodes); chosen.Some? ==> chosen.value.id != id
  {
    hide Run, Next, NoneOlder, NotRegistered;
    var nodes := Run(hs[..m]).nodes;
    ReadyIsClearedInRuns(hs[..m]);
    forall n | n in nodes && n.id == id ensures n.status != ReadyNode {
      var i :| 0 <= i < |nodes| && nodes[i] == n;
    }
    ReadinessOnlyFades(hs, m, id);
  }

  /** Why the condition is there: a node is registered and quarantined, both saves are clean, and
      the process restarts. The data plane picks the node exactly when the backup of the second
      save was stamped later than its temporary file. */
  lemma QuarantineIsForgottenIff(id: string, expiresAt: int, first: int, wroteAt: int, copiedAt: int)
    ensures var ready := Node(id, true, ReadyNode, VerifiedTrust, expiresAt);
      var once := AfterWrite(NoFiles(), [ready], true, first, first, NoFault);
      var twice := AfterWrite(once, [Quarantined(ready)], true, wroteAt, copiedAt, NoFault);
      var hs := [Change(Register(id, true, expiresAt), true), Change(Quarantine(id), true), Restart(twice)];
      && IsBarred(Run(hs[..2]).nodes, id)
      && (Chosen(Run(hs).nodes) == Some(ready) <==> copiedAt > wroteAt)
  {
    hide Newest, Filter;
    var ready := Node(id, true, ReadyNode, VerifiedTrust, expiresAt);
    var once := AfterWrite(NoFiles(), [ready], true, first, first, NoFault);
    var twice := AfterWrite(once, [Quarantined(ready)], true, wroteAt, copiedAt, NoFault);
    var hs := [Change(Register(id, true, expiresAt), true), Change(Quarantine(id), true), Restart(twice)];
    QuarantineSaved(hs, ready);
    assert Candidates(twice) == [Stamped([Quarantined(ready)], wroteAt), Stamped([ready], copiedAt)];
    RecoveredAfterSave(once, [Quarantined(ready)], wroteAt, copiedAt);
    var named := (n: Node) => n.named;
    OneNode(ready, named);
    OneNode(Quarantined(ready), named);
    assert hs[..2] == hs[..|hs| - 1] && Run(hs) == Next(Run(hs[..2]), hs[2]);
  }

  lemma QuarantineSaved(hs: seq<Happening>, ready: Node)
    requires ready.status == ReadyNode && ready.trust == VerifiedTrust && |hs| == 3
    requires hs[0] == Change(Register(ready.id, ready.named, ready.trustExpiresAt), true)
    requires hs[1] == Change(Quarantine(ready.id), true)
    ensures Run(hs[..2]) == World([Quarantined(ready)], {[], [ready], [Quarantined(ready)]})
  {
    assert hs[..2][..1] == hs[..1] && hs[..1][..0] == [];
    assert After([], hs[0].event) == [ready];
    assert Run(hs[..1]) == Next(Run([]), hs[0]) == World([ready], {[], [ready]});
    assert ChangeNode([ready], ready.id, Quarantined) == [Quarantined(ready)];
    assert Run(hs[..2]) == Next(Run(hs[..1]), hs[1]);
  }

  lemma OneNode(n: Node, keep: Node -> bool)
    ensures Filter([n], keep) == if keep(n) then [n] else []
    ensures Chosen([n]) == if n.status == ReadyNode then Some(n) else None
  {
    assert [n][..0] == [];
  }

  // ---------- the control plane ----------

  class ControlPlane {
    var nodes: seq<Node>

    constructor ()
      ensures nodes == []
    {
      nodes := [];
    }

    /** Finds a node, changes it in place and returns it as it is now. */
    method ChangeFirst(id: string, change: Node -> Node) returns (updated: Option<Node>)
      requires forall n :: change(n).id == n.id
      modifies this
      ensures nodes == ChangeNode(old(nodes), id, change)
      ensures updated == Find(nodes, BY_ID, id) && (updated.None? <==> Find(old(nodes), BY_ID, id).None?)
    {
      ChangedFound(nodes, id, change);
      for i := 0 to |nodes|
        invariant nodes == old(nodes) && forall j :: 0 <= j < i ==> nodes[j].id != id
      {
        if nodes[i].id == id {
          ChangedAt(nodes, id, change, i);
          FoundAt(nodes, id, i);
          updated := Some(change(nodes[i]));
          nodes := nodes[i := change(nodes[i])];
          return;
        }
      }
      NoneChanged(nodes, id, change);
      updated := None;
    }

    method RegisterNode(id: string, named: bool, expiresAt: int)
      modifies this
      ensures nodes == After(old(nodes), Register(id, named, expiresAt))
    {
      nodes := nodes + [Node(id, named, ReadyNode, VerifiedTrust, expiresAt)];
    }

    method PromoteNodeTrust(id: string, expiresAt: int) returns (updated: Option<Node>)
      modifies this
      ensures nodes == After(old(nodes), Promote(id, expiresAt))
      ensures updated == Find(nodes, BY_ID, id) && (updated.None? <==> Find(old(nodes), BY_ID, id).None?)
    {
      updated := ChangeFirst(id, (n: Node) => Promoted(n, expiresAt));
    }

    method QuarantineNodeTrust(id: string) returns (updated: Option<Node>)
      modifies this
      ensures nodes == After(old(nodes), Quarantine(id))
      ensures updated == Find(nodes, BY_ID, id) && (updated.None? <==> Find(old(nodes), BY_ID, id).None?)
    {
      updated := ChangeFirst(id, Quarantined);
    }

    method RevokeNodeTrust(id: string) returns (updated: Option<Node>)
      modifies this
      ensures nodes == After(old(nodes), Revoke(id))
      ensures updated == Find(nodes, BY_ID, id) && (updated.None? <==> Find(old(nodes), BY_ID, id).None?)
    {
      updated := ChangeFirst(id, Revoked);
    }

    method ApplyNodeTrustExpiry(now: int) returns (expired: nat)
      modifies this
      ensures nodes == After(old(nodes), Expire(now))
      ensures expired == |Filter(old(nodes), (n: Node) => RunsOut(n, now))|
    {
      ghost var lapsing := (n: Node) => RunsOut(n, now);
      expired := 0;
      for i := 0 to |nodes|
        invariant |nodes| == |old(nodes)|
        invariant nodes[..i] == After(old(nodes), Expire(now))[..i] && nodes[i..] == old(nodes)[i..]
        invariant expired == |Filter(old(nodes)[..i], lapsing)|
      {
        var n := nodes[i];
        assert n == old(nodes)[i] && old(nodes)[..i + 1][..i] == old(nodes)[..i];
        if RunsOut(n, now) {
          nodes := nodes[i := Lapsed(n)];
          expired := expired + 1;
        }
      }
      assert old(nodes)[..|nodes|] == old(nodes);
    }

    method ChooseNode() returns (chosen: Option<Node>)
      ensures chosen == Chosen(nodes)
    {
      for i := 0 to |nodes|
        invariant Chosen(nodes) == Chosen(nodes[i..])
      {
        if nodes[i].status == ReadyNode {
          return Some(nodes[i]);
        }
      }
      return None;
    }
  }

  lemma {:induction false} ChangedAt(nodes: seq<Node>, id: string, change: Node -> Node, i: nat)
    requires i < |nodes| && nodes[i].id == id && forall j :: 0 <= j < i ==> nodes[j].id != id
    ensures ChangeNode(nodes, id, change) == nodes[i := change(nodes[i])]
  {
    if i > 0 {
      ChangedAt(nodes[1..], id, change, i - 1);
    }
  }

  lemma {:induction false} NoneChanged(nodes: seq<Node>, id: string, change: Node -> Node)
    requires forall j :: 0 <= j < |nodes| ==> nodes[j].id != id
    ensures ChangeNode(nodes, id, change) == nodes
  {
    if nodes != [] {
      NoneChanged(nodes[1..], id, change);
    }
  }

  lemma {:induction false} ChangedFound(nodes: seq<Node>, id: string, change: Node -> Node)
    requires forall n :: change(n).id == n.id
    ensures Find(ChangeNode(nodes, id, change), BY_ID, id) ==
      match Find(nodes, BY_ID, id) case None => None case Some(n) => Some(change(n))
  {
    if nodes != [] && nodes[0].id != id {
      ChangedFound(nodes[1..], id, change);
    }
  }

  lemma {:induction false} FoundAt(nodes: seq<Node>, id: string, i: nat)
    requires i < |nodes| && nodes[i].id == id && forall j :: 0 <= j < i ==> nodes[j].id != id
    ensures Find(nodes, BY_ID, id) == Some(nodes[i])
  {
    if i > 0 {
      FoundAt(nodes[1..], id, i - 1);
    }
  }

  // ---------- runtime units ----------

  datatype UnitState = Running | Failed | Stopped

  datatype Unit = Unit(id: string, workloadId: string, nodeId: string, state: UnitState)

  const BY_UNIT_ID: Unit -> string := (u: Unit) => u.id

  predicate Stops(u: Unit, workloadId: string) {
    u.workloadId == workloadId && u.state == Running
  }

  /** The units that stopping a workload stops, as they are afterwards. */
  function StoppedUnits(units: seq<Unit>, workloadId: string): (stopped: seq<Unit>)
    ensures units == [] ==> stopped == []
    ensures forall u :: u in units && Stops(u, workloadId) ==> u.(state := Stopped) in stopped
    ensures forall u :: u in stopped ==> exists v :: v in units && Stops(v, workloadId) && u == v.(state := Stopped)
  {
    if units == [] then []
    else
      var u := units[|units| - 1];
      assert units == units[..|units| - 1] + [u];
      StoppedUnits(units[..|units| - 1], workloadId)
      + if Stops(u, workloadId) then [u.(state := Stopped)] else []
  }

  /** The table afterwards, every unit in its place. */
  function UnitsAfterStop(units: seq<Unit>, workloadId: string): seq<Unit> {
    MapWhere(units, (u: Unit) => Stops(u, workloadId), (u: Unit) => u.(state := Stopped))
  }

  lemma StoppedEverywhere(units: seq<Unit>, workloadId: string)
    requires Unique(units, BY_UNIT_ID)
    ensures var after := UnitsAfterStop(units, workloadId);
      && Unique(after, BY_UNIT_ID)
      && (forall u :: u in after && u.workloadId == workloadId ==> u.state != Running)
      && (forall u :: u in StoppedUnits(units, workloadId) ==>
            u in after && u.workloadId == workloadId && u.state == Stopped)
  {
    hide StoppedUnits;
    MapWhereMembers(units, (u: Unit) => Stops(u, workloadId), (u: Unit) => u.(state := Stopped));
    var after := UnitsAfterStop(units, workloadId);
    assert forall j :: 0 <= j < |units| ==> BY_UNIT_ID(after[j]) == BY_UNIT_ID(units[j]);
  }

  /** A stop changes exactly the running units of the workload, where they stand, and returns them as
      they are afterwards, in order. */
  lemma {:induction false} StopDoes(units: seq<Unit>, workloadId: string) returns (places: seq<nat>)
    ensures var after := UnitsAfterStop(units, workloadId);
      |after| == |units| && forall i :: 0 <= i < |units| ==>
        after[i] == if units[i].workloadId == workloadId && units[i].state == Running
                    then Unit(units[i].id, workloadId, units[i].nodeId, Stopped) else units[i]
    ensures var stopped := StoppedUnits(units, workloadId);
      && Places(places, units, (u: Unit) => u.workloadId == workloadId && u.state == Running)
      && |stopped| == |places| && forall k :: 0 <= k < |places| ==>
           (places[k] < |units| && stopped[k] == units[places[k]].(state := Stopped))
    decreases |units|
  {
    hide Places;
    var running := (u: Unit) => u.workloadId == workloadId && u.state == Running;
    places := [];
    if units == [] {
      NoPlaces(running);
    } else {
      var last: nat := |units| - 1;
      places := StopDoes(units[..last], workloadId);
      PlacesOn(places, units, running);
      if running(units[last]) { places := places + [last]; }
    }
  }

  lemma OtherIds(units: seq<Unit>, i: nat)
    requires i < |units| && Unique(units, BY_UNIT_ID)
    ensures forall j :: 0 <= j < i ==> BY_UNIT_ID(units[j]) != BY_UNIT_ID(units[i])
  {
  }

  lemma StoppedNext(units: seq<Unit>, i: nat, workloadId: string)
    requires i < |units|
    ensures StoppedUnits(units[..i + 1], workloadId) == StoppedUnits(units[..i], workloadId)
              + if Stops(units[i], workloadId) then [units[i].(state := Stopped)] else []
  {
    assert units[..i + 1][..i] == units[..i];
  }

  class DataPlane {
    var units: seq<Unit>

    constructor ()
      ensures units == []
    {
      units := [];
    }

    method SaveUnit(unit: Unit)
      modifies this
      ensures units == Upsert(old(units), BY_UNIT_ID, unit)
    {
      units := UpsertRecord(units, BY_UNIT_ID, unit);
    }

    /** Stops every running unit of a workload, one save at a time, and touches no other unit. */
    method StopWorkload(workloadId: string) returns (stopped: seq<Unit>)
      requires Unique(units, BY_UNIT_ID)
      modifies this
      ensures units == UnitsAfterStop(old(units), workloadId)
      ensures Unique(units, BY_UNIT_ID) && forall u :: u in units && u.workloadId == workloadId ==> u.state != Running
      ensures stopped == StoppedUnits(old(units), workloadId)
      ensures forall u :: u in stopped ==> u in units && u.workloadId == workloadId && u.state == Stopped
    {
      hide StoppedUnits, Upsert, Unique;
      ghost var was := units;
      stopped := [];
      for i := 0 to |units|
        invariant |units| == |was|
        invariant forall j :: 0 <= j < i ==>
          units[j] == if Stops(was[j], workloadId) then was[j].(state := Stopped) else was[j]
        invariant forall j :: i <= j < |was| ==> units[j] == was[j]
        invariant stopped == StoppedUnits(was[..i], workloadId)
      {
        StoppedNext(was, i, workloadId);
        if Stops(units[i], workloadId) {
          var next := units[i].(state := Stopped);
          OtherIds(was, i);
          assert forall j :: 0 <= j < i ==> BY_UNIT_ID(units[j]) == BY_UNIT_ID(was[j]) != BY_UNIT_ID(was[i]);
          UpsertAt(units, BY_UNIT_ID, next, i);
          SaveUnit(next);
          stopped := stopped + [next];
        }
      }
      assert was[..|units|] == was;
      assert units == UnitsAfterStop(was, workloadId);
      StoppedEverywhere(was, workloadId);
    }
  }
}
