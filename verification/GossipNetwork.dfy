/** Networks of honest nodes that announce themselves, answer with their peers, and take
    answers in, in any order and with any losses. */
module GossipNetwork {
  import opened Wrappers
  import opened Tables
  import opened Gossip
  import opened PlatformStateStore

  /** A reply on its way. */
  datatype Reply = Reply(to: nat, list: seq<Entry>)

  /** A node's table, with an observer's records: every table whose save was begun; the domains
      that may be trusted, being last upserted with signed trust or brought back since; the domains
      a signed request ever named; and the nodes whose announcement was taken in, and since then
      neither overwritten by the operator nor lost in a restart. */
  datatype Member = Member(
    peers: seq<Peer>, attempts: set<seq<Peer>>, signed: set<string>, everSigned: set<string>, joined: set<nat>)

  datatype Net = Net(members: seq<Member>, replies: seq<Reply>, announced: set<nat>)

  /** `saved` is whether a change is saved or rolled back. A restart finds some files. */
  datatype Step =
    | Announce(from: nat, to: nat, bootstrap: bool, pools: seq<string>, delivery: Delivery, expiresAt: int)
    | Receive(index: nat, upto: nat, expiresAt: int)
    | Trust(node: nat, domain: string, signed: bool, saved: bool, expiresAt: int)
    | Expire(node: nat, now: int, saved: bool)
    | Reload(node: nat, upto: nat, expiresAt: int)
    | Restart(node: nat, files: Files<seq<Peer>>)

  /** `ids[n]` is what node `n` announces. */
  function Start(ids: seq<Entry>): Net {
    Net(seq(|ids|, n => Member([], {[]}, {}, {}, {})), [], {})
  }

  // ---------- restarts ----------

  function Saved(files: Files<seq<Peer>>): seq<Peer> {
    Recovered(files).GetOr([])
  }

  /** What a restart puts in memory: reading the file back drops the pools. */
  function Restored(files: Files<seq<Peer>>): seq<Peer> {
    seq(|Saved(files)|, (i: nat) requires i < |Saved(files)| => Saved(files)[i].(pools := []))
  }

  /** A restart may find any files that hold tables the node tried to save. */
  ghost predicate Restarts(m: Member, step: Step, n: nat) {
    step.Restart? && step.node == n && HoldsOnly(step.files, m.attempts)
  }

  // ---------- steps ----------

  predicate Hears(ids: seq<Entry>, step: Step, n: nat)
    requires n < |ids|
  {
    step.Announce? && step.from < |ids| && step.to == n && Takes(ids[n].did, ids[step.from])
  }

  predicate Taken(ids: seq<Entry>, step: Step, n: nat)
    requires n < |ids|
  {
    Hears(ids, step, n) && step.delivery != NotSaved
  }

  /** The operator's request; a request without a domain is turned down. */
  predicate Trusts(step: Step, n: nat) {
    step.Trust? && step.node == n && step.domain != ""
  }

  /** A reply that reaches node `n` now, if there is one. */
  predicate Arrives(w: Net, step: Step, n: nat) {
    step.Receive? && step.index < |w.replies| && w.replies[step.index].to == n
    && step.upto <= |w.replies[step.index].list|
  }

  function TakenUrls(self: string, list: seq<Entry>, upto: nat): set<string>
    requires upto <= |list|
  {
    set i | 0 <= i < upto && Takes(self, list[i]) :: list[i].url
  }

  /** The domains a step upserts at a node. */
  function Touched(ids: seq<Entry>, w: Net, step: Step, n: nat): set<string>
    requires n < |ids| == |w.members|
  {
    if Taken(ids, step, n) then {ids[step.from].url}
    else if Arrives(w, step, n) then TakenUrls(ids[n].did, w.replies[step.index].list, step.upto)
    else if Trusts(step, n) && step.saved then {step.domain}
    else if step.Reload? && step.node == n then
      ReloadUrls(w.members[n].peers, step.upto)
    else {}
  }

  ghost function PeersAfter(ids: seq<Entry>, w: Net, step: Step, n: nat): seq<Peer>
    requires n < |ids| == |w.members|
  {
    var peers := w.members[n].peers;
    if Taken(ids, step, n) then
      var met := Met(peers, ids[n].did, ids[step.from], step.expiresAt);
      if step.delivery == Complete then Settled(met, ids[step.from], step.bootstrap, step.pools) else met
    else if Arrives(w, step, n) then
      Merged(peers, ids[n].did, w.replies[step.index].list, step.upto, step.expiresAt)
    else if Trusts(step, n) && step.saved then UpsertPeer(peers, step.domain, step.signed, "", step.expiresAt)
    else if step.Expire? && step.node == n && step.saved then ExpirePeers(peers, step.now)
    else if step.Reload? && step.node == n then Reloaded(peers, step.upto, step.expiresAt)
    else if Restarts(w.members[n], step, n) then Restored(step.files)
    else peers
  }

  /** The tables a step tries to save at a node, the one whose save fails included. */
  ghost function Tried(ids: seq<Entry>, w: Net, step: Step, n: nat): set<seq<Peer>>
    requires n < |ids| == |w.members|
  {
    var peers := w.members[n].peers;
    if Hears(ids, step, n) then
      var met := Met(peers, ids[n].did, ids[step.from], step.expiresAt);
      if step.delivery == NotSaved then {met} else {met, Settled(met, ids[step.from], step.bootstrap, step.pools)}
    else if Arrives(w, step, n) then
      set i: nat | i <= |w.replies[step.index].list| && i <= step.upto + 1 ::
        Merged(peers, ids[n].did, w.replies[step.index].list, i, step.expiresAt)
    else if Trusts(step, n) then {UpsertPeer(peers, step.domain, step.signed, "", step.expiresAt)}
    else if step.Expire? && step.node == n then {ExpirePeers(peers, step.now)}
    else if step.Reload? && step.node == n then
      set i: nat | i <= step.upto + 1 :: Reloaded(peers, i, step.expiresAt)
    else if Restarts(w.members[n], step, n) then {Restored(step.files)}
    else {}
  }

  ghost function MemberAfter(ids: seq<Entry>, w: Net, step: Step, n: nat): Member
    requires n < |ids| == |w.members|
  {
    var m := w.members[n];
    var older := Restarts(m, step, n) && Saved(step.files) != m.peers;
    Member(
      PeersAfter(ids, w, step, n),
      m.attempts + Tried(ids, w, step, n),
      if older then m.everSigned
      else m.signed - Touched(ids, w, step, n)
           + (if Trusts(step, n) && step.signed && step.saved then {step.domain} else {}),
      m.everSigned + (if Trusts(step, n) && step.signed then {step.domain} else {}),
      if older then {}
      else if Taken(ids, step, n) then m.joined + {step.from}
      else if Trusts(step, n) && step.saved then
        set j | j in m.joined && (j < |ids| ==> ids[j].url != step.domain)
      else m.joined)
  }

  ghost function Next(ids: seq<Entry>, w: Net, step: Step): Net
    requires |ids| == |w.members|
  {
    var members := seq(|ids|, (n: nat) requires n < |ids| => MemberAfter(ids, w, step, n));
    var replies := match step
      case Announce(from, to, _, _, delivery, _) =>
        if from < |ids| && to < |ids| && (delivery == Complete || !Takes(ids[to].did, ids[from])) then
          w.replies + [Reply(from, Listing(members[to].peers, ids[to].did))]
        else w.replies
      case Receive(index, _, _) =>
        if index < |w.replies| then w.replies[..index] + w.replies[index + 1..] else w.replies
      case _ => w.replies;
    Net(members, replies, if step.Announce? && step.from < |ids| then w.announced + {step.from} else w.announced)
  }

  ghost function Run(ids: seq<Entry>, steps: seq<Step>): (w: Net)
    ensures |w.members| == |ids|
  {
    if steps == [] then Start(ids) else Next(ids, Run(ids, steps[..|steps| - 1]), steps[|steps| - 1])
  }

  // ---------- the invariant ----------

  /** Some node that has announced itself says this of itself. */
  ghost predicate Owned(ids: seq<Entry>, announced: set<nat>, e: Entry) {
    exists j :: j in announced && j < |ids| && ids[j] == e
  }

  ghost predicate PeerSound(ids: seq<Entry>, announced: set<nat>, self: string, signed: set<string>, p: Peer) {
    && (p.did.Some? ==> p.did.value != self && Owned(ids, announced, Entry(p.did.value, p.domain)))
    && (p.trust == Trusted ==> p.domain in signed)
  }

  ghost predicate PeersSound(
      ids: seq<Entry>, announced: set<nat>, self: string, signed: set<string>, peers: seq<Peer>)
  {
    TableSound(peers) && forall p :: p in peers ==> PeerSound(ids, announced, self, signed, p)
  }

  ghost predicate Knows(peers: seq<Peer>, e: Entry) {
    exists p :: p in peers && p.domain == e.url && p.did == Some(e.did)
  }

  /** Whoever joined is known. */
  ghost predicate JoinedKnown(ids: seq<Entry>, self: string, m: Member) {
    forall j :: j in m.joined ==> j < |ids| && Takes(self, ids[j]) && Knows(m.peers, ids[j])
  }

  ghost predicate ReplySound(ids: seq<Entry>, announced: set<nat>, r: Reply) {
    forall e :: e in r.list ==> Owned(ids, announced, e)
  }

  /** No two of the nodes that `self` takes in share a URL, unless they announce the same. */
  ghost predicate Unshared(ids: seq<Entry>, self: string) {
    forall a, b :: a in ids && b in ids && Takes(self, a) && Takes(self, b) && a.url == b.url ==> a == b
  }

  /** The table in memory is sound, and so is every table a restart could bring back, as far as
      signed requests ever went. */
  ghost predicate MemberSound(ids: seq<Entry>, announced: set<nat>, self: string, m: Member) {
    && m.peers in m.attempts
    && PeersSound(ids, announced, self, m.signed, m.peers)
    && forall peers :: peers in m.attempts ==> PeersSound(ids, announced, self, m.everSigned, peers)
  }

  ghost predicate Sound(ids: seq<Entry>, w: Net) {
    && |w.members| == |ids|
    && (forall n :: 0 <= n < |ids| ==> MemberSound(ids, w.announced, ids[n].did, w.members[n]))
    && (forall r :: r in w.replies ==> ReplySound(ids, w.announced, r))
  }

  // ---------- what each change of a table keeps ----------

  lemma UpsertSound(
      ids: seq<Entry>, announced: set<nat>, self: string, signed: set<string>, peers: seq<Peer>, r: Peer,
      signedNow: set<string>)
    requires PeersSound(ids, announced, self, signed, peers)
    requires r.identity == r.domain != "" && PeerSound(ids, announced, self, signedNow, r)
    requires signed - {r.domain} <= signedNow
    ensures PeersSound(ids, announced, self, signedNow, Upsert(peers, BY_PEER_DOMAIN, r))
  {
    hide Owned;
    UpsertUnique(peers, BY_PEER_DOMAIN, r);
    UpsertMembers(peers, BY_PEER_DOMAIN, r);
  }

  lemma MetSound(
      ids: seq<Entry>, announced: set<nat>, self: string, signed: set<string>, peers: seq<Peer>, e: Entry, at: int)
    requires PeersSound(ids, announced, self, signed, peers) && Owned(ids, announced, e)
    ensures PeersSound(ids, announced, self, if Takes(self, e) then signed - {e.url} else signed,
                       Met(peers, self, e, at))
  {
    hide Owned, PeersSound;
    if Takes(self, e) {
      UpsertSound(ids, announced, self, signed, peers, NewPeer(e.url, false, e.did, at), signed - {e.url});
    }
  }

  /** A mark changes neither who a peer is nor makes it trusted. */
  ghost predicate Marks(mark: Peer -> Peer) {
    forall p :: mark(p).domain == p.domain && mark(p).identity == p.identity && mark(p).did == p.did
      && (mark(p).trust == Trusted ==> p.trust == Trusted)
  }

  /** The same peers in the same places, none of them newly trusted. */
  ghost predicate SamePeers(before: seq<Peer>, after: seq<Peer>) {
    |after| == |before| && forall i :: 0 <= i < |before| ==>
      (after[i].domain == before[i].domain && after[i].identity == before[i].identity
       && after[i].did == before[i].did && (after[i].trust == Trusted ==> before[i].trust == Trusted))
  }

  lemma {:induction false} MarkedSame(peers: seq<Peer>, matches: Peer -> bool, mark: Peer -> Peer)
    requires Marks(mark)
    ensures SamePeers(peers, MarkFirst(peers, matches, mark))
  {
    if peers != [] {
      MarkedSame(peers[1..], matches, mark);
    }
  }

  lemma SettledSame(peers: seq<Peer>, e: Entry, bootstrap: bool, pools: seq<string>)
    ensures SamePeers(peers, Settled(peers, e, bootstrap, pools))
  {
    MarkedSame(peers, (p: Peer) => p.did == Some(e.did), (p: Peer) => p.(pools := pools));
    MarkedSame(peers, (p: Peer) => p.identity == e.url,
               (p: Peer) => if p.trust == Pending then p.(trust := Verified, status := Healthy) else p);
  }

  lemma ExpiredSame(peers: seq<Peer>, now: int)
    ensures SamePeers(peers, ExpirePeers(peers, now))
  {
  }

  lemma SameSound(
      ids: seq<Entry>, announced: set<nat>, self: string, signed: set<string>, before: seq<Peer>, after: seq<Peer>)
    requires PeersSound(ids, announced, self, signed, before) && SamePeers(before, after)
    ensures PeersSound(ids, announced, self, signed, after)
  {
    hide Owned;
    forall p | p in after ensures PeerSound(ids, announced, self, signed, p) && p.identity == p.domain {
      var i :| 0 <= i < |after| && after[i] == p;
      assert PeerSound(ids, announced, self, signed, before[i]);
    }
  }

  lemma SameKnows(before: seq<Peer>, after: seq<Peer>, e: Entry)
    requires Knows(before, e) && SamePeers(before, after)
    ensures Knows(after, e)
  {
    var p :| p in before && p.domain == e.url && p.did == Some(e.did);
    var i :| 0 <= i < |before| && before[i] == p;
    assert after[i] in after;
  }

  lemma KnowsUpsert(peers: seq<Peer>, r: Peer, e: Entry)
    requires TableSound(peers) && (Knows(peers, e) || r.domain == e.url)
    requires r.domain == e.url ==> r.did == Some(e.did)
    ensures Knows(Upsert(peers, BY_PEER_DOMAIN, r), e)
  {
    UpsertMembers(peers, BY_PEER_DOMAIN, r);
    if r.domain == e.url {
      assert r in Upsert(peers, BY_PEER_DOMAIN, r);
    } else {
      var p :| p in peers && p.domain == e.url && p.did == Some(e.did);
      assert BY_PEER_DOMAIN(p) != BY_PEER_DOMAIN(r);
    }
  }

  lemma KnowsMet(
      ids: seq<Entry>, announced: set<nat>, self: string, peers: seq<Peer>, met: Entry, at: int, j: nat)
    requires j < |ids|
    requires TableSound(peers) && Unshared(ids, self) && Owned(ids, announced, met) && Takes(self, ids[j])
    requires Knows(peers, ids[j]) || met == ids[j]
    ensures Knows(Met(peers, self, met, at), ids[j])
  {
    if Takes(self, met) {
      var owner :| owner in announced && owner < |ids| && ids[owner] == met;
      if met.url == ids[j].url { assert met == ids[j]; }
      KnowsUpsert(peers, NewPeer(met.url, false, met.did, at), ids[j]);
    }
  }

  lemma {:induction false} ListingMembers(peers: seq<Peer>, self: string)
    ensures forall e :: e in Listing(peers, self) ==>
      exists p :: p in peers && Tells(self, p) && e == Entry(p.did.value, p.identity)
    ensures forall p :: p in peers && Tells(self, p) ==> Entry(p.did.value, p.identity) in Listing(peers, self)
    decreases |peers|
  {
    if peers != [] {
      ListingMembers(peers[..|peers| - 1], self);
      assert peers == peers[..|peers| - 1] + [peers[|peers| - 1]];
    }
  }

  lemma ListingSound(ids: seq<Entry>, announced: set<nat>, self: string, signed: set<string>, peers: seq<Peer>)
    requires PeersSound(ids, announced, self, signed, peers)
    ensures forall e :: e in Listing(peers, self) ==> Owned(ids, announced, e)
  {
    hide Owned;
    ListingMembers(peers, self);
  }

  lemma KnownIsListed(peers: seq<Peer>, self: string, e: Entry)
    requires TableSound(peers) && Knows(peers, e) && Takes(self, e)
    ensures e in Listing(peers, self)
  {
    ListingMembers(peers, self);
    var p :| p in peers && p.domain == e.url && p.did == Some(e.did);
    assert Tells(self, p);
  }

  // ---------- what each step keeps ----------

  lemma MoreAnnounced(
      ids: seq<Entry>, announced: set<nat>, more: set<nat>, self: string, signed: set<string>, peers: seq<Peer>)
    requires PeersSound(ids, announced, self, signed, peers) && announced <= more
    ensures PeersSound(ids, more, self, signed, peers)
  {
    hide TableSound;
    forall p | p in peers ensures PeerSound(ids, more, self, signed, p) {
      assert PeerSound(ids, announced, self, signed, p);
    }
  }

  lemma {:induction false} MergedSound(
      ids: seq<Entry>, announced: set<nat>, self: string, signed: set<string>, peers: seq<Peer>,
      list: seq<Entry>, upto: nat, at: int)
    requires upto <= |list| && PeersSound(ids, announced, self, signed, peers)
    requires forall e :: e in list ==> Owned(ids, announced, e)
    ensures PeersSound(ids, announced, self, signed - TakenUrls(self, list, upto), Merged(peers, self, list, upto, at))
  {
    hide Owned, PeersSound, Takes, Met;
    if upto == 0 {
      assert signed - TakenUrls(self, list, 0) == signed;
    } else {
      MergedSound(ids, announced, self, signed, peers, list, upto - 1, at);
      var e := list[upto - 1];
      var before := signed - TakenUrls(self, list, upto - 1);
      MetSound(ids, announced, self, before, Merged(peers, self, list, upto - 1, at), e, at);
      assert signed - TakenUrls(self, list, upto) == if Takes(self, e) then before - {e.url} else before;
    }
  }

  function ReloadUrls(peers: seq<Peer>, upto: nat): set<string> {
    set i | 0 <= i < |peers| && i < upto && Reloads(peers[i]) :: peers[i].domain
  }

  lemma ReloadedSound(
      ids: seq<Entry>, announced: set<nat>, self: string, signed: set<string>, peers: seq<Peer>, upto: nat, at: int)
    requires PeersSound(ids, announced, self, signed, peers)
    ensures PeersSound(ids, announced, self, signed - ReloadUrls(peers, upto), Reloaded(peers, upto, at))
  {
    hide Owned;
    var after := Reloaded(peers, upto, at);
    forall i | 0 <= i < |peers|
      ensures after[i].domain == peers[i].domain && after[i].identity == after[i].domain
      ensures PeerSound(ids, announced, self, signed - ReloadUrls(peers, upto), after[i])
    {
      assert peers[i] in peers && PeerSound(ids, announced, self, signed, peers[i]);
      forall k | 0 <= k < |peers| && k != i ensures peers[k].domain != peers[i].domain {
        assert BY_PEER_DOMAIN(peers[k]) != BY_PEER_DOMAIN(peers[i]);
      }
    }
  }

  lemma RestoredSame(files: Files<seq<Peer>>)
    ensures SamePeers(Saved(files), Restored(files))
  {
  }

  lemma RestoredSound(ids: seq<Entry>, announced: set<nat>, self: string, m: Member, files: Files<seq<Peer>>)
    requires MemberSound(ids, announced, self, m) && HoldsOnly(files, m.attempts)
    ensures PeersSound(ids, announced, self, m.everSigned, Restored(files))
    ensures Saved(files) == m.peers ==> PeersSound(ids, announced, self, m.signed, Restored(files))
  {
    hide PeersSound, HoldsOnly, Restored, Recovered;
    RecoveryHoldsAttempts(files, m.attempts, 0, NoFault, false);
    RestoredSame(files);
    EmptySound(ids, announced, self, m.everSigned);
    SameSound(ids, announced, self, m.everSigned, Saved(files), Restored(files));
    if Saved(files) == m.peers {
      SameSound(ids, announced, self, m.signed, Saved(files), Restored(files));
    }
  }

  lemma EmptySound(ids: seq<Entry>, announced: set<nat>, self: string, signed: set<string>)
    ensures PeersSound(ids, announced, self, signed, [])
  {
  }

  lemma MoreSigned(
      ids: seq<Entry>, announced: set<nat>, self: string, signed: set<string>, more: set<string>, peers: seq<Peer>)
    requires PeersSound(ids, announced, self, signed, peers) && signed <= more
    ensures PeersSound(ids, announced, self, more, peers)
  {
    hide TableSound, Owned;
  }

  lemma PeersStaySound(ids: seq<Entry>, w: Net, step: Step, n: nat)
    requires Sound(ids, w) && n < |ids|
    ensures var next := Next(ids, w, step);
      PeersSound(ids, next.announced, ids[n].did, next.members[n].signed, next.members[n].peers)
  {
    hide PeersSound, Owned, Met, Settled, Merged, Reloaded, ExpirePeers, Listing, TakenUrls, Takes, Tried, Restored,
      Saved, HoldsOnly, ReloadUrls, UpsertPeer;
    var next := Next(ids, w, step);
    var m := w.members[n];
    var self := ids[n].did;
    assert MemberSound(ids, w.announced, self, m);
    assert next.members[n] == MemberAfter(ids, w, step, n);
    MoreAnnounced(ids, w.announced, next.announced, self, m.signed, m.peers);
    if Taken(ids, step, n) {
      AnnouncerOwned(ids, next.announced, step.from);
      MetSound(ids, next.announced, self, m.signed, m.peers, ids[step.from], step.expiresAt);
      var met := Met(m.peers, self, ids[step.from], step.expiresAt);
      SettledSame(met, ids[step.from], step.bootstrap, step.pools);
      SameSound(ids, next.announced, self, m.signed - {ids[step.from].url}, met,
                Settled(met, ids[step.from], step.bootstrap, step.pools));
      assert next.members[n].signed == m.signed - {ids[step.from].url};
    } else if Arrives(w, step, n) {
      var r := w.replies[step.index];
      assert ReplySound(ids, w.announced, r);
      MergedSound(ids, w.announced, self, m.signed, m.peers, r.list, step.upto, step.expiresAt);
      assert next.members[n].signed == m.signed - TakenUrls(self, r.list, step.upto);
    } else if Trusts(step, n) && step.saved {
      TrustSound(ids, w.announced, self, m.signed, m.peers, step);
    } else if step.Expire? && step.node == n && step.saved {
      ExpiredSame(m.peers, step.now);
      SameSound(ids, w.announced, self, m.signed, m.peers, ExpirePeers(m.peers, step.now));
      assert next.members[n].signed == m.signed;
    } else if step.Reload? && step.node == n {
      ReloadedSound(ids, w.announced, self, m.signed, m.peers, step.upto, step.expiresAt);
      assert next.members[n].signed == m.signed - ReloadUrls(m.peers, step.upto);
    } else if Restarts(m, step, n) {
      RestoredSound(ids, w.announced, self, m, step.files);
      assert Saved(step.files) == m.peers ==> next.members[n].signed == m.signed;
    } else {
      assert next.members[n].signed == m.signed;
    }
  }

  /** Whatever a step tries to save is sound, as far as signed requests ever went. */
  lemma TriedSound(ids: seq<Entry>, w: Net, step: Step, n: nat, peers: seq<Peer>)
    requires Sound(ids, w) && n < |ids| && peers in Tried(ids, w, step, n)
    ensures var next := Next(ids, w, step);
      PeersSound(ids, next.announced, ids[n].did, next.members[n].everSigned, peers)
  {
    hide PeersSound, Owned, Met, Settled, Merged, Reloaded, ExpirePeers, Listing, TakenUrls, Takes, PeersAfter,
      Restored, Saved, HoldsOnly, ReloadUrls, UpsertPeer, Touched;
    var next := Next(ids, w, step);
    var m := w.members[n];
    var self := ids[n].did;
    var ever := m.everSigned;
    assert MemberSound(ids, w.announced, self, m);
    assert next.members[n] == MemberAfter(ids, w, step, n);
    assert !Trusts(step, n) ==> next.members[n].everSigned == ever;
    MoreAnnounced(ids, w.announced, next.announced, self, ever, m.peers);
    if Hears(ids, step, n) {
      var e := ids[step.from];
      var met := Met(m.peers, self, e, step.expiresAt);
      AnnouncerOwned(ids, next.announced, step.from);
      MetSound(ids, next.announced, self, ever, m.peers, e, step.expiresAt);
      MoreSigned(ids, next.announced, self, ever - {e.url}, ever, met);
      SettledSame(met, e, step.bootstrap, step.pools);
      SameSound(ids, next.announced, self, ever, met, Settled(met, e, step.bootstrap, step.pools));
    } else if Arrives(w, step, n) {
      var r := w.replies[step.index];
      assert ReplySound(ids, w.announced, r);
      var i: nat :| i <= |r.list| && peers == Merged(m.peers, self, r.list, i, step.expiresAt);
      MergedSound(ids, w.announced, self, ever, m.peers, r.list, i, step.expiresAt);
      MoreSigned(ids, w.announced, self, ever - TakenUrls(self, r.list, i), ever, peers);
    } else if Trusts(step, n) {
      TrustSound(ids, w.announced, self, ever, m.peers, step);
      MoreSigned(ids, w.announced, self, ever - {step.domain} + (if step.signed then {step.domain} else {}),
                 next.members[n].everSigned, peers);
    } else if step.Expire? && step.node == n {
      ExpiredSame(m.peers, step.now);
      SameSound(ids, w.announced, self, ever, m.peers, ExpirePeers(m.peers, step.now));
    } else if step.Reload? && step.node == n {
      var i: nat :| peers == Reloaded(m.peers, i, step.expiresAt);
      ReloadedSound(ids, w.announced, self, ever, m.peers, i, step.expiresAt);
      MoreSigned(ids, w.announced, self, ever - ReloadUrls(m.peers, i), ever, peers);
    } else {
      RestoredSound(ids, w.announced, self, m, step.files);
    }
  }

  lemma MemberStaysSound(ids: seq<Entry>, w: Net, step: Step, n: nat)
    requires Sound(ids, w) && n < |ids|
    ensures var next := Next(ids, w, step); MemberSound(ids, next.announced, ids[n].did, next.members[n])
  {
    hide PeersSound, PeersAfter, Tried, Touched, Listing;
    var next := Next(ids, w, step);
    var m := w.members[n];
    assert MemberSound(ids, w.announced, ids[n].did, m);
    assert next.members[n] == MemberAfter(ids, w, step, n);
    PeersStaySound(ids, w, step, n);
    AfterIsTried(ids, w, step, n);
    forall peers | peers in next.members[n].attempts
      ensures PeersSound(ids, next.announced, ids[n].did, next.members[n].everSigned, peers)
    {
      if peers in Tried(ids, w, step, n) {
        TriedSound(ids, w, step, n, peers);
      } else {
        MoreAnnounced(ids, w.announced, next.announced, ids[n].did, m.everSigned, peers);
        MoreSigned(ids, next.announced, ids[n].did, m.everSigned, next.members[n].everSigned, peers);
      }
    }
  }

  lemma AfterIsTried(ids: seq<Entry>, w: Net, step: Step, n: nat)
    requires n < |ids| == |w.members|
    ensures PeersAfter(ids, w, step, n) in Tried(ids, w, step, n) + {w.members[n].peers}
  {
    hide Met, Settled, Merged, Reloaded, ExpirePeers, UpsertPeer, Restored, HoldsOnly, Takes;
    var peers := w.members[n].peers;
    if !Hears(ids, step, n) {
      if Arrives(w, step, n) {
        var list := w.replies[step.index].list;
        assert Merged(peers, ids[n].did, list, step.upto, step.expiresAt) in Tried(ids, w, step, n);
      } else if step.Reload? && step.node == n {
        assert Reloaded(peers, step.upto, step.expiresAt) in Tried(ids, w, step, n);
      }
    }
  }

  lemma AnnouncerOwned(ids: seq<Entry>, announced: set<nat>, from: nat)
    requires from < |ids| && from in announced
    ensures Owned(ids, announced, ids[from])
  {
  }

  lemma TrustSound(
      ids: seq<Entry>, announced: set<nat>, self: string, signed: set<string>, peers: seq<Peer>, step: Step)
    requires step.Trust? && step.domain != "" && PeersSound(ids, announced, self, signed, peers)
    ensures PeersSound(ids, announced, self,
              signed - {step.domain} + (if step.signed then {step.domain} else {}),
              UpsertPeer(peers, step.domain, step.signed, "", step.expiresAt))
  {
    hide PeersSound, Owned;
    UpsertSound(ids, announced, self, signed, peers, NewPeer(step.domain, step.signed, "", step.expiresAt),
                signed - {step.domain} + (if step.signed then {step.domain} else {}));
  }

  /** Every step, a restart included, keeps what is in memory, on disk and in flight sound. */
  lemma StepKeeps(ids: seq<Entry>, w: Net, step: Step)
    requires Sound(ids, w)
    ensures Sound(ids, Next(ids, w, step))
  {
    hide PeersSound, Owned, MemberAfter, Listing, Takes;
    var next := Next(ids, w, step);
    forall n | 0 <= n < |ids| ensures MemberSound(ids, next.announced, ids[n].did, next.members[n]) {
      MemberStaysSound(ids, w, step, n);
    }
    forall r | r in next.replies ensures ReplySound(ids, next.announced, r) {
      if r in w.replies {
        RepliesStayOwned(ids, w.announced, next.announced, r);
      } else {
        var m := next.members[step.to];
        assert MemberSound(ids, next.announced, ids[step.to].did, m);
        assert r.list == Listing(m.peers, ids[step.to].did);
        ListingSound(ids, next.announced, ids[step.to].did, m.signed, m.peers);
      }
    }
  }

  lemma RepliesStayOwned(ids: seq<Entry>, announced: set<nat>, more: set<nat>, r: Reply)
    requires ReplySound(ids, announced, r) && announced <= more
    ensures ReplySound(ids, more, r)
  {
    forall e | e in r.list ensures Owned(ids, more, e) {
      assert Owned(ids, announced, e);
    }
  }

  lemma {:induction false} RunKeeps(ids: seq<Entry>, steps: seq<Step>)
    ensures Sound(ids, Run(ids, steps))
    decreases |steps|
  {
    hide Next;
    if steps != [] {
      RunKeeps(ids, steps[..|steps| - 1]);
      StepKeeps(ids, Run(ids, steps[..|steps| - 1]), steps[|steps| - 1]);
    }
  }
}
