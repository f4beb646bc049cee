/** Where the trust levels of peers come from: signed requests and bootstrap announcements. */
module GossipVouching {
  import opened Wrappers
  import opened Tables
  import opened Gossip
  import opened GossipNetwork
  import opened GossipRuns
  import opened PlatformStateStore

  // ---------- what one announcement leaves ----------

  /** A complete bootstrap announcement leaves its domain verified and healthy; an ordinary one
      leaves it pending and unknown; a signed request leaves it trusted and healthy, an unsigned
      one pending. */
  lemma TrustLevels(peers: seq<Peer>, self: string, e: Entry, pools: seq<string>, at: int)
    requires TableSound(peers) && Takes(self, e)
    ensures var p := Find(Settled(Met(peers, self, e, at), e, true, pools), BY_PEER_DOMAIN, e.url);
      p.Some? && p.value.trust == Verified && p.value.status == Healthy
    ensures var p := Find(Settled(Met(peers, self, e, at), e, false, pools), BY_PEER_DOMAIN, e.url);
      p.Some? && p.value.trust == Pending && p.value.status == Unknown
    ensures forall domain :: var p := Find(UpsertPeer(peers, domain, true, "", at), BY_PEER_DOMAIN, domain);
      p.Some? && p.value.trust == Trusted && p.value.status == Healthy
    ensures forall domain :: var p := Find(UpsertPeer(peers, domain, false, "", at), BY_PEER_DOMAIN, domain);
      p.Some? && p.value.trust == Pending && p.value.status == Unknown
  {
    hide MarkFirst, Upsert;
    var met := Met(peers, self, e, at);
    var new_ := NewPeer(e.url, false, e.did, at);
    UpsertUnique(peers, BY_PEER_DOMAIN, new_);
    UpsertMembers(peers, BY_PEER_DOMAIN, new_);
    FindUpsert(peers, BY_PEER_DOMAIN, new_, e.url);
    assert TableSound(met);
    MarkedFound(met, new_, (p: Peer) => p.identity == e.url,
                (p: Peer) => if p.trust == Pending then p.(trust := Verified, status := Healthy) else p);
    PoolsFound(met, e, pools);
    forall domain, signed ensures Find(UpsertPeer(peers, domain, signed, "", at), BY_PEER_DOMAIN, domain)
      == Some(NewPeer(domain, signed, "", at))
    {
      FindUpsert(peers, BY_PEER_DOMAIN, NewPeer(domain, signed, "", at), domain);
    }
  }

  /** Marking the one peer that has a domain. */
  lemma {:induction false} MarkedFound(peers: seq<Peer>, p: Peer, matches: Peer -> bool, mark: Peer -> Peer)
    requires forall q :: q in peers ==> (matches(q) <==> q.domain == p.domain)
    requires Find(peers, BY_PEER_DOMAIN, p.domain) == Some(p) && mark(p).domain == p.domain
    ensures Find(MarkFirst(peers, matches, mark), BY_PEER_DOMAIN, p.domain) == Some(mark(p))
  {
    if peers[0].domain != p.domain {
      MarkedFound(peers[1..], p, matches, mark);
    }
  }

  /** Whoever gets the pools, trust and status stay. */
  lemma PoolsFound(peers: seq<Peer>, e: Entry, pools: seq<string>)
    ensures var was := Find(peers, BY_PEER_DOMAIN, e.url);
      var p := Find(Settled(peers, e, false, pools), BY_PEER_DOMAIN, e.url);
      (was.Some? ==> p.Some? && p.value.trust == was.value.trust && p.value.status == was.value.status)
  {
    PooledFound(peers, e.did, pools, e.url);
  }

  lemma {:induction false} PooledFound(peers: seq<Peer>, did: string, pools: seq<string>, domain: string)
    ensures var was := Find(peers, BY_PEER_DOMAIN, domain);
      var p := Find(WithPools(peers, did, pools), BY_PEER_DOMAIN, domain);
      (was.Some? ==> p.Some? && p.value.trust == was.value.trust && p.value.status == was.value.status)
  {
    if peers != [] && peers[0].did != Some(did) {
      PooledFound(peers[1..], did, pools, domain);
      assert WithPools(peers, did, pools) == [peers[0]] + WithPools(peers[1..], did, pools);
    }
  }

  // ---------- which domains are verified ----------

  ghost predicate IsVerified(peers: seq<Peer>, d: string) {
    exists p :: p in peers && p.domain == d && p.trust == Verified
  }

  lemma UpsertVerified(peers: seq<Peer>, r: Peer, d: string)
    requires Unique(peers, BY_PEER_DOMAIN) && r.trust != Verified
    ensures IsVerified(Upsert(peers, BY_PEER_DOMAIN, r), d) ==> IsVerified(peers, d) && d != r.domain
  {
    UpsertMembers(peers, BY_PEER_DOMAIN, r);
  }

  lemma {:induction false} VouchedVerified(peers: seq<Peer>, url: string, d: string)
    requires forall p :: p in peers ==> p.identity == p.domain
    ensures IsVerified(Vouched(peers, url), d) ==> IsVerified(peers, d) || d == url
  {
    hide IsVerified;
    VouchedPeers(peers, url);
    IsVerifiedBy(peers, Vouched(peers, url), url, d);
  }

  ghost predicate OnlyVouches(before: seq<Peer>, after: seq<Peer>, url: string) {
    forall p :: p in after && p.trust == Verified ==> (p in before || p.domain == url)
  }

  lemma IsVerifiedBy(before: seq<Peer>, after: seq<Peer>, url: string, d: string)
    requires OnlyVouches(before, after, url)
    ensures IsVerified(after, d) ==> IsVerified(before, d) || d == url
  {
  }

  lemma {:induction false} VouchedPeers(peers: seq<Peer>, url: string)
    requires forall p :: p in peers ==> p.identity == p.domain
    ensures OnlyVouches(peers, Vouched(peers, url), url)
  {
    if peers != [] && peers[0].identity != url {
      VouchedPeers(peers[1..], url);
      assert Vouched(peers, url) == [peers[0]] + Vouched(peers[1..], url);
    }
  }

  lemma {:induction false} PooledVerified(peers: seq<Peer>, did: string, pools: seq<string>, d: string)
    ensures IsVerified(WithPools(peers, did, pools), d) ==> IsVerified(peers, d)
  {
    if peers != [] {
      if peers[0].did == Some(did) {
        assert WithPools(peers, did, pools) == [peers[0].(pools := pools)] + peers[1..];
        assert peers[0] in peers;
      } else {
        PooledVerified(peers[1..], did, pools, d);
        assert WithPools(peers, did, pools) == [peers[0]] + WithPools(peers[1..], did, pools);
        assert peers[0] in peers;
      }
    }
  }

  lemma SettledVerified(peers: seq<Peer>, e: Entry, bootstrap: bool, pools: seq<string>, d: string)
    requires forall p :: p in peers ==> p.identity == p.domain
    ensures IsVerified(Settled(peers, e, bootstrap, pools), d) ==> IsVerified(peers, d) || (bootstrap && d == e.url)
  {
    hide IsVerified, Vouched, WithPools;
    VouchedVerified(peers, e.url, d);
    PooledVerified(peers, e.did, pools, d);
  }

  lemma MetVerified(peers: seq<Peer>, self: string, e: Entry, at: int, d: string)
    requires TableSound(peers)
    ensures TableSound(Met(peers, self, e, at))
    ensures IsVerified(Met(peers, self, e, at), d) ==> IsVerified(peers, d) && !(Takes(self, e) && d == e.url)
  {
    hide IsVerified;
    MetTableSound(peers, self, e, at);
    UpsertVerified(peers, NewPeer(e.url, false, e.did, at), d);
  }

  lemma {:induction false} MergedVerified(
      peers: seq<Peer>, self: string, list: seq<Entry>, upto: nat, at: int, d: string)
    requires TableSound(peers) && upto <= |list|
    ensures TableSound(Merged(peers, self, list, upto, at))
    ensures IsVerified(Merged(peers, self, list, upto, at), d) ==>
      IsVerified(peers, d) && d !in TakenUrls(self, list, upto)
  {
    hide IsVerified, TableSound, Takes, Met;
    if upto > 0 {
      MergedVerified(peers, self, list, upto - 1, at, d);
      MetVerified(Merged(peers, self, list, upto - 1, at), self, list[upto - 1], at, d);
    }
  }

  lemma ReloadedVerified(peers: seq<Peer>, upto: nat, at: int, d: string)
    requires TableSound(peers)
    ensures IsVerified(Reloaded(peers, upto, at), d) ==> IsVerified(peers, d) && d !in ReloadUrls(peers, upto)
  {
    var after := Reloaded(peers, upto, at);
    if IsVerified(after, d) {
      var p :| p in after && p.domain == d && p.trust == Verified;
      var i :| 0 <= i < |after| && after[i] == p;
      assert peers[i] == p && !(i < upto && Reloads(p));
      forall k | 0 <= k < |peers| && k < upto && Reloads(peers[k]) ensures peers[k].domain != d {
        assert k != i && BY_PEER_DOMAIN(peers[k]) != BY_PEER_DOMAIN(peers[i]);
      }
    }
  }

  lemma SameVerified(before: seq<Peer>, after: seq<Peer>, d: string)
    requires |after| == |before| && forall i :: 0 <= i < |before| ==>
      after[i].domain == before[i].domain && (after[i].trust == Verified ==> before[i].trust == Verified)
    ensures IsVerified(after, d) ==> IsVerified(before, d)
  {
    if IsVerified(after, d) {
      var p :| p in after && p.domain == d && p.trust == Verified;
      var i :| 0 <= i < |after| && after[i] == p;
      assert before[i] in before;
    }
  }

  // ---------- what each step does to them ----------

  /** The step has a bootstrap announcement of the domain vouch for it. */
  ghost predicate Vouches(ids: seq<Entry>, step: Step, n: nat, d: string)
    requires n < |ids|
  {
    Hears(ids, step, n) && step.bootstrap && step.delivery != NotSaved && ids[step.from].url == d
  }

  lemma AfterVerified(ids: seq<Entry>, w: Net, step: Step, n: nat, d: string)
    requires n < |ids| == |w.members| && TableSound(w.members[n].peers) && IsVerified(PeersAfter(ids, w, step, n), d)
    ensures (Vouches(ids, step, n, d) && step.delivery == Complete)
      || (IsVerified(w.members[n].peers, d) && d !in Touched(ids, w, step, n))
      || (Restarts(w.members[n], step, n) && IsVerified(Saved(step.files), d))
  {
    hide IsVerified, TableSound, Met, Settled, Merged, Reloaded, ExpirePeers, Restored, Saved, HoldsOnly, Takes, Upsert;
    var peers := w.members[n].peers;
    if Taken(ids, step, n) {
      var e := ids[step.from];
      MetVerified(peers, ids[n].did, e, step.expiresAt, d);
      Identities(Met(peers, ids[n].did, e, step.expiresAt));
      SettledVerified(Met(peers, ids[n].did, e, step.expiresAt), e, step.bootstrap, step.pools, d);
    } else if Arrives(w, step, n) {
      MergedVerified(peers, ids[n].did, w.replies[step.index].list, step.upto, step.expiresAt, d);
    } else if Trusts(step, n) {
      Keys(peers);
      UpsertVerified(peers, NewPeer(step.domain, step.signed, "", step.expiresAt), d);
    } else if step.Expire? && step.node == n {
      ExpiredVerified(peers, step.now, d);
    } else if step.Reload? && step.node == n {
      ReloadedVerified(peers, step.upto, step.expiresAt, d);
    } else if Restarts(w.members[n], step, n) {
      RestoredVerified(step.files, d);
    }
  }

  lemma Identities(peers: seq<Peer>)
    requires TableSound(peers)
    ensures forall p :: p in peers ==> p.identity == p.domain
  {
  }

  lemma Keys(peers: seq<Peer>)
    requires TableSound(peers)
    ensures Unique(peers, BY_PEER_DOMAIN)
  {
  }

  lemma ExpiredVerified(peers: seq<Peer>, now: int, d: string)
    ensures IsVerified(ExpirePeers(peers, now), d) ==> IsVerified(peers, d)
  {
    hide IsVerified;
    SameVerified(peers, ExpirePeers(peers, now), d);
  }

  lemma RestoredVerified(files: Files<seq<Peer>>, d: string)
    ensures IsVerified(Restored(files), d) ==> IsVerified(Saved(files), d)
  {
    hide IsVerified, Saved;
    SameVerified(Saved(files), Restored(files), d);
  }

  lemma TriedVerified(ids: seq<Entry>, w: Net, step: Step, n: nat, t: seq<Peer>, d: string)
    requires n < |ids| == |w.members| && TableSound(w.members[n].peers)
    requires t in Tried(ids, w, step, n) && IsVerified(t, d)
    ensures Vouches(ids, step, n, d) || IsVerified(w.members[n].peers, d)
      || (Restarts(w.members[n], step, n) && IsVerified(Saved(step.files), d))
  {
    hide IsVerified, TableSound, Met, Settled, Merged, Reloaded, ExpirePeers, Restored, Saved, HoldsOnly, Takes, Upsert;
    var peers := w.members[n].peers;
    if Hears(ids, step, n) {
      var e := ids[step.from];
      MetVerified(peers, ids[n].did, e, step.expiresAt, d);
      Identities(Met(peers, ids[n].did, e, step.expiresAt));
      SettledVerified(Met(peers, ids[n].did, e, step.expiresAt), e, step.bootstrap, step.pools, d);
    } else if Arrives(w, step, n) {
      var list := w.replies[step.index].list;
      var i: nat :| i <= |list| && t == Merged(peers, ids[n].did, list, i, step.expiresAt);
      MergedVerified(peers, ids[n].did, list, i, step.expiresAt, d);
    } else if Trusts(step, n) {
      Keys(peers);
      UpsertVerified(peers, NewPeer(step.domain, step.signed, "", step.expiresAt), d);
    } else if step.Expire? && step.node == n {
      ExpiredVerified(peers, step.now, d);
    } else if step.Reload? && step.node == n {
      var i: nat :| t == Reloaded(peers, i, step.expiresAt);
      ReloadedVerified(peers, i, step.expiresAt, d);
    } else {
      RestoredVerified(step.files, d);
    }
  }

  // ---------- over whole runs ----------

  ghost predicate VouchedAt(ids: seq<Entry>, steps: seq<Step>, n: nat, d: string, k: nat)
    requires n < |ids|
  {
    k < |steps| && Vouches(ids, steps[k], n, d)
  }

  lemma TablesSound(ids: seq<Entry>, steps: seq<Step>, n: nat)
    requires n < |ids|
    ensures var m := Run(ids, steps).members[n]; TableSound(m.peers) && m.peers in m.attempts
  {
    hide Run, TableSound, PeerSound, ReplySound;
    RunKeeps(ids, steps);
    var w := Run(ids, steps);
    assert MemberSound(ids, w.announced, ids[n].did, w.members[n]);
  }

  /** A domain that is verified in any table a node ever tried to save was vouched for. */
  lemma {:induction false} AttemptsWereVouchedFor(
      ids: seq<Entry>, steps: seq<Step>, n: nat, t: seq<Peer>, d: string)
    requires n < |ids| && t in Run(ids, steps).members[n].attempts && IsVerified(t, d)
    ensures exists k: nat :: VouchedAt(ids, steps, n, d, k)
    decreases |steps|
  {
    hide Touched, PeersAfter, Tried, HoldsOnly, Saved, IsVerified, TableSound, Vouches;
    if steps == [] {
      NothingVerified(d);
    } else {
      var last := |steps| - 1;
      var before := steps[..last];
      var w := Run(ids, before);
      assert Run(ids, steps).members[n] == MemberAfter(ids, w, steps[last], n);
      TablesSound(ids, before, n);
      if t in w.members[n].attempts {
        AttemptsWereVouchedFor(ids, before, n, t, d);
        VouchedLater(ids, steps, |steps| - 1, n, d);
      } else {
        TriedVerified(ids, w, steps[last], n, t, d);
        if Vouches(ids, steps[last], n, d) {
          assert VouchedAt(ids, steps, n, d, last);
        } else if IsVerified(w.members[n].peers, d) {
          AttemptsWereVouchedFor(ids, before, n, w.members[n].peers, d);
          VouchedLater(ids, steps, |steps| - 1, n, d);
        } else {
          SavedIsAttempted(w.members[n], steps[last], n, d);
          AttemptsWereVouchedFor(ids, before, n, Saved(steps[last].files), d);
          VouchedLater(ids, steps, |steps| - 1, n, d);
        }
      }
    }
  }

  lemma NothingVerified(d: string)
    ensures !IsVerified([], d)
  {
  }

  lemma SavedIsAttempted(m: Member, step: Step, n: nat, d: string)
    requires Restarts(m, step, n) && IsVerified(Saved(step.files), d)
    ensures Saved(step.files) in m.attempts
  {
    hide HoldsOnly;
    RecoveryHoldsAttempts(step.files, m.attempts, 0, NoFault, false);
  }

  lemma VouchedLater(ids: seq<Entry>, steps: seq<Step>, last: nat, n: nat, d: string)
    requires n < |ids| && last <= |steps| && exists k: nat :: VouchedAt(ids, steps[..last], n, d, k)
    ensures exists k: nat :: VouchedAt(ids, steps, n, d, k) && k < last
  {
    hide Vouches;
    var k: nat :| VouchedAt(ids, steps[..last], n, d, k);
    assert VouchedAt(ids, steps, n, d, k);
  }

  /** Step `k` is a bootstrap announcement of the domain, taken in completely, and no later step
      upserts the domain. */
  ghost predicate VouchedLast(ids: seq<Entry>, steps: seq<Step>, n: nat, d: string, k: nat)
    requires n < |ids|
  {
    && VouchedAt(ids, steps, n, d, k) && steps[k].delivery == Complete
    && forall m :: k < m < |steps| ==> Untouched(ids, steps, n, d, m)
  }

  /** At step `r` a restart brings back an older table, such an announcement came before, and no
      step after the restart upserts the domain. */
  ghost predicate VouchedBack(ids: seq<Entry>, steps: seq<Step>, n: nat, d: string, r: nat)
    requires n < |ids|
  {
    && r < |steps| && OlderAt(ids, steps, n, r) && (exists k: nat :: VouchedAt(ids, steps, n, d, k) && k < r)
    && forall m :: r < m < |steps| ==> Untouched(ids, steps, n, d, m)
  }

  lemma VouchedStays(ids: seq<Entry>, steps: seq<Step>, n: nat, d: string, k: nat)
    requires n < |ids| && k < |steps| - 1 && Untouched(ids, steps, n, d, |steps| - 1)
    requires VouchedLast(ids, steps[..|steps| - 1], n, d, k) || VouchedBack(ids, steps[..|steps| - 1], n, d, k)
    ensures VouchedLast(ids, steps, n, d, k) || VouchedBack(ids, steps, n, d, k)
  {
    hide Untouched, OlderAt, Vouches;
    var before := steps[..|steps| - 1];
    UntouchedOn(ids, steps, |steps| - 1, n, d, k);
    OlderInPrefix(ids, steps, |steps| - 1, n, k);
    if VouchedBack(ids, before, n, d, k) {
      var j: nat :| VouchedAt(ids, before, n, d, j) && j < k;
      assert VouchedAt(ids, steps, n, d, j);
    }
  }

  /** What the last step of a run did to a domain that is verified after it. */
  lemma LastVerified(ids: seq<Entry>, steps: seq<Step>, last: nat, n: nat, d: string)
    requires n < |ids| && last == |steps| - 1 && IsVerified(Run(ids, steps).members[n].peers, d)
    ensures var m := Run(ids, steps[..last]).members[n];
      || VouchedLast(ids, steps, n, d, last)
      || (OlderAt(ids, steps, n, last) && steps[last].Restart? && IsVerified(Saved(steps[last].files), d))
      || (IsVerified(m.peers, d) && Untouched(ids, steps, n, d, last))
  {
    hide PeersAfter, Tried, HoldsOnly, Saved, IsVerified, TableSound, Touched;
    var w := Run(ids, steps[..last]);
    assert Run(ids, steps).members[n] == MemberAfter(ids, w, steps[last], n);
    TablesSound(ids, steps[..last], n);
    AfterVerified(ids, w, steps[last], n, d);
    RestartTouchesNothing(ids, w, steps[last], n);
  }

  lemma {:induction false} VerifiedMeans(ids: seq<Entry>, steps: seq<Step>, n: nat, d: string)
    requires n < |ids| && IsVerified(Run(ids, steps).members[n].peers, d)
    ensures exists k: nat :: k < |steps| && (VouchedLast(ids, steps, n, d, k) || VouchedBack(ids, steps, n, d, k))
    decreases |steps|
  {
    hide Next, Saved, IsVerified, VouchedLast, VouchedBack, Untouched, OlderAt;
    if steps == [] {
      NothingVerified(d);
    } else {
      var last := |steps| - 1;
      LastVerified(ids, steps, last, n, d);
      if OlderAt(ids, steps, n, last) && steps[last].Restart? && IsVerified(Saved(steps[last].files), d) {
        RestartVerified(ids, steps, n, d);
      } else if !VouchedLast(ids, steps, n, d, last) {
        VerifiedMeans(ids, steps[..last], n, d);
        var k: nat :| k < last
          && (VouchedLast(ids, steps[..last], n, d, k) || VouchedBack(ids, steps[..last], n, d, k));
        VouchedStays(ids, steps, n, d, k);
      }
    }
  }

  lemma RestartTouchesNothing(ids: seq<Entry>, w: Net, step: Step, n: nat)
    requires n < |ids| == |w.members|
    ensures Restarts(w.members[n], step, n) ==> Touched(ids, w, step, n) == {}
  {
    hide HoldsOnly;
  }

  lemma RestartVerified(ids: seq<Entry>, steps: seq<Step>, n: nat, d: string)
    requires n < |ids| && steps != [] && OlderAt(ids, steps, n, |steps| - 1)
    requires IsVerified(Saved(steps[|steps| - 1].files), d)
    ensures VouchedBack(ids, steps, n, d, |steps| - 1)
  {
    hide Run, HoldsOnly, Saved, IsVerified, TableSound, Vouches;
    var before := steps[..|steps| - 1];
    var m := Run(ids, before).members[n];
    TablesSound(ids, before, n);
    SavedIsAttempted(m, steps[|steps| - 1], n, d);
    AttemptsWereVouchedFor(ids, before, n, Saved(steps[|steps| - 1].files), d);
    VouchedLater(ids, steps, |steps| - 1, n, d);
  }

  /** A verified peer rests on a bootstrap announcement of its domain. It is the last thing upserted
      under the domain, unless a restart since has brought back an older table. */
  lemma VerifiedWasVouchedFor(ids: seq<Entry>, steps: seq<Step>, n: nat, p: Peer)
    requires n < |ids| && p in Run(ids, steps).members[n].peers && p.trust == Verified
    ensures exists k: nat ::
      (k < |steps| && (VouchedLast(ids, steps, n, p.domain, k) || VouchedBack(ids, steps, n, p.domain, k)))
    ensures NoneOlder(ids, steps, n, 0) ==> exists k: nat :: VouchedLast(ids, steps, n, p.domain, k)
  {
    hide Run, VouchedLast, Untouched, OlderAt;
    VerifiedMeans(ids, steps, n, p.domain);
  }

  /** What an action allowed to a peer rests on. */
  ghost predicate RestsOn(ids: seq<Entry>, steps: seq<Step>, n: nat, d: string, k: nat)
    requires n < |ids| && k < |steps|
  {
    || SignedLast(ids, steps, n, d, k) || BroughtBack(ids, steps, n, d, k)
    || VouchedLast(ids, steps, n, d, k) || VouchedBack(ids, steps, n, d, k)
  }

  /** Where verified peers are enough, an action is let through only for a host that answers to a
      domain signed for by the operator or vouched for by a bootstrap announcement: last of all
      upserts, unless a restart brought back an older table. */
  lemma AuthorizedWasVouchedFor(ids: seq<Entry>, steps: seq<Step>, n: nat, matches: Peer -> bool)
    requires n < |ids| && Authorize(Run(ids, steps).members[n].peers, matches, false).Allowed?
    ensures exists p, k: nat :: (p in Run(ids, steps).members[n].peers && matches(p) && k < |steps|
                                && RestsOn(ids, steps, n, p.domain, k))
    ensures NoneOlder(ids, steps, n, 0) ==>
      exists p, k: nat :: (p in Run(ids, steps).members[n].peers && matches(p) && k < |steps|
        && (SignedLast(ids, steps, n, p.domain, k) || VouchedLast(ids, steps, n, p.domain, k)))
  {
    hide Run, RestsOn, SignedLast, BroughtBack, VouchedLast, VouchedBack, NoneOlder, Authorize;
    var p := AllowedPeer(Run(ids, steps).members[n].peers, matches);
    PeerRests(ids, steps, n, p);
  }

  lemma AllowedPeer(peers: seq<Peer>, matches: Peer -> bool) returns (p: Peer)
    requires Authorize(peers, matches, false).Allowed?
    ensures p in peers && matches(p) && (p.trust == Trusted || p.trust == Verified)
  {
    var v := Authorize(peers, matches, false);
    var i :| 0 <= i < |peers| && matches(peers[i]) && v.state == peers[i].trust
             && (peers[i].trust == Trusted || peers[i].trust == Verified);
    p := peers[i];
  }

  lemma PeerRests(ids: seq<Entry>, steps: seq<Step>, n: nat, p: Peer)
    requires n < |ids| && p in Run(ids, steps).members[n].peers && (p.trust == Trusted || p.trust == Verified)
    ensures exists k: nat :: k < |steps| && RestsOn(ids, steps, n, p.domain, k)
    ensures NoneOlder(ids, steps, n, 0) ==> exists k: nat ::
      k < |steps| && (SignedLast(ids, steps, n, p.domain, k) || VouchedLast(ids, steps, n, p.domain, k))
  {
    hide Run, SignedLast, BroughtBack, VouchedLast, VouchedBack, NoneOlder;
    if p.trust == Trusted {
      TrustedWasSigned(ids, steps, n, p);
      var k: nat :| k < |steps|
        && (SignedLast(ids, steps, n, p.domain, k) || BroughtBack(ids, steps, n, p.domain, k));
      assert RestsOn(ids, steps, n, p.domain, k);
    } else {
      VerifiedWasVouchedFor(ids, steps, n, p);
      var k: nat :| k < |steps|
        && (VouchedLast(ids, steps, n, p.domain, k) || VouchedBack(ids, steps, n, p.domain, k));
      assert RestsOn(ids, steps, n, p.domain, k);
      if NoneOlder(ids, steps, n, 0) {
        var last: nat :| VouchedLast(ids, steps, n, p.domain, last);
        LastIsInRun(ids, steps, n, p.domain, last);
      }
    }
  }

  lemma LastIsInRun(ids: seq<Entry>, steps: seq<Step>, n: nat, d: string, k: nat)
    requires n < |ids| && VouchedLast(ids, steps, n, d, k)
    ensures k < |steps|
  {
  }
}
