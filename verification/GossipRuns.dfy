/** What holds of every gossip run: who is listed, who is trusted, and who learns of whom. */
module GossipRuns {
  import opened Wrappers
  import opened Tables
  import opened Gossip
  import opened GossipNetwork
  import opened PlatformStateStore

  // ---------- listings ----------

  lemma {:induction false} AnnouncedMeans(ids: seq<Entry>, steps: seq<Step>, j: nat)
    requires j in Run(ids, steps).announced
    ensures exists k :: 0 <= k < |steps| && steps[k].Announce? && steps[k].from == j && j < |ids|
    decreases |steps|
  {
    hide MemberAfter;
    var n := |steps| - 1;
    if j in Run(ids, steps[..n]).announced {
      AnnouncedMeans(ids, steps[..n], j);
      var k :| 0 <= k < n && steps[..n][k].Announce? && steps[..n][k].from == j;
      assert steps[k].Announce?;
    } else {
      assert steps[n].Announce?;
    }
  }

  /** In every run, each peer a node holds under a DID was announced by the node with that DID
      and URL, is not the holder itself, and shares its domain with no other peer. */
  lemma ListedWasAnnounced(ids: seq<Entry>, steps: seq<Step>, n: nat, p: Peer)
    requires n < |ids| && p in Run(ids, steps).members[n].peers && p.did.Some?
    ensures p.did.value != ids[n].did && Unique(Run(ids, steps).members[n].peers, BY_PEER_DOMAIN)
    ensures exists k :: (0 <= k < |steps| && steps[k].Announce? && steps[k].from < |ids|
                        && ids[steps[k].from] == Entry(p.did.value, p.domain))
  {
    hide Run;
    RunKeeps(ids, steps);
    var w := Run(ids, steps);
    assert MemberSound(ids, w.announced, ids[n].did, w.members[n]);
    assert PeerSound(ids, w.announced, ids[n].did, w.members[n].signed, p);
    var j :| j in w.announced && j < |ids| && ids[j] == Entry(p.did.value, p.domain);
    AnnouncedMeans(ids, steps, j);
  }

  // ---------- restarts ----------

  /** At step `r` node `n` restarts and finds an older table than the one it had in memory. */
  ghost predicate OlderAt(ids: seq<Entry>, steps: seq<Step>, n: nat, r: nat)
    requires n < |ids| && r < |steps|
  {
    var m := Run(ids, steps[..r]).members[n];
    Restarts(m, steps[r], n) && Saved(steps[r].files) != m.peers
  }

  /** From step `m` on, no restart of node `n` brings back an older table. */
  ghost predicate NoneOlder(ids: seq<Entry>, steps: seq<Step>, n: nat, m: nat)
    requires n < |ids|
  {
    forall r :: m <= r < |steps| ==> !OlderAt(ids, steps, n, r)
  }

  lemma OlderInPrefix(ids: seq<Entry>, steps: seq<Step>, last: nat, n: nat, r: nat)
    requires n < |ids| && r < last <= |steps|
    ensures OlderAt(ids, steps[..last], n, r) <==> OlderAt(ids, steps, n, r)
  {
    assert steps[..last][..r] == steps[..r];
  }

  lemma NoneOlderBefore(ids: seq<Entry>, steps: seq<Step>, last: nat, n: nat, m: nat)
    requires n < |ids| && last <= |steps| && NoneOlder(ids, steps, n, m)
    ensures NoneOlder(ids, steps[..last], n, m)
  {
    hide OlderAt;
    forall r | m <= r < last ensures !OlderAt(ids, steps[..last], n, r) {
      OlderInPrefix(ids, steps, last, n, r);
    }
  }

  /** When the last save before a restart was clean, and no younger temporary file is about, the
      restart brings back an older table exactly when that save's backup was stamped later than
      its temporary file and held something else. */
  lemma OlderAfterCleanSaveIff(
      ids: seq<Entry>, steps: seq<Step>, n: nat, r: nat, f: Files<seq<Peer>>, wroteAt: int, copiedAt: int)
    requires n < |ids| && r < |steps| && f.primary.Some?
    requires forall c :: c in f.temps + AsSeq(f.fixedTemp) ==> c.mtime <= wroteAt
    requires var m := Run(ids, steps[..r]).members[n];
      && steps[r] == Restart(n, AfterWrite(f, m.peers, true, wroteAt, copiedAt, NoFault))
      && HoldsOnly(steps[r].files, m.attempts)
    ensures OlderAt(ids, steps, n, r) <==>
      copiedAt > wroteAt && f.primary.value.value != Run(ids, steps[..r]).members[n].peers
  {
    hide Run, HoldsOnly;
    RecoveredAfterSave(f, Run(ids, steps[..r]).members[n].peers, wroteAt, copiedAt);
  }

  // ---------- domains ----------

  lemma UpsertDomains(peers: seq<Peer>, r: Peer)
    requires Unique(peers, BY_PEER_DOMAIN)
    ensures Domains(peers) <= Domains(Upsert(peers, BY_PEER_DOMAIN, r))
  {
    var next := Upsert(peers, BY_PEER_DOMAIN, r);
    UpsertMembers(peers, BY_PEER_DOMAIN, r);
    forall i | 0 <= i < |peers| ensures peers[i].domain in Domains(next) {
      var p := if BY_PEER_DOMAIN(peers[i]) == BY_PEER_DOMAIN(r) then r else peers[i];
      assert p in next;
      var k :| 0 <= k < |next| && next[k] == p;
    }
  }

  lemma {:induction false} MergedDomains(peers: seq<Peer>, self: string, list: seq<Entry>, upto: nat, at: int)
    requires upto <= |list| && Unique(peers, BY_PEER_DOMAIN)
    ensures Unique(Merged(peers, self, list, upto, at), BY_PEER_DOMAIN)
    ensures Domains(peers) <= Domains(Merged(peers, self, list, upto, at))
  {
    hide Unique, Takes;
    if upto > 0 {
      MergedDomains(peers, self, list, upto - 1, at);
      var e := list[upto - 1];
      UpsertUnique(Merged(peers, self, list, upto - 1, at), BY_PEER_DOMAIN, NewPeer(e.url, false, e.did, at));
      UpsertDomains(Merged(peers, self, list, upto - 1, at), NewPeer(e.url, false, e.did, at));
    }
  }

  lemma SameDomains(before: seq<Peer>, after: seq<Peer>)
    requires |after| == |before| && forall i :: 0 <= i < |before| ==> after[i].domain == before[i].domain
    ensures Domains(after) == Domains(before)
  {
    forall d ensures d in Domains(before) <==> d in Domains(after) {
      if d in Domains(before) {
        var i :| 0 <= i < |before| && before[i].domain == d;
        assert after[i].domain == d;
      }
      if d in Domains(after) {
        var i :| 0 <= i < |after| && after[i].domain == d;
        assert before[i].domain == d;
      }
    }
  }

  lemma StepRemembersDomains(ids: seq<Entry>, w: Net, step: Step, n: nat)
    requires Sound(ids, w) && n < |ids|
    requires Restarts(w.members[n], step, n) ==> Saved(step.files) == w.members[n].peers
    ensures Domains(w.members[n].peers) <= Domains(Next(ids, w, step).members[n].peers)
  {
    hide Domains, Settled, Merged, Reloaded, ExpirePeers, Listing, TakenUrls, Touched, PeerSound, ReplySound, Tried,
      HoldsOnly, Saved;
    var peers := w.members[n].peers;
    var next := Next(ids, w, step);
    assert MemberSound(ids, w.announced, ids[n].did, w.members[n]);
    assert PeersSound(ids, w.announced, ids[n].did, w.members[n].signed, peers);
    assert next.members[n] == MemberAfter(ids, w, step, n);
    if Taken(ids, step, n) {
      var e := ids[step.from];
      var met := Met(peers, ids[n].did, e, step.expiresAt);
      UpsertDomains(peers, NewPeer(e.url, false, e.did, step.expiresAt));
      SettledSame(met, e, step.bootstrap, step.pools);
      SameDomains(met, Settled(met, e, step.bootstrap, step.pools));
    } else if Arrives(w, step, n) {
      MergedDomains(peers, ids[n].did, w.replies[step.index].list, step.upto, step.expiresAt);
    } else if Trusts(step, n) {
      UpsertDomains(peers, NewPeer(step.domain, step.signed, "", step.expiresAt));
    } else if step.Expire? && step.node == n {
      ExpiredSame(peers, step.now);
      SameDomains(peers, ExpirePeers(peers, step.now));
    } else if step.Reload? && step.node == n {
      ReloadedDomains(peers, step.upto, step.expiresAt);
    } else if Restarts(w.members[n], step, n) {
      SameDomains(peers, Restored(step.files));
    }
  }

  lemma ReloadedDomains(peers: seq<Peer>, upto: nat, at: int)
    requires TableSound(peers)
    ensures Domains(Reloaded(peers, upto, at)) == Domains(peers)
  {
    forall i | 0 <= i < |peers| ensures Reloaded(peers, upto, at)[i].domain == peers[i].domain {
      assert peers[i] in peers;
    }
    SameDomains(peers, Reloaded(peers, upto, at));
  }

  /** While no restart brings back an older table, a node never forgets a domain it has had a
      peer under. */
  lemma {:induction false} DomainsAreKept(ids: seq<Entry>, steps: seq<Step>, m: nat, n: nat)
    requires m <= |steps| && n < |ids| && NoneOlder(ids, steps, n, m)
    ensures Domains(Run(ids, steps[..m]).members[n].peers) <= Domains(Run(ids, steps).members[n].peers)
    decreases |steps|
  {
    hide Next, Domains, NoneOlder;
    if m < |steps| {
      var last := |steps| - 1;
      var before := steps[..last];
      NoneOlderBefore(ids, steps, last, n, m);
      DomainsAreKept(ids, before, m, n);
      assert before[..m] == steps[..m];
      RunKeeps(ids, before);
      assert !OlderAt(ids, steps, n, last) by { NotOlderAt(ids, steps, n, m, last); }
      StepRemembersDomains(ids, Run(ids, before), steps[last], n);
    } else {
      assert steps[..m] == steps;
    }
  }

  lemma NotOlderAt(ids: seq<Entry>, steps: seq<Step>, n: nat, m: nat, r: nat)
    requires n < |ids| && NoneOlder(ids, steps, n, m) && m <= r < |steps|
    ensures !OlderAt(ids, steps, n, r)
  {
  }

  // ---------- trust ----------

  ghost predicate Untouched(ids: seq<Entry>, steps: seq<Step>, n: nat, d: string, m: nat)
    requires n < |ids| && m < |steps|
  {
    d !in Touched(ids, Run(ids, steps[..m]), steps[m], n)
  }

  /** Step `k` is the operator's signed trust in a domain. */
  ghost predicate SignedAt(steps: seq<Step>, n: nat, d: string, k: nat)
    requires k < |steps|
  {
    Trusts(steps[k], n) && steps[k].domain == d && steps[k].signed
  }

  /** Step `k` is that, and no later step upserts the domain. */
  ghost predicate SignedLast(ids: seq<Entry>, steps: seq<Step>, n: nat, d: string, k: nat)
    requires n < |ids| && k < |steps|
  {
    SignedAt(steps, n, d, k) && steps[k].saved && forall m :: k < m < |steps| ==> Untouched(ids, steps, n, d, m)
  }

  /** At step `r` a restart brings back an older table, a signed trust in the domain came before,
      and no step after the restart upserts the domain. */
  ghost predicate BroughtBack(ids: seq<Entry>, steps: seq<Step>, n: nat, d: string, r: nat)
    requires n < |ids| && r < |steps|
  {
    && OlderAt(ids, steps, n, r) && (exists k :: 0 <= k < r && SignedAt(steps, n, d, k))
    && forall m :: r < m < |steps| ==> Untouched(ids, steps, n, d, m)
  }

  lemma UntouchedInPrefix(ids: seq<Entry>, steps: seq<Step>, last: nat, n: nat, d: string, m: nat)
    requires n < |ids| && m < last <= |steps| && Untouched(ids, steps[..last], n, d, m)
    ensures Untouched(ids, steps, n, d, m)
  {
    assert steps[..last][..m] == steps[..m];
  }

  lemma UntouchedOn(ids: seq<Entry>, steps: seq<Step>, last: nat, n: nat, d: string, k: nat)
    requires n < |ids| && k < last == |steps| - 1 && Untouched(ids, steps, n, d, last)
    requires forall m :: k < m < last ==> Untouched(ids, steps[..last], n, d, m)
    ensures forall m :: k < m < |steps| ==> Untouched(ids, steps, n, d, m)
  {
    hide Untouched;
    forall m | k < m < |steps| ensures Untouched(ids, steps, n, d, m) {
      if m < last { UntouchedInPrefix(ids, steps, last, n, d, m); }
    }
  }

  lemma {:induction false} EverSignedMeans(ids: seq<Entry>, steps: seq<Step>, n: nat, d: string)
    requires n < |ids| && d in Run(ids, steps).members[n].everSigned
    ensures exists k :: 0 <= k < |steps| && SignedAt(steps, n, d, k)
    decreases |steps|
  {
    hide Touched, PeersAfter, Tried;
    var last := |steps| - 1;
    var w := Run(ids, steps[..last]);
    assert Run(ids, steps).members[n] == MemberAfter(ids, w, steps[last], n);
    if d in w.members[n].everSigned {
      EverSignedMeans(ids, steps[..last], n, d);
      var k :| 0 <= k < last && SignedAt(steps[..last], n, d, k);
      assert SignedAt(steps, n, d, k);
    } else {
      assert SignedAt(steps, n, d, last);
    }
  }

  lemma {:induction false} SignedMeans(ids: seq<Entry>, steps: seq<Step>, n: nat, d: string)
    requires n < |ids| && d in Run(ids, steps).members[n].signed
    ensures exists k :: 0 <= k < |steps| && (SignedLast(ids, steps, n, d, k) || BroughtBack(ids, steps, n, d, k))
    decreases |steps|
  {
    hide Touched, PeersAfter, Tried, HoldsOnly, Saved;
    var last := |steps| - 1;
    var before := steps[..last];
    var w := Run(ids, before);
    assert Run(ids, steps).members[n] == MemberAfter(ids, w, steps[last], n);
    if OlderAt(ids, steps, n, last) {
      EverSignedMeans(ids, before, n, d);
      var k :| 0 <= k < last && SignedAt(before, n, d, k);
      assert SignedAt(steps, n, d, k);
      assert BroughtBack(ids, steps, n, d, last);
    } else if SignedAt(steps, n, d, last) && steps[last].saved {
      assert SignedLast(ids, steps, n, d, last);
    } else {
      SignedMeans(ids, before, n, d);
      var k :| 0 <= k < last && (SignedLast(ids, before, n, d, k) || BroughtBack(ids, before, n, d, k));
      assert Untouched(ids, steps, n, d, last);
      SignedStays(ids, steps, n, d, k);
    }
  }

  lemma SignedStays(ids: seq<Entry>, steps: seq<Step>, n: nat, d: string, k: nat)
    requires n < |ids| && k < |steps| - 1 && Untouched(ids, steps, n, d, |steps| - 1)
    requires SignedLast(ids, steps[..|steps| - 1], n, d, k) || BroughtBack(ids, steps[..|steps| - 1], n, d, k)
    ensures SignedLast(ids, steps, n, d, k) || BroughtBack(ids, steps, n, d, k)
  {
    hide Untouched, OlderAt;
    var before := steps[..|steps| - 1];
    UntouchedOn(ids, steps, |steps| - 1, n, d, k);
    OlderInPrefix(ids, steps, |steps| - 1, n, k);
    if BroughtBack(ids, before, n, d, k) {
      var j :| 0 <= j < k && SignedAt(before, n, d, j);
      assert SignedAt(steps, n, d, j);
    }
  }

  /** A trusted peer rests on a signed trust request. It is the last thing upserted under the
      peer's domain, unless a restart since has brought back an older table. */
  lemma TrustedWasSigned(ids: seq<Entry>, steps: seq<Step>, n: nat, p: Peer)
    requires n < |ids| && p in Run(ids, steps).members[n].peers && p.trust == Trusted
    ensures exists k :: (0 <= k < |steps|
      && (SignedLast(ids, steps, n, p.domain, k) || BroughtBack(ids, steps, n, p.domain, k)))
    ensures NoneOlder(ids, steps, n, 0) ==> exists k :: 0 <= k < |steps| && SignedLast(ids, steps, n, p.domain, k)
  {
    hide Run, SignedLast, Untouched, OlderAt;
    RunKeeps(ids, steps);
    var w := Run(ids, steps);
    assert MemberSound(ids, w.announced, ids[n].did, w.members[n]);
    assert PeerSound(ids, w.announced, ids[n].did, w.members[n].signed, p);
    SignedMeans(ids, steps, n, p.domain);
  }

  /** Where trusted peers are required, an action is let through only for a host that answers
      to a domain the operator signed for last, unless a restart brought back an older table. */
  lemma AuthorizedWasSigned(ids: seq<Entry>, steps: seq<Step>, n: nat, matches: Peer -> bool)
    requires n < |ids| && Authorize(Run(ids, steps).members[n].peers, matches, true).Allowed?
    ensures exists p, k :: (p in Run(ids, steps).members[n].peers && matches(p) && 0 <= k < |steps|
      && (SignedLast(ids, steps, n, p.domain, k) || BroughtBack(ids, steps, n, p.domain, k)))
    ensures NoneOlder(ids, steps, n, 0) ==>
      exists p, k :: (p in Run(ids, steps).members[n].peers && matches(p) && 0 <= k < |steps|
                     && SignedLast(ids, steps, n, p.domain, k))
  {
    hide Run, SignedLast, BroughtBack, NoneOlder;
    var peers := Run(ids, steps).members[n].peers;
    var v := Authorize(peers, matches, true);
    var p :| p in peers && matches(p) && p.trust == v.state;
    TrustedWasSigned(ids, steps, n, p);
  }

  /** Any announcement under a trusted peer's domain, even its own, takes the trust back. */
  lemma AnnouncementResetsTrust(peers: seq<Peer>, self: string, e: Entry, at: int)
    requires Takes(self, e)
    ensures var p := Find(Met(peers, self, e, at), BY_PEER_DOMAIN, e.url);
      p.Some? && p.value.trust == Pending && p.value.did == Some(e.did)
  {
    FindUpsert(peers, BY_PEER_DOMAIN, NewPeer(e.url, false, e.did, at), e.url);
  }

  // ---------- joining ----------

  lemma {:induction false} MergedKnows(
      ids: seq<Entry>, announced: set<nat>, self: string, signed: set<string>, peers: seq<Peer>,
      list: seq<Entry>, upto: nat, at: int, j: nat)
    requires PeersSound(ids, announced, self, signed, peers) && Unshared(ids, self)
    requires upto <= |list| && (forall e :: e in list ==> Owned(ids, announced, e))
    requires j < |ids| && Takes(self, ids[j]) && (Knows(peers, ids[j]) || ids[j] in list[..upto])
    ensures Knows(Merged(peers, self, list, upto, at), ids[j])
  {
    hide Owned, Knows, Takes, Met, Unshared, PeerSound;
    if upto > 0 {
      var e := list[upto - 1];
      assert list[..upto] == list[..upto - 1] + [e];
      if Knows(peers, ids[j]) || ids[j] in list[..upto - 1] {
        MergedKnows(ids, announced, self, signed, peers, list, upto - 1, at, j);
      }
      MergedSound(ids, announced, self, signed, peers, list, upto - 1, at);
      KnowsMet(ids, announced, self, Merged(peers, self, list, upto - 1, at), e, at, j);
    }
  }

  lemma TrustKnows(peers: seq<Peer>, step: Step, e: Entry)
    requires step.Trust? && TableSound(peers) && Knows(peers, e) && e.url != step.domain
    ensures Knows(UpsertPeer(peers, step.domain, step.signed, "", step.expiresAt), e)
  {
    KnowsUpsert(peers, NewPeer(step.domain, step.signed, "", step.expiresAt), e);
  }

  lemma ReloadedKnows(peers: seq<Peer>, upto: nat, at: int, e: Entry)
    requires TableSound(peers) && Knows(peers, e) && e.did != ""
    ensures Knows(Reloaded(peers, upto, at), e)
  {
    var p :| p in peers && p.domain == e.url && p.did == Some(e.did);
    var i :| 0 <= i < |peers| && peers[i] == p;
    var after := Reloaded(peers, upto, at);
    assert after[i] in after && after[i].domain == e.url && after[i].did == Some(e.did);
  }

  /** A node goes on knowing whoever joined it, until the operator upserts their domain or a
      restart brings back an older table. */
  lemma StillKnown(ids: seq<Entry>, w: Net, step: Step, n: nat, j: nat)
    requires Sound(ids, w) && n < |ids| && j < |ids| && Unshared(ids, ids[n].did)
    requires JoinedKnown(ids, ids[n].did, w.members[n]) && j in Next(ids, w, step).members[n].joined
    ensures Takes(ids[n].did, ids[j]) && Knows(Next(ids, w, step).members[n].peers, ids[j])
  {
    hide Owned, Knows, Met, Settled, Merged, Reloaded, ExpirePeers, Listing, Touched, Unshared, PeerSound,
      TableSound, SamePeers, UpsertPeer, Tried, Restored, HoldsOnly, Saved;
    var peers := w.members[n].peers;
    var self := ids[n].did;
    assert Next(ids, w, step).members[n] == MemberAfter(ids, w, step, n);
    assert MemberSound(ids, w.announced, self, w.members[n]);
    assert PeersSound(ids, w.announced, self, w.members[n].signed, peers);
    if Taken(ids, step, n) {
      var e := ids[step.from];
      var met := Met(peers, self, e, step.expiresAt);
      AnnouncerOwned(ids, w.announced + {step.from}, step.from);
      KnowsMet(ids, w.announced + {step.from}, self, peers, e, step.expiresAt, j);
      SettledSame(met, e, step.bootstrap, step.pools);
      if step.delivery == Complete { SameKnows(met, Settled(met, e, step.bootstrap, step.pools), ids[j]); }
    } else if Arrives(w, step, n) {
      var r := w.replies[step.index];
      assert ReplySound(ids, w.announced, r);
      MergedKnows(ids, w.announced, self, w.members[n].signed, peers, r.list, step.upto, step.expiresAt, j);
    } else if Trusts(step, n) && step.saved {
      TrustKnows(peers, step, ids[j]);
    } else if step.Expire? && step.node == n && step.saved {
      ExpiredSame(peers, step.now);
      SameKnows(peers, ExpirePeers(peers, step.now), ids[j]);
    } else if step.Reload? && step.node == n {
      ReloadedKnows(peers, step.upto, step.expiresAt, ids[j]);
    } else if Restarts(w.members[n], step, n) {
      RestoredSame(step.files);
      SameKnows(peers, Restored(step.files), ids[j]);
    }
  }

  lemma JoinedStay(ids: seq<Entry>, w: Net, step: Step, n: nat)
    requires Sound(ids, w) && n < |ids| && Unshared(ids, ids[n].did)
    requires JoinedKnown(ids, ids[n].did, w.members[n])
    ensures JoinedKnown(ids, ids[n].did, Next(ids, w, step).members[n])
  {
    hide PeersSound, ReplySound, Knows, Takes, PeersAfter, Touched, Tried, Listing, Unshared, MemberSound, HoldsOnly;
    var next := Next(ids, w, step);
    assert next.members[n] == MemberAfter(ids, w, step, n);
    forall j | j in next.members[n].joined
      ensures j < |ids| && Takes(ids[n].did, ids[j]) && Knows(next.members[n].peers, ids[j])
    {
      assert j < |ids|;
      StillKnown(ids, w, step, n, j);
    }
  }

  lemma {:induction false} JoinedKnownInRuns(ids: seq<Entry>, steps: seq<Step>, n: nat)
    requires n < |ids| && Unshared(ids, ids[n].did)
    ensures JoinedKnown(ids, ids[n].did, Run(ids, steps).members[n])
    decreases |steps|
  {
    hide Next, Unshared;
    if steps != [] {
      JoinedKnownInRuns(ids, steps[..|steps| - 1], n);
      RunKeeps(ids, steps[..|steps| - 1]);
      JoinedStay(ids, Run(ids, steps[..|steps| - 1]), steps[|steps| - 1], n);
    }
  }

  lemma AllJoinedListed(ids: seq<Entry>, w: Net, n: nat)
    requires Sound(ids, w) && n < |ids| && JoinedKnown(ids, ids[n].did, w.members[n])
    ensures forall j :: j in w.members[n].joined ==> j < |ids| && ids[j] in Listing(w.members[n].peers, ids[n].did)
  {
    hide PeerSound, ReplySound, Knows, Takes, Listing;
    assert MemberSound(ids, w.announced, ids[n].did, w.members[n]);
    assert PeersSound(ids, w.announced, ids[n].did, w.members[n].signed, w.members[n].peers);
    forall j | j in w.members[n].joined ensures j < |ids| && ids[j] in Listing(w.members[n].peers, ids[n].did) {
      KnownIsListed(w.members[n].peers, ids[n].did, ids[j]);
    }
  }

  /** Node `j` joined `b` at step `i`, and until step `m` the operator of `b` leaves its domain
      alone and no restart of `b` brings back an older table. */
  ghost predicate JoinedBetween(ids: seq<Entry>, steps: seq<Step>, i: nat, m: nat, b: nat, j: nat) {
    && i < m <= |steps| && b < |ids| && j < |ids| && Taken(ids, steps[i], b) && steps[i].from == j
    && forall k :: i < k < m ==> LeavesAlone(ids, steps, b, j, k)
  }

  ghost predicate LeavesAlone(ids: seq<Entry>, steps: seq<Step>, b: nat, j: nat, k: nat)
    requires b < |ids| && j < |ids| && k < |steps|
  {
    !(Trusts(steps[k], b) && steps[k].saved && steps[k].domain == ids[j].url) && !OlderAt(ids, steps, b, k)
  }

  lemma {:induction false} JoinedIsRecorded(ids: seq<Entry>, steps: seq<Step>, i: nat, m: nat, b: nat, j: nat)
    requires JoinedBetween(ids, steps, i, m, b, j)
    ensures j in Run(ids, steps[..m]).members[b].joined
    decreases m
  {
    hide PeersAfter, Touched, Tried, HoldsOnly, Saved;
    var w := Run(ids, steps[..m - 1]);
    assert steps[..m][..m - 1] == steps[..m - 1];
    assert Run(ids, steps[..m]) == Next(ids, w, steps[m - 1]);
    assert Next(ids, w, steps[m - 1]).members[b] == MemberAfter(ids, w, steps[m - 1], b);
    if i < m - 1 {
      JoinedIsRecorded(ids, steps, i, m - 1, b, j);
      assert LeavesAlone(ids, steps, b, j, m - 1);
    }
  }

  /** The reply sent at step `m` goes to the announcer and names node `j`. */
  ghost predicate Told(ids: seq<Entry>, steps: seq<Step>, m: nat, j: nat)
    requires m < |steps| && j < |ids|
  {
    var replies := Run(ids, steps[..m + 1]).replies;
    && steps[m].Announce? && replies != []
    && replies[|replies| - 1].to == steps[m].from && ids[j] in replies[|replies| - 1].list
  }

  /** Whoever joins a node that takes in no two nodes under one URL is told of everyone who
      joined it before and has neither been overwritten by the node's operator nor lost in a
      restart since. */
  lemma LaterJoinerIsTold(ids: seq<Entry>, steps: seq<Step>, i: nat, m: nat, b: nat, j: nat)
    requires m < |steps| && JoinedBetween(ids, steps, i, m, b, j) && Unshared(ids, ids[b].did)
    requires Taken(ids, steps[m], b) && steps[m].delivery == Complete
    ensures Told(ids, steps, m, j)
  {
    hide PeersAfter, Touched, Tried, Listing, Unshared, Sound, OlderAt;
    var w := Run(ids, steps[..m]);
    assert steps[..m + 1][..m] == steps[..m];
    var next := Next(ids, w, steps[m]);
    assert Run(ids, steps[..m + 1]) == next;
    JoinedIsRecorded(ids, steps, i, m, b, j);
    assert next.members[b] == MemberAfter(ids, w, steps[m], b);
    JoinedKnownInRuns(ids, steps[..m + 1], b);
    RunKeeps(ids, steps[..m + 1]);
    AllJoinedListed(ids, next, b);
  }

  /** Once the reply has been taken in, the later joiner knows the earlier one. */
  lemma LaterJoinerLearns(ids: seq<Entry>, steps: seq<Step>, i: nat, m: nat, q: nat, b: nat, j: nat)
    requires m < q < |steps| && JoinedBetween(ids, steps, i, m, b, j) && Unshared(ids, ids[b].did)
    requires Taken(ids, steps[m], b) && steps[m].delivery == Complete
    requires Takes(ids[steps[m].from].did, ids[j]) && Unshared(ids, ids[steps[m].from].did)
    requires steps[q].Receive? && steps[q].index < |Run(ids, steps[..q]).replies|
    requires var sent := Run(ids, steps[..m + 1]).replies;
      sent != [] && Run(ids, steps[..q]).replies[steps[q].index] == sent[|sent| - 1]
      && steps[q].upto == |sent[|sent| - 1].list|
    ensures Knows(Run(ids, steps[..q + 1]).members[steps[m].from].peers, ids[j])
  {
    hide PeersAfter, Touched, Tried, Listing, Unshared, Sound, Takes, Knows, Next, OlderAt;
    LaterJoinerIsTold(ids, steps, i, m, b, j);
    var w := Run(ids, steps[..q]);
    assert steps[..q + 1][..q] == steps[..q];
    RunKeeps(ids, steps[..q]);
    ReceivedIsKnown(ids, w, steps[q], steps[m].from, j);
  }

  lemma ReceivedIsKnown(ids: seq<Entry>, w: Net, step: Step, n: nat, j: nat)
    requires Sound(ids, w) && n < |ids| && j < |ids| && Unshared(ids, ids[n].did)
    requires Arrives(w, step, n) && step.upto == |w.replies[step.index].list|
    requires ids[j] in w.replies[step.index].list && Takes(ids[n].did, ids[j])
    ensures Knows(Next(ids, w, step).members[n].peers, ids[j])
  {
    hide Touched, Tried, Listing, Unshared, Takes, Knows, PeerSound, Owned, Merged;
    var m := w.members[n];
    var r := w.replies[step.index];
    assert ReplySound(ids, w.announced, r);
    assert MemberSound(ids, w.announced, ids[n].did, m);
    assert PeersSound(ids, w.announced, ids[n].did, m.signed, m.peers);
    assert r.list[..|r.list|] == r.list;
    MergedKnows(ids, w.announced, ids[n].did, m.signed, m.peers, r.list, step.upto, step.expiresAt, j);
    assert Next(ids, w, step).members[n] == MemberAfter(ids, w, step, n);
  }

  // ---------- shared URLs ----------

  /** Nodes that share a URL hide each other: the one that announced itself last is known, the
      other no longer is. */
  lemma SharedUrlHidesTheEarlier(peers: seq<Peer>, self: string, first: Entry, second: Entry, at: int)
    requires TableSound(peers) && Takes(self, first) && Takes(self, second)
    requires first.url == second.url && first.did != second.did
    ensures var after := Met(Met(peers, self, first, at), self, second, at);
      Knows(after, second) && !Knows(after, first)
  {
    var once := NewPeer(first.url, false, first.did, at);
    var twice := NewPeer(second.url, false, second.did, at);
    UpsertUnique(peers, BY_PEER_DOMAIN, once);
    UpsertMembers(peers, BY_PEER_DOMAIN, once);
    UpsertMembers(Upsert(peers, BY_PEER_DOMAIN, once), BY_PEER_DOMAIN, twice);
    assert twice in Upsert(Upsert(peers, BY_PEER_DOMAIN, once), BY_PEER_DOMAIN, twice);
  }

  /** An announcement from a bootstrap peer: these are taken from anyone. */
  function Announces(from: nat, to: nat): Step {
    Announce(from, to, true, [], Complete, 0)
  }

  function Greeted(peers: seq<Peer>, self: string, e: Entry): seq<Peer> {
    Settled(Met(peers, self, e, 0), e, true, [])
  }

  lemma MemberNext(ids: seq<Entry>, steps: seq<Step>, k: nat, n: nat)
    requires k < |steps| && n < |ids|
    ensures Run(ids, steps[..k + 1]) == Next(ids, Run(ids, steps[..k]), steps[k])
    ensures Run(ids, steps[..k + 1]).members[n] == MemberAfter(ids, Run(ids, steps[..k]), steps[k], n)
  {
    hide MemberAfter, Listing;
    assert steps[..k + 1][..k] == steps[..k];
  }

  lemma {:induction false} TwoAnnounced(ids: seq<Entry>, i: nat, j: nat, b: nat)
    requires i < |ids| && j < |ids| && b < |ids| && Takes(ids[b].did, ids[i]) && Takes(ids[b].did, ids[j])
    ensures var peers := Greeted(Greeted([], ids[b].did, ids[i]), ids[b].did, ids[j]);
      var w := Run(ids, [Announces(i, b), Announces(j, b)]);
      w.replies != [] && w.replies[|w.replies| - 1] == Reply(j, Listing(peers, ids[b].did))
  {
    hide Met, Settled, Listing, Touched, Tried;
    var steps := [Announces(i, b), Announces(j, b)];
    assert steps[..0] == [] && steps[..2] == steps;
    MemberNext(ids, steps, 0, b);
    MemberNext(ids, steps, 1, b);
  }

  lemma UnknownIsUnlisted(peers: seq<Peer>, self: string, e: Entry)
    requires TableSound(peers) && !Knows(peers, e)
    ensures e !in Listing(peers, self)
  {
    hide Listing;
    ListingMembers(peers, self);
  }

  /** The run that shows it over the network: two nodes announce themselves to `b` under one
      URL, and the reply to the second does not name the first. */
  lemma {:induction false} SharedUrlIsNotTold(ids: seq<Entry>, b: nat, i: nat, j: nat)
    requires b < |ids| && i < |ids| && j < |ids| && Takes(ids[b].did, ids[i]) && Takes(ids[b].did, ids[j])
    requires ids[i].url == ids[j].url && ids[i] != ids[j]
    ensures var steps := [Announces(i, b), Announces(j, b)];
      && JoinedBetween(ids, steps, 0, 1, b, i) && Taken(ids, steps[1], b) && !Told(ids, steps, 1, i)
  {
    hide Listing, Knows, Run, Settled, Met;
    var self := ids[b].did;
    var steps := [Announces(i, b), Announces(j, b)];
    TwoAnnounced(ids, i, j, b);
    assert steps[..2] == steps;
    var once := Greeted([], self, ids[i]);
    var twice := Greeted(once, self, ids[j]);
    GreetedSame([], self, ids[i]);
    GreetedSame(once, self, ids[j]);
    OnlyTheLater(once, self, ids[i], ids[j]);
    if Knows(twice, ids[i]) { KnewBefore(Met(once, self, ids[j], 0), twice, ids[i]); }
    UnknownIsUnlisted(twice, self, ids[i]);
  }

  lemma OnlyTheLater(peers: seq<Peer>, self: string, first: Entry, second: Entry)
    requires TableSound(peers) && Takes(self, second) && first.url == second.url && first.did != second.did
    ensures !Knows(Met(peers, self, second, 0), first)
  {
    UpsertMembers(peers, BY_PEER_DOMAIN, NewPeer(second.url, false, second.did, 0));
  }

  lemma GreetedSame(peers: seq<Peer>, self: string, e: Entry)
    requires TableSound(peers)
    ensures TableSound(Greeted(peers, self, e)) && SamePeers(Met(peers, self, e, 0), Greeted(peers, self, e))
  {
    var met := Met(peers, self, e, 0);
    SettledSame(met, e, true, []);
    MetTableSound(peers, self, e, 0);
    SameTableSound(met, Greeted(peers, self, e));
  }

  lemma SameTableSound(before: seq<Peer>, after: seq<Peer>)
    requires TableSound(before) && SamePeers(before, after)
    ensures TableSound(after)
  {
    forall p | p in after ensures p.identity == p.domain && p.domain != "" {
      var i :| 0 <= i < |after| && after[i] == p;
      assert before[i] in before;
    }
    forall i, j | 0 <= i < j < |after| ensures BY_PEER_DOMAIN(after[i]) != BY_PEER_DOMAIN(after[j]) {
      assert BY_PEER_DOMAIN(before[i]) != BY_PEER_DOMAIN(before[j]);
    }
  }

  lemma KnewBefore(before: seq<Peer>, after: seq<Peer>, e: Entry)
    requires Knows(after, e) && SamePeers(before, after)
    ensures Knows(before, e)
  {
    var p :| p in after && p.domain == e.url && p.did == Some(e.did);
    var i :| 0 <= i < |after| && after[i] == p;
    assert before[i] in before;
  }

  lemma MetTableSound(peers: seq<Peer>, self: string, e: Entry, at: int)
    requires TableSound(peers)
    ensures TableSound(Met(peers, self, e, at))
  {
    UpsertUnique(peers, BY_PEER_DOMAIN, NewPeer(e.url, false, e.did, at));
    UpsertMembers(peers, BY_PEER_DOMAIN, NewPeer(e.url, false, e.did, at));
  }

  /** In every run, whoever joins `b` is told of every earlier joiner that its operator has not
      overwritten and no restart has lost. */
  ghost predicate AlwaysTold(ids: seq<Entry>, b: nat) {
    forall steps: seq<Step>, i: nat, m: nat, j: nat ::
      (JoinedBetween(ids, steps, i, m, b, j) && m < |steps| && Taken(ids, steps[m], b)
       && steps[m].delivery == Complete) ==> Told(ids, steps, m, j)
  }

  /** Joiners are always told of earlier ones exactly when no two nodes that `b` takes in share
      a URL. */
  lemma AlwaysToldIff(ids: seq<Entry>, b: nat)
    requires b < |ids|
    ensures AlwaysTold(ids, b) <==> Unshared(ids, ids[b].did)
  {
    hide Told, Takes, Run;
    if Unshared(ids, ids[b].did) {
      forall steps: seq<Step>, i: nat, m: nat, j: nat
        | JoinedBetween(ids, steps, i, m, b, j) && m < |steps| && Taken(ids, steps[m], b)
          && steps[m].delivery == Complete
        ensures Told(ids, steps, m, j)
      {
        LaterJoinerIsTold(ids, steps, i, m, b, j);
      }
    } else {
      var x, y :| x in ids && y in ids && Takes(ids[b].did, x) && Takes(ids[b].did, y) && x.url == y.url && x != y;
      var i: nat :| i < |ids| && ids[i] == x;
      var j: nat :| j < |ids| && ids[j] == y;
      SharedUrlIsNotTold(ids, b, i, j);
      var steps := [Announces(i, b), Announces(j, b)];
      assert JoinedBetween(ids, steps, 0, 1, b, i) && !Told(ids, steps, 1, i);
    }
  }

  // ---------- what a restart can undo ----------

  /** Two clean saves, the first of them the first of all. */
  function TwoSaves(previous: seq<Peer>, next: seq<Peer>, first: int, wroteAt: int, copiedAt: int): Files<seq<Peer>> {
    AfterWrite(AfterWrite(NoFiles(), previous, true, first, first, NoFault), next, true, wroteAt, copiedAt, NoFault)
  }

  lemma TrustStep(ids: seq<Entry>, steps: seq<Step>, k: nat, n: nat)
    requires k < |steps| && n < |ids| && Trusts(steps[k], n) && steps[k].saved
    ensures var m, next := Run(ids, steps[..k]).members[n], Run(ids, steps[..k + 1]).members[n];
      && next.peers == UpsertPeer(m.peers, steps[k].domain, steps[k].signed, "", steps[k].expiresAt)
      && next.attempts == m.attempts + {next.peers}
  {
    hide UpsertPeer, Touched, Run;
    MemberNext(ids, steps, k, n);
  }

  lemma AnnounceStep(ids: seq<Entry>, steps: seq<Step>, k: nat, n: nat)
    requires k < |steps| && n < |ids| && Hears(ids, steps[k], n) && steps[k].delivery == Complete
    requires !steps[k].bootstrap && steps[k].pools == []
    ensures var m, next := Run(ids, steps[..k]).members[n], Run(ids, steps[..k + 1]).members[n];
      && next.peers == Met(m.peers, ids[n].did, ids[steps[k].from], steps[k].expiresAt)
      && next.attempts == m.attempts + {next.peers}
  {
    hide Met, Touched, Run, Takes;
    MemberNext(ids, steps, k, n);
  }

  lemma TwoSavesRestored(
      previous: seq<Peer>, next: seq<Peer>, first: int, wroteAt: int, copiedAt: int, attempts: set<seq<Peer>>)
    requires {previous, next} <= attempts && previous != next && forall p :: p in previous + next ==> p.pools == []
    ensures var files := TwoSaves(previous, next, first, wroteAt, copiedAt);
      HoldsOnly(files, attempts) && Restored(files) == if copiedAt > wroteAt then previous else next
  {
    hide Newest;
    var once := AfterWrite(NoFiles(), previous, true, first, first, NoFault);
    var files := TwoSaves(previous, next, first, wroteAt, copiedAt);
    assert Candidates(files) == [Stamped(next, wroteAt), Stamped(previous, copiedAt)];
    RecoveredAfterSave(once, next, wroteAt, copiedAt);
    var saved := if copiedAt > wroteAt then previous else next;
    forall i | 0 <= i < |saved| ensures saved[i].pools == [] {
      assert saved[i] in previous + next;
    }
    assert Restored(files) == saved;
  }

  lemma RestartStep(
      ids: seq<Entry>, steps: seq<Step>, k: nat, n: nat, previous: seq<Peer>, next: seq<Peer>, first: int, wroteAt: int,
      copiedAt: int)
    requires k < |steps| && n < |ids| && {previous, next} <= Run(ids, steps[..k]).members[n].attempts
    requires steps[k] == Restart(n, TwoSaves(previous, next, first, wroteAt, copiedAt))
    requires previous != next && forall p :: p in previous + next ==> p.pools == []
    ensures Run(ids, steps[..k + 1]).members[n].peers == if copiedAt > wroteAt then previous else next
  {
    hide Run, TwoSaves, HoldsOnly, Restored, MemberAfter;
    TwoSavesRestored(previous, next, first, wroteAt, copiedAt, Run(ids, steps[..k]).members[n].attempts);
    MemberNext(ids, steps, k, n);
    MemberRestarts(ids, Run(ids, steps[..k]), steps[k], n);
  }

  lemma MemberRestarts(ids: seq<Entry>, w: Net, step: Step, n: nat)
    requires n < |ids| == |w.members| && Restarts(w.members[n], step, n)
    ensures MemberAfter(ids, w, step, n).peers == Restored(step.files)
  {
    hide Touched, Tried, HoldsOnly, Restored, Saved, Merged, Met, Settled, Reloaded, UpsertPeer, ExpirePeers;
  }

  /** A domain is trusted on a signed request, its node announces itself, both saves are clean,
      and the process restarts and loads its peers. The trust is back exactly when the backup of
      the second save was stamped later than its temporary file. */
  lemma {:induction false} TrustReturnsIff(
      ids: seq<Entry>, n: nat, j: nat, at: int, first: int, wroteAt: int, copiedAt: int)
    requires n < |ids| && j < |ids| && Takes(ids[n].did, ids[j])
    ensures var trusted := NewPeer(ids[j].url, true, "", at);
      var pending := NewPeer(ids[j].url, false, ids[j].did, at);
      var steps := [Trust(n, ids[j].url, true, true, at), Announce(j, n, false, [], Complete, at),
                    Restart(n, TwoSaves([trusted], [pending], first, wroteAt, copiedAt)), Reload(n, 1, at)];
      && trusted.trust == Trusted != pending.trust && Run(ids, steps[..2]).members[n].peers == [pending]
      && Run(ids, steps).members[n].peers == (if copiedAt > wroteAt then [trusted] else [pending])
  {
    hide Run, TwoSaves, Takes, MemberAfter;
    var trusted := NewPeer(ids[j].url, true, "", at);
    var pending := NewPeer(ids[j].url, false, ids[j].did, at);
    var steps := [Trust(n, ids[j].url, true, true, at), Announce(j, n, false, [], Complete, at),
                  Restart(n, TwoSaves([trusted], [pending], first, wroteAt, copiedAt)), Reload(n, 1, at)];
    StartsEmpty(ids, steps, n);
    TakesUrl(ids[n].did, ids[j]);
    TrustStep(ids, steps, 0, n);
    AnnounceStep(ids, steps, 1, n);
    MetOnly(trusted, ids[n].did, ids[j], at);
    RestartStep(ids, steps, 2, n, [trusted], [pending], first, wroteAt, copiedAt);
    ReloadOne(ids, steps, 3, n);
    assert steps[..4] == steps;
  }

  lemma StartsEmpty(ids: seq<Entry>, steps: seq<Step>, n: nat)
    requires n < |ids|
    ensures Run(ids, steps[..0]).members[n] == Member([], {[]}, {}, {}, {})
  {
  }

  lemma TakesUrl(self: string, e: Entry)
    requires Takes(self, e)
    ensures e.url != "" && e.did != ""
  {
  }

  lemma MetOnly(p: Peer, self: string, e: Entry, at: int)
    requires Takes(self, e) && p.domain == e.url
    ensures Met([p], self, e, at) == [NewPeer(e.url, false, e.did, at)]
  {
    assert [p][1..] == [];
  }

  lemma ReloadOne(ids: seq<Entry>, steps: seq<Step>, k: nat, n: nat)
    requires k < |steps| && n < |ids| && steps[k].Reload? && steps[k].node == n && steps[k].upto == 1
    ensures var peers := Run(ids, steps[..k]).members[n].peers;
      |peers| == 1 ==>
        Run(ids, steps[..k + 1]).members[n].peers ==
          [if Reloads(peers[0]) then Renewed(peers[0], steps[k].expiresAt) else peers[0]]
  {
    hide Touched, Run, Renewed, Reloads;
    MemberNext(ids, steps, k, n);
  }

  /** Two domains are trusted one after the other, both saves are clean, and the process
      restarts. The second domain is forgotten exactly when the backup of its save was stamped
      later than its temporary file. */
  lemma {:induction false} DomainIsForgottenIff(
      ids: seq<Entry>, n: nat, d: string, last: string, at: int, first: int, wroteAt: int, copiedAt: int)
    requires n < |ids| && d != "" && last != "" && d != last
    ensures var known := [NewPeer(d, true, "", at)];
      var both := known + [NewPeer(last, true, "", at)];
      var steps := [Trust(n, d, true, true, at), Trust(n, last, true, true, at),
                    Restart(n, TwoSaves(known, both, first, wroteAt, copiedAt))];
      && Run(ids, steps[..2]).members[n].peers == both
      && Run(ids, steps).members[n].peers == (if copiedAt > wroteAt then known else both)
      && (last !in Domains(Run(ids, steps).members[n].peers) <==> copiedAt > wroteAt)
  {
    hide Run, TwoSaves;
    var known := [NewPeer(d, true, "", at)];
    var both := known + [NewPeer(last, true, "", at)];
    var steps := [Trust(n, d, true, true, at), Trust(n, last, true, true, at),
                  Restart(n, TwoSaves(known, both, first, wroteAt, copiedAt))];
    StartsEmpty(ids, steps, n);
    TrustStep(ids, steps, 0, n);
    TrustStep(ids, steps, 1, n);
    UpsertNew(known, BY_PEER_DOMAIN, NewPeer(last, true, "", at));
    RestartStep(ids, steps, 2, n, known, both, first, wroteAt, copiedAt);
    assert steps[..3] == steps;
    assert both[1].domain == last;
  }
}
