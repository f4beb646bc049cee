/** What a federation node's operations do, peer by peer: the new peer written out in full, the
    place it takes, and everything that stays. */
module GossipEffects {
  import opened Wrappers
  import opened Tables
  import opened Gossip
  import opened PlatformStateStore
  import GossipNetwork

  // ---------- announcements ----------

  /** A complete announcement by another node stores its peer, pending and with nothing else known
      of it; any other changes nothing. */
  lemma AnnouncementDoes(peers: seq<Peer>, self: string, e: Entry, at: int)
    requires TableSound(peers)
    ensures e.did == "" || e.url == "" || e.did == self ==> Met(peers, self, e, at) == peers
    ensures !(e.did == "" || e.url == "" || e.did == self) ==>
      Stores(peers, Met(peers, self, e, at), BY_PEER_DOMAIN,
             Peer(e.url, Some(e.did), e.url, Pending, Unknown, at, []))
  {
    UpsertStores(peers, BY_PEER_DOMAIN, Peer(e.url, Some(e.did), e.url, Pending, Unknown, at, []));
  }

  ghost predicate IsFirst(peers: seq<Peer>, matches: Peer -> bool, i: nat)
    requires i < |peers|
  {
    matches(peers[i]) && forall j :: 0 <= j < i ==> !matches(peers[j])
  }

  lemma MarkFirstIs(peers: seq<Peer>, matches: Peer -> bool, mark: Peer -> Peer)
    ensures var n := MarkFirst(peers, matches, mark);
      |n| == |peers| && forall i: nat :: i < |peers| ==>
        n[i] == if IsFirst(peers, matches, i) then mark(peers[i]) else peers[i]
  {
    if exists i :: 0 <= i < |peers| && matches(peers[i]) {
      var i := FirstMatch(peers, matches);
      MarkFirstAt(peers, matches, mark, i);
    } else {
      MarkNone(peers, matches, mark);
    }
  }

  lemma {:induction false} FirstMatch(peers: seq<Peer>, matches: Peer -> bool) returns (i: nat)
    requires exists i :: 0 <= i < |peers| && matches(peers[i])
    ensures i < |peers| && IsFirst(peers, matches, i)
  {
    i := 0;
    while !matches(peers[i])
      invariant i < |peers| && forall j :: 0 <= j < i ==> !matches(peers[j])
      decreases |peers| - i
    {
      assert exists k :: i < k < |peers| && matches(peers[k]);
      i := i + 1;
    }
  }

  /** Then a bootstrap peer's announcement verifies the first peer under the address if it is
      pending, and an ordinary one that names pools gives them to the first peer with the identifier. */
  lemma SettlingDoes(peers: seq<Peer>, e: Entry, bootstrap: bool, pools: seq<string>)
    ensures var n := Settled(peers, e, bootstrap, pools);
      |n| == |peers| && forall i: nat :: i < |peers| ==>
        n[i] ==
        if bootstrap && IsFirst(peers, (p: Peer) => p.identity == e.url, i) && peers[i].trust == Pending
        then peers[i].(trust := Verified, status := Healthy)
        else if !bootstrap && pools != [] && IsFirst(peers, (p: Peer) => p.did == Some(e.did), i)
        then peers[i].(pools := pools)
        else peers[i]
  {
    hide MarkFirst, IsFirst;
    MarkFirstIs(peers, (p: Peer) => p.identity == e.url,
                (p: Peer) => if p.trust == Pending then p.(trust := Verified, status := Healthy) else p);
    MarkFirstIs(peers, (p: Peer) => p.did == Some(e.did), (p: Peer) => p.(pools := pools));
  }

  // ---------- what is passed on, and taken in ----------

  /** The peers passed on: every peer with an identifier and an address that is not the node's own,
      in the order of the table. */
  lemma {:induction false} ListingIs(peers: seq<Peer>, self: string) returns (places: seq<nat>)
    ensures Places(places, peers, (p: Peer) =>
      p.did.Some? && p.did != Some("") && p.did != Some(self) && p.identity != "")
    ensures |Listing(peers, self)| == |places| && forall k :: 0 <= k < |places| ==>
      (places[k] < |peers| && peers[places[k]].did == Some(Listing(peers, self)[k].did)
       && peers[places[k]].identity == Listing(peers, self)[k].url)
    decreases |peers|
  {
    hide Places;
    var told := (p: Peer) => p.did.Some? && p.did != Some("") && p.did != Some(self) && p.identity != "";
    places := [];
    if peers == [] {
      NoPlaces(told);
    } else {
      var last: nat := |peers| - 1;
      places := ListingIs(peers[..last], self);
      PlacesOn(places, peers, told);
      if told(peers[last]) { places := places + [last]; }
    }
  }

  /** The last entry of a reply that names an address and is taken in. */
  ghost predicate LastNamed(self: string, list: seq<Entry>, upto: nat, url: string, i: nat)
    requires upto <= |list|
  {
    && i < upto && list[i].url == url && list[i].did != "" && list[i].did != self
    && forall j :: i < j < upto ==> list[j].url != url || list[j].did == "" || list[j].did == self
  }

  /** After a reply, what stands under an address is the peer its last entry for it announces, and
      where it has none, what stood there before. */
  lemma {:induction false} ReplyDoes(
      peers: seq<Peer>, self: string, list: seq<Entry>, upto: nat, at: int, url: string)
    requires upto <= |list| && url != ""
    ensures var now := Find(Merged(peers, self, list, upto, at), BY_PEER_DOMAIN, url);
      && (forall i: nat :: LastNamed(self, list, upto, url, i) ==>
            now == Some(Peer(url, Some(list[i].did), url, Pending, Unknown, at, [])))
      && ((forall i: nat :: !LastNamed(self, list, upto, url, i)) ==> now == Find(peers, BY_PEER_DOMAIN, url))
    decreases upto
  {
    hide Find, Upsert;
    if upto > 0 {
      var last: nat := upto - 1;
      ReplyDoes(peers, self, list, last, at, url);
      var before := Merged(peers, self, list, last, at);
      var e := list[last];
      FindUpsert(before, BY_PEER_DOMAIN, NewPeer(e.url, false, e.did, at), url);
      if e.url == url && e.did != "" && e.did != self {
        assert LastNamed(self, list, upto, url, last);
        forall i: nat | LastNamed(self, list, upto, url, i) ensures i == last {
        }
      } else {
        forall i: nat ensures LastNamed(self, list, upto, url, i) <==> LastNamed(self, list, last, url, i) {
        }
      }
    }
  }

  // ---------- the operator, the restart and the clock ----------

  /** The operator's request stores a peer without an identifier, trusted exactly when it is signed. */
  lemma RequestDoes(peers: seq<Peer>, domain: string, signed: bool, at: int)
    requires TableSound(peers)
    ensures Stores(peers, UpsertPeer(peers, domain, signed, "", at), BY_PEER_DOMAIN,
                   if signed then Peer(domain, None, domain, Trusted, Healthy, at, [])
                   else Peer(domain, None, domain, Pending, Unknown, at, []))
  {
    UpsertStores(peers, BY_PEER_DOMAIN, NewPeer(domain, signed, "", at));
  }

  /** Loading the persisted peers sets those with an identifier and an address back to pending and
      leaves the others alone. */
  lemma ReloadDoes(peers: seq<Peer>, upto: nat, at: int)
    ensures |Reloaded(peers, upto, at)| == |peers| && forall i :: 0 <= i < |peers| ==>
      Reloaded(peers, upto, at)[i] ==
      if i < upto && peers[i].did.Some? && peers[i].did != Some("") && peers[i].identity != ""
      then Peer(peers[i].identity, peers[i].did, peers[i].identity, Pending, Unknown, at, [])
      else peers[i]
  {
  }

  /** A restart puts the recovered table in memory, each peer as it was saved but for its pools. */
  lemma RestartDoes(files: Files<seq<Peer>>)
    ensures Recovered(files).None? ==> GossipNetwork.Restored(files) == []
    ensures Recovered(files).Some? ==> var saved := Recovered(files).value;
      |GossipNetwork.Restored(files)| == |saved| && forall i :: 0 <= i < |saved| ==>
        GossipNetwork.Restored(files)[i] ==
        Peer(saved[i].domain, saved[i].did, saved[i].identity, saved[i].trust, saved[i].status, saved[i].trustExpiresAt,
             [])
  {
    hide Recovered;
  }

  /** The peers whose trust is neither revoked nor expired yet and has run out by `now`. */
  function RanOut(peers: seq<Peer>, now: int): set<int> {
    set i | 0 <= i < |peers|
      && peers[i].trust != Revoked && peers[i].trust != Expired && peers[i].trustExpiresAt <= now
  }

  /** They expire, and are degraded unless they are blocked; all others stay. */
  lemma ExpiryDoes(peers: seq<Peer>, now: int)
    ensures |ExpirePeers(peers, now)| == |peers| && forall i :: 0 <= i < |peers| ==>
      ExpirePeers(peers, now)[i] ==
      if i in RanOut(peers, now)
      then peers[i].(trust := Expired, status := if peers[i].status == BlockedPeer then BlockedPeer else Degraded)
      else peers[i]
  {
  }

  lemma {:induction false} ExpiryCounts(peers: seq<Peer>, now: int)
    ensures CountExpiring(peers, now) == |RanOut(peers, now)|
    decreases |peers|
  {
    if peers != [] {
      var last := |peers| - 1;
      ExpiryCounts(peers[..last], now);
      assert RanOut(peers, now) == RanOut(peers[..last], now) + if RunsOut(peers[last], now) then {last} else {};
    }
  }
}
