/** A federation node and the peers it knows: announcements, replies, trust and its expiry. */
module Gossip {
  import opened Wrappers
  import opened Tables

  datatype TrustState = Pending | Verified | Trusted | Quarantined | Revoked | Expired
  datatype PeerStatus = Healthy | Unknown | Degraded | BlockedPeer

  /** `identity` is the trust record's identity, a second copy of the domain. */
  datatype Peer = Peer(
    domain: string, did: Option<string>, identity: string, trust: TrustState, status: PeerStatus,
    trustExpiresAt: int, pools: seq<string>)

  /** What a node says of itself or of a peer. */
  datatype Entry = Entry(did: string, url: string)

  const BY_PEER_DOMAIN: Peer -> string := (p: Peer) => p.domain

  function NewPeer(domain: string, signed: bool, did: string, expiresAt: int): Peer {
    Peer(domain, if did == "" then None else Some(did), domain, if signed then Trusted else Pending,
         if signed then Healthy else Unknown, expiresAt, [])
  }

  function UpsertPeer(peers: seq<Peer>, domain: string, signed: bool, did: string, expiresAt: int): seq<Peer> {
    Upsert(peers, BY_PEER_DOMAIN, NewPeer(domain, signed, did, expiresAt))
  }

  /** Whether a node takes an announced entry in: it is complete and not its own. */
  predicate Takes(self: string, e: Entry) {
    e.did != "" && e.url != "" && e.did != self
  }

  function Met(peers: seq<Peer>, self: string, e: Entry, expiresAt: int): seq<Peer> {
    if Takes(self, e) then UpsertPeer(peers, e.url, false, e.did, expiresAt) else peers
  }

  predicate Tells(self: string, p: Peer) {
    p.did.Some? && p.did.value != "" && p.identity != "" && p.did.value != self
  }

  /** The peers a node passes on. */
  function Listing(peers: seq<Peer>, self: string): seq<Entry> {
    if peers == [] then []
    else
      var p := peers[|peers| - 1];
      Listing(peers[..|peers| - 1], self) + if Tells(self, p) then [Entry(p.did.value, p.identity)] else []
  }

  /** Marks the first peer that matches. */
  function MarkFirst(peers: seq<Peer>, matches: Peer -> bool, mark: Peer -> Peer): seq<Peer> {
    if peers == [] then []
    else if matches(peers[0]) then [mark(peers[0])] + peers[1..]
    else [peers[0]] + MarkFirst(peers[1..], matches, mark)
  }

  function WithPools(peers: seq<Peer>, did: string, pools: seq<string>): seq<Peer> {
    MarkFirst(peers, (p: Peer) => p.did == Some(did), (p: Peer) => p.(pools := pools))
  }

  function Vouched(peers: seq<Peer>, url: string): seq<Peer> {
    MarkFirst(peers, (p: Peer) => p.identity == url,
              (p: Peer) => if p.trust == Pending then p.(trust := Verified, status := Healthy) else p)
  }

  /** The second change of an announcement: an ordinary one brings the announcer's pools, one
      from a bootstrap peer vouches for it. */
  function Settled(peers: seq<Peer>, e: Entry, bootstrap: bool, pools: seq<string>): seq<Peer> {
    if bootstrap then Vouched(peers, e.url) else if pools == [] then peers else WithPools(peers, e.did, pools)
  }

  /** The first `upto` entries of a reply. */
  function Merged(peers: seq<Peer>, self: string, list: seq<Entry>, upto: nat, expiresAt: int): seq<Peer>
    requires upto <= |list|
  {
    if upto == 0 then peers else Met(Merged(peers, self, list, upto - 1, expiresAt), self, list[upto - 1], expiresAt)
  }

  predicate Reloads(p: Peer) {
    p.did.Some? && p.did.value != "" && p.identity != ""
  }

  function Renewed(p: Peer, expiresAt: int): Peer {
    NewPeer(p.identity, false, if p.did.Some? then p.did.value else "", expiresAt)
  }

  /** Loading the persisted peers announces each known node to the table afresh, up to the one
      whose save fails, if one does. */
  function Reloaded(peers: seq<Peer>, upto: nat, expiresAt: int): seq<Peer> {
    seq(|peers|, (i: nat) requires i < |peers| =>
      if i < upto && Reloads(peers[i]) then Renewed(peers[i], expiresAt) else peers[i])
  }

  predicate RunsOut(p: Peer, now: int) {
    p.trust != Revoked && p.trust != Expired && p.trustExpiresAt <= now
  }

  function ExpirePeers(peers: seq<Peer>, now: int): seq<Peer> {
    MapWhere(peers, (p: Peer) => RunsOut(p, now),
             (p: Peer) => p.(trust := Expired, status := if p.status == BlockedPeer then BlockedPeer else Degraded))
  }

  function CountExpiring(peers: seq<Peer>, now: int): nat {
    if peers == [] then 0
    else CountExpiring(peers[..|peers| - 1], now) + if RunsOut(peers[|peers| - 1], now) then 1 else 0
  }

  ghost predicate TableSound(peers: seq<Peer>) {
    Unique(peers, BY_PEER_DOMAIN) && forall p :: p in peers ==> p.identity == p.domain && p.domain != ""
  }

  function Domains(peers: seq<Peer>): set<string> {
    set i | 0 <= i < |peers| :: peers[i].domain
  }

  // ---------- authorising a peer's action ----------

  datatype Verdict = Unregistered | InsufficientTrust(state: TrustState) | Allowed(state: TrustState)

  predicate Suffices(state: TrustState, requireTrusted: bool) {
    state == Trusted || (!requireTrusted && state == Verified)
  }

  /** The first peer that answers for the host decides, whatever peers behind it are trusted.
      `matches` stands for the comparison of host names. */
  function Authorize(peers: seq<Peer>, matches: Peer -> bool, requireTrusted: bool): (v: Verdict)
    ensures v.Unregistered? <==> forall p :: p in peers ==> !matches(p)
    ensures !v.Unregistered? ==> exists i :: (0 <= i < |peers| && matches(peers[i]) && v.state == peers[i].trust
              && (forall j :: 0 <= j < i ==> !matches(peers[j]))
              && (v.Allowed? <==> peers[i].trust == Trusted || (!requireTrusted && peers[i].trust == Verified)))
  {
    if peers == [] then Unregistered
    else if matches(peers[0]) then
      var state := peers[0].trust;
      if Suffices(state, requireTrusted) then Allowed(state) else InsufficientTrust(state)
    else
      var v := Authorize(peers[1..], matches, requireTrusted);
      assert peers == [peers[0]] + peers[1..];
      assert forall i :: 0 <= i < |peers[1..]| ==> peers[1..][i] == peers[i + 1];
      v
  }

  // ---------- the node itself ----------

  lemma {:induction false} MarkFirstAt(peers: seq<Peer>, matches: Peer -> bool, mark: Peer -> Peer, i: nat)
    requires i < |peers| && matches(peers[i]) && forall j :: 0 <= j < i ==> !matches(peers[j])
    ensures MarkFirst(peers, matches, mark) == peers[i := mark(peers[i])]
  {
    if i > 0 {
      MarkFirstAt(peers[1..], matches, mark, i - 1);
    }
  }

  lemma {:induction false} MarkNone(peers: seq<Peer>, matches: Peer -> bool, mark: Peer -> Peer)
    requires forall j :: 0 <= j < |peers| ==> !matches(peers[j])
    ensures MarkFirst(peers, matches, mark) == peers
  {
    if peers != [] {
      MarkNone(peers[1..], matches, mark);
    }
  }

  ghost predicate SameDomainsAt(was: seq<Peer>, now: seq<Peer>) {
    |now| == |was| && forall j :: 0 <= j < |was| ==> now[j].domain == was[j].domain
  }

  lemma RenewedKey(p: Peer, expiresAt: int)
    requires p.identity == p.domain
    ensures BY_PEER_DOMAIN(Renewed(p, expiresAt)) == p.domain && Renewed(p, expiresAt).domain == p.domain
  {
  }

  lemma OnlyAt(was: seq<Peer>, now: seq<Peer>, i: nat)
    requires Unique(was, BY_PEER_DOMAIN) && SameDomainsAt(was, now) && i < |was|
    ensures forall j :: 0 <= j < i ==> BY_PEER_DOMAIN(now[j]) != now[i].domain
  {
    forall j | 0 <= j < i ensures BY_PEER_DOMAIN(now[j]) != now[i].domain {
      assert BY_PEER_DOMAIN(was[j]) != BY_PEER_DOMAIN(was[i]);
    }
  }

  /** How an inbound announcement went: both saves succeeded, the first failed and was rolled
      back, or only the second did. */
  datatype Delivery = Complete | NotSaved | HalfSaved

  class FederationNode {
    const did: string
    var peers: seq<Peer>

    constructor (did: string, peers: seq<Peer>)
      ensures this.did == did && this.peers == peers
    {
      this.did := did;
      this.peers := peers;
    }

    method MarkPeer(matches: Peer -> bool, mark: Peer -> Peer)
      modifies this
      ensures peers == MarkFirst(old(peers), matches, mark)
    {
      for i := 0 to |peers|
        invariant peers == old(peers) && forall j :: 0 <= j < i ==> !matches(peers[j])
      {
        if matches(peers[i]) {
          MarkFirstAt(peers, matches, mark, i);
          peers := peers[i := mark(peers[i])];
          return;
        }
      }
      MarkNone(peers, matches, mark);
    }

    method ListPeers() returns (list: seq<Entry>)
      ensures list == Listing(peers, did)
    {
      list := [];
      for i := 0 to |peers|
        invariant list == Listing(peers[..i], did)
      {
        assert peers[..i + 1][..i] == peers[..i];
        if Tells(did, peers[i]) {
          list := list + [Entry(peers[i].did.value, peers[i].identity)];
        }
      }
      assert peers[..|peers|] == peers;
    }

    /** Takes an announcement in and answers with the peers known, the announcer included. */
    method HandleInboundAnnouncement(
        e: Entry, bootstrap: bool, pools: seq<string>, delivery: Delivery, expiresAt: int)
      returns (reply: Option<seq<Entry>>)
      modifies this
      ensures Takes(did, e) ==>
        peers == (match delivery
                  case NotSaved => old(peers)
                  case HalfSaved => Met(old(peers), did, e, expiresAt)
                  case Complete => Settled(Met(old(peers), did, e, expiresAt), e, bootstrap, pools))
      ensures !Takes(did, e) ==> peers == old(peers)
      ensures reply == if Takes(did, e) && delivery != Complete then None else Some(Listing(peers, did))
    {
      if Takes(did, e) {
        if delivery == NotSaved {
          return None;
        }
        peers := UpsertRecord(peers, BY_PEER_DOMAIN, NewPeer(e.url, false, e.did, expiresAt));
        if delivery == HalfSaved {
          return None;
        }
        if bootstrap {
          MarkPeer((p: Peer) => p.identity == e.url,
                   (p: Peer) => if p.trust == Pending then p.(trust := Verified, status := Healthy) else p);
        } else if pools != [] {
          MarkPeer((p: Peer) => p.did == Some(e.did), (p: Peer) => p.(pools := pools));
        }
      }
      var list := ListPeers();
      return Some(list);
    }

    /** Takes in the peers of a reply, up to the entry whose save fails, if one does. */
    method TakeReply(list: seq<Entry>, upto: nat, expiresAt: int)
      requires upto <= |list|
      modifies this
      ensures peers == Merged(old(peers), did, list, upto, expiresAt)
    {
      for i := 0 to upto
        invariant peers == Merged(old(peers), did, list, i, expiresAt)
      {
        if Takes(did, list[i]) {
          peers := UpsertRecord(peers, BY_PEER_DOMAIN, NewPeer(list[i].url, false, list[i].did, expiresAt));
        }
      }
    }

    method LoadPersistedPeers(upto: nat, expiresAt: int)
      requires TableSound(peers) && upto <= |peers|
      modifies this
      ensures peers == Reloaded(old(peers), upto, expiresAt)
    {
      hide Reloads, NewPeer, Upsert;
      ghost var was := peers;
      for i := 0 to upto
        invariant |peers| == |was| && SameDomainsAt(was, peers)
        invariant peers == Reloaded(was, i, expiresAt)
      {
        var p := peers[i];
        assert p == was[i] && was[i] in was;
        if Reloads(p) {
          RenewedKey(p, expiresAt);
          OnlyAt(was, peers, i);
          UpsertAt(peers, BY_PEER_DOMAIN, Renewed(p, expiresAt), i);
          peers := UpsertRecord(peers, BY_PEER_DOMAIN, Renewed(p, expiresAt));
        }
      }
    }

    method TrustPeer(domain: string, signed: bool, expiresAt: int)
      modifies this
      ensures peers == UpsertPeer(old(peers), domain, signed, "", expiresAt)
    {
      peers := UpsertRecord(peers, BY_PEER_DOMAIN, NewPeer(domain, signed, "", expiresAt));
    }

    method ApplyPeerTrustExpiry(now: int) returns (expired: nat)
      modifies this
      ensures peers == ExpirePeers(old(peers), now)
      ensures expired == CountExpiring(old(peers), now)
    {
      expired := 0;
      for i := 0 to |peers|
        invariant |peers| == |old(peers)|
        invariant peers[..i] == ExpirePeers(old(peers), now)[..i] && peers[i..] == old(peers)[i..]
        invariant expired == CountExpiring(old(peers)[..i], now)
      {
        var p := peers[i];
        assert p == old(peers)[i] && old(peers)[..i + 1][..i] == old(peers)[..i];
        if RunsOut(p, now) {
          peers := peers[i := p.(trust := Expired,
                                 status := if p.status == BlockedPeer then BlockedPeer else Degraded)];
          expired := expired + 1;
        }
      }
      assert old(peers)[..|peers|] == old(peers);
    }
  }
}
