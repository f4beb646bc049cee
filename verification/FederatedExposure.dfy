/** Where the exposure registry leans on federation: a tool behind a remote upstream is exposed
    on the word of a trusted peer, and trust goes back to the operator's signed requests. */
module FederatedExposure {
  import opened Wrappers
  import opened Gossip
  import opened RegistryState
  import opened RegistryLaws
  import opened RegistryGrants
  import GossipNetwork
  import GossipRuns

  /** The guardian's look-up; `answers` stands for the comparison of host names. */
  predicate HasTrustedPeer(peers: seq<Peer>, answers: Peer -> bool) {
    exists i :: 0 <= i < |peers| && peers[i].trust == Trusted && answers(peers[i])
  }

  /** The peers node `n` knows after some steps of the network. */
  ghost function PeersAt(ids: seq<Entry>, steps: seq<GossipNetwork.Step>, n: nat): seq<Peer>
    requires n < |ids|
  {
    GossipNetwork.Run(ids, steps).members[n].peers
  }

  ghost predicate Asks(op: Op) {
    op.RequestAddress? || op.RequestExposure? || op.RequestDomain?
  }

  /** Each request of a registry run is ruled on with the peers known at its time: request `k`
      after the first `when[k]` steps of the network. */
  ghost predicate LookedUp(
      ids: seq<Entry>, steps: seq<GossipNetwork.Step>, n: nat, ops: seq<(Op, int)>, when: seq<nat>,
      answers: nat -> Peer -> bool)
    requires n < |ids|
  {
    |when| == |ops| && forall k: nat :: k < |ops| && Asks(ops[k].0) ==>
      (when[k] <= |steps|
       && ops[k].0.facts.trustedPeer == HasTrustedPeer(PeersAt(ids, steps[..when[k]], n), answers(k)))
  }

  /** At that time a peer that answers was trusted on a signed request, which was the last thing
      upserted under its domain unless a restart had brought back an older table. */
  ghost predicate VouchedFor(
      ids: seq<Entry>, steps: seq<GossipNetwork.Step>, n: nat, answers: Peer -> bool)
    requires n < |ids|
  {
    exists p, j: nat :: p in PeersAt(ids, steps, n) && answers(p) && p.trust == Trusted && j < |steps|
      && (GossipRuns.SignedLast(ids, steps, n, p.domain, j) || GossipRuns.BroughtBack(ids, steps, n, p.domain, j))
  }

  lemma TrustedIsVouchedFor(ids: seq<Entry>, steps: seq<GossipNetwork.Step>, n: nat, answers: Peer -> bool)
    requires n < |ids| && HasTrustedPeer(PeersAt(ids, steps, n), answers)
    ensures VouchedFor(ids, steps, n, answers)
  {
    hide GossipRuns.SignedLast, GossipRuns.BroughtBack, GossipNetwork.Run, GossipRuns.NoneOlder;
    var peers := PeersAt(ids, steps, n);
    var i :| 0 <= i < |peers| && peers[i].trust == Trusted && answers(peers[i]);
    GossipRuns.TrustedWasSigned(ids, steps, n, peers[i]);
  }

  /** Whatever becomes active for a tool whose upstream is not local was vouched for when it was
      granted. */
  lemma ClearedIsVouchedFor(
      ids: seq<Entry>, steps: seq<GossipNetwork.Step>, n: nat, ops: seq<(Op, int)>, when: seq<nat>,
      answers: nat -> Peer -> bool, k: nat, tool: Option<Tool>, host: Option<string>)
    requires n < |ids| && LookedUp(ids, steps, n, ops, when, answers) && k < |ops| && Asks(ops[k].0)
    requires EvaluateGuardianRequest(tool, host, ops[k].0.facts) == Cleared
    ensures when[k] <= |steps|
    ensures ops[k].0.facts.hostLocal || VouchedFor(ids, steps[..when[k]], n, answers(k))
  {
    hide VouchedFor, HasTrustedPeer, PeersAt;
    if !ops[k].0.facts.hostLocal {
      TrustedIsVouchedFor(ids, steps[..when[k]], n, answers(k));
    }
  }

  /** Every active address of a reachable registry was granted by a request whose tool had a
      local upstream, or whose upstream a signed peer vouched for at the time. */
  lemma ActiveAddressWasVouchedFor(
      cloudDomain: string, ops: seq<(Op, int)>, a: Address, ids: seq<Entry>, steps: seq<GossipNetwork.Step>, n: nat,
      when: seq<nat>, answers: nat -> Peer -> bool)
    requires n < |ids| && LookedUp(ids, steps, n, ops, when, answers)
    requires a in Run(Empty(cloudDomain), ops).addresses && a.status == AddressActive
    ensures exists k: nat :: (k < |ops| && GrantsAddress(Run(Empty(cloudDomain), ops[..k]), ops[k].0, a)
      && when[k] <= |steps|
      && (ops[k].0.facts.hostLocal || VouchedFor(ids, steps[..when[k]], n, answers(k))))
  {
    hide VouchedFor, LookedUp, Run, EvaluateGuardianRequest;
    ActiveAddressWasCleared(cloudDomain, ops, a);
    var k :| 0 <= k < |ops| && GrantsAddress(Run(Empty(cloudDomain), ops[..k]), ops[k].0, a);
    var before := Run(Empty(cloudDomain), ops[..k]);
    ClearedIsVouchedFor(ids, steps, n, ops, when, answers, k, GetTool(before, ops[k].0.id), ops[k].0.desiredHost);
  }
}
