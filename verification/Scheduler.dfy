/** Placing the replicas of a workload on the nodes that may take them. */
module Scheduler {

  datatype NodeTrust = PendingTrust | VerifiedTrust | TrustedNode | QuarantinedTrust | RevokedTrust | ExpiredTrust
  datatype NodeStatus = ReadyNode | PendingNode | DrainingNode | OfflineNode

  /** `named` is whether its name, region and zone are all given. */
  datatype Node = Node(id: string, named: bool, status: NodeStatus, trust: NodeTrust, trustExpiresAt: int)

  datatype Placement = Placement(nodeId: string, replicas: int)

  predicate Barred(n: Node) {
    n.trust == QuarantinedTrust || n.trust == RevokedTrust || n.trust == ExpiredTrust
  }

  predicate Eligible(n: Node) {
    n.status == ReadyNode && !Barred(n)
  }

  /** Ready nodes whose trust is pending, verified or trusted. */
  lemma EligibleIs(n: Node)
    ensures Eligible(n) <==>
      n.status == ReadyNode && (n.trust == PendingTrust || n.trust == VerifiedTrust || n.trust == TrustedNode)
  {
  }

  function Filter<T>(s: seq<T>, keep: T -> bool): seq<T> {
    if s == [] then []
    else Filter(s[..|s| - 1], keep) + if keep(s[|s| - 1]) then [s[|s| - 1]] else []
  }

  /** The remainder of a division that truncates towards zero. */
  function Remainder(x: real, n: nat): real
    requires n > 0
  {
    var q := x / n as real;
    x - n as real * (if q >= 0.0 then q.Floor else -(-q).Floor) as real
  }

  function Share(replicas: real, n: nat, index: nat): int
    requires n > 0
  {
    (replicas / n as real).Floor + if index as real < Remainder(replicas, n) then 1 else 0
  }

  function Shares(ready: seq<Node>, replicas: real): seq<Placement>
    requires ready != []
  {
    seq(|ready|, (i: nat) requires i < |ready| => Placement(ready[i].id, Share(replicas, |ready|, i)))
  }

  predicate Takes(p: Placement) {
    p.replicas > 0
  }

  /** The number asked for is a number, not necessarily a whole one. */
  function PlanWorkload(nodes: seq<Node>, replicas: real): seq<Placement> {
    var ready := Filter(nodes, Eligible);
    if ready == [] then [] else Filter(Shares(ready, replicas), Takes)
  }

  function Ceiling(x: real): int {
    -((-x).Floor)
  }

  /** Replicas in whole numbers: rounded up, and none for less than one. */
  function Whole(replicas: real): nat {
    if replicas <= 0.0 then 0 else if Ceiling(replicas) < 0 then 0 else Ceiling(replicas)
  }

  function Total(ps: seq<Placement>): int {
    if ps == [] then 0 else Total(ps[..|ps| - 1]) + ps[|ps| - 1].replicas
  }

  function Min(a: int, b: int): int {
    if a < b then a else b
  }

  // ---------- the arithmetic ----------

  /** Every share is the common base, plus one for the first `extra` nodes. */
  lemma ShareForm(replicas: real, n: nat) returns (base: int, extra: nat)
    requires n > 0 && replicas > 0.0
    ensures 0 <= base && extra <= n && base * n + extra == Whole(replicas)
    ensures forall i: nat :: Share(replicas, n, i) == base + if i < extra then 1 else 0
    ensures base == 0 ==> extra > 0
  {
    var r := n as real;
    var q := replicas / r;
    base := q.Floor;
    Scaled(replicas, n, base);
    var rest := replicas - r * base as real;
    assert Remainder(replicas, n) == rest;
    extra := Ceiling(rest);
    Scaled(replicas, n, base);
    assert rest == replicas - (base * n) as real;
    assert Ceiling(rest) == Ceiling(replicas) - base * n;
    assert Ceiling(replicas) >= 1;
    assert 0 <= extra <= n;
    forall i: nat ensures Share(replicas, n, i) == base + if i < extra then 1 else 0 {
      assert i as real < rest <==> i < extra;
    }
  }

  lemma Divided(x: real, r: real)
    requires r > 0.0
    ensures (x / r) * r == x && (x > 0.0 <==> x / r > 0.0)
  {
  }

  lemma Positive(a: real, b: real)
    requires a > 0.0 && b > 0.0
    ensures a * b > 0.0
  {
  }

  lemma Between(q: real, low: real, r: real, x: real)
    requires r > 0.0 && low <= q < low + 1.0 && q * r == x
    ensures r * low <= x < r * low + r
  {
    var above := q - low;
    var below := low + 1.0 - q;
    Positive(below, r);
    assert above * r >= 0.0;
    assert below * r == (low + 1.0) * r - q * r == low * r + r - x;
    assert low * r == r * low;
  }

  lemma WholeProduct(a: int, n: nat)
    ensures n as real * a as real == (a * n) as real
  {
  }

  lemma Scaled(x: real, n: nat, base: int)
    requires n > 0 && x > 0.0 && base == (x / n as real).Floor
    ensures 0 <= base && n as real * base as real == (base * n) as real
    ensures 0.0 <= x - n as real * base as real < n as real
  {
    var r := n as real;
    Divided(x, r);
    Between(x / r, base as real, r, x);
    WholeProduct(base, n);
  }

  lemma NothingAsked(replicas: real, n: nat, i: nat)
    requires n > 0 && replicas <= 0.0
    ensures Share(replicas, n, i) <= 0
  {
    var r := n as real;
    Divided(replicas, r);
    var q := replicas / r;
    var t := (-q).Floor;
    assert t as real <= -q < t as real + 1.0;
    assert (-q) * r == -(q * r);
    Between(-q, t as real, r, -replicas);
    assert Remainder(replicas, n) <= 0.0;
  }

  // ---------- the plan ----------

  lemma {:induction false} FilterPrefix<T>(s: seq<T>, keep: T -> bool, m: nat)
    requires m <= |s| && (forall i :: 0 <= i < m ==> keep(s[i])) && (forall i :: m <= i < |s| ==> !keep(s[i]))
    ensures Filter(s, keep) == s[..m]
    decreases |s|
  {
    if s != [] {
      var n := |s| - 1;
      FilterPrefix(s[..n], keep, if m <= n then m else n);
      if m > n {
        assert s[..n][..n] + [s[n]] == s[..m];
      } else {
        assert s[..n][..m] == s[..m];
      }
    }
  }

  /** `at` lists, in order, where in `s` the elements of `kept` come from: everywhere that passes. */
  ghost predicate Indexes<T>(s: seq<T>, kept: seq<T>, keep: T -> bool, at: seq<nat>) {
    && |at| == |kept|
    && (forall k :: 0 <= k < |at| ==> at[k] < |s| && keep(kept[k]) && kept[k] == s[at[k]])
    && (forall j, k :: 0 <= j < k < |at| ==> at[j] < at[k])
    && (forall i :: 0 <= i < |s| && keep(s[i]) ==> i in at)
  }

  lemma IndexesDropped<T>(s: seq<T>, last: T, kept: seq<T>, keep: T -> bool, at: seq<nat>)
    requires Indexes(s, kept, keep, at) && !keep(last)
    ensures Indexes(s + [last], kept, keep, at)
  {
  }

  lemma IndexesAdded<T>(s: seq<T>, last: T, kept: seq<T>, keep: T -> bool, at: seq<nat>)
    requires Indexes(s, kept, keep, at) && keep(last)
    ensures Indexes(s + [last], kept + [last], keep, at + [|s|])
  {
    var t := s + [last];
    var more := at + [|s|];
    forall i | 0 <= i < |t| && keep(t[i]) ensures i in more {
      if i < |s| { assert t[i] == s[i] && i in at; } else { assert more[|at|] == i; }
    }
  }

  /** Filtering keeps what passes, in its order. */
  lemma {:induction false} FilterIndices<T>(s: seq<T>, keep: T -> bool) returns (at: seq<nat>)
    ensures Indexes(s, Filter(s, keep), keep, at)
    decreases |s|
  {
    if s == [] {
      at := [];
    } else {
      hide Indexes;
      var n := |s| - 1;
      at := FilterIndices(s[..n], keep);
      assert s == s[..n] + [s[n]];
      if keep(s[n]) {
        IndexesAdded(s[..n], s[n], Filter(s[..n], keep), keep, at);
        at := at + [n];
      } else {
        IndexesDropped(s[..n], s[n], Filter(s[..n], keep), keep, at);
      }
    }
  }

  lemma {:induction false} TotalShares(ps: seq<Placement>, base: int, extra: nat, m: nat)
    requires m <= |ps| && forall i :: 0 <= i < |ps| ==> ps[i].replicas == base + if i < extra then 1 else 0
    ensures Total(ps[..m]) == base * m + Min(m, extra)
  {
    if m > 0 {
      TotalShares(ps, base, extra, m - 1);
      assert ps[..m][..m - 1] == ps[..m - 1];
    }
  }

  /** The shares that are kept: a prefix, positive, even, and with the right sum. */
  ghost predicate Placed(plan: seq<Placement>, ready: seq<Node>, whole: nat) {
    && Total(plan) == whole && |plan| == Min(whole, |ready|)
    && (forall k :: 0 <= k < |plan| ==> plan[k].nodeId == ready[k].id && plan[k].replicas > 0)
    && (forall i, j :: 0 <= i < j < |plan| ==> 0 <= plan[i].replicas - plan[j].replicas <= 1)
  }

  lemma NoSharesPlaced(ready: seq<Node>, replicas: real)
    requires ready != [] && replicas <= 0.0
    ensures Placed(Filter(Shares(ready, replicas), Takes), ready, Whole(replicas))
  {
    hide Share, Whole, Filter;
    var shares := Shares(ready, replicas);
    NothingIsWhole(replicas);
    forall i | 0 <= i < |ready| ensures !Takes(shares[i]) { NothingAsked(replicas, |ready|, i); }
    FilterPrefix(shares, Takes, 0);
  }

  lemma SharesPlaced(ready: seq<Node>, replicas: real)
    requires ready != []
    ensures Placed(Filter(Shares(ready, replicas), Takes), ready, Whole(replicas))
  {
    hide Share, Whole, Filter, Total;
    if replicas <= 0.0 {
      NoSharesPlaced(ready, replicas);
    } else {
      var n := |ready|;
      var shares := Shares(ready, replicas);
      var base, extra := ShareForm(replicas, n);
      assert forall i :: 0 <= i < n ==> shares[i].replicas == base + if i < extra then 1 else 0;
      var kept := if base == 0 then extra else n;
      AtLeastOneEach(base, n);
      FilterPrefix(shares, Takes, kept);
      TotalShares(shares, base, extra, kept);
    }
  }

  lemma AtLeastOneEach(base: int, n: nat)
    requires base >= 0
    ensures base > 0 ==> base * n >= n
  {
  }

  lemma NothingIsWhole(replicas: real)
    requires replicas <= 0.0
    ensures Whole(replicas) == 0
  {
  }

  /** A fraction of a replica is placed as a whole one. */
  lemma WholeRoundsUp(replicas: real)
    requires replicas > 0.0
    ensures replicas <= Whole(replicas) as real < replicas + 1.0
  {
    var down := (-replicas).Floor;
    assert down as real <= -replicas < down as real + 1.0;
    assert Ceiling(replicas) == -down && Whole(replicas) == -down;
  }

  lemma WholeIsExact(replicas: nat)
    ensures Whole(replicas as real) == replicas
  {
    if replicas > 0 { WholeRoundsUp(replicas as real); }
  }

  /** The placements add up to the replicas asked for, rounded up to a whole number; they
      differ by at most one and are all positive; and they name the first
      min(replicas, eligible) eligible nodes, in order. */
  lemma PlanPlaces(nodes: seq<Node>, replicas: real)
    requires Filter(nodes, Eligible) != []
    ensures var ready := Filter(nodes, Eligible);
      var plan := PlanWorkload(nodes, replicas);
      && Total(plan) == Whole(replicas)
      && |plan| == Min(Whole(replicas), |ready|)
      && (forall k :: 0 <= k < |plan| ==> plan[k].nodeId == ready[k].id && plan[k].replicas > 0)
      && (forall i, j :: 0 <= i < j < |plan| ==> 0 <= plan[i].replicas - plan[j].replicas <= 1)
  {
    hide Share, Whole, Filter, Total, Shares;
    SharesPlaced(Filter(nodes, Eligible), replicas);
  }

  ghost predicate IsEligibleId(nodes: seq<Node>, id: string) {
    exists n :: n in nodes && Eligible(n) && n.id == id
  }

  /** A plan names eligible nodes only, each once when node ids are distinct. */
  lemma PlanNames(nodes: seq<Node>, replicas: real)
    requires forall i, j :: 0 <= i < j < |nodes| ==> nodes[i].id != nodes[j].id
    ensures var plan := PlanWorkload(nodes, replicas);
      && (forall k :: 0 <= k < |plan| ==> IsEligibleId(nodes, plan[k].nodeId))
      && (forall i, j :: 0 <= i < j < |plan| ==> plan[i].nodeId != plan[j].nodeId)
  {
    hide Share, Whole, Filter, Total, Shares, Eligible;
    var ready := Filter(nodes, Eligible);
    var at := FilterIndices(nodes, Eligible);
    if ready != [] {
      SharesPlaced(ready, replicas);
      var plan := PlanWorkload(nodes, replicas);
      forall k | 0 <= k < |plan| ensures IsEligibleId(nodes, plan[k].nodeId) {
        assert nodes[at[k]] in nodes && ready[k] == nodes[at[k]];
      }
      forall i, j | 0 <= i < j < |plan| ensures plan[i].nodeId != plan[j].nodeId {
        assert ready[i] == nodes[at[i]] && ready[j] == nodes[at[j]] && at[i] < at[j];
      }
    }
  }

  /** A plan is empty exactly when no node is eligible or nothing is asked for. */
  lemma PlanIsEmptyIff(nodes: seq<Node>, replicas: real)
    ensures PlanWorkload(nodes, replicas) == [] <==> (forall n :: n in nodes ==> !Eligible(n)) || replicas <= 0.0
  {
    hide Share, Whole, Filter, Total, Shares, Eligible;
    var ready := Filter(nodes, Eligible);
    var at := FilterIndices(nodes, Eligible);
    if ready != [] {
      assert nodes[at[0]] in nodes && Eligible(nodes[at[0]]);
      SharesPlaced(ready, replicas);
      if replicas <= 0.0 { NothingIsWhole(replicas); } else { SomethingIsWhole(replicas); }
    } else {
      forall n | n in nodes ensures !Eligible(n) {
        var i :| 0 <= i < |nodes| && nodes[i] == n;
        assert i !in at;
      }
    }
  }

  lemma SomethingIsWhole(replicas: real)
    requires replicas > 0.0
    ensures Whole(replicas) > 0
  {
  }
}
