/** Tables kept as sequences, with a key that an upsert replaces by. */
module Tables {
  import opened Wrappers

  /** The first record under a key. */
  function Find<R, K(==)>(s: seq<R>, key: R -> K, k: K): (found: Option<R>)
    ensures found.Some? ==> found.value in s && key(found.value) == k
    ensures found.None? ==> forall r :: r in s ==> key(r) != k
  {
    if s == [] then None
    else if key(s[0]) == k then Some(s[0])
    else Find(s[1..], key, k)
  }

  /** Replaces the first record under the new one's key, or appends the new one. */
  function Upsert<R, K(==)>(s: seq<R>, key: R -> K, r: R): seq<R> {
    if s == [] then [r]
    else if key(s[0]) == key(r) then [r] + s[1..]
    else [s[0]] + Upsert(s[1..], key, r)
  }

  ghost predicate Unique<R, K>(s: seq<R>, key: R -> K) {
    forall i, j :: 0 <= i < j < |s| ==> key(s[i]) != key(s[j])
  }

  lemma {:induction false} UpsertMembers<R, K>(s: seq<R>, key: R -> K, r: R)
    requires Unique(s, key)
    ensures r in Upsert(s, key, r)
    ensures forall x :: x in Upsert(s, key, r) ==> x == r || (x in s && key(x) != key(r))
    ensures forall x :: x in s && key(x) != key(r) ==> x in Upsert(s, key, r)
  {
    if s != [] {
      if key(s[0]) != key(r) {
        UpsertMembers(s[1..], key, r);
      }
      forall x ensures x in Upsert(s, key, r) <==> x == r || (x in s && key(x) != key(r)) {
        assert x in s <==> x == s[0] || x in s[1..];
        if x in s[1..] && key(s[0]) == key(r) {
          var j :| 0 <= j < |s[1..]| && s[1..][j] == x;
          assert s[j + 1] == x && key(s[j + 1]) != key(s[0]);
        }
      }
    }
  }

  lemma {:induction false} UpsertUnique<R, K>(s: seq<R>, key: R -> K, r: R)
    requires Unique(s, key)
    ensures Unique(Upsert(s, key, r), key)
  {
    if s != [] && key(s[0]) != key(r) {
      var rest := Upsert(s[1..], key, r);
      UpsertUnique(s[1..], key, r);
      UpsertMembers(s[1..], key, r);
      forall j | 0 <= j < |rest| ensures key(rest[j]) != key(s[0]) {
        assert rest[j] in rest;
        if rest[j] in s[1..] {
          var n :| 0 <= n < |s[1..]| && s[1..][n] == rest[j];
          assert s[n + 1] == rest[j] && key(s[0]) != key(s[n + 1]);
        } else {
          assert rest[j] == r;
        }
      }
    }
  }

  lemma {:induction false} FindUpsert<R, K>(s: seq<R>, key: R -> K, r: R, k: K)
    ensures Find(Upsert(s, key, r), key, k) == if k == key(r) then Some(r) else Find(s, key, k)
  {
    if s != [] && key(s[0]) != key(r) {
      FindUpsert(s[1..], key, r, k);
    }
  }

  /** The record stands where the one under its key stood, or at the end; all others stay. */
  ghost predicate Stores<R, K>(s: seq<R>, n: seq<R>, key: R -> K, r: R) {
    && |s| <= |n| <= |s| + 1
    && (forall i :: 0 <= i < |s| ==> n[i] == if key(s[i]) == key(r) then r else s[i])
    && (|n| == |s| <==> exists i :: 0 <= i < |s| && key(s[i]) == key(r))
    && (|n| > |s| ==> n[|s|] == r)
  }

  lemma UpsertStores<R, K>(s: seq<R>, key: R -> K, r: R)
    requires Unique(s, key)
    ensures Stores(s, Upsert(s, key, r), key, r)
  {
    if i :| 0 <= i < |s| && key(s[i]) == key(r) {
      UpsertAt(s, key, r, i);
    } else {
      UpsertNew(s, key, r);
    }
  }

  /** Replacing the record found at its index is an upsert. */
  lemma {:induction false} UpsertAt<R, K>(s: seq<R>, key: R -> K, r: R, i: nat)
    requires i < |s| && key(s[i]) == key(r) && forall j :: 0 <= j < i ==> key(s[j]) != key(r)
    ensures Upsert(s, key, r) == s[i := r]
  {
    if i > 0 {
      UpsertAt(s[1..], key, r, i - 1);
      assert s[i := r] == [s[0]] + s[1..][i - 1 := r];
    } else {
      assert s[0 := r] == [r] + s[1..];
    }
  }

  lemma {:induction false} UpsertNew<R, K>(s: seq<R>, key: R -> K, r: R)
    requires forall j :: 0 <= j < |s| ==> key(s[j]) != key(r)
    ensures Upsert(s, key, r) == s + [r]
  {
    if s != [] {
      UpsertNew(s[1..], key, r);
      assert s == [s[0]] + s[1..];
    }
  }

  method FindIndex<R, K(==)>(s: seq<R>, key: R -> K, k: K) returns (i: int)
    ensures -1 <= i < |s|
    ensures i >= 0 ==> key(s[i]) == k && forall j :: 0 <= j < i ==> key(s[j]) != k
    ensures i < 0 ==> forall j :: 0 <= j < |s| ==> key(s[j]) != k
  {
    for n := 0 to |s|
      invariant forall j :: 0 <= j < n ==> key(s[j]) != k
    {
      if key(s[n]) == k {
        return n;
      }
    }
    return -1;
  }

  method UpsertRecord<R, K(==)>(s: seq<R>, key: R -> K, r: R) returns (next: seq<R>)
    ensures next == Upsert(s, key, r) && Find(next, key, key(r)) == Some(r)
  {
    FindUpsert(s, key, r, key(r));
    var i := FindIndex(s, key, key(r));
    if i >= 0 {
      UpsertAt(s, key, r, i);
      next := s[i := r];
    } else {
      UpsertNew(s, key, r);
      next := s + [r];
    }
  }

  /** `at` lists, in order, exactly the places of the records that match. */
  ghost predicate Places<R>(at: seq<nat>, s: seq<R>, matches: R -> bool) {
    Matching(at, s, matches) && Ascending(at) && Covering(at, s, matches)
  }

  ghost predicate Matching<R>(at: seq<nat>, s: seq<R>, matches: R -> bool) {
    forall k :: 0 <= k < |at| ==> at[k] < |s| && matches(s[at[k]])
  }

  ghost predicate Ascending(at: seq<nat>) {
    forall j, k :: 0 <= j < k < |at| ==> at[j] < at[k]
  }

  ghost predicate Covering<R>(at: seq<nat>, s: seq<R>, matches: R -> bool) {
    forall i: nat :: i < |s| && matches(s[i]) ==> i in at
  }

  lemma NoPlaces<R>(matches: R -> bool)
    ensures Places([], [], matches)
  {
  }

  /** One more record adds its place if it matches. */
  lemma PlacesOn<R>(at: seq<nat>, s: seq<R>, matches: R -> bool)
    requires s != [] && Places(at, s[..|s| - 1], matches)
    ensures Places(if matches(s[|s| - 1]) then at + [|s| - 1] else at, s, matches)
  {
    hide Matching, Ascending, Covering;
    var last: nat := |s| - 1;
    MatchingOn(at, s, last, matches);
    CoveringOn(at, s, last, matches);
    AscendingOn(at, s[..last], matches);
  }

  lemma MatchingOn<R>(at: seq<nat>, s: seq<R>, last: nat, matches: R -> bool)
    requires last == |s| - 1 && Matching(at, s[..last], matches)
    ensures Matching(at, s, matches) && (matches(s[last]) ==> Matching(at + [last], s, matches))
  {
    forall k | 0 <= k < |at| ensures at[k] < |s| && matches(s[at[k]]) {
      assert s[..last][at[k]] == s[at[k]];
    }
  }

  lemma CoveringOn<R>(at: seq<nat>, s: seq<R>, last: nat, matches: R -> bool)
    requires last == |s| - 1 && Covering(at, s[..last], matches)
    ensures Covering(at + [last], s, matches) && (!matches(s[last]) ==> Covering(at, s, matches))
  {
    assert (at + [last])[|at|] == last;
    forall i: nat | i < last && matches(s[i]) ensures i in at {
      assert s[..last][i] == s[i];
    }
  }

  lemma AscendingOn<R>(at: seq<nat>, s: seq<R>, matches: R -> bool)
    requires Ascending(at) && Matching(at, s, matches)
    ensures Ascending(at + [|s|])
  {
  }

  /** Changes the records that match and leaves the others where they are. */
  function MapWhere<R>(s: seq<R>, matches: R -> bool, change: R -> R): seq<R> {
    seq(|s|, (i: nat) requires i < |s| => if matches(s[i]) then change(s[i]) else s[i])
  }

  lemma MapWhereUnique<R, K>(s: seq<R>, key: R -> K, matches: R -> bool, change: R -> R)
    requires Unique(s, key) && forall r :: key(change(r)) == key(r)
    ensures Unique(MapWhere(s, matches, change), key)
  {
  }

  lemma MapWhereMembers<R>(s: seq<R>, matches: R -> bool, change: R -> R)
    ensures forall x :: x in MapWhere(s, matches, change) ==>
      exists r :: r in s && x == if matches(r) then change(r) else r
    ensures forall r :: r in s ==> (if matches(r) then change(r) else r) in MapWhere(s, matches, change)
  {
    var t := MapWhere(s, matches, change);
    forall r | r in s ensures (if matches(r) then change(r) else r) in t {
      var i :| 0 <= i < |s| && s[i] == r;
      assert t[i] == if matches(r) then change(r) else r;
    }
  }

  /** The loop that rewrites each matching record by an upsert under its own key. */
  method UpsertEach<R, K(==)>(s: seq<R>, key: R -> K, matches: R -> bool, change: R -> R) returns (next: seq<R>)
    requires Unique(s, key) && forall r :: key(change(r)) == key(r)
    ensures next == MapWhere(s, matches, change)
  {
    next := s;
    for i := 0 to |s|
      invariant |next| == |s|
      invariant forall j :: 0 <= j < i ==> next[j] == if matches(s[j]) then change(s[j]) else s[j]
      invariant forall j :: i <= j < |s| ==> next[j] == s[j]
    {
      if matches(s[i]) {
        var r := change(s[i]);
        assert forall j :: 0 <= j < |s| ==> key(next[j]) == key(s[j]);
        UpsertAt(next, key, r, i);
        next := UpsertRecord(next, key, r);
      }
    }
  }
}
