/** The effective catalog: platform entries and node-local apps, limited by tenant, node and
    runtime, in the order the user prefers. */
module CatalogResolution {
  import opened Wrappers

  datatype Review = ApprovedReview | PendingReview | DeferredReview | RejectedReview
  datatype Scope = PlatformScope | NodeScope
  datatype Availability = Available | Disabled | Offline | Restricted

  datatype Placement = Placement(
    primaryShelf: string, secondaryShelves: seq<string>, audiences: seq<string>, capabilities: seq<string>,
    maturity: string, visibility: string)

  datatype Global = Global(
    toolId: string, name: Option<string>, description: Option<string>, approved: Option<Placement>, review: Review)

  datatype Local = Local(
    toolId: string, name: string, description: Option<string>, primaryShelf: Option<string>,
    secondaryShelves: seq<string>, audiences: seq<string>, capabilities: seq<string>,
    maturity: Option<string>, visibility: Option<string>, canLaunch: Option<bool>)

  datatype Runtime = Runtime(offline: bool, canLaunch: bool)

  datatype Context = Context(
    enabled: seq<string>, disabledByTenant: set<string>,
    disabledByNode: set<string>, shelfOverrides: map<string, string>, localApps: seq<Local>,
    runtime: map<string, Runtime>)

  datatype Preferences = Preferences(pinned: seq<string>, recent: seq<string>, preferredShelf: Option<string>)

  datatype Entry = Entry(
    toolId: string, name: string, description: string, placement: Placement, review: Review, scope: Scope,
    availability: Availability, canLaunch: bool, preferredByUser: bool)

  // ---------- one entry ----------

  const FALLBACK := Placement("explore", [], [], [], "experimental", "discoverable")

  function ShelfOf(c: Context, id: string, own: string): string {
    if id in c.shelfOverrides then c.shelfOverrides[id] else own
  }

  predicate IsOffline(c: Context, id: string) {
    id in c.runtime && c.runtime[id].offline
  }

  predicate MayLaunch(c: Context, id: string) {
    id !in c.runtime || c.runtime[id].canLaunch
  }

  /** An empty list of enabled apps enables every app. */
  predicate DisabledFor(c: Context, id: string) {
    id in c.disabledByTenant || (c.enabled != [] && id !in c.enabled) || id in c.disabledByNode
  }

  function PlatformEntry(c: Context, p: Preferences, g: Global): Entry {
    var base := g.approved.GetOr(FALLBACK);
    var placement := base.(primaryShelf := ShelfOf(c, g.toolId, base.primaryShelf));
    var availability :=
      if base.visibility == "restricted" then Restricted
      else if DisabledFor(c, g.toolId) then Disabled
      else if IsOffline(c, g.toolId) then Offline
      else Available;
    Entry(g.toolId, g.name.GetOr(g.toolId), g.description.GetOr(""), placement, g.review, PlatformScope, availability,
          availability == Available && g.review == ApprovedReview && MayLaunch(c, g.toolId),
          p.preferredShelf == Some(placement.primaryShelf))
  }

  function LocalEntry(c: Context, p: Preferences, l: Local): Entry {
    var placement := Placement(ShelfOf(c, l.toolId, l.primaryShelf.GetOr("explore")), l.secondaryShelves, l.audiences,
                               l.capabilities, l.maturity.GetOr("experimental"), l.visibility.GetOr("discoverable"));
    var availability :=
      if l.toolId in c.disabledByNode then Disabled else if IsOffline(c, l.toolId) then Offline else Available;
    Entry(l.toolId, l.name, l.description.GetOr(""), placement, PendingReview, NodeScope, availability,
          availability == Available && l.canLaunch == Some(true) && MayLaunch(c, l.toolId),
          p.preferredShelf == Some(placement.primaryShelf))
  }

  // ---------- the order ----------

  /** The last place of an id in a list. */
  function LastIndex(ids: seq<string>, id: string): (i: int)
    ensures -1 <= i < |ids|
    ensures i >= 0 <==> id in ids
    ensures i >= 0 ==> ids[i] == id && forall j :: i < j < |ids| ==> ids[j] != id
  {
    if ids == [] then -1
    else if ids[|ids| - 1] == id then |ids| - 1
    else LastIndex(ids[..|ids| - 1], id)
  }

  /** Whether the first text does not come after the second. */
  type Collation = (string, string) -> bool

  type Order = (Entry, Entry) -> bool

  ghost predicate TotalPreorder<T(!new)>(leq: (T, T) -> bool) {
    && (forall x, y :: leq(x, y) || leq(y, x))
    && (forall x, y, z :: leq(x, y) && leq(y, z) ==> leq(x, z))
  }

  function RankOf(p: Preferences, e: Entry): (int, int) {
    if e.toolId in p.pinned then (0, LastIndex(p.pinned, e.toolId))
    else if e.toolId in p.recent then (1, LastIndex(p.recent, e.toolId))
    else (2, 0)
  }

  /** By rank, then by name, then by id. */
  predicate NotAfter(p: Preferences, collate: Collation, a: Entry, b: Entry) {
    var (ar, ai) := RankOf(p, a);
    var (br, bi) := RankOf(p, b);
    ar < br || (ar == br &&
    (ai < bi || (ai == bi &&
    (!collate(b.name, a.name) || (collate(a.name, b.name) && collate(a.toolId, b.toolId))))))
  }

  function ByPreference(p: Preferences, collate: Collation): Order {
    (a: Entry, b: Entry) => NotAfter(p, collate, a, b)
  }

  function Insert(sorted: seq<Entry>, order: Order, e: Entry): seq<Entry> {
    if sorted == [] then [e]
    else if order(sorted[|sorted| - 1], e) then sorted + [e]
    else Insert(sorted[..|sorted| - 1], order, e) + [sorted[|sorted| - 1]]
  }

  /** A stable sort: an entry goes behind those that are not after it. */
  function SortBy(entries: seq<Entry>, order: Order): seq<Entry> {
    if entries == [] then [] else Insert(SortBy(entries[..|entries| - 1], order), order, entries[|entries| - 1])
  }

  function SortByPreference(entries: seq<Entry>, p: Preferences, collate: Collation): seq<Entry> {
    SortBy(entries, ByPreference(p, collate))
  }

  // ---------- the whole catalog ----------

  function PlatformEntries(c: Context, p: Preferences, globals: seq<Global>): seq<Entry> {
    seq(|globals|, (i: nat) requires i < |globals| => PlatformEntry(c, p, globals[i]))
  }

  predicate HasId(entries: seq<Entry>, id: string) {
    exists i :: 0 <= i < |entries| && entries[i].toolId == id
  }

  /** Local apps join behind the platform entries, unless their id is there already. */
  function WithLocals(c: Context, p: Preferences, entries: seq<Entry>, locals: seq<Local>): seq<Entry> {
    if locals == [] then entries
    else
      var before := WithLocals(c, p, entries, locals[..|locals| - 1]);
      var last := locals[|locals| - 1];
      if HasId(before, last.toolId) then before else before + [LocalEntry(c, p, last)]
  }

  function Entries(c: Context, p: Preferences, globals: seq<Global>): seq<Entry> {
    WithLocals(c, p, PlatformEntries(c, p, globals), c.localApps)
  }

  function Effective(c: Context, p: Preferences, globals: seq<Global>, collate: Collation): seq<Entry> {
    SortByPreference(Entries(c, p, globals), p, collate)
  }

  method ResolveEffectiveCatalog(globals: seq<Global>, c: Context, p: Preferences, collate: Collation)
    returns (resolved: seq<Entry>)
    ensures resolved == Effective(c, p, globals, collate)
  {
    hide PlatformEntry, LocalEntry;
    var entries: seq<Entry> := [];
    for i := 0 to |globals|
      invariant entries == PlatformEntries(c, p, globals)[..i]
    {
      entries := entries + [PlatformEntry(c, p, globals[i])];
    }
    assert entries == PlatformEntries(c, p, globals);
    for i := 0 to |c.localApps|
      invariant entries == WithLocals(c, p, PlatformEntries(c, p, globals), c.localApps[..i])
    {
      assert c.localApps[..i + 1][..i] == c.localApps[..i];
      if !HasId(entries, c.localApps[i].toolId) {
        entries := entries + [LocalEntry(c, p, c.localApps[i])];
      }
    }
    assert c.localApps[..|c.localApps|] == c.localApps;
    resolved := SortByPreference(entries, p, collate);
  }

  // ---------- sorting ----------

  ghost predicate Ordered(s: seq<Entry>, order: Order) {
    forall i, j :: 0 <= i < j < |s| ==> order(s[i], s[j])
  }

  /** The order of the entries inherits totality and transitivity from the order of the texts. */
  lemma PreferenceIsPreorder(p: Preferences, collate: Collation)
    requires TotalPreorder(collate)
    ensures TotalPreorder(ByPreference(p, collate))
  {
    hide RankOf;
    var order := ByPreference(p, collate);
    forall x, y ensures order(x, y) || order(y, x) {
      assert collate(x.name, y.name) || collate(y.name, x.name);
      assert collate(x.toolId, y.toolId) || collate(y.toolId, x.toolId);
    }
    forall x, y, z | order(x, y) && order(y, z) ensures order(x, z) {
      NamesChain(collate, x.name, y.name, z.name);
      assert collate(x.toolId, y.toolId) && collate(y.toolId, z.toolId) ==> collate(x.toolId, z.toolId);
    }
  }

  lemma NamesChain(collate: Collation, x: string, y: string, z: string)
    requires TotalPreorder(collate)
    ensures collate(x, y) && collate(y, z) ==> collate(x, z)
    ensures !collate(y, x) && collate(y, z) ==> !collate(z, x)
    ensures collate(x, y) && !collate(z, y) ==> !collate(z, x)
    ensures !collate(y, x) ==> collate(x, y)
    ensures !collate(z, y) ==> collate(y, z)
  {
  }

  lemma {:induction false} InsertedMembers(sorted: seq<Entry>, order: Order, e: Entry)
    ensures multiset(Insert(sorted, order, e)) == multiset(sorted) + multiset{e}
    ensures forall x :: x in Insert(sorted, order, e) ==> x == e || x in sorted
    decreases |sorted|
  {
    if sorted != [] {
      InsertedMembers(sorted[..|sorted| - 1], order, e);
      assert sorted == sorted[..|sorted| - 1] + [sorted[|sorted| - 1]];
    }
  }

  lemma Behind(front: seq<Entry>, order: Order, last: Entry)
    requires Ordered(front, order) && forall x :: x in front ==> order(x, last)
    ensures Ordered(front + [last], order)
  {
  }

  lemma Before(sorted: seq<Entry>, order: Order)
    requires TotalPreorder(order) && Ordered(sorted, order) && sorted != []
    ensures forall x :: x in sorted ==> order(x, sorted[|sorted| - 1])
  {
  }

  lemma {:induction false} InsertSorts(sorted: seq<Entry>, order: Order, e: Entry)
    requires TotalPreorder(order) && Ordered(sorted, order)
    ensures Ordered(Insert(sorted, order, e), order)
    decreases |sorted|
  {
    if sorted != [] {
      var n := |sorted| - 1;
      Before(sorted, order);
      if order(sorted[n], e) {
        Behind(sorted, order, e);
      } else {
        InsertSorts(sorted[..n], order, e);
        InsertedMembers(sorted[..n], order, e);
        Behind(Insert(sorted[..n], order, e), order, sorted[n]);
      }
    }
  }

  lemma {:induction false} SortMembers(entries: seq<Entry>, order: Order)
    ensures multiset(SortBy(entries, order)) == multiset(entries)
    decreases |entries|
  {
    if entries != [] {
      var n := |entries| - 1;
      SortMembers(entries[..n], order);
      InsertedMembers(SortBy(entries[..n], order), order, entries[n]);
      assert entries == entries[..n] + [entries[n]];
    }
  }

  lemma {:induction false} SortSorts(entries: seq<Entry>, order: Order)
    requires TotalPreorder(order)
    ensures Ordered(SortBy(entries, order), order)
    decreases |entries|
  {
    hide TotalPreorder, Ordered;
    if entries == [] {
      NothingIsOrdered(order);
    } else {
      var n := |entries| - 1;
      SortSorts(entries[..n], order);
      InsertSorts(SortBy(entries[..n], order), order, entries[n]);
    }
  }

  lemma NothingIsOrdered(order: Order)
    ensures Ordered([], order)
  {
  }

  predicate Ties(order: Order, a: Entry, b: Entry) {
    order(a, b) && order(b, a)
  }

  /** The entries that tie with one, in order. */
  function Alike(s: seq<Entry>, order: Order, x: Entry): seq<Entry> {
    if s == [] then []
    else Alike(s[..|s| - 1], order, x) + if Ties(order, s[|s| - 1], x) then [s[|s| - 1]] else []
  }

  lemma {:induction false} InsertAlike(sorted: seq<Entry>, order: Order, e: Entry, x: Entry)
    requires TotalPreorder(order)
    ensures Alike(Insert(sorted, order, e), order, x)
      == Alike(sorted, order, x) + if Ties(order, e, x) then [e] else []
    decreases |sorted|
  {
    var next := Insert(sorted, order, e);
    if sorted == [] || order(sorted[|sorted| - 1], e) {
      assert next[..|next| - 1] == sorted;
    } else {
      InsertAlike(sorted[..|sorted| - 1], order, e, x);
      assert next[..|next| - 1] == Insert(sorted[..|sorted| - 1], order, e);
      assert !(Ties(order, sorted[|sorted| - 1], x) && Ties(order, e, x));
    }
  }

  /** Sorting leaves entries that compare equal in the order they had. */
  lemma {:induction false} SortIsStable(entries: seq<Entry>, order: Order, x: Entry)
    requires TotalPreorder(order)
    ensures Alike(SortBy(entries, order), order, x) == Alike(entries, order, x)
    decreases |entries|
  {
    hide TotalPreorder;
    if entries != [] {
      SortIsStable(entries[..|entries| - 1], order, x);
      InsertAlike(SortBy(entries[..|entries| - 1], order), order, entries[|entries| - 1], x);
    }
  }

  /** The effective catalog is the entries in order of preference: pinned ones first in the
      order of the pins, then recent ones, then the rest by name. */
  lemma EffectiveIsOrdered(c: Context, p: Preferences, globals: seq<Global>, collate: Collation)
    requires TotalPreorder(collate)
    ensures var s := Effective(c, p, globals, collate);
      && multiset(s) == multiset(Entries(c, p, globals))
      && Ordered(s, ByPreference(p, collate))
      && (forall i, j :: 0 <= i < j < |s| && s[j].toolId in p.pinned ==>
            s[i].toolId in p.pinned && LastIndex(p.pinned, s[i].toolId) <= LastIndex(p.pinned, s[j].toolId))
  {
    hide Entries, SortBy, LastIndex, TotalPreorder;
    var order := ByPreference(p, collate);
    PreferenceIsPreorder(p, collate);
    SortMembers(Entries(c, p, globals), order);
    SortSorts(Entries(c, p, globals), order);
    var s := Effective(c, p, globals, collate);
    forall i, j | 0 <= i < j < |s| && s[j].toolId in p.pinned
      ensures s[i].toolId in p.pinned && LastIndex(p.pinned, s[i].toolId) <= LastIndex(p.pinned, s[j].toolId)
    {
      assert order(s[i], s[j]);
    }
  }

  // ---------- which entries there are ----------

  /** A local app whose id neither an entry nor an earlier local app has. */
  ghost predicate First(entries: seq<Entry>, locals: seq<Local>, i: nat)
    requires i < |locals|
  {
    !HasId(entries, locals[i].toolId) && forall j :: 0 <= j < i ==> locals[j].toolId != locals[i].toolId
  }

  ghost predicate Names(locals: seq<Local>, id: string) {
    exists i :: 0 <= i < |locals| && locals[i].toolId == id
  }

  lemma OneMoreName(locals: seq<Local>, id: string)
    requires locals != []
    ensures Names(locals, id) <==> Names(locals[..|locals| - 1], id) || locals[|locals| - 1].toolId == id
  {
    var before := locals[..|locals| - 1];
    if Names(before, id) {
      var i :| 0 <= i < |before| && before[i].toolId == id;
      assert locals[i].toolId == id;
    }
  }

  /** The ids after the local apps have joined. */
  lemma {:induction false} JoinedIds(c: Context, p: Preferences, entries: seq<Entry>, locals: seq<Local>, id: string)
    ensures HasId(WithLocals(c, p, entries, locals), id) <==> HasId(entries, id) || Names(locals, id)
    decreases |locals|
  {
    hide HasId, Names, LocalEntry;
    if locals != [] {
      var n := |locals| - 1;
      JoinedIds(c, p, entries, locals[..n], id);
      OneMoreId(c, p, WithLocals(c, p, entries, locals[..n]), locals[n], id);
      OneMoreName(locals, id);
    } else {
      NoNames(id);
    }
  }

  lemma NoNames(id: string)
    ensures !Names([], id)
  {
  }

  lemma OneMoreId(c: Context, p: Preferences, before: seq<Entry>, l: Local, id: string)
    ensures HasId(if HasId(before, l.toolId) then before else before + [LocalEntry(c, p, l)], id) <==>
      HasId(before, id) || id == l.toolId
  {
    if !HasId(before, l.toolId) {
      var after := before + [LocalEntry(c, p, l)];
      assert after[|before|].toolId == l.toolId;
      if HasId(before, id) {
        var i :| 0 <= i < |before| && before[i].toolId == id;
        assert after[i].toolId == id;
      }
    }
  }

  /** An entry there from the start, or a local app that comes first under its id. */
  ghost predicate Joins(c: Context, p: Preferences, entries: seq<Entry>, locals: seq<Local>, e: Entry) {
    e in entries || exists i :: 0 <= i < |locals| && First(entries, locals, i) && e == LocalEntry(c, p, locals[i])
  }

  lemma JoinsNext(c: Context, p: Preferences, entries: seq<Entry>, locals: seq<Local>, e: Entry)
    requires locals != []
    ensures var n := |locals| - 1;
      Joins(c, p, entries, locals, e) <==>
      Joins(c, p, entries, locals[..n], e) || (First(entries, locals, n) && e == LocalEntry(c, p, locals[n]))
  {
    hide LocalEntry, HasId;
    var n := |locals| - 1;
    forall i | 0 <= i < n ensures First(entries, locals[..n], i) <==> First(entries, locals, i) {
    }
    if Joins(c, p, entries, locals[..n], e) && e !in entries {
      var i :| 0 <= i < n && First(entries, locals[..n], i) && e == LocalEntry(c, p, locals[..n][i]);
      assert First(entries, locals, i) && e == LocalEntry(c, p, locals[i]);
    }
  }

  lemma LastIsFirst(c: Context, p: Preferences, entries: seq<Entry>, locals: seq<Local>)
    requires locals != []
    ensures var n := |locals| - 1;
      HasId(WithLocals(c, p, entries, locals[..n]), locals[n].toolId) <==> !First(entries, locals, n)
  {
    hide LocalEntry, HasId, WithLocals;
    var n := |locals| - 1;
    JoinedIds(c, p, entries, locals[..n], locals[n].toolId);
    assert forall i :: 0 <= i < n ==> locals[..n][i] == locals[i];
  }

  /** All platform entries, in order, then exactly the local apps that come first under an id
      of their own. */
  lemma {:induction false} LocalsJoin(c: Context, p: Preferences, entries: seq<Entry>, locals: seq<Local>)
    ensures entries <= WithLocals(c, p, entries, locals)
    ensures forall e :: e in WithLocals(c, p, entries, locals) <==> Joins(c, p, entries, locals, e)
    decreases |locals|
  {
    hide LocalEntry, HasId, First;
    if locals != [] {
      LocalsJoin(c, p, entries, locals[..|locals| - 1]);
      LastIsFirst(c, p, entries, locals);
      forall e ensures e in WithLocals(c, p, entries, locals) <==> Joins(c, p, entries, locals, e) {
        JoinsNext(c, p, entries, locals, e);
      }
    }
  }

  /** A local app's id belongs to no entry in front of it. */
  lemma {:induction false} LocalIdsAreNew(c: Context, p: Preferences, entries: seq<Entry>, locals: seq<Local>, k: nat)
    requires |entries| <= k < |WithLocals(c, p, entries, locals)|
    ensures !HasId(WithLocals(c, p, entries, locals)[..k], WithLocals(c, p, entries, locals)[k].toolId)
    decreases |locals|
  {
    if locals != [] {
      var n := |locals| - 1;
      var before := WithLocals(c, p, entries, locals[..n]);
      var all := WithLocals(c, p, entries, locals);
      if k < |before| {
        LocalIdsAreNew(c, p, entries, locals[..n], k);
        assert all[..k] == before[..k];
      } else {
        assert all[..k] == before;
      }
    }
  }

  // ---------- what preferences change ----------

  function Plain(s: seq<Entry>): seq<Entry> {
    seq(|s|, (i: nat) requires i < |s| => s[i].(preferredByUser := false))
  }

  lemma PlainAppend(s: seq<Entry>, e: Entry)
    ensures Plain(s + [e]) == Plain(s) + [e.(preferredByUser := false)]
  {
  }

  lemma {:induction false} PlainInsert(sorted: seq<Entry>, order: Order, e: Entry)
    ensures multiset(Plain(Insert(sorted, order, e)))
      == multiset(Plain(sorted)) + multiset{e.(preferredByUser := false)}
    decreases |sorted|
  {
    hide Plain;
    if sorted == [] || order(sorted[|sorted| - 1], e) {
      PlainAppend(sorted, e);
      assert sorted + [e] == Insert(sorted, order, e);
    } else {
      var n := |sorted| - 1;
      PlainInsert(sorted[..n], order, e);
      PlainAppend(Insert(sorted[..n], order, e), sorted[n]);
      PlainAppend(sorted[..n], sorted[n]);
      assert sorted == sorted[..n] + [sorted[n]];
    }
  }

  lemma {:induction false} PlainSort(entries: seq<Entry>, order: Order)
    ensures multiset(Plain(SortBy(entries, order))) == multiset(Plain(entries))
    decreases |entries|
  {
    hide Plain, Insert;
    if entries != [] {
      var n := |entries| - 1;
      PlainSort(entries[..n], order);
      PlainInsert(SortBy(entries[..n], order), order, entries[n]);
      PlainAppend(entries[..n], entries[n]);
      assert entries == entries[..n] + [entries[n]];
    }
  }

  lemma {:induction false} PlainLocals(
      c: Context, p: Preferences, q: Preferences, a: seq<Entry>, b: seq<Entry>, locals: seq<Local>)
    requires Plain(a) == Plain(b)
    ensures Plain(WithLocals(c, p, a, locals)) == Plain(WithLocals(c, q, b, locals))
    decreases |locals|
  {
    if locals != [] {
      var n := |locals| - 1;
      PlainLocals(c, p, q, a, b, locals[..n]);
      var x := WithLocals(c, p, a, locals[..n]);
      var y := WithLocals(c, q, b, locals[..n]);
      SameIds(x, y, locals[n].toolId);
      PlainAppend(x, LocalEntry(c, p, locals[n]));
      PlainAppend(y, LocalEntry(c, q, locals[n]));
    }
  }

  lemma SameIds(a: seq<Entry>, b: seq<Entry>, id: string)
    requires Plain(a) == Plain(b)
    ensures HasId(a, id) <==> HasId(b, id)
  {
    assert |a| == |Plain(a)| == |b|;
    forall i | 0 <= i < |a| ensures a[i].toolId == b[i].toolId {
      assert Plain(a)[i].toolId == Plain(b)[i].toolId;
    }
  }

  /** Preferences only reorder the catalog and mark the preferred shelf; what there is, whether
      it is available and whether it may be launched do not depend on them. */
  lemma PreferencesOnlyReorder(
      c: Context, p: Preferences, q: Preferences, globals: seq<Global>, collate: Collation)
    ensures multiset(Plain(Effective(c, p, globals, collate))) == multiset(Plain(Effective(c, q, globals, collate)))
  {
    hide SortBy, Plain, ByPreference, WithLocals;
    PlainSort(Entries(c, p, globals), ByPreference(p, collate));
    PlainSort(Entries(c, q, globals), ByPreference(q, collate));
    SamePlatform(c, p, q, globals);
    PlainLocals(c, p, q, PlatformEntries(c, p, globals), PlatformEntries(c, q, globals), c.localApps);
  }

  lemma SamePlatform(c: Context, p: Preferences, q: Preferences, globals: seq<Global>)
    ensures Plain(PlatformEntries(c, p, globals)) == Plain(PlatformEntries(c, q, globals))
  {
  }

  // ---------- what disabling changes ----------

  /** `d` is `c` with more disabled. */
  ghost predicate Stricter(c: Context, d: Context) {
    && (forall id :: DisabledFor(c, id) ==> DisabledFor(d, id)) && c.disabledByNode <= d.disabledByNode
    && d.shelfOverrides == c.shelfOverrides && d.localApps == c.localApps && d.runtime == c.runtime
  }

  /** Disabling more never makes anything launchable: a launchable entry of the stricter
      catalog is, to the letter, an entry of the laxer one. */
  lemma DisablingNeverLaunches(
      c: Context, d: Context, p: Preferences, globals: seq<Global>, collate: Collation, e: Entry)
    requires Stricter(c, d) && e in Effective(d, p, globals, collate) && e.canLaunch
    ensures e in Effective(c, p, globals, collate)
  {
    hide SortBy, ByPreference, WithLocals, PlatformEntry, LocalEntry;
    SortMembers(Entries(d, p, globals), ByPreference(p, collate));
    SortMembers(Entries(c, p, globals), ByPreference(p, collate));
    assert e in multiset(Effective(d, p, globals, collate));
    assert e in Entries(d, p, globals);
    LocalsJoin(d, p, PlatformEntries(d, p, globals), d.localApps);
    LocalsJoin(c, p, PlatformEntries(c, p, globals), c.localApps);
    assert Joins(d, p, PlatformEntries(d, p, globals), d.localApps, e);
    if e in PlatformEntries(d, p, globals) {
      var i :| 0 <= i < |globals| && PlatformEntries(d, p, globals)[i] == e;
      LaunchablePlatform(c, d, p, globals[i]);
      assert PlatformEntries(c, p, globals)[i] == e;
    } else {
      var i :| 0 <= i < |d.localApps| && First(PlatformEntries(d, p, globals), d.localApps, i)
               && e == LocalEntry(d, p, d.localApps[i]);
      LaunchableLocal(c, d, p, d.localApps[i]);
      SamePlatformIds(c, d, p, globals, d.localApps[i].toolId);
      assert First(PlatformEntries(c, p, globals), c.localApps, i);
    }
    assert Joins(c, p, PlatformEntries(c, p, globals), c.localApps, e);
    assert e in Entries(c, p, globals);
    assert e in multiset(Effective(c, p, globals, collate));
  }

  lemma LaunchablePlatform(c: Context, d: Context, p: Preferences, g: Global)
    requires Stricter(c, d) && PlatformEntry(d, p, g).canLaunch
    ensures PlatformEntry(c, p, g) == PlatformEntry(d, p, g)
  {
    hide DisabledFor;
  }

  lemma LaunchableLocal(c: Context, d: Context, p: Preferences, l: Local)
    requires Stricter(c, d) && LocalEntry(d, p, l).canLaunch
    ensures LocalEntry(c, p, l) == LocalEntry(d, p, l)
  {
    hide DisabledFor;
  }

  lemma SamePlatformIds(c: Context, d: Context, p: Preferences, globals: seq<Global>, id: string)
    ensures HasId(PlatformEntries(c, p, globals), id) <==> HasId(PlatformEntries(d, p, globals), id)
  {
    forall i | 0 <= i < |globals|
      ensures PlatformEntries(c, p, globals)[i].toolId == PlatformEntries(d, p, globals)[i].toolId
    {
    }
  }

  lemma LongerThanAll(ids: set<string>) returns (id: string)
    ensures id !in ids
  {
    var todo := ids;
    var n: nat := 0;
    while todo != {}
      invariant todo <= ids && forall x :: x in ids && x !in todo ==> |x| < n
      decreases |todo|
    {
      var x :| x in todo;
      todo := todo - {x};
      if |x| >= n { n := |x| + 1; }
    }
    id := seq(n, _ => 'a');
  }

  /** Taking ids off the tenant's list of enabled apps is stricter exactly when it does not
      empty the list: an empty list enables every app. */
  lemma NarrowingIsStricterIff(c: Context, fewer: seq<string>)
    requires forall id :: id in fewer ==> id in c.enabled
    ensures Stricter(c, c.(enabled := fewer)) <==> (fewer != [] || c.enabled == [])
  {
    var d := c.(enabled := fewer);
    if fewer == [] && c.enabled != [] {
      var id := LongerThanAll((set x | x in c.enabled) + c.disabledByTenant + c.disabledByNode);
      assert DisabledFor(c, id) && !DisabledFor(d, id);
    }
  }

  /** More ids on either list of disabled apps are stricter. */
  lemma DisablingMoreIsStricter(c: Context, byTenant: set<string>, byNode: set<string>)
    ensures Stricter(c, c.(disabledByTenant := c.disabledByTenant + byTenant,
                           disabledByNode := c.disabledByNode + byNode))
  {
  }
}
