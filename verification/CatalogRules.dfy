/** The effective catalog said in terms of the platform's entries, the node's apps and the limits
    on them: what is listed, what is shown of it, what may be launched, and in which order. */
module CatalogRules {
  import opened Wrappers
  import opened CatalogResolution

  // ---------- what limits an app ----------

  predicate Unavailable(c: Context, id: string) {
    id in c.runtime && c.runtime[id].offline
  }

  predicate Refused(c: Context, id: string) {
    id in c.runtime && !c.runtime[id].canLaunch
  }

  /** On either list of disabled apps, or left out of a list of enabled apps that is not empty. */
  predicate SwitchedOff(c: Context, id: string) {
    id in c.disabledByTenant || id in c.disabledByNode || (|c.enabled| > 0 && id !in c.enabled)
  }

  /** The node's override, or else the app's own shelf. */
  predicate OnShelf(c: Context, id: string, own: string, shelf: string) {
    (id in c.shelfOverrides ==> shelf == c.shelfOverrides[id]) && (id !in c.shelfOverrides ==> shelf == own)
  }

  // ---------- what an entry shows ----------

  /** The entry of a platform app. A restricted placement comes before a disabled app, and that
      before an offline one. It may be launched exactly when it is reviewed and approved, not
      restricted, not switched off, not offline and not refused. */
  ghost predicate OfPlatform(c: Context, p: Preferences, g: Global, e: Entry) {
    var restricted := g.approved.Some? && g.approved.value.visibility == "restricted";
    && e.scope == PlatformScope && e.toolId == g.toolId && e.review == g.review
    && e.name == (match g.name case Some(n) => n case None => g.toolId)
    && e.description == (match g.description case Some(d) => d case None => "")
    && OnShelf(c, g.toolId, if g.approved.Some? then g.approved.value.primaryShelf else "explore",
               e.placement.primaryShelf)
    && (g.approved.Some? ==>
          e.placement == g.approved.value.(primaryShelf := e.placement.primaryShelf))
    && (g.approved.None? ==>
          e.placement == Placement(e.placement.primaryShelf, [], [], [], "experimental", "discoverable"))
    && e.availability == (
         if restricted then Restricted
         else if SwitchedOff(c, g.toolId) then Disabled
         else if Unavailable(c, g.toolId) then Offline
         else Available)
    && (e.canLaunch <==>
          g.review == ApprovedReview && !restricted && !SwitchedOff(c, g.toolId) && !Unavailable(c, g.toolId)
          && !Refused(c, g.toolId))
    && (e.preferredByUser <==> p.preferredShelf == Some(e.placement.primaryShelf))
  }

  /** The entry of a node's own app: it may be launched exactly when it says so itself, the node
      has not disabled it, it is not offline and not refused. */
  ghost predicate OfNode(c: Context, p: Preferences, l: Local, e: Entry) {
    && e.scope == NodeScope && e.toolId == l.toolId && e.review == PendingReview && e.name == l.name
    && e.description == (match l.description case Some(d) => d case None => "")
    && OnShelf(c, l.toolId, if l.primaryShelf.Some? then l.primaryShelf.value else "explore", e.placement.primaryShelf)
    && e.placement == Placement(e.placement.primaryShelf, l.secondaryShelves, l.audiences, l.capabilities,
         match l.maturity case Some(m) => m case None => "experimental",
         match l.visibility case Some(v) => v case None => "discoverable")
    && e.availability == (
         if l.toolId in c.disabledByNode then Disabled
         else if Unavailable(c, l.toolId) then Offline
         else Available)
    && (e.canLaunch <==>
          l.canLaunch == Some(true) && l.toolId !in c.disabledByNode && !Unavailable(c, l.toolId)
          && !Refused(c, l.toolId))
    && (e.preferredByUser <==> p.preferredShelf == Some(e.placement.primaryShelf))
  }

  /** A node's app is listed under an id that no platform app and no earlier app of the node has. */
  ghost predicate IsNew(globals: seq<Global>, locals: seq<Local>, i: nat)
    requires i < |locals|
  {
    (forall g :: g in globals ==> g.toolId != locals[i].toolId)
    && forall j :: 0 <= j < i ==> locals[j].toolId != locals[i].toolId
  }

  // ---------- the catalog follows them ----------

  lemma PlatformEntryIs(c: Context, p: Preferences, g: Global)
    ensures OfPlatform(c, p, g, PlatformEntry(c, p, g))
  {
  }

  lemma LocalEntryIs(c: Context, p: Preferences, l: Local)
    ensures OfNode(c, p, l, LocalEntry(c, p, l))
  {
  }

  lemma NewIsFirst(c: Context, p: Preferences, globals: seq<Global>, i: nat)
    requires i < |c.localApps|
    ensures First(PlatformEntries(c, p, globals), c.localApps, i) <==> IsNew(globals, c.localApps, i)
  {
    hide LocalEntry;
    var entries := PlatformEntries(c, p, globals);
    forall k | 0 <= k < |globals| ensures entries[k].toolId == globals[k].toolId && globals[k] in globals {
    }
    if g :| g in globals && g.toolId == c.localApps[i].toolId {
      var k :| 0 <= k < |globals| && globals[k] == g;
      assert entries[k].toolId == c.localApps[i].toolId;
    }
  }

  lemma Listed(c: Context, p: Preferences, globals: seq<Global>, collate: Collation, e: Entry)
    ensures e in Effective(c, p, globals, collate) <==>
      e in PlatformEntries(c, p, globals)
      || exists i: nat :: i < |c.localApps| && IsNew(globals, c.localApps, i) && e == LocalEntry(c, p, c.localApps[i])
  {
    hide SortBy, WithLocals, LocalEntry, PlatformEntry, First, IsNew;
    SortMembers(Entries(c, p, globals), ByPreference(p, collate));
    assert e in Effective(c, p, globals, collate) <==> e in multiset(Effective(c, p, globals, collate));
    LocalsJoin(c, p, PlatformEntries(c, p, globals), c.localApps);
    assert e in Entries(c, p, globals) <==> Joins(c, p, PlatformEntries(c, p, globals), c.localApps, e);
    forall i: nat | i < |c.localApps|
      ensures First(PlatformEntries(c, p, globals), c.localApps, i) <==> IsNew(globals, c.localApps, i)
    {
      NewIsFirst(c, p, globals, i);
    }
  }

  /** Every entry of the resolved catalog is a platform app's or a new node app's, as the rules
      say. */
  lemma EntriesFollowRules(c: Context, p: Preferences, globals: seq<Global>, collate: Collation, e: Entry)
    requires e in Effective(c, p, globals, collate)
    ensures (exists g :: g in globals && OfPlatform(c, p, g, e))
      || exists i: nat :: i < |c.localApps| && IsNew(globals, c.localApps, i) && OfNode(c, p, c.localApps[i], e)
  {
    hide Effective, OfPlatform, OfNode, IsNew, PlatformEntry, LocalEntry;
    Listed(c, p, globals, collate, e);
    if e in PlatformEntries(c, p, globals) {
      var k :| 0 <= k < |globals| && PlatformEntries(c, p, globals)[k] == e;
      PlatformEntryIs(c, p, globals[k]);
      assert globals[k] in globals;
    } else {
      var i: nat :| i < |c.localApps| && IsNew(globals, c.localApps, i) && e == LocalEntry(c, p, c.localApps[i]);
      LocalEntryIs(c, p, c.localApps[i]);
    }
  }

  /** And every platform app, and every new app of the node, has its entry. */
  lemma AppsHaveEntries(c: Context, p: Preferences, globals: seq<Global>, collate: Collation)
    ensures forall g :: g in globals ==> exists e :: e in Effective(c, p, globals, collate) && OfPlatform(c, p, g, e)
    ensures forall i: nat :: i < |c.localApps| && IsNew(globals, c.localApps, i) ==>
      exists e :: e in Effective(c, p, globals, collate) && OfNode(c, p, c.localApps[i], e)
  {
    hide Effective, OfPlatform, OfNode, IsNew, PlatformEntry, LocalEntry;
    forall g | g in globals ensures exists e :: e in Effective(c, p, globals, collate) && OfPlatform(c, p, g, e) {
      var k :| 0 <= k < |globals| && globals[k] == g;
      var e := PlatformEntries(c, p, globals)[k];
      PlatformEntryIs(c, p, g);
      Listed(c, p, globals, collate, e);
    }
    forall i: nat | i < |c.localApps| && IsNew(globals, c.localApps, i)
      ensures exists e :: e in Effective(c, p, globals, collate) && OfNode(c, p, c.localApps[i], e)
    {
      LocalEntryIs(c, p, c.localApps[i]);
      Listed(c, p, globals, collate, LocalEntry(c, p, c.localApps[i]));
    }
  }

  // ---------- the order ----------

  /** `a` may stand before `b`: pinned apps first, in the order of the pins; then recent ones, in
      theirs; then the others; and what that leaves open goes by name and then by id. */
  ghost predicate MayPrecede(p: Preferences, collate: Collation, a: Entry, b: Entry) {
    if b.toolId in p.pinned then
      a.toolId in p.pinned && LastIndex(p.pinned, a.toolId) <= LastIndex(p.pinned, b.toolId)
      && (a.toolId == b.toolId ==> ByName(collate, a, b))
    else if a.toolId in p.pinned then true
    else if b.toolId in p.recent then
      a.toolId in p.recent && LastIndex(p.recent, a.toolId) <= LastIndex(p.recent, b.toolId)
      && (a.toolId == b.toolId ==> ByName(collate, a, b))
    else a.toolId in p.recent || ByName(collate, a, b)
  }

  ghost predicate ByName(collate: Collation, a: Entry, b: Entry) {
    collate(a.name, b.name) && (collate(b.name, a.name) ==> collate(a.toolId, b.toolId))
  }

  lemma OrderIs(c: Context, p: Preferences, globals: seq<Global>, collate: Collation)
    requires TotalPreorder(collate)
    ensures var s := Effective(c, p, globals, collate);
      forall i, j :: 0 <= i < j < |s| ==> MayPrecede(p, collate, s[i], s[j])
  {
    hide Effective, LastIndex, MayPrecede;
    EffectiveIsOrdered(c, p, globals, collate);
    var s := Effective(c, p, globals, collate);
    forall i, j | 0 <= i < j < |s| ensures MayPrecede(p, collate, s[i], s[j]) {
      assert ByPreference(p, collate)(s[i], s[j]);
      OrderedPrecede(p, collate, s[i], s[j]);
    }
  }

  lemma OrderedPrecede(p: Preferences, collate: Collation, a: Entry, b: Entry)
    requires TotalPreorder(collate) && ByPreference(p, collate)(a, b)
    ensures MayPrecede(p, collate, a, b)
  {
    hide LastIndex;
    NamesChain(collate, a.name, b.name, a.name);
  }
}
