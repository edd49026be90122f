/** Refresh and info over consistent Postgres tables: when a refresh fails as a whole, what resource
    overrides do to a release, and why the channel map has one entry per release. */
module ReadTheorems {
  import opened Core
  import opened Invariants
  import opened Repository
  import opened Access
  import opened Reads
  import Sql = Tables
  import C = Calls
  import Channels
  import Filenames
  import SessionTheorems

  // ---------- links ----------

  /** The stored row as a reader gets it: nothing changed, and a download with the link that leads back to it,
      its size and its hashes. */
  predicate Attached(api: string, p: Id, row: ResourceRevision, item: ResourceRevision) {
    && item.download.Some? && item == row.(download := item.download)
    && Filenames.ResourceLink(item.download.value.url, api, p, row.name, row.number)
    && item.download.value.size == row.size
    && item.download.value.sha256 == row.sha256 && item.download.value.sha384 == row.sha384
    && item.download.value.sha512 == row.sha512 && item.download.value.sha3384 == row.sha3384
  }

  lemma AttachIs(api: string, p: Id, row: ResourceRevision)
    ensures Attached(api, p, row, Attach(api, p, row))
  {
    hide Filenames.ResourceLink, Filenames.ResourceDownloadURL;
    Filenames.DownloadsLeadBack(api, p, row.name, row.number);
  }

  // ---------- overrides ----------

  /** Override `k` is the last one for `name` that gives a revision. */
  predicate LastFor(overrides: seq<ResourceRef>, name: string, k: int) {
    && 0 <= k < |overrides| && overrides[k].name == name && overrides[k].revision.Some?
    && forall j | k < j < |overrides| :: overrides[j].name == name ==> overrides[j].revision.None?
  }

  /** The lookup map holds, for each name, its last override, and nothing else. */
  lemma {:induction false} LookupIsLast(overrides: seq<ResourceRef>, name: string)
    ensures name in Lookup(overrides) <==> exists k :: LastFor(overrides, name, k)
    ensures forall k | LastFor(overrides, name, k) :: Lookup(overrides)[name] == overrides[k].revision.value
    decreases |overrides|
  {
    if overrides != [] {
      var last := |overrides| - 1;
      var init := overrides[..last];
      LookupIsLast(init, name);
      if overrides[last].name == name && overrides[last].revision.Some? {
        assert LastFor(overrides, name, last);
      } else {
        forall k ensures LastFor(overrides, name, k) <==> LastFor(init, name, k) {
          if LastFor(init, name, k) {
            assert forall j | k < j < |overrides| :: j == last || overrides[j] == init[j];
          }
          if LastFor(overrides, name, k) {
            assert forall j | k < j < |init| :: overrides[j] == init[j];
          }
        }
      }
    }
  }

  /** What a resolved list is made of: rows of definitions of this package, under their own name. */
  ghost predicate Belongs(t: Sql.Tables, p: Id, item: ResourceRevision) {
    (p, item.name) in t.defs
  }

  /** Item `i` after the overrides: the last override for its name, or the item itself. */
  ghost predicate Overridden(t: Sql.Tables, api: string, p: Id, overrides: seq<ResourceRef>, item: ResourceRevision,
                             out: ResourceRevision) {
    && out.name == item.name
    && ((forall k :: !LastFor(overrides, item.name, k)) ==> out == item)
    && (forall k | LastFor(overrides, item.name, k) ::
          && (p, item.name) in t.defs
          && Sql.GetResourceRevision(t, t.defs[(p, item.name)].id, overrides[k].revision.value).Some?
          && Attached(api, p, Sql.GetResourceRevision(t, t.defs[(p, item.name)].id,
                                                      overrides[k].revision.value).value, out))
  }

  lemma OverrideItemExact(t: Sql.Tables, api: string, p: Id, overrides: seq<ResourceRef>, item: ResourceRevision)
    requires Consistent(t) && Belongs(t, p, item)
    ensures var res := OverrideItem(Postgres(t), api, p, item, Lookup(overrides));
      && (res.Ok? ==> Overridden(t, api, p, overrides, item, res.value))
      && (res.Err? <==> OverrideBroken(t, p, overrides, item.name))
      && (res.Err? ==> res.error == NotFound)
  {
    hide Attached, Attach;
    LookupIsLast(overrides, item.name);
    var d := t.defs[(p, item.name)].id;
    forall n | (d, n) in t.resourceRevs
      ensures t.resourceRevs[(d, n)].name == item.name
      ensures Attach(api, p, t.resourceRevs[(d, n)]).name == item.name
      ensures Attached(api, p, t.resourceRevs[(d, n)], Attach(api, p, t.resourceRevs[(d, n)]))
    {
      AttachIs(api, p, t.resourceRevs[(d, n)]);
      AttachedName(api, p, t.resourceRevs[(d, n)], Attach(api, p, t.resourceRevs[(d, n)]));
    }
  }

  lemma AttachedName(api: string, p: Id, row: ResourceRevision, item: ResourceRevision)
    requires Attached(api, p, row, item)
    ensures item.name == row.name
  {}

  /** The override that applies to `name` points at no stored revision. */
  ghost predicate OverrideBroken(t: Sql.Tables, p: Id, overrides: seq<ResourceRef>, name: string) {
    exists k :: LastFor(overrides, name, k)
                && ((p, name) !in t.defs
                    || Sql.GetResourceRevision(t, t.defs[(p, name)].id, overrides[k].revision.value).None?)
  }

  lemma {:induction false} OverrideEachExact(t: Sql.Tables, api: string, p: Id, overrides: seq<ResourceRef>,
                                             items: seq<ResourceRevision>)
    requires Consistent(t) && forall i | 0 <= i < |items| :: Belongs(t, p, items[i])
    ensures var res := OverrideEach(Postgres(t), api, p, items, Lookup(overrides));
      && (res.Ok? ==>
            && |res.value| == |items|
            && forall i | 0 <= i < |items| :: Overridden(t, api, p, overrides, items[i], res.value[i]))
      && (res.Err? <==> exists i :: 0 <= i < |items| && OverrideBroken(t, p, overrides, items[i].name))
      && (res.Err? ==> res.error == NotFound)
    decreases |items|
  {
    hide Consistent, Overridden, OverrideBroken, OverrideItem;
    if items != [] {
      OverrideItemExact(t, api, p, overrides, items[0]);
      OverrideEachExact(t, api, p, overrides, items[1..]);
      assert forall i | 0 < i < |items| :: items[i] == items[1..][i - 1];
      assert forall i | 0 <= i < |items| - 1 :: items[1..][i] == items[i + 1];
      if OverrideItem(Postgres(t), api, p, items[0], Lookup(overrides)).Err? {
        assert OverrideBroken(t, p, overrides, items[0].name);
      }
    }
  }

  /** Overrides keep the length and the name at every index; each item is the last non-nil override
      for its name, or else what the release had there. */
  lemma OverridesExact(t: Sql.Tables, api: string, p: Id, overrides: seq<ResourceRef>, items: seq<ResourceRevision>)
    requires Consistent(t) && forall i | 0 <= i < |items| :: Belongs(t, p, items[i])
    ensures var res := ApplyOverrides(Postgres(t), api, p, items, overrides);
      && (res.Ok? ==>
            && |res.value| == |items|
            && forall i | 0 <= i < |items| :: Overridden(t, api, p, overrides, items[i], res.value[i]))
      && (res.Err? <==> exists i :: 0 <= i < |items| && OverrideBroken(t, p, overrides, items[i].name))
      && (res.Err? ==> res.error == NotFound)
  {
    OverrideEachExact(t, api, p, overrides, items);
    assert overrides == [] ==> forall i | 0 <= i < |items| :: Overridden(t, api, p, overrides, items[i], items[i]);
  }

  // ---------- the resources of a release ----------

  /** The reference names no definition, or a revision that is not stored. */
  ghost predicate RefBroken(t: Sql.Tables, p: Id, ref: ResourceRef) {
    || (p, ref.name) !in t.defs
    || (ref.revision.Some? && Sql.GetResourceRevision(t, t.defs[(p, ref.name)].id, ref.revision.value).None?)
  }

  /** The references that give a revision, in their order. */
  function Given(refs: seq<ResourceRef>): seq<ResourceRef>
    decreases |refs|
  {
    if refs == [] then []
    else (if refs[0].revision.Some? then [refs[0]] else []) + Given(refs[1..])
  }

  /** `item` is the stored row that the reference names, with its download attached. */
  ghost predicate Resolves(t: Sql.Tables, api: string, p: Id, ref: ResourceRef, item: ResourceRevision) {
    && ref.revision.Some? && (p, ref.name) in t.defs
    && var k := (t.defs[(p, ref.name)].id, ref.revision.value);
       k in t.resourceRevs && Attached(api, p, t.resourceRevs[k], item)
  }

  lemma ResolvesName(t: Sql.Tables, api: string, p: Id, ref: ResourceRef, item: ResourceRevision)
    requires Consistent(t) && Resolves(t, api, p, ref, item)
    ensures item.name == ref.name && Belongs(t, p, item)
  {
    hide Attached;
    AttachedName(api, p, t.resourceRevs[(t.defs[(p, ref.name)].id, ref.revision.value)], item);
  }

  /** Resolving the resources of a release fails exactly when some reference is broken; otherwise it
      gives, in order, the row that each reference with a revision names, and nothing else. */
  lemma {:induction false} ResolveResourcesExact(t: Sql.Tables, api: string, p: Id, refs: seq<ResourceRef>)
    ensures var res := ResolveResources(Postgres(t), api, p, refs);
      && (res.Err? <==> exists i :: 0 <= i < |refs| && RefBroken(t, p, refs[i]))
      && (res.Err? ==> res.error == NotFound)
      && (res.Ok? ==>
            && |res.value| == |Given(refs)|
            && forall i | 0 <= i < |res.value| :: Resolves(t, api, p, Given(refs)[i], res.value[i]))
    decreases |refs|
  {
    hide RefBroken, ResolveRef, Resolves;
    if refs != [] {
      ResolveRefExact(t, api, p, refs[0]);
      ResolveResourcesExact(t, api, p, refs[1..]);
      assert forall i | 0 < i < |refs| :: refs[i] == refs[1..][i - 1];
      assert forall i | 0 <= i < |refs| - 1 :: refs[1..][i] == refs[i + 1];
    }
  }

  lemma ResolveRefExact(t: Sql.Tables, api: string, p: Id, ref: ResourceRef)
    ensures var res := ResolveRef(Postgres(t), api, p, ref);
      && (res.Err? <==> RefBroken(t, p, ref))
      && (res.Err? ==> res.error == NotFound)
      && (res.Ok? && ref.revision.None? ==> res.value == [])
      && (res.Ok? && ref.revision.Some? ==> |res.value| == 1 && Resolves(t, api, p, ref, res.value[0]))
  {
    hide Attached, Attach;
    if ref.revision.Some? && (p, ref.name) in t.defs {
      var k := (t.defs[(p, ref.name)].id, ref.revision.value);
      if k in t.resourceRevs {
        AttachIs(api, p, t.resourceRevs[k]);
      }
    }
  }

  // ---------- the resources of a refreshed revision ----------

  /** What refresh gives for one reference of the selected release: the row that the last override for
      its name points at, or else the released row. */
  ghost predicate Chosen(t: Sql.Tables, api: string, p: Id, overrides: seq<ResourceRef>, ref: ResourceRef,
                         item: ResourceRevision) {
    && item.name == ref.name
    && (forall k | LastFor(overrides, ref.name, k) :: Resolves(t, api, p, overrides[k], item))
    && ((forall k :: !LastFor(overrides, ref.name, k)) ==> Resolves(t, api, p, ref, item))
  }

  lemma OverriddenIsChosen(t: Sql.Tables, api: string, p: Id, overrides: seq<ResourceRef>, ref: ResourceRef,
                           released: ResourceRevision, item: ResourceRevision)
    requires Consistent(t) && Resolves(t, api, p, ref, released) && Overridden(t, api, p, overrides, released, item)
    ensures Chosen(t, api, p, overrides, ref, item)
  {
    ResolvesName(t, api, p, ref, released);
    hide Consistent;
  }

  /** A reference of the release, or the override that applies to one of its resources, is broken. */
  ghost predicate Broken(t: Sql.Tables, p: Id, refs: seq<ResourceRef>, overrides: seq<ResourceRef>) {
    || (exists i :: 0 <= i < |refs| && RefBroken(t, p, refs[i]))
    || (exists i :: 0 <= i < |Given(refs)| && OverrideBroken(t, p, overrides, Given(refs)[i].name))
  }

  /** The selected release and revision with the resources that the references and the overrides
      choose, one per reference that gives a revision, in order; or an error exactly when one of them
      is broken. */
  lemma SelectionExact(w: World, t: Sql.Tables, api: string, p: Id, a: Action)
    requires Consistent(t) && ResolveReleaseAndRevision(w, Postgres(t), p, a).Ok?
    ensures var s := ResolveReleaseAndRevision(w, Postgres(t), p, a).value;
      var given := Given(s.release.resources);
      var res := ResolveSelection(w, Postgres(t), api, p, a);
      && (res.Err? <==> Broken(t, p, s.release.resources, a.overrides))
      && (res.Err? ==> res.error == NotFound)
      && (res.Ok? ==>
            var resources := res.value.revision.resources;
            && res.value == s.(revision := s.revision.(resources := resources))
            && |resources| == |given|
            && forall i | 0 <= i < |given| :: Chosen(t, api, p, a.overrides, given[i], resources[i]))
  {
    hide Consistent, Resolves, RefBroken, OverrideBroken, Overridden, Chosen, ResolveReleaseAndRevision, Given;
    var refs := ResolveReleaseAndRevision(w, Postgres(t), p, a).value.release.resources;
    ResolveResourcesExact(t, api, p, refs);
    var items := ResolveResources(Postgres(t), api, p, refs);
    if items.Ok? {
      forall i | 0 <= i < |items.value|
        ensures Belongs(t, p, items.value[i]) && items.value[i].name == Given(refs)[i].name
      {
        ResolvesName(t, api, p, Given(refs)[i], items.value[i]);
      }
      OverridesExact(t, api, p, a.overrides, items.value);
      var res := ApplyOverrides(Postgres(t), api, p, items.value, a.overrides);
      if res.Ok? {
        forall i | 0 <= i < |items.value| ensures Chosen(t, api, p, a.overrides, Given(refs)[i], res.value[i]) {
          OverriddenIsChosen(t, api, p, a.overrides, Given(refs)[i], items.value[i], res.value[i]);
        }
      }
    }
  }

  // ---------- when a refresh fails as a whole ----------

  /** The action finds a package that the caller may see and selects a release of it. */
  predicate Selects(w: World, r: Repository, who: Identity, a: Action) {
    && ResolvePackage(r, a).Ok?
    && RequirePackageView(r, who, ResolvePackage(r, a).value, false).Pass?
    && ResolveReleaseAndRevision(w, r, ResolvePackage(r, a).value.id, a).Ok?
  }

  /** The selected release holds a resource reference that cannot be resolved, or an override that
      applies to one of its resources cannot. */
  ghost predicate BrokenResources(w: World, t: Sql.Tables, who: Identity, a: Action) {
    && Selects(w, Postgres(t), who, a)
    && var p := ResolvePackage(Postgres(t), a).value.id;
       Broken(t, p, ResolveReleaseAndRevision(w, Postgres(t), p, a).value.release.resources, a.overrides)
  }

  lemma ResolvedIsStored(t: Sql.Tables, a: Action)
    requires Consistent(t) && ResolvePackage(Postgres(t), a).Ok?
    ensures ResolvePackage(Postgres(t), a).value.id in t.packages
  {}

  lemma ReleasesStored(t: Sql.Tables)
    requires Consistent(t)
    ensures forall p, c | (p, c) in t.releases :: (p, t.releases[(p, c)].revision) in t.revisions
  {}

  lemma DefaultRevision(w: World, t: Sql.Tables, p: Id)
    requires Sound(w) && Consistent(t)
    ensures var release := Sql.ResolveDefaultRelease(w, t, p);
      release.Some? ==> Sql.GetRevisionByNumber(t, p, release.value.revision).Some?
  {
    hide Consistent;
    var release := Sql.ResolveDefaultRelease(w, t, p);
    if release.Some? {
      assert Sql.ListReleases(t, p) != {} ==> w.newest(Sql.ListReleases(t, p)) in Sql.ListReleases(t, p);
      assert release.value in Sql.ListReleases(t, p);
      var k :| k in t.releases && k.0 == p && t.releases[k] == release.value;
      SessionTheorems.DefaultFound(w, t, p, k.1);
    }
  }

  /** In consistent tables neither the visibility guard nor the selection can fail with anything
      but a service error. */
  lemma OnlyServiceErrors(w: World, t: Sql.Tables, who: Identity, a: Action)
    requires Sound(w) && Consistent(t)
    ensures ResolvePackage(Postgres(t), a).Err? ==> ResolvePackage(Postgres(t), a).error.Api?
    ensures ResolvePackage(Postgres(t), a).Ok? ==>
              var pkg := ResolvePackage(Postgres(t), a).value;
              var seen := RequirePackageView(Postgres(t), who, pkg, false);
              var selected := ResolveReleaseAndRevision(w, Postgres(t), pkg.id, a);
              pkg.id in t.packages && (seen.Fail? ==> seen.error.Api?) && (selected.Err? ==> selected.error.Api?)
  {
    hide Consistent, Sound;
    if ResolvePackage(Postgres(t), a).Ok? {
      ResolvedIsStored(t, a);
      ReleasesStored(t);
      DefaultRevision(w, t, ResolvePackage(Postgres(t), a).value.id);
    }
  }

  /** One action alone ends in an infrastructure error exactly when its resources are broken. */
  lemma ActionFailsExactly(w: World, t: Sql.Tables, api: string, who: Identity, a: Action)
    requires Sound(w) && Consistent(t)
    ensures ResolveAction(w, Postgres(t), api, who, a).Err? <==> BrokenResources(w, t, who, a)
    ensures ResolveAction(w, Postgres(t), api, who, a).Err?
      ==> ResolveAction(w, Postgres(t), api, who, a).error == NotFound
  {
    hide Consistent, Sound, Broken, Chosen, ResolveReleaseAndRevision, RequirePackageView, ResolvePackage,
         ResolveResources, ApplyOverrides, Given;
    OnlyServiceErrors(w, t, who, a);
    if Selects(w, Postgres(t), who, a) {
      SelectionExact(w, t, api, ResolvePackage(Postgres(t), a).value.id, a);
    }
  }

  /** One result per action, in order, each what resolving that action alone gives; and the call
      fails exactly when resolving some action alone does. */
  lemma {:induction false} RefreshInOrder(w: World, r: Repository, api: string, who: Identity, actions: seq<Action>)
    ensures var res := Refresh(w, r, api, who, actions);
      && (res.Ok? ==>
            && |res.value| == |actions|
            && forall i | 0 <= i < |actions| :: ResolveAction(w, r, api, who, actions[i]) == Ok(res.value[i]))
      && (res.Err? <==> exists i :: 0 <= i < |actions| && ResolveAction(w, r, api, who, actions[i]).Err?)
    decreases |actions|
  {
    hide ResolveAction;
    if actions != [] {
      RefreshInOrder(w, r, api, who, actions[1..]);
      assert forall i | 0 < i < |actions| :: actions[i] == actions[1..][i - 1];
      assert forall i | 0 <= i < |actions| - 1 :: actions[1..][i] == actions[i + 1];
    }
  }

  /** Over consistent tables: a top-level error exactly when some visible, selected action meets a
      broken reference in its release or in an override that applies. */
  lemma RefreshFailsExactly(w: World, t: Sql.Tables, api: string, who: Identity, actions: seq<Action>)
    requires Sound(w) && Consistent(t)
    ensures Refresh(w, Postgres(t), api, who, actions).Err?
            <==> exists i :: 0 <= i < |actions| && BrokenResources(w, t, who, actions[i])
  {
    hide ResolveAction, BrokenResources, Consistent, Sound;
    RefreshInOrder(w, Postgres(t), api, who, actions);
    forall i | 0 <= i < |actions|
      ensures ResolveAction(w, Postgres(t), api, who, actions[i]).Err? <==> BrokenResources(w, t, who, actions[i])
    {
      ActionFailsExactly(w, t, api, who, actions[i]);
    }
  }

  // ---------- info ----------

  /** An entry of the channel map says this about its release and its revision, whose link leads back to it. */
  predicate EntryShows(api: string, p: Id, release: Release, rev: Revision, entry: ChannelEntry) {
    && entry.name == release.channel && entry.base == release.base && entry.releasedAt == release.when
    && Channels.PartsOf(release.channel, entry.parts)
    && entry.revision.number == rev.number && entry.revision.version == rev.version
    && entry.revision.metadata == rev.metadata && entry.revision.createdAt == rev.createdAt
    && entry.revision.size == rev.size && entry.revision.sha256 == rev.sha256
    && Filenames.CharmLink(entry.revision.url, api, p, rev.number)
  }

  lemma EntryIs(api: string, p: Id, release: Release, rev: Revision)
    ensures EntryShows(api, p, release, rev, Entry(api, p, release, rev))
  {
    hide Filenames.CharmLink, Filenames.CharmDownloadURL, Channels.PartsOf, Channels.SplitChannel;
    Channels.SplitDecided(release.channel);
    Filenames.DownloadsLeadBack(api, p, "", rev.number);
  }

  /** One entry per release, in order, as long as every revision is stored. */
  lemma {:induction false} EntryPerRelease(t: Sql.Tables, api: string, p: Id, releases: seq<Release>)
    requires forall i | 0 <= i < |releases| :: (p, releases[i].revision) in t.revisions
    ensures var entries := FreshChannelMap(Postgres(t), api, p, releases);
      && |entries| == |releases|
      && forall i | 0 <= i < |releases| ::
           EntryShows(api, p, releases[i], t.revisions[(p, releases[i].revision)], entries[i])
    decreases |releases|
  {
    hide Entry, EntryShows;
    if releases != [] {
      EntryIs(api, p, releases[0], t.revisions[(p, releases[0].revision)]);
      var rest := releases[1..];
      assert forall i | 0 <= i < |rest| :: rest[i] == releases[i + 1];
      EntryPerRelease(t, api, p, rest);
    }
  }

  /** Every listed release of a consistent package gets its entry, in order. */
  lemma ChannelMapComplete(t: Sql.Tables, api: string, p: Id, releases: seq<Release>)
    requires Consistent(t) && forall i | 0 <= i < |releases| :: releases[i] in Sql.ListReleases(t, p)
    ensures var entries := FreshChannelMap(Postgres(t), api, p, releases);
      && |entries| == |releases|
      && forall i | 0 <= i < |releases| ::
           && (p, releases[i].revision) in t.revisions
           && EntryShows(api, p, releases[i], t.revisions[(p, releases[i].revision)], entries[i])
  {
    hide Consistent, FreshChannelMap, EntryShows;
    SessionTheorems.ListedDangleNot(t, p);
    hide Sql.ListReleases;
    EntryPerRelease(t, api, p, releases);
  }

  /** When info answers, its channel map has exactly one entry for each channel with a release, made
      of that release and of the stored revision it names. */
  lemma InfoListsEveryRelease(w: World, t: Sql.Tables, api: string, who: Identity, name: string)
    requires Consistent(t) && Orderly(w) && Info(w, Postgres(t), api, who, name).Ok?
    ensures var info := Info(w, Postgres(t), api, who, name).value;
      var p, entries := info.package.id, info.channelMap;
      && (forall c | (p, c) in t.releases :: exists i :: 0 <= i < |entries| && entries[i].name == c)
      && (forall i, j | 0 <= i < j < |entries| :: entries[i].name != entries[j].name)
      && (forall i | 0 <= i < |entries| ::
            && (p, entries[i].name) in t.releases
            && (p, t.releases[(p, entries[i].name)].revision) in t.revisions
            && EntryShows(api, p, t.releases[(p, entries[i].name)],
                          t.revisions[(p, t.releases[(p, entries[i].name)].revision)], entries[i]))
  {
    var p := Info(w, Postgres(t), api, who, name).value.package.id;
    EntriesOfListing(w, t, api, p);
  }

  lemma ListedRelease(t: Sql.Tables, p: Id, r: Release)
    requires Consistent(t)
    ensures r in Sql.ListReleases(t, p) <==> (p, r.channel) in t.releases && t.releases[(p, r.channel)] == r
  {
    if r in Sql.ListReleases(t, p) {
      var k :| k in t.releases && k.0 == p && t.releases[k] == r;
      assert k == (p, r.channel);
    }
  }

  lemma EntriesOfListing(w: World, t: Sql.Tables, api: string, p: Id)
    requires Consistent(t) && Orderly(w)
    ensures var entries := FreshChannelMap(Postgres(t), api, p, w.listing(Sql.ListReleases(t, p)));
      && (forall c | (p, c) in t.releases :: exists i :: 0 <= i < |entries| && entries[i].name == c)
      && (forall i, j | 0 <= i < j < |entries| :: entries[i].name != entries[j].name)
      && (forall i | 0 <= i < |entries| ::
            && (p, entries[i].name) in t.releases
            && (p, t.releases[(p, entries[i].name)].revision) in t.revisions
            && EntryShows(api, p, t.releases[(p, entries[i].name)],
                          t.revisions[(p, t.releases[(p, entries[i].name)].revision)], entries[i]))
  {
    hide Consistent, FreshChannelMap, Sql.ListReleases, Filenames.CharmLink, Channels.PartsOf;
    var releases := w.listing(Sql.ListReleases(t, p));
    assert Lists(releases, Sql.ListReleases(t, p));
    ChannelMapComplete(t, api, p, releases);
    var entries := FreshChannelMap(Postgres(t), api, p, releases);
    forall i | 0 <= i < |releases|
      ensures (p, releases[i].channel) in t.releases && t.releases[(p, releases[i].channel)] == releases[i]
      ensures entries[i].name == releases[i].channel
    {
      ListedRelease(t, p, releases[i]);
    }
    forall c | (p, c) in t.releases ensures exists i :: 0 <= i < |entries| && entries[i].name == c {
      KeyIsChannel(t, p, c);
      ListedRelease(t, p, t.releases[(p, c)]);
      var i :| 0 <= i < |releases| && releases[i] == t.releases[(p, c)];
      assert entries[i].name == c;
    }
  }

  lemma KeyIsChannel(t: Sql.Tables, p: Id, c: string)
    requires Consistent(t) && (p, c) in t.releases
    ensures t.releases[(p, c)].channel == c
  {}
}
