/** The whole answer of info over consistent tables: its default release, its resources and its channel map. */
module InfoTheorems {
  import opened Core
  import opened Invariants
  import opened Repository
  import opened Access
  import opened AccessTheorems
  import opened ReadTheorems
  import opened RefreshTheorems
  import Channels
  import C = Calls
  import Filenames
  import R = Reads
  import SessionTheorems
  import Sql = Tables

  /** The answer about a package that is shown: the package with its tracks; the default release and its
      revision; the rows that the references of that release name, in order; and one entry per channel
      with a release, each with its own release and revision. */
  ghost predicate Tells(w: World, t: Sql.Tables, api: string, pkg: Package, release: Release, info: R.PackageInfo) {
    && info.package == pkg.(tracks := w.byCreation(Sql.ListTracks(t, pkg.id)))
    && (pkg.id, release.revision) in t.revisions
    && EntryShows(api, pkg.id, release, t.revisions[(pkg.id, release.revision)], info.default)
    && |info.resources| == |Given(release.resources)|
    && (forall i | 0 <= i < |info.resources| ::
          Resolves(t, api, pkg.id, Given(release.resources)[i], info.resources[i]))
    && MapsChannels(t, api, pkg.id, info.channelMap)
  }

  ghost predicate MapsChannels(t: Sql.Tables, api: string, p: Id, entries: seq<R.ChannelEntry>) {
    && (forall c | (p, c) in t.releases :: exists i :: 0 <= i < |entries| && entries[i].name == c)
    && (forall i, j | 0 <= i < j < |entries| :: entries[i].name != entries[j].name)
    && (forall i | 0 <= i < |entries| ::
          && (p, entries[i].name) in t.releases
          && var release := t.releases[(p, entries[i].name)];
             (p, release.revision) in t.revisions
             && EntryShows(api, p, release, t.revisions[(p, release.revision)], entries[i]))
  }

  /** Info answers a caller who is shown the package exactly when it has a release and no reference of its
      default release is broken. */
  lemma InfoDecided(w: World, t: Sql.Tables, api: string, who: Identity, pkg: Package)
    requires Sound(w) && Orderly(w) && Consistent(t)
    requires Known(Postgres(t), pkg) && ViewRefusal(Postgres(t), who, pkg) == None
    ensures var res := R.Info(w, Postgres(t), api, who, pkg.name);
      if !HasReleases(Postgres(t), pkg.id) then
        res == Err(Api(404, "not-found", "no released revisions found"))
      else
        exists release :: IsDefault(Postgres(t), pkg.id, release)
          && (res.Err? <==> exists i :: 0 <= i < |release.resources| && RefBroken(t, pkg.id, release.resources[i]))
          && (res.Err? ==> res.error == NotFound)
          && (res.Ok? ==> Tells(w, t, api, pkg, release, res.value))
  {
    hide Consistent, RequirePackageView, ViewRefusal, Sql.GetPackageByName, Sql.ResolveDefaultRelease, HasReleases,
         IsDefault, EntryShows, MapsChannels, R.ResolveResources, R.FreshChannelMap, R.Entry, RefBroken, Resolves,
         Given;
    ViewDecided(Postgres(t), who, pkg);
    DefaultDecided(w, Postgres(t), pkg.id);
    if HasReleases(Postgres(t), pkg.id) {
      var release := Sql.ResolveDefaultRelease(w, t, pkg.id).value;
      DefaultStored(w, t, pkg.id);
      var rev := t.revisions[(pkg.id, release.revision)];
      EntryIs(api, pkg.id, release, rev);
      ResolveResourcesExact(t, api, pkg.id, release.resources);
      ChannelsMapped(w, t, api, pkg.id);
      assert IsDefault(Postgres(t), pkg.id, release);
    }
  }

  lemma DefaultStored(w: World, t: Sql.Tables, p: Id)
    requires Sound(w) && Consistent(t) && HasReleases(Postgres(t), p)
    ensures Sql.ResolveDefaultRelease(w, t, p).Some?
    ensures (p, Sql.ResolveDefaultRelease(w, t, p).value.revision) in t.revisions
  {
    hide Consistent, Sound, Sql.ResolveDefaultRelease;
    var k :| k in t.releases && k.0 == p;
    assert k == (p, k.1);
    SessionTheorems.DefaultFound(w, t, p, k.1);
  }

  lemma ChannelsMapped(w: World, t: Sql.Tables, api: string, p: Id)
    requires Consistent(t) && Orderly(w)
    ensures MapsChannels(t, api, p, R.FreshChannelMap(Postgres(t), api, p, w.listing(Sql.ListReleases(t, p))))
  {
    hide Consistent, Orderly, EntryShows, R.FreshChannelMap;
    EntriesOfListing(w, t, api, p);
  }
}
