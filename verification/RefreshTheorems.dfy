/** What a refresh action selects and the entry that it gets back; and release, then refresh, end to end. */
module RefreshTheorems {
  import opened Core
  import opened Invariants
  import opened Repository
  import opened Access
  import opened ReadTheorems
  import opened ReleaseTheorems
  import Sequential
  import Sql = Tables
  import C = Calls
  import Filenames
  import Mem = MemoryModel
  import R = Reads

  // ---------- what an action selects ----------

  /** The channel an action asks for, in full; "" when it asks for none. */
  function AskedChannel(a: R.Action): string {
    if a.channel.None? || a.channel.value == "" then ""
    else if '/' in a.channel.value then a.channel.value
    else "latest/" + a.channel.value
  }

  predicate Pins(a: R.Action, n: int) {
    n > 0 && a.revision == Some(n)
  }

  predicate PinsNothing(a: R.Action) {
    a.revision.Some? ==> a.revision.value <= 0
  }

  /** A pinned revision is selected whatever the channel: exactly when it is stored, with no resources and the
      time of its creation, on the channel that was asked for. */
  lemma PinnedSelection(w: World, r: Repository, p: Id, a: R.Action, n: int)
    requires Pins(a, n)
    ensures var res := R.ResolveReleaseAndRevision(w, r, p, a);
      match GetRevisionByNumber(r, p, n)
      case None => res == Err(Api(404, "not-found", "revision not found"))
      case Some(row) =>
        && res.Ok?
        && res.value.revision == row && res.value.channel == AskedChannel(a) && res.value.redirect == AskedChannel(a)
        && res.value.release.resources == [] && res.value.release.when == row.createdAt
        && res.value.release.revision == row.number && res.value.release.channel == AskedChannel(a)
  {}

  /** Without a revision, a channel selects the release on it. */
  lemma ChannelSelection(w: World, r: Repository, p: Id, a: R.Action)
    requires PinsNothing(a) && AskedChannel(a) != ""
    ensures var res := R.ResolveReleaseAndRevision(w, r, p, a);
      match ResolveRelease(r, p, AskedChannel(a))
      case None => res == Err(Api(404, "not-found", "release not found"))
      case Some(release) =>
        match GetRevisionByNumber(r, p, release.revision)
        case None => res == Err(NotFound)
        case Some(row) =>
          && res.Ok? && res.value.release == release && res.value.revision == row
          && res.value.channel == AskedChannel(a) && res.value.redirect == AskedChannel(a)
  {}

  /** The default release of a package. In the tables: what is on the stable channel of its default track, or
      of "latest" when it has none; else a newest release. In Memory: what is on "latest/stable"; else any. */
  ghost predicate IsDefault(r: Repository, p: Id, release: Release) {
    match r
    case InMemory(m) =>
      && p in m.releases && release in m.releases[p].Values
      && ("latest/stable" in m.releases[p] ==> release == m.releases[p]["latest/stable"])
    case Postgres(t) =>
      && (exists c :: (p, c) in t.releases && t.releases[(p, c)] == release)
      && (p in t.packages ==>
            var pkg := t.packages[p];
            var stable := if pkg.defaultTrack.Some? then pkg.defaultTrack.value + "/stable" else "latest/stable";
            if (p, stable) in t.releases then release == t.releases[(p, stable)]
            else forall c | (p, c) in t.releases :: t.releases[(p, c)].when <= release.when)
  }

  predicate HasReleases(r: Repository, p: Id) {
    match r
    case InMemory(m) => p in m.releases && m.releases[p] != map[]
    case Postgres(t) => exists k | k in t.releases :: k.0 == p
  }

  lemma DefaultDecided(w: World, r: Repository, p: Id)
    requires Sound(w)
    ensures ResolveDefaultRelease(w, r, p).Some? <==> HasReleases(r, p)
    ensures HasReleases(r, p) ==> IsDefault(r, p, ResolveDefaultRelease(w, r, p).value)
  {
    match r {
      case InMemory(m) => MemoryDefault(w, m, p);
      case Postgres(t) => TablesDefault(w, t, p);
    }
  }

  lemma MemoryDefault(w: World, m: Mem.Mem, p: Id)
    requires Sound(w)
    ensures Mem.ResolveDefaultRelease(w, m, p).Some? <==> HasReleases(InMemory(m), p)
    ensures HasReleases(InMemory(m), p) ==> IsDefault(InMemory(m), p, Mem.ResolveDefaultRelease(w, m, p).value)
  {
    if HasReleases(InMemory(m), p) {
      var c :| c in m.releases[p];
      assert m.releases[p][c] in m.releases[p].Values;
    }
  }

  lemma TablesDefault(w: World, t: Sql.Tables, p: Id)
    requires Sound(w)
    ensures Sql.ResolveDefaultRelease(w, t, p).Some? <==> HasReleases(Postgres(t), p)
    ensures HasReleases(Postgres(t), p) ==> IsDefault(Postgres(t), p, Sql.ResolveDefaultRelease(w, t, p).value)
  {
    var rows := Sql.ListReleases(t, p);
    forall c | (p, c) in t.releases ensures t.releases[(p, c)] in rows {
      assert (p, c).0 == p;
    }
    if rows != {} {
      assert w.newest(rows) in rows;
      forall release | release in rows ensures exists c :: (p, c) in t.releases && t.releases[(p, c)] == release {
        var k :| k in t.releases && k.0 == p && t.releases[k] == release;
        assert k == (p, k.1);
      }
    }
    if HasReleases(Postgres(t), p) {
      var k :| k in t.releases && k.0 == p;
      assert t.releases[k] in rows;
    }
  }

  /** With neither, the default release is selected, on its own channel. */
  lemma DefaultSelection(w: World, r: Repository, p: Id, a: R.Action)
    requires Sound(w) && PinsNothing(a) && AskedChannel(a) == ""
    ensures var res := R.ResolveReleaseAndRevision(w, r, p, a);
      if !HasReleases(r, p) then res == Err(Api(404, "not-found", "release not found"))
      else
        exists release :: IsDefault(r, p, release)
          && match GetRevisionByNumber(r, p, release.revision)
             case None => res == Err(NotFound)
             case Some(row) =>
               && res.Ok? && res.value.release == release && res.value.revision == row
               && res.value.channel == release.channel && res.value.redirect == release.channel
  {
    hide ResolveDefaultRelease, HasReleases, IsDefault, GetRevisionByNumber, ResolveRelease;
    DefaultDecided(w, r, p);
    if HasReleases(r, p) {
      var release := ResolveDefaultRelease(w, r, p).value;
      assert IsDefault(r, p, release);
    }
  }

  // ---------- the entry of an action ----------

  /** The entry of a resolved action: the package, the selected revision and the link that leads back to it. */
  predicate Shows(api: string, pkg: Package, a: R.Action, revision: Revision, channel: string, when: Time,
                  item: R.Item) {
    && item.Resolved? && item.instanceKey == a.instanceKey && item.action == a.action
    && item.packageId == pkg.id && item.name == pkg.name && item.revision == revision
    && Filenames.CharmLink(item.url, api, pkg.id, revision.number)
    && item.effectiveChannel == channel && item.redirect == (if channel == "" then None else Some(channel))
    && item.releasedAt == when
  }

  lemma ResolvedShows(api: string, pkg: Package, a: R.Action, s: R.Selection)
    requires s.redirect == s.channel
    ensures Shows(api, pkg, a, s.revision, s.channel, s.release.when, R.ResolvedItem(api, pkg, a, s))
  {
    hide Filenames.CharmLink, Filenames.CharmDownloadURL;
    Filenames.DownloadsLeadBack(api, pkg.id, "", s.revision.number);
  }

  /** An action that pins a revision, end to end: whoever sees the package gets that very revision without
      resources, its creation time as release time and the channel that was asked for, or an entry that
      says it is not there; the overrides do not matter. */
  lemma PinnedEntry(w: World, r: Repository, api: string, who: Identity, a: R.Action, n: int)
    requires Pins(a, n) && R.ResolvePackage(r, a).Ok?
    requires RequirePackageView(r, who, R.ResolvePackage(r, a).value, false).Pass?
    ensures var pkg := R.ResolvePackage(r, a).value;
      var res := R.ResolveAction(w, r, api, who, a);
      match GetRevisionByNumber(r, pkg.id, n)
      case None => res == Ok(R.Refused(a.instanceKey, "not-found", "revision not found"))
      case Some(row) => res.Ok? && Shows(api, pkg, a, row.(resources := []), AskedChannel(a), row.createdAt, res.value)
  {
    hide R.ResolvePackage, RequirePackageView, GetRevisionByNumber, Shows, R.ResolveReleaseAndRevision,
         R.ResolvedItem, AskedChannel;
    var pkg := R.ResolvePackage(r, a).value;
    PinnedSelection(w, r, pkg.id, a, n);
    NothingToOverride(r, api, pkg.id, a);
    var res := R.ResolveReleaseAndRevision(w, r, pkg.id, a);
    if res.Ok? {
      ResolvedShows(api, pkg, a, res.value.(revision := res.value.revision.(resources := [])));
    }
  }

  lemma NothingToOverride(r: Repository, api: string, p: Id, a: R.Action)
    ensures R.ResolveResources(r, api, p, []) == Ok([])
    ensures R.ApplyOverrides(r, api, p, [], a.overrides) == Ok([])
  {}

  lemma RedirectIsChannel(w: World, r: Repository, p: Id, a: R.Action)
    ensures var res := R.ResolveReleaseAndRevision(w, r, p, a);
      res.Ok? ==> res.value.redirect == res.value.channel
  {}

  /** The entry of an action whose package the caller sees: the selected revision with the resources that the
      references of its release and the overrides choose, on the selected channel. A selection that
      fails with a service error becomes an entry that says so, a broken reference ends the call. */
  lemma EntryDecided(w: World, t: Sql.Tables, api: string, who: Identity, a: R.Action)
    requires Consistent(t) && R.ResolvePackage(Postgres(t), a).Ok?
    requires RequirePackageView(Postgres(t), who, R.ResolvePackage(Postgres(t), a).value, false).Pass?
    ensures var pkg := R.ResolvePackage(Postgres(t), a).value;
      var res := R.ResolveAction(w, Postgres(t), api, who, a);
      match R.ResolveReleaseAndRevision(w, Postgres(t), pkg.id, a)
      case Err(e) => res == if e.Api? then Ok(R.Refused(a.instanceKey, e.code, e.message)) else Err(e)
      case Ok(s) =>
        && (res.Err? <==> Broken(t, pkg.id, s.release.resources, a.overrides))
        && (res.Ok? ==>
              && res.value.Resolved?
              && var resources := res.value.revision.resources;
                 && Shows(api, pkg, a, s.revision.(resources := resources), s.channel, s.release.when, res.value)
                 && |resources| == |Given(s.release.resources)|
                 && forall k | 0 <= k < |resources| ::
                      Chosen(t, api, pkg.id, a.overrides, Given(s.release.resources)[k], resources[k]))
  {
    hide Consistent, R.ResolvePackage, RequirePackageView, R.ResolveReleaseAndRevision, R.ResolvedItem, Shows, Broken,
         Chosen, Given, R.ResolveSelection;
    var pkg := R.ResolvePackage(Postgres(t), a).value;
    RedirectIsChannel(w, Postgres(t), pkg.id, a);
    if R.ResolveReleaseAndRevision(w, Postgres(t), pkg.id, a).Err? {
      SelectionFails(w, Postgres(t), api, pkg.id, a);
    } else {
      SelectionExact(w, t, api, pkg.id, a);
      var res := R.ResolveSelection(w, Postgres(t), api, pkg.id, a);
      if res.Ok? {
        ResolvedShows(api, pkg, a, res.value);
        ShowsIts(api, pkg, a, res.value);
      }
    }
  }

  lemma SelectionFails(w: World, r: Repository, api: string, p: Id, a: R.Action)
    requires R.ResolveReleaseAndRevision(w, r, p, a).Err?
    ensures R.ResolveSelection(w, r, api, p, a) == Err(R.ResolveReleaseAndRevision(w, r, p, a).error)
  {}

  lemma ShowsIts(api: string, pkg: Package, a: R.Action, s: R.Selection)
    ensures R.ResolvedItem(api, pkg, a, s).Resolved? && R.ResolvedItem(api, pkg, a, s).revision == s.revision
  {}

  /** Which package an action means: the one of its name when it gives one, or else the one of its id. */
  lemma PackageAsked(r: Repository, a: R.Action)
    ensures R.ResolvePackage(r, a)
            == if a.name.Some? && a.name.value != "" then Found(GetPackageByName(r, a.name.value))
               else if a.id.Some? && a.id.value != "" then Found(GetPackageByID(r, a.id.value))
               else Err(Api(400, "invalid-request", "refresh action must include id or name"))
  {}

  function Found(pkg: Option<Package>): Result<Package> {
    if pkg.Some? then Ok(pkg.value) else Err(Api(404, "not-found", "package not found"))
  }

  // ---------- release, then refresh ----------

  /** A release keeps the tables consistent. */
  lemma ReleaseConsistent(t: Sql.Tables, who: Identity, name: string, requests: seq<Release>, ids: seq<Id>, now: Time)
    requires Consistent(t) && |ids| == |requests|
    ensures var u := C.Release(Postgres(t), who, name, requests, ids, now).0;
      u.Postgres? && Consistent(u.t)
  {
    hide Consistent, C.Release;
    var drawn := t.packages.Keys + set k | k in t.defs :: t.defs[k].id;
    assert IdsDrawn(drawn, t.packages, t.defs);
    Sequential.PublishProgress(drawn, t, who, name, requests, ids, now);
  }

  /** After a successful release, refreshing on a released channel with a "/", by name or by id: whoever
      passes the visibility guard gets, unless a resource reference of the request or an override is
      broken, an entry with the revision of the last request for that channel, with that effective
      channel, and with the resources chosen by its references and the overrides. */
  lemma RefreshReturnsRelease(w: World, t: Sql.Tables, api: string, who: Identity, name: string, requests: seq<Release>,
                              ids: seq<Id>, now: Time, i: nat, a: R.Action, reader: Identity)
    requires Consistent(t) && |ids| == |requests| && i < |requests|
    requires C.Release(Postgres(t), who, name, requests, ids, now).1.Ok?
    requires forall j | i < j < |requests| :: requests[j].channel != requests[i].channel
    requires a.channel == Some(requests[i].channel) && '/' in requests[i].channel
    requires a.revision.Some? ==> a.revision.value <= 0
    requires name in t.names
    requires a.name == Some(name) || (!R.Named(a.name) && a.id == Some(t.names[name]))
    requires name != "" && t.names[name] != ""
    ensures var u := C.Release(Postgres(t), who, name, requests, ids, now).0;
      var p := t.names[name];
      && u.Postgres? && p in u.t.packages
      && (RequirePackageView(u, reader, u.t.packages[p], false).Pass? ==>
            var res := R.ResolveAction(w, u, api, reader, a);
            && (res.Err? <==> Broken(u.t, p, requests[i].resources, a.overrides))
            && (res.Ok? ==>
                  && res.value.Resolved? && u.t.packages[p].id == p && u.t.packages[p].name == name
                  && (p, requests[i].revision) in u.t.revisions
                  && Shows(api, u.t.packages[p], a,
                           u.t.revisions[(p, requests[i].revision)].(resources := res.value.revision.resources),
                           requests[i].channel, if requests[i].when == 0 then now else requests[i].when, res.value)
                  && u.t.revisions[(p, requests[i].revision)].number == requests[i].revision
                  && |res.value.revision.resources| == |Given(requests[i].resources)|
                  && forall k | 0 <= k < |res.value.revision.resources| ::
                       Chosen(u.t, api, p, a.overrides, Given(requests[i].resources)[k],
                              res.value.revision.resources[k])))
  {
    hide Consistent, C.Release, Broken, Chosen, Given, R.ResolveAction, R.ResolveReleaseAndRevision,
         RequirePackageView, R.ResolvePackage, Shows;
    ReleaseConsistent(t, who, name, requests, ids, now);
    RefreshSeesRelease(w, t, who, name, requests, ids, now, i, a);
    ReleasedRow(t, who, name, requests, ids, now, i);
    var u := C.Release(Postgres(t), who, name, requests, ids, now).0;
    var p := t.names[name];
    FoundByNameOrId(u.t, p, name, a);
    if RequirePackageView(u, reader, u.t.packages[p], false).Pass? {
      EntryDecided(w, u.t, api, reader, a);
    }
  }

  lemma FoundByNameOrId(t: Sql.Tables, p: Id, name: string, a: R.Action)
    requires Consistent(t) && p in t.packages && t.packages[p].name == name && name != "" && p != ""
    requires a.name == Some(name) || (!R.Named(a.name) && a.id == Some(p))
    ensures R.ResolvePackage(Postgres(t), a) == Ok(t.packages[p]) && t.packages[p].id == p
  {}

  /** The releaser itself passes that guard. */
  lemma ReleaserSeesPackage(t: Sql.Tables, who: Identity, name: string, requests: seq<Release>, ids: seq<Id>, now: Time)
    requires Consistent(t) && |ids| == |requests| && name in t.names
    requires C.Release(Postgres(t), who, name, requests, ids, now).1.Ok?
    ensures var u := C.Release(Postgres(t), who, name, requests, ids, now).0;
      && u.Postgres? && t.names[name] in u.t.packages
      && RequirePackageView(u, who, u.t.packages[t.names[name]], false) == Pass
  {
    hide C.Release, C.ReleaseEach, Consistent;
    ReleaseParts(Postgres(t), who, name, requests, ids, now);
    var pkg := C.Managed(Postgres(t), who, name, MANAGE_RELEASES).value;
    ReleaseIsFold(Postgres(t), who, pkg.id, requests, ids, now);
    NameIsId(t, name);
    ManagerSeesPackage(Postgres(t), who, pkg, MANAGE_RELEASES);
    var u := C.Release(Postgres(t), who, name, requests, ids, now).0.t;
    SameGuard(t, u, who, pkg, u.packages[pkg.id]);
  }

  lemma NameIsId(t: Sql.Tables, name: string)
    requires Consistent(t) && name in t.names
    ensures t.names[name] in t.packages && t.packages[t.names[name]].id == t.names[name]
  {}

  /** The guard reads the access columns and the access list only. */
  lemma SameGuard(t: Sql.Tables, u: Sql.Tables, who: Identity, a: Package, b: Package)
    requires u.acl == t.acl && u.members == t.members && a.id == b.id && a.name == b.name && a.isPrivate == b.isPrivate
    requires a.id in t.packages && a.id in u.packages && t.packages[a.id] == a && u.packages[a.id] == b
      && a.owner == b.owner
    ensures RequirePackageView(Postgres(u), who, b, false) == RequirePackageView(Postgres(t), who, a, false)
  {}
}
