/** What the remaining writing calls leave behind, on either repository: registering, patching and
    unregistering a package, adding tracks, uploading, and updating resource revisions. */
module CallResults {
  import opened Core
  import opened Repository
  import opened Access
  import opened AccessTheorems
  import opened Health
  import opened PushResults
  import C = Calls
  import Filenames
  import I = Invariants
  import M = MemoryModel
  import MemoryNumbering
  import SS = SimulationSteps
  import Sql = Tables

  // ---------- uploads ----------

  /** An upload is stored under its key, waiting for review, with the size and hashes of its bytes; it is a
      revision exactly when its filename ends in ".charm". */
  lemma UploadRecorded(w: World, r: Repository, blobs: C.Blobs, filename: string, payload: Bytes, id: Id, now: Time)
    ensures var (r', blobs', res) := C.CreateUpload(w, r, blobs, filename, payload, id, now);
      var key := "uploads/" + id + "/" + filename;
      var charm := |filename| >= 6 && filename[|filename| - 6..] == ".charm";
      var up := Upload(id := id, filename := filename, objectKey := key, size := |payload|,
                       sha256 := w.sha256(payload), sha384 := w.sha384(payload), status := "pending",
                       kind := if charm then "revision" else "resource", createdAt := now, approvedAt := None,
                       revision := None, errors := []);
      && blobs' == blobs[key := payload]
      && (res.Err? <==> r.Postgres? && GetUpload(r, id).Some?)
      && (res.Err? ==> r' == r && res == Err(Storage))
      && (res.Ok? ==>
            && res.value == up && GetUpload(r', id) == Some(up)
            && (forall i | i != id :: GetUpload(r', i) == GetUpload(r, i))
            && SamePackages(r, r') && SameRevisions(r, r') && SameDefinitions(r, r') && SameOthers(r, r'))
  {
    CharmSuffix(filename);
  }

  lemma CharmSuffix(filename: string)
    ensures C.UploadKind(filename)
            == if |filename| >= 6 && filename[|filename| - 6..] == ".charm" then "revision" else "resource"
  {
    var n := |filename|;
    if n >= 6 && filename[n - 6..] == ".charm" {
      assert filename[n - 6] == ".charm"[0];
      forall j | n - 6 < j < n ensures filename[j] != '.' {
        assert filename[j] == ".charm"[j - (n - 6)];
      }
      Filenames.LastIndexUnique(filename, '.', n - 6);
    }
  }

  // ---------- packages ----------

  /** The package that a registration makes. */
  function NewPackage(who: Identity, name: string, kind: string, isPrivate: bool, id: Id, now: Time): Package {
    Package(id := id, name := name, kind := if kind == "" then "charm" else kind, isPrivate := isPrivate,
            status := "registered", owner := who.accountId, defaultTrack := Some("latest"),
            texts := Texts(contact := None, description := None, summary := None, title := None, website := None,
                           links := map[]),
            tracks := [Track(name := "latest", pattern := None, createdAt := now)], createdAt := now,
            updatedAt := now)
  }

  /** The repository holds the package; the tables keep its tracks in rows of their own. */
  predicate Holds(r: Repository, pkg: Package) {
    var row := if r.InMemory? then pkg else pkg.(tracks := []);
    GetPackageByID(r, pkg.id) == Some(row) && GetPackageByName(r, pkg.name) == Some(row)
  }

  /** The track of this name, if the package has one. */
  function TrackNamed(r: Repository, p: Id, name: string): Option<Track> {
    match r
    case InMemory(m) => if p in m.packagesById then Search(m.packagesById[p].tracks, name) else None
    case Postgres(t) => if (p, name) in t.tracks then Some(t.tracks[(p, name)]) else None
  }

  function Search(tracks: seq<Track>, name: string): Option<Track> {
    if tracks == [] then None else if tracks[0].name == name then Some(tracks[0]) else Search(tracks[1..], name)
  }

  /** Every way a registration can end. Whoever lacks the permission and whoever asks for a taken name changes
      nothing; otherwise the new package is stored with the one track "latest". */
  lemma RegistrationDecided(r: Repository, who: Identity, name: string, kind: string, isPrivate: bool, id: Id,
                            now: Time)
    requires Healthy(r) && GetPackageByID(r, id).None?
    requires r.Postgres? && who.authenticated ==> who.accountId in r.t.accounts
    ensures var (r', res) := C.RegisterPackage(r, who, name, kind, isPrivate, id, now);
      var pkg := NewPackage(who, name, kind, isPrivate, id, now);
      if !who.authenticated then r' == r && res == Err(Api(401, "unauthorized", "authentication required"))
      else if !TokenPermits(who, "account-register-package") then
        r' == r && res == Err(Api(403, "forbidden", "token does not grant required permission"))
      else if GetPackageByName(r, name).Some? then
        r' == r && res == Err(Api(409, "already-registered", "package already exists"))
      else
        && res == Ok(pkg) && Holds(r', pkg)
        && TrackNamed(r', id, "latest") == Some(Track(name := "latest", pattern := None, createdAt := now))
        && (forall track | track != "latest" :: TrackNamed(r', id, track) == None)
        && (forall q | q != id :: GetPackageByID(r', q) == GetPackageByID(r, q))
        && (forall other | other != name :: GetPackageByName(r', other) == GetPackageByName(r, other))
        && SameUploads(r, r') && SameRevisions(r, r') && SameDefinitions(r, r') && SameOthers(r, r')
  {
    PermissionDecided(who, "account-register-package");
    match r {
      case InMemory(m) => SS.RegisterMemory(m, who, name, kind, isPrivate, id, now);
      case Postgres(t) =>
        NoTracks(t, id);
        SS.RegisterTables(t, who, name, kind, isPrivate, id, now);
    }
    hide Healthy, C.RegisterPackage, RequirePermission, TokenPermits, Holds, TrackNamed, SameUploads, SameRevisions,
         SameDefinitions, SameOthers, SS.Registered;
    assert C.NewPackage(who, name, kind, isPrivate, id, now) == NewPackage(who, name, kind, isPrivate, id, now);
    if who.authenticated && TokenPermits(who, "account-register-package") && GetPackageByName(r, name).None? {
      RegistrationStored(r, NewPackage(who, name, kind, isPrivate, id, now));
    }
  }

  /** The repository with one more package. */
  function Stored(r: Repository, pkg: Package): Repository
    requires |pkg.tracks| == 1
  {
    match r
    case InMemory(m) => InMemory(M.PutPackage(m, pkg))
    case Postgres(t) => Postgres(SS.Registered(t, pkg))
  }

  lemma RegistrationStored(r: Repository, pkg: Package)
    requires Healthy(r) && GetPackageByID(r, pkg.id).None? && GetPackageByName(r, pkg.name).None?
    requires |pkg.tracks| == 1 && pkg.tracks[0].name == "latest"
    ensures var r' := Stored(r, pkg);
      && Holds(r', pkg)
      && TrackNamed(r', pkg.id, "latest") == Some(pkg.tracks[0])
      && (forall track | track != "latest" :: TrackNamed(r', pkg.id, track) == None)
      && (forall q | q != pkg.id :: GetPackageByID(r', q) == GetPackageByID(r, q))
      && (forall other | other != pkg.name :: GetPackageByName(r', other) == GetPackageByName(r, other))
      && SameUploads(r, r') && SameRevisions(r, r') && SameDefinitions(r, r') && SameOthers(r, r')
  {
    if r.Postgres? {
      NoTracks(r.t, pkg.id);
    } else {
      forall track ensures Search(pkg.tracks, track) == if track == "latest" then Some(pkg.tracks[0]) else None {
        SearchOne(pkg.tracks, track);
      }
    }
  }

  lemma SearchOne(tracks: seq<Track>, name: string)
    requires |tracks| == 1
    ensures Search(tracks, name) == if tracks[0].name == name then Some(tracks[0]) else None
  {
    assert Search(tracks[1..], name) == None;
  }

  lemma NoTracks(t: Sql.Tables, p: Id)
    requires I.Consistent(t) && p !in t.packages
    ensures forall name :: (p, name) !in t.tracks
  {}

  /** The package with the fields that a patch gives replaced, one by one. */
  function PatchedBy(pkg: Package, patch: C.Patch, now: Time): Package {
    var texts :=
      Texts(contact := if patch.contact.Some? then patch.contact else pkg.texts.contact,
            description := if patch.description.Some? then patch.description else pkg.texts.description,
            summary := if patch.summary.Some? then patch.summary else pkg.texts.summary,
            title := if patch.title.Some? then patch.title else pkg.texts.title,
            website := if patch.website.Some? then patch.website else pkg.texts.website,
            links := if patch.links.Some? then patch.links.value else pkg.texts.links);
    pkg.(defaultTrack := if patch.defaultTrack.Some? then patch.defaultTrack else pkg.defaultTrack,
         isPrivate := if patch.isPrivate.Some? then patch.isPrivate.value else pkg.isPrivate,
         texts := texts, updatedAt := now)
  }

  /** A caller who may edit the package replaces exactly the given fields, and gets the package with its tracks. */
  lemma PatchRecorded(w: World, r: Repository, who: Identity, name: string, patch: C.Patch, now: Time)
    requires Healthy(r) && CallRefusal(r, who, name, "package-manage-metadata") == None
    ensures var (r', res) := C.PatchPackage(w, r, who, name, patch, now);
      var after := PatchedBy(GetPackageByName(r, name).value, patch, now);
      && res == Ok(if r.InMemory? then after else after.(tracks := w.byCreation(Sql.ListTracks(r.t, after.id))))
      && GetPackageByID(r', after.id) == Some(after) && GetPackageByName(r', name) == Some(after)
      && (forall q | q != after.id :: GetPackageByID(r', q) == GetPackageByID(r, q))
      && (forall other | other != name :: GetPackageByName(r', other) == GetPackageByName(r, other))
      && SameUploads(r, r') && SameRevisions(r, r') && SameDefinitions(r, r') && SameOthers(r, r')
  {
    var pkg := GetPackageByName(r, name).value;
    FoundByName(r, name);
    ManagedDecided(r, who, name, "package-manage-metadata");
    HealthyIndexed(r);
    var after := C.ApplyPatch(pkg, patch, now);
    assert after == PatchedBy(pkg, patch, now);
    hide Healthy, Indexed, C.Managed, C.ApplyPatch, PatchedBy, ManageRefusal, SamePackages, SameUploads, SameRevisions,
         SameDefinitions, SameOthers;
    PackageUpdated(r, pkg, after);
    TracksListed(w, r, after);
  }

  lemma TracksListed(w: World, r: Repository, pkg: Package)
    requires GetPackageByID(r, pkg.id).Some? && GetPackageByName(r, pkg.name).Some?
    ensures var r' := UpdatePackage(r, pkg).0;
      ListTracks(w, r', pkg.id)
      == Ok(if r.InMemory? then pkg.tracks else w.byCreation(Sql.ListTracks(r.t, pkg.id)))
  {
    if r.Postgres? {
      assert Sql.ListTracks(UpdatePackage(r, pkg).0.t, pkg.id) == Sql.ListTracks(r.t, pkg.id);
    }
  }

  /** The resource revisions and tracks of other packages are as before, and in the tables exactly the access list
      entries of `p` are gone. */
  ghost predicate OthersKept(r: Repository, r': Repository, p: Id) {
    && (forall q, name, n | q != p && GetDefinition(r, q, name).Some? ::
          GetResourceRevision(r', GetDefinition(r, q, name).value.id, n)
          == GetResourceRevision(r, GetDefinition(r, q, name).value.id, n))
    && (forall q, name | q != p :: TrackNamed(r', q, name) == TrackNamed(r, q, name))
    && (r.Postgres? ==>
          && r'.Postgres? && r'.t.accounts == r.t.accounts && r'.t.members == r.t.members
          && (forall k :: k in r'.t.acl <==> k in r.t.acl && k.0 != p)
          && (forall k | k in r'.t.acl :: r'.t.acl[k] == r.t.acl[k]))
  }

  /** Unregistering is refused as long as there is a revision; otherwise the package is gone under its name and
      its id, and no other package changes. */
  lemma UnregistrationDecided(r: Repository, who: Identity, name: string)
    requires Healthy(r) && CallRefusal(r, who, name, "package-manage") == None
    ensures var (r', res) := C.UnregisterPackage(r, who, name);
      var p := GetPackageByName(r, name).value.id;
      if GetLatestRevision(r, p).Some? then
        r' == r && res == Err(Api(400, "invalid-request", "cannot unregister a package with existing revisions"))
      else
        && res == Ok(p)
        && GetPackageByID(r', p) == None && GetPackageByName(r', name) == None
        && (forall q | q != p :: GetPackageByID(r', q) == GetPackageByID(r, q))
        && (forall other | other != name :: GetPackageByName(r', other) == GetPackageByName(r, other))
        && (forall q, n | q != p :: GetRevisionByNumber(r', q, n) == GetRevisionByNumber(r, q, n))
        && (forall q, n | q != p :: GetDefinition(r', q, n) == GetDefinition(r, q, n))
        && (forall q, c | q != p :: ResolveRelease(r', q, c) == ResolveRelease(r, q, c))
        && SameUploads(r, r') && OthersKept(r, r', p)
  {
    hide Healthy, C.Managed, ManageRefusal, HasRevisions, DeletePackage, GetPackageByID, GetPackageByName,
         GetLatestRevision, GetRevisionByNumber, GetDefinition, ResolveRelease, SameUploads, OthersKept;
    FoundByName(r, name);
    ManagedDecided(r, who, name, "package-manage");
    HasLatest(r, GetPackageByName(r, name).value.id);
    PackageDeleted(r, GetPackageByName(r, name).value);
    DeletionKeepsOthers(r, GetPackageByName(r, name).value.id);
  }

  lemma HasLatest(r: Repository, p: Id)
    ensures HasRevisions(r, p) <==> GetLatestRevision(r, p).Some?
  {}

  lemma PackageDeleted(r: Repository, pkg: Package)
    requires Healthy(r) && GetPackageByID(r, pkg.id) == Some(pkg) && GetPackageByName(r, pkg.name) == Some(pkg)
    ensures var (r', out) := DeletePackage(r, pkg.id);
      && out.Pass?
      && GetPackageByID(r', pkg.id) == None && GetPackageByName(r', pkg.name) == None
      && (forall q | q != pkg.id :: GetPackageByID(r', q) == GetPackageByID(r, q))
      && (forall other | other != pkg.name :: GetPackageByName(r', other) == GetPackageByName(r, other))
      && (forall q, n | q != pkg.id :: GetRevisionByNumber(r', q, n) == GetRevisionByNumber(r, q, n))
      && (forall q, n | q != pkg.id :: GetDefinition(r', q, n) == GetDefinition(r, q, n))
      && (forall q, c | q != pkg.id :: ResolveRelease(r', q, c) == ResolveRelease(r, q, c))
      && SameUploads(r, r')
  {}

  lemma DeletionKeepsOthers(r: Repository, p: Id)
    requires Healthy(r) && GetPackageByID(r, p).Some?
    ensures OthersKept(r, DeletePackage(r, p).0, p)
  {}

  // ---------- tracks ----------

  lemma {:induction false} SearchAppend(tracks: seq<Track>, last: Track, name: string)
    ensures Search(tracks + [last], name)
            == if Search(tracks, name).Some? then Search(tracks, name)
               else if last.name == name then Some(last) else None
    decreases |tracks|
  {
    if tracks != [] {
      assert (tracks + [last])[1..] == tracks[1..] + [last];
      SearchAppend(tracks[1..], last, name);
    }
  }

  lemma {:induction false} SearchIs(tracks: seq<Track>, name: string)
    ensures Search(tracks, name).Some? <==> M.HasTrack(tracks, name)
    decreases |tracks|
  {
    if tracks != [] {
      SearchIs(tracks[1..], name);
      assert M.HasTrack(tracks, name) <==> tracks[0].name == name || M.HasTrack(tracks[1..], name) by {
        if M.HasTrack(tracks[1..], name) {
          var i :| 0 <= i < |tracks| - 1 && tracks[1..][i].name == name;
          assert tracks[i + 1].name == name;
        }
        if M.HasTrack(tracks, name) && tracks[0].name != name {
          var i :| 0 <= i < |tracks| && tracks[i].name == name;
          assert tracks[1..][i - 1].name == name;
        }
      }
    }
  }

  /** The names among the requested tracks that were not there. */
  function NewNames(r: Repository, p: Id, tracks: seq<Track>): set<string> {
    set i | 0 <= i < |tracks| && TrackNamed(r, p, tracks[i].name).None? :: tracks[i].name
  }

  lemma NewNamesStep(r: Repository, p: Id, tracks: seq<Track>)
    requires tracks != []
    ensures var init, last := tracks[..|tracks| - 1], tracks[|tracks| - 1];
      NewNames(r, p, tracks)
      == if TrackNamed(r, p, last.name).None? then NewNames(r, p, init) + {last.name} else NewNames(r, p, init)
  {
    var init, last := tracks[..|tracks| - 1], tracks[|tracks| - 1];
    forall name | name in NewNames(r, p, tracks)
      ensures name in NewNames(r, p, init) || (name == last.name && TrackNamed(r, p, last.name).None?)
    {
      var i :| 0 <= i < |tracks| && TrackNamed(r, p, tracks[i].name).None? && tracks[i].name == name;
      assert i < |init| ==> init[i] == tracks[i];
    }
    forall name | name in NewNames(r, p, init) ensures name in NewNames(r, p, tracks) {
      var i :| 0 <= i < |init| && TrackNamed(r, p, init[i].name).None? && init[i].name == name;
      assert tracks[i] == init[i];
    }
  }

  lemma NewNamesAre(r: Repository, p: Id, tracks: seq<Track>, name: string)
    ensures name in NewNames(r, p, tracks) <==> TrackNamed(r, p, name).None? && Search(tracks, name).Some?
  {
    SearchIs(tracks, name);
  }

  /** The stored tracks stay, each new name gets the first of its requests, and the new names are counted. */
  ghost predicate TracksAdded(r: Repository, r': Repository, p: Id, tracks: seq<Track>, created: nat) {
    && (forall name :: TrackNamed(r', p, name)
                       == if TrackNamed(r, p, name).Some? then TrackNamed(r, p, name) else Search(tracks, name))
    && created == |NewNames(r, p, tracks)|
  }

  /** One request more, and the list or the rows with its track added unless the name is there. */
  lemma SearchStep(have: Option<Track>, grown: Option<Track>, init: seq<Track>, last: Track, name: string)
    requires grown == if have.Some? then have else Search(init, name)
    ensures (if grown.Some? || last.name != name then grown else Some(last))
            == if have.Some? then have else Search(init + [last], name)
  {
    SearchAppend(init, last, name);
  }

  lemma CountStep(r: Repository, p: Id, tracks: seq<Track>)
    requires tracks != []
    ensures var init, last := tracks[..|tracks| - 1], tracks[|tracks| - 1];
      |NewNames(r, p, tracks)|
      == |NewNames(r, p, init)|
         + if TrackNamed(r, p, last.name).None? && Search(init, last.name).None? then 1 else 0
  {
    var init, last := tracks[..|tracks| - 1], tracks[|tracks| - 1];
    NewNamesStep(r, p, tracks);
    NewNamesAre(r, p, init, last.name);
    if last.name in NewNames(r, p, init) {
      assert NewNames(r, p, init) + {last.name} == NewNames(r, p, init);
    }
  }

  lemma {:induction false} ListGrows(r: Repository, p: Id, tracks: seq<Track>)
    requires r.InMemory? && p in r.m.packagesById
    ensures var have := r.m.packagesById[p].tracks;
      var all := M.AddTracks(have, tracks);
      && (forall name :: Search(all, name)
                         == if Search(have, name).Some? then Search(have, name) else Search(tracks, name))
      && |all| - |have| == |NewNames(r, p, tracks)|
    decreases |tracks|
  {
    var have := r.m.packagesById[p].tracks;
    if tracks == [] {
      assert NewNames(r, p, tracks) == {};
    } else {
      var init, last := tracks[..|tracks| - 1], tracks[|tracks| - 1];
      assert tracks == init + [last];
      ListGrows(r, p, init);
      CountStep(r, p, tracks);
      var grown, all := M.AddTracks(have, init), M.AddTracks(have, tracks);
      SearchIs(grown, last.name);
      assert all == if Search(grown, last.name).Some? then grown else grown + [last];
      forall name
        ensures Search(all, name) == if Search(have, name).Some? then Search(have, name) else Search(tracks, name)
      {
        SearchStep(Search(have, name), Search(grown, name), init, last, name);
        SearchAppend(grown, last, name);
      }
    }
  }

  lemma {:induction false} RowsGrow(r: Repository, p: Id, tracks: seq<Track>)
    requires r.Postgres? && p in r.t.packages
    ensures var (t', count) := InsertTracks(r.t, p, tracks);
      && count.outcome.Pass? && t' == r.t.(tracks := t'.tracks)
      && TracksAdded(r, Postgres(t'), p, tracks, count.created)
      && (forall q, name | q != p :: TrackNamed(Postgres(t'), q, name) == TrackNamed(r, q, name))
    decreases |tracks|
  {
    if tracks == [] {
      assert NewNames(r, p, tracks) == {};
    } else {
      var init, last := tracks[..|tracks| - 1], tracks[|tracks| - 1];
      assert tracks == init + [last];
      RowsGrow(r, p, init);
      CountStep(r, p, tracks);
      var t1 := InsertTracks(r.t, p, init).0;
      RowStep(t1, p, last);
      hide Sql.CreateTrack, TrackNamed, NewNames;
      forall name {:trigger Search(tracks, name)}
        ensures TrackNamed(Postgres(Sql.CreateTrack(t1, p, last).0), p, name)
                == if TrackNamed(r, p, name).Some? then TrackNamed(r, p, name) else Search(tracks, name)
      {
        SearchStep(TrackNamed(r, p, name), TrackNamed(Postgres(t1), p, name), init, last, name);
      }
    }
  }

  lemma RowStep(t: Sql.Tables, p: Id, track: Track)
    requires p in t.packages
    ensures var (u, one) := Sql.CreateTrack(t, p, track);
      && one == Ok(if TrackNamed(Postgres(t), p, track.name).Some? then 0 else 1) && u == t.(tracks := u.tracks)
      && (forall q, name :: TrackNamed(Postgres(u), q, name)
                            == if TrackNamed(Postgres(t), q, name).Some? || q != p || name != track.name
                               then TrackNamed(Postgres(t), q, name) else Some(track))
  {}

  /** The track with its creation time filled in. */
  function Dated(track: Option<Track>, now: Time): Option<Track> {
    match track
    case None => None
    case Some(x) => Some(Track(name := x.name, pattern := x.pattern,
                               createdAt := if x.createdAt == 0 then now else x.createdAt))
  }

  lemma {:induction false} SearchStamped(tracks: seq<Track>, now: Time, name: string)
    ensures Search(C.StampTracks(tracks, now), name) == Dated(Search(tracks, name), now)
    decreases |tracks|
  {
    if tracks != [] {
      assert C.StampTracks(tracks, now)[1..] == C.StampTracks(tracks[1..], now);
      SearchStamped(tracks[1..], now, name);
    }
  }

  lemma SameNewNames(r: Repository, p: Id, tracks: seq<Track>, now: Time)
    ensures NewNames(r, p, C.StampTracks(tracks, now)) == NewNames(r, p, tracks)
  {
    var stamped := C.StampTracks(tracks, now);
    hide TrackNamed;
    assert forall i | 0 <= i < |tracks| :: stamped[i].name == tracks[i].name;
    forall name ensures name in NewNames(r, p, stamped) <==> name in NewNames(r, p, tracks) {
      if name in NewNames(r, p, tracks) {
        var i :| 0 <= i < |tracks| && TrackNamed(r, p, tracks[i].name).None? && tracks[i].name == name;
        assert stamped[i].name == name;
      }
    }
  }

  lemma TracksCreated(r: Repository, p: Id, tracks: seq<Track>)
    requires GetPackageByID(r, p).Some? && GetPackageByID(r, p).value.id == p && Indexed(r)
    ensures var (r', count) := CreateTracks(r, p, tracks);
      && count.outcome.Pass? && TracksAdded(r, r', p, tracks, count.created)
      && (forall q, name | q != p :: TrackNamed(r', q, name) == TrackNamed(r, q, name))
      && SameUploads(r, r') && SameRevisions(r, r') && SameDefinitions(r, r') && SameOthers(r, r')
  {
    match r {
      case InMemory(m) =>
        M.AddTracksGrows(m.packagesById[p].tracks, tracks);
        ListGrows(r, p, tracks);
      case Postgres(t) => RowsGrow(r, p, tracks);
    }
  }

  /** A caller who may edit the package adds the tracks with new names, stamped with the time when they have
      none; the first request for a name wins, stored tracks stay, and the new names are counted. */
  lemma TracksRecorded(r: Repository, who: Identity, name: string, tracks: seq<Track>, now: Time)
    requires Healthy(r) && CallRefusal(r, who, name, "package-manage-metadata") == None
    ensures var (r', count) := C.AddPackageTracks(r, who, name, tracks, now);
      var p := GetPackageByName(r, name).value.id;
      && count == Count(|NewNames(r, p, tracks)|, Pass)
      && (forall track :: TrackNamed(r', p, track)
                          == if TrackNamed(r, p, track).Some? then TrackNamed(r, p, track)
                             else Dated(Search(tracks, track), now))
      && (forall q, track | q != p :: TrackNamed(r', q, track) == TrackNamed(r, q, track))
      && SameUploads(r, r') && SameRevisions(r, r') && SameDefinitions(r, r') && SameOthers(r, r')
  {
    hide Healthy, Indexed, C.Managed, ManageRefusal, CreateTracks, GetPackageByID, GetPackageByName, TrackNamed,
         SameUploads, SameRevisions, SameDefinitions, SameOthers;
    FoundByName(r, name);
    HealthyIndexed(r);
    ManagedDecided(r, who, name, "package-manage-metadata");
    var p := GetPackageByName(r, name).value.id;
    var stamped := C.StampTracks(tracks, now);
    TracksCreated(r, p, stamped);
    SameNewNames(r, p, tracks, now);
    forall track ensures Search(stamped, track) == Dated(Search(tracks, track), now) {
      SearchStamped(tracks, now, track);
    }
  }

  // ---------- updates of resource revisions ----------

  /** Resource revisions are filed under their resource and number. */
  ghost predicate RowsFiled(r: Repository) {
    match r
    case InMemory(m) => MemoryNumbering.Filed(m.resourceRevs)
    case Postgres(t) =>
      forall k | k in t.resourceRevs :: t.resourceRevs[k].resourceId == k.0 && t.resourceRevs[k].number == k.1
  }

  /** The number named by update `i` is named by no later one of the first `k`. */
  predicate LastUpdate(updates: seq<C.ResourceUpdate>, k: int, i: int) {
    0 <= i < k <= |updates| && forall j | i < j < k :: updates[j].number != updates[i].number
  }

  /** Of the first `k` updates, the last one for each number has set the bases and architectures of that
      revision; nothing else about it has changed, and no other revision has. */
  ghost predicate Updated(r: Repository, r': Repository, d: Id, updates: seq<C.ResourceUpdate>, k: nat) {
    && (forall i | LastUpdate(updates, k, i) ::
          && GetResourceRevision(r, d, updates[i].number).Some?
          && GetResourceRevision(r', d, updates[i].number)
             == Some(GetResourceRevision(r, d, updates[i].number).value.(
                       bases := updates[i].bases, architectures := updates[i].architectures)))
    && (forall n | k <= |updates| && (forall i | 0 <= i < k :: updates[i].number != n) ::
          GetResourceRevision(r', d, n) == GetResourceRevision(r, d, n))
    && (forall q, n | q != d :: GetResourceRevision(r', q, n) == GetResourceRevision(r, q, n))
  }

  lemma OneUpdated(r: Repository, d: Id, update: C.ResourceUpdate)
    requires RowsFiled(r)
    ensures var (r', out) := C.UpdateOne(r, d, update);
      && RowsFiled(r')
      && SamePackages(r, r') && SameUploads(r, r') && SameRevisions(r, r') && SameDefinitions(r, r')
      && SameReleases(r, r')
      && (match GetResourceRevision(r, d, update.number)
          case None => r' == r && out == Fail(NotFound)
          case Some(row) =>
            && out == Pass
            && GetResourceRevision(r', d, update.number)
               == Some(row.(bases := update.bases, architectures := update.architectures))
            && (forall q, n | q != d || n != update.number ::
                  GetResourceRevision(r', q, n) == GetResourceRevision(r, q, n)))
  {
    match r {
      case InMemory(m) =>
        if M.GetResourceRevision(m, d, update.number).Some? {
          ListUpdated(m, d, update);
        }
      case Postgres(t) =>
    }
  }

  lemma SameIndex(rows: seq<ResourceRevision>, rows': seq<ResourceRevision>, n: int)
    requires |rows'| == |rows| && forall i | 0 <= i < |rows| :: rows'[i].number == rows[i].number
    ensures M.IndexOf(rows', n) == M.IndexOf(rows, n)
  {
    var i, j := M.IndexOf(rows, n), M.IndexOf(rows', n);
    assert forall k | 0 <= k < |rows| :: rows'[k].number == rows[k].number;
  }

  lemma ListUpdated(m: M.Mem, d: Id, update: C.ResourceUpdate)
    requires MemoryNumbering.Filed(m.resourceRevs) && M.GetResourceRevision(m, d, update.number).Some?
    ensures var row := M.GetResourceRevision(m, d, update.number).value.(
                         bases := update.bases, architectures := update.architectures);
      var (m', out) := M.UpdateResourceRevision(m, row);
      && out == Pass && m' == m.(resourceRevs := m'.resourceRevs) && MemoryNumbering.Filed(m'.resourceRevs)
      && M.GetResourceRevision(m', d, update.number) == Some(row)
      && (forall q, n | q != d || n != update.number ::
          M.GetResourceRevision(m', q, n) == M.GetResourceRevision(m, q, n))
  {
    var rows := M.Get(m.resourceRevs, d, []);
    var i := M.IndexOf(rows, update.number);
    var row := rows[i].(bases := update.bases, architectures := update.architectures);
    assert row.resourceId == d && row.number == update.number;
    var rows' := rows[i := row];
    forall n ensures M.IndexOf(rows', n) == M.IndexOf(rows, n) {
      SameIndex(rows, rows', n);
    }
    forall n | n != update.number ensures M.IndexOf(rows, n) != i {}
  }

  lemma {:induction false} EachUpdated(r: Repository, d: Id, updates: seq<C.ResourceUpdate>)
    requires RowsFiled(r)
    ensures var (r', k, out) := C.UpdateEach(r, d, updates);
      && k <= |updates| && (out == Pass <==> k == |updates|)
      && (k < |updates| ==> out == Fail(NotFound) && GetResourceRevision(r, d, updates[k].number).None?)
      && Updated(r, r', d, updates, k)
      && SamePackages(r, r') && SameUploads(r, r') && SameRevisions(r, r') && SameDefinitions(r, r')
      && SameReleases(r, r')
    decreases |updates|
  {
    hide RowsFiled, GetResourceRevision, C.UpdateOne, Updated, SamePackages, SameUploads, SameRevisions,
         SameDefinitions, SameReleases;
    AllSame(r);
    var (r', k, out) := C.UpdateEach(r, d, updates);
    if updates != [] {
      OneUpdated(r, d, updates[0]);
      var (r1, out1) := C.UpdateOne(r, d, updates[0]);
      if out1.Pass? {
        EachUpdated(r1, d, updates[1..]);
        AllSameTwice(r, r1, r');
        UpdatedMore(r, r1, r', d, updates, k);
      } else {
        NoneUpdated(r, d, updates);
      }
    } else {
      NoneUpdated(r, d, updates);
    }
  }

  lemma AllSame(r: Repository)
    ensures SamePackages(r, r) && SameUploads(r, r) && SameRevisions(r, r)
    ensures SameDefinitions(r, r) && SameReleases(r, r)
  {}

  lemma AllSameTwice(a: Repository, b: Repository, c: Repository)
    ensures SamePackages(a, b) && SamePackages(b, c) ==> SamePackages(a, c)
    ensures SameUploads(a, b) && SameUploads(b, c) ==> SameUploads(a, c)
    ensures SameRevisions(a, b) && SameRevisions(b, c) ==> SameRevisions(a, c)
    ensures SameDefinitions(a, b) && SameDefinitions(b, c) ==> SameDefinitions(a, c)
    ensures SameReleases(a, b) && SameReleases(b, c) ==> SameReleases(a, c)
  {}

  lemma NoneUpdated(r: Repository, d: Id, updates: seq<C.ResourceUpdate>)
    ensures Updated(r, r, d, updates, 0)
  {}

  lemma UpdatedMore(r: Repository, r1: Repository, r': Repository, d: Id, updates: seq<C.ResourceUpdate>, k: nat)
    requires updates != [] && 1 <= k <= |updates| && Updated(r1, r', d, updates[1..], k - 1)
    requires GetResourceRevision(r, d, updates[0].number).Some?
    requires GetResourceRevision(r1, d, updates[0].number)
             == Some(GetResourceRevision(r, d, updates[0].number).value.(
                       bases := updates[0].bases, architectures := updates[0].architectures))
    requires forall q, n | q != d || n != updates[0].number ::
               GetResourceRevision(r1, q, n) == GetResourceRevision(r, q, n)
    ensures Updated(r, r', d, updates, k)
  {
    hide GetResourceRevision;
    var rest := updates[1..];
    assert forall j | 0 <= j < |rest| :: rest[j] == updates[j + 1];
    forall i | LastUpdate(updates, k, i)
      ensures GetResourceRevision(r, d, updates[i].number).Some?
      ensures GetResourceRevision(r', d, updates[i].number)
              == Some(GetResourceRevision(r, d, updates[i].number).value.(
                        bases := updates[i].bases, architectures := updates[i].architectures))
    {
      if i > 0 {
        assert rest[i - 1] == updates[i];
        assert LastUpdate(rest, k - 1, i - 1);
      } else {
        assert forall j | 0 <= j < k - 1 :: rest[j].number != updates[0].number;
      }
    }
    forall n | forall i | 0 <= i < k :: updates[i].number != n
      ensures GetResourceRevision(r', d, n) == GetResourceRevision(r, d, n)
    {
      assert forall j | 0 <= j < k - 1 :: rest[j].number != n;
      assert updates[0].number != n;
    }
  }

  /** The whole call: the updates before the first unknown number are applied, in order, and counted. */
  lemma UpdatesRecorded(r: Repository, who: Identity, name: string, resource: string, updates: seq<C.ResourceUpdate>)
    requires Healthy(r) && CallRefusal(r, who, name, "package-manage-revisions") == None
    ensures var (r', k, out) := C.UpdateResources(r, who, name, resource, updates);
      match GetDefinition(r, GetPackageByName(r, name).value.id, resource)
      case None => r' == r && k == 0 && out == Fail(Api(404, "not-found", "resource not found"))
      case Some(d) =>
        && k <= |updates| && (out == Pass <==> k == |updates|)
        && (k < |updates| ==> out == Fail(NotFound) && GetResourceRevision(r, d.id, updates[k].number).None?)
        && Updated(r, r', d.id, updates, k)
        && SamePackages(r, r') && SameUploads(r, r') && SameRevisions(r, r') && SameDefinitions(r, r')
        && SameReleases(r, r')
  {
    hide Healthy, C.Managed, ManageRefusal, GetPackageByName, GetDefinition, GetResourceRevision, C.UpdateEach, Updated,
         RowsFiled, SamePackages, SameUploads, SameRevisions, SameDefinitions, SameReleases;
    FoundByName(r, name);
    ManagedDecided(r, who, name, "package-manage-revisions");
    var d := GetDefinition(r, GetPackageByName(r, name).value.id, resource);
    if d.Some? {
      HealthyFiled(r);
      EachUpdated(r, d.value.id, updates);
    }
  }

  lemma HealthyFiled(r: Repository)
    requires Healthy(r)
    ensures RowsFiled(r)
  {}

  // ---------- rows that are gone ----------

  /** A statement about a row that is not there, as when another client has just deleted it, reports that and
      changes nothing. */
  lemma MissingRowsReported(r: Repository, pkg: Package, upload: Id, n: Option<int>, errors: seq<string>, now: Time,
                            row: ResourceRevision)
    ensures GetPackageByID(r, pkg.id).None? ==>
              && DeletePackage(r, pkg.id) == (r, Fail(NotFound))
              && (forall account :: CanViewPackage(r, pkg.id, account) == Err(NotFound))
              && (forall account :: CanManagePackage(r, pkg.id, account) == Err(NotFound))
    ensures (if r.InMemory? then GetPackageByName(r, pkg.name).None? else GetPackageByID(r, pkg.id).None?) ==>
              UpdatePackage(r, pkg) == (r, Fail(NotFound))
    ensures GetUpload(r, upload).None? ==> ApproveUpload(r, upload, n, errors, now) == (r, Fail(NotFound))
    ensures GetResourceRevision(r, row.resourceId, row.number).None? ==>
              UpdateResourceRevision(r, row) == (r, Fail(NotFound))
  {}
}
