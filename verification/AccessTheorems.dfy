/** Who is let in, in terms of the rows: the guards of Access.dfy decided outright, with the error that
    each refused caller gets, and what that means for the calls behind them. */
module AccessTheorems {
  import opened Core
  import opened Repository
  import opened Access
  import C = Calls
  import R = Reads
  import Sql = Tables

  // ---------- what decides ----------

  /** An access list entry with one of these roles names the account itself or a group it is in. */
  ghost predicate Listed(t: Sql.Tables, p: Id, account: Id, roles: set<string>) {
    || ((p, "account", account) in t.acl && t.acl[(p, "account", account)] in roles)
    || (exists g :: (p, "group", g) in t.acl && t.acl[(p, "group", g)] in roles && (g, account) in t.members)
  }

  /** Memory knows owners only; in the tables an account without an id has no role at all. */
  ghost predicate HasRole(r: Repository, pkg: Package, account: Id, roles: set<string>) {
    match r
    case InMemory(_) => pkg.owner == account
    case Postgres(t) => account != "" && (pkg.owner == account || Listed(t, pkg.id, account, roles))
  }

  ghost predicate MayView(r: Repository, pkg: Package, account: Id) {
    HasRole(r, pkg, account, {"viewer", "editor", "owner"})
  }

  ghost predicate MayManage(r: Repository, pkg: Package, account: Id) {
    HasRole(r, pkg, account, {"editor", "owner"})
  }

  /** The token names no package, or one with this id or this name. */
  predicate TokenCovers(who: Identity, pkg: Package) {
    who.token.Some? && who.token.value.packages != [] ==>
      exists i | 0 <= i < |who.token.value.packages| ::
        var s := who.token.value.packages[i];
        (s.id == pkg.id && pkg.id != "") || (s.name == pkg.name && pkg.name != "")
  }

  /** The token has no permission list, or one with this permission; "package-manage" stands for all
      that begin with "package-". */
  predicate TokenPermits(who: Identity, permission: string) {
    who.token.Some? && who.token.value.permissions != [] ==>
      || permission in who.token.value.permissions
      || ("package-manage" in who.token.value.permissions && |permission| >= 8 && permission[..8] == "package-")
  }

  /** The package as the repository holds it. */
  predicate Held(r: Repository, pkg: Package) {
    GetPackageByID(r, pkg.id) == Some(pkg)
  }

  // ---------- the guards ----------

  lemma PermissionDecided(who: Identity, permission: string)
    ensures RequirePermission(who, permission).Pass? <==> who.authenticated && TokenPermits(who, permission)
    ensures !who.authenticated ==>
              RequirePermission(who, permission) == Fail(Api(401, "unauthorized", "authentication required"))
    ensures who.authenticated && !TokenPermits(who, permission) ==>
              RequirePermission(who, permission)
              == Fail(Api(403, "forbidden", "token does not grant required permission"))
  {
    if who.token.Some? {
      var ps := who.token.value.permissions;
      assert "package-" <= permission <==> |permission| >= 8 && permission[..8] == "package-";
      if permission in ps {
        var i :| 0 <= i < |ps| && ps[i] == permission;
      }
      if "package-manage" in ps {
        var i :| 0 <= i < |ps| && ps[i] == "package-manage";
      }
    }
  }

  lemma TokenGuardDecided(who: Identity, pkg: Package)
    ensures TokenCovers(who, pkg) ==> TokenPackageGuard(who, pkg) == Pass
    ensures !TokenCovers(who, pkg) ==>
              TokenPackageGuard(who, pkg) == Fail(Api(403, "forbidden", "token does not allow this package"))
  {}

  lemma ListedIsRole(t: Sql.Tables, p: Id, account: Id, roles: set<string>)
    ensures Sql.HasRole(t, p, account, roles) <==> Listed(t, p, account, roles)
  {
    if Sql.HasRole(t, p, account, roles) {
      var k :| k in t.acl && k.0 == p && t.acl[k] in roles
               && ((k.1 == "account" && k.2 == account) || (k.1 == "group" && (k.2, account) in t.members));
      assert k == (p, k.1, k.2);
    }
    if (p, "account", account) in t.acl && t.acl[(p, "account", account)] in roles {
      assert Sql.HasRole(t, p, account, roles);
    } else if Listed(t, p, account, roles) {
      var g :| (p, "group", g) in t.acl && t.acl[(p, "group", g)] in roles && (g, account) in t.members;
      assert (p, "group", g).1 == "group";
    }
  }

  lemma QueriesDecided(r: Repository, pkg: Package, account: Id)
    requires Held(r, pkg)
    ensures CanViewPackage(r, pkg.id, account) == Ok(!pkg.isPrivate || MayView(r, pkg, account))
    ensures CanManagePackage(r, pkg.id, account) == Ok(MayManage(r, pkg, account))
  {
    if r.Postgres? {
      ListedIsRole(r.t, pkg.id, account, {"viewer", "editor", "owner"});
      ListedIsRole(r.t, pkg.id, account, {"editor", "owner"});
    }
  }

  /** Why a stored package is not shown: the first condition that fails. */
  ghost function ViewRefusal(r: Repository, who: Identity, pkg: Package): Option<Error> {
    if !pkg.isPrivate then None
    else if !who.authenticated then Some(Api(401, "unauthorized", "authentication required"))
    else if !MayView(r, pkg, who.accountId) then Some(Api(403, "forbidden", "package is private"))
    else if !TokenCovers(who, pkg) then Some(Api(403, "forbidden", "token does not allow this package"))
    else None
  }

  /** A stored package is shown exactly when it is public, or the caller is authenticated with an account
      that owns it or has some role in it, and a token that covers it; each refused caller gets the
      error of the first condition that fails. */
  lemma ViewDecided(r: Repository, who: Identity, pkg: Package)
    requires Held(r, pkg)
    ensures RequirePackageView(r, who, pkg, false).Pass?
            <==> !pkg.isPrivate || (who.authenticated && MayView(r, pkg, who.accountId) && TokenCovers(who, pkg))
    ensures RequirePackageView(r, who, pkg, false)
            == match ViewRefusal(r, who, pkg) case None => Pass case Some(e) => Fail(e)
  {
    hide CanViewPackage, TokenPackageGuard, MayView, TokenCovers, Held;
    QueriesDecided(r, pkg, who.accountId);
    TokenGuardDecided(who, pkg);
  }

  /** With the permission asked for as well: an anonymous caller still sees a public package. */
  lemma ViewWithPermissionDecided(r: Repository, who: Identity, pkg: Package)
    requires Held(r, pkg)
    ensures RequirePackageView(r, who, pkg, true).Pass?
            <==> RequirePackageView(r, who, pkg, false).Pass?
                 && (who.authenticated ==> TokenPermits(who, "package-view"))
    ensures RequirePackageView(r, who, pkg, false).Fail? ==>
              RequirePackageView(r, who, pkg, true) == RequirePackageView(r, who, pkg, false)
    ensures RequirePackageView(r, who, pkg, false).Pass? && RequirePackageView(r, who, pkg, true).Fail? ==>
              RequirePackageView(r, who, pkg, true)
              == Fail(Api(403, "forbidden", "token does not grant required permission"))
  {
    hide CanViewPackage, TokenPackageGuard, RequirePermission, TokenPermits;
    PermissionDecided(who, "package-view");
  }

  /** Why a caller may not manage a stored package: the first condition that fails. */
  ghost function ManageRefusal(r: Repository, who: Identity, pkg: Package, permission: string): Option<Error> {
    if !who.authenticated then Some(Api(401, "unauthorized", "authentication required"))
    else if !TokenPermits(who, permission) then
      Some(Api(403, "forbidden", "token does not grant required permission"))
    else if !MayManage(r, pkg, who.accountId) then Some(Api(403, "forbidden", "package management is not allowed"))
    else if !TokenCovers(who, pkg) then Some(Api(403, "forbidden", "token does not allow this package"))
    else None
  }

  /** Managing takes an authenticated caller with the permission, an account that owns the package or
      is an editor or owner of it, and a token that covers it; errors come in that order. */
  lemma ManageDecided(r: Repository, who: Identity, pkg: Package, permission: string)
    requires Held(r, pkg)
    ensures RequirePackageManage(r, who, pkg, permission).Pass?
            <==> who.authenticated && TokenPermits(who, permission) && MayManage(r, pkg, who.accountId)
                 && TokenCovers(who, pkg)
    ensures RequirePackageManage(r, who, pkg, permission)
            == match ManageRefusal(r, who, pkg, permission) case None => Pass case Some(e) => Fail(e)
  {
    hide CanManagePackage, TokenPackageGuard, RequirePermission, MayManage, TokenCovers, TokenPermits, Held;
    PermissionDecided(who, permission);
    QueriesDecided(r, pkg, who.accountId);
    TokenGuardDecided(who, pkg);
  }

  /** A channel is allowed by a token that lists no channels or lists this one. */
  lemma ChannelDecided(who: Identity, channel: string)
    ensures EnforceChannel(who, channel).Pass?
            <==> (who.token.Some? && who.token.value.channels != [] ==> channel in who.token.value.channels)
    ensures EnforceChannel(who, channel).Fail? ==>
              EnforceChannel(who, channel) == Fail(Api(403, "forbidden", "token does not allow this channel"))
  {}

  // ---------- what a refused caller gets ----------

  /** The package as the repository holds it, under its name and its id. */
  predicate Known(r: Repository, pkg: Package) {
    Held(r, pkg) && GetPackageByName(r, pkg.name) == Some(pkg)
  }

  /** A caller who is not shown the package gets that one error from both downloads and from info, and
      an entry with its code and message from refresh. */
  lemma RefusedSeesNothing(w: World, r: Repository, blobs: C.Blobs, api: string, who: Identity, pkg: Package)
    requires Known(r, pkg) && ViewRefusal(r, who, pkg).Some?
    ensures var e := ViewRefusal(r, who, pkg).value;
      && e.Api?
      && (forall n :: C.DownloadCharm(r, blobs, who, pkg.id, n) == Err(e))
      && (forall resource, n :: C.DownloadResource(r, blobs, who, pkg.id, resource, n) == Err(e))
      && R.Info(w, r, api, who, pkg.name) == Err(e)
      && (forall a: R.Action | (a.name == Some(pkg.name) && pkg.name != "")
                               || ((a.name == None || a.name == Some("")) && a.id == Some(pkg.id) && pkg.id != "") ::
            R.ResolveAction(w, r, api, who, a) == Ok(R.Refused(a.instanceKey, e.code, e.message)))
  {
    hide RequirePackageView, ViewRefusal, GetPackageByName, GetPackageByID, R.ResolveSelection;
    ViewDecided(r, who, pkg);
    RefusalIsApi(r, who, pkg);
  }

  lemma RefusalIsApi(r: Repository, who: Identity, pkg: Package)
    ensures ViewRefusal(r, who, pkg).Some? ==> ViewRefusal(r, who, pkg).value.Api?
  {}

  /** And a package that is not there is not found by anybody. */
  lemma UnknownSeesNothing(w: World, r: Repository, blobs: C.Blobs, api: string, who: Identity, p: Id, name: string)
    ensures var e := Api(404, "not-found", "package not found");
      && (GetPackageByID(r, p).None? ==>
            && (forall n :: C.DownloadCharm(r, blobs, who, p, n) == Err(e))
            && (forall resource, n :: C.DownloadResource(r, blobs, who, p, resource, n) == Err(e)))
      && (GetPackageByName(r, name).None? ==>
            && R.Info(w, r, api, who, name) == Err(e)
            && forall a: R.Action | a.name == Some(name) && name != "" ::
                 R.ResolveAction(w, r, api, who, a)
                 == Ok(R.Refused(a.instanceKey, "not-found", "package not found")))
  {
    hide GetPackageByName, GetPackageByID, R.ResolveSelection, RequirePackageView;
  }

  /** What a caller who is shown the package downloads: the blob of the stored revision; for a resource the
      bytes in its row, or the blob. */
  lemma DownloadsDecided(r: Repository, blobs: C.Blobs, who: Identity, pkg: Package, resource: string, n: int)
    requires Known(r, pkg) && ViewRefusal(r, who, pkg) == None
    ensures C.DownloadCharm(r, blobs, who, pkg.id, n)
            == match GetRevisionByNumber(r, pkg.id, n)
               case None => Err(Api(404, "not-found", "revision not found"))
               case Some(rev) => if rev.objectKey in blobs then Ok(blobs[rev.objectKey]) else Err(Storage)
    ensures C.DownloadResource(r, blobs, who, pkg.id, resource, n)
            == match GetDefinition(r, pkg.id, resource)
               case None => Err(Api(404, "not-found", "resource not found"))
               case Some(d) =>
                 match GetResourceRevision(r, d.id, n)
                 case None => Err(Api(404, "not-found", "resource revision not found"))
                 case Some(row) =>
                   if row.objectKey == "" then Ok(row.ociBlob)
                   else if row.objectKey in blobs then Ok(blobs[row.objectKey]) else Err(Storage)
  {
    hide RequirePackageView, ViewRefusal, GetPackageByID, GetPackageByName, GetRevisionByNumber, GetDefinition,
         GetResourceRevision;
    ViewDecided(r, who, pkg);
  }

  lemma ManagedDecided(r: Repository, who: Identity, name: string, permission: string)
    requires GetPackageByName(r, name).Some? ==> Held(r, GetPackageByName(r, name).value)
    ensures C.Managed(r, who, name, permission)
            == match GetPackageByName(r, name)
               case None => Err(Api(404, "not-found", "package not found"))
               case Some(pkg) =>
                 match ManageRefusal(r, who, pkg, permission)
                 case None => Ok(pkg)
                 case Some(e) => Err(e)
  {
    hide RequirePackageManage, ManageRefusal, GetPackageByName;
    if GetPackageByName(r, name).Some? {
      ManageDecided(r, who, GetPackageByName(r, name).value, permission);
    }
  }

  /** Why a call that manages the package of this name may not go on. */
  ghost function CallRefusal(r: Repository, who: Identity, name: string, permission: string): Option<Error> {
    match GetPackageByName(r, name)
    case None => Some(Api(404, "not-found", "package not found"))
    case Some(pkg) => ManageRefusal(r, who, pkg, permission)
  }

  /** Every managing call asks for its own permission; a refused caller gets the error and changes
      nothing. */
  lemma RefusedChangesNothing(w: World, r: Repository, blobs: C.Blobs, who: Identity, name: string, now: Time)
    requires GetPackageByName(r, name).Some? ==> Held(r, GetPackageByName(r, name).value)
    ensures forall e, patch | CallRefusal(r, who, name, "package-manage-metadata") == Some(e) ::
              C.PatchPackage(w, r, who, name, patch, now) == (r, Err(e))
    ensures forall e, tracks | CallRefusal(r, who, name, "package-manage-metadata") == Some(e) ::
              C.AddPackageTracks(r, who, name, tracks, now) == (r, Count(0, Fail(e)))
    ensures forall e | CallRefusal(r, who, name, "package-manage") == Some(e) ::
              C.UnregisterPackage(r, who, name) == (r, Err(e))
    ensures forall e, uploadId, id, order | CallRefusal(r, who, name, "package-manage-revisions") == Some(e) ::
              C.PushRevision(w, r, blobs, who, name, uploadId, id, order, now) == (r, Err(e))
    ensures forall e, resource, push, id | CallRefusal(r, who, name, "package-manage-revisions") == Some(e) ::
              C.PushResource(w, r, blobs, who, name, resource, push, id, now) == (r, Err(e))
    ensures forall e, resource, updates | CallRefusal(r, who, name, "package-manage-revisions") == Some(e) ::
              C.UpdateResources(r, who, name, resource, updates) == (r, 0, Fail(e))
    ensures forall e, requests, ids | CallRefusal(r, who, name, "package-manage-releases") == Some(e)
                                      && |ids| == |requests| ::
              C.Release(r, who, name, requests, ids, now) == (r, Err(e))
  {
    hide C.Managed, ManageRefusal, GetPackageByName, C.PushManaged, C.ReleaseManaged, C.UpdateEach, C.StoreResource;
    ManagedDecided(r, who, name, "package-manage-metadata");
    ManagedDecided(r, who, name, "package-manage");
    ManagedDecided(r, who, name, "package-manage-revisions");
    ManagedDecided(r, who, name, "package-manage-releases");
  }
}
