/** The authorization guards of internal/service/helpers.go. */
module Access {
  import opened Core
  import Repo = Repository
  import Sql = Tables

  const REGISTER_PACKAGE := "account-register-package"
  const VIEW_PACKAGES := "account-view-packages"
  const PACKAGE_MANAGE := "package-manage"
  const MANAGE_METADATA := "package-manage-metadata"
  const MANAGE_RELEASES := "package-manage-releases"
  const MANAGE_REVISIONS := "package-manage-revisions"
  const PACKAGE_VIEW := "package-view"

  const DEFAULT_PERMISSIONS: seq<string> :=
    [REGISTER_PACKAGE, VIEW_PACKAGES, PACKAGE_MANAGE, MANAGE_METADATA, MANAGE_RELEASES, MANAGE_REVISIONS,
     PACKAGE_VIEW, "package-view-metadata", "package-view-releases", "package-view-revisions"]

  const UNAUTHORIZED := Api(401, "unauthorized", "authentication required")
  const NO_PERMISSION := Api(403, "forbidden", "token does not grant required permission")
  const PRIVATE_PACKAGE := Api(403, "forbidden", "package is private")
  const OTHER_PACKAGE := Api(403, "forbidden", "token does not allow this package")
  const NO_MANAGEMENT := Api(403, "forbidden", "package management is not allowed")
  const OTHER_CHANNEL := Api(403, "forbidden", "token does not allow this channel")

  function RequireAuth(who: Identity): Outcome {
    if who.authenticated then Pass else Fail(UNAUTHORIZED)
  }

  /** `package-manage` stands for every permission that begins with "package-". */
  predicate Grants(permissions: seq<string>, permission: string) {
    exists i | 0 <= i < |permissions| ::
      permissions[i] == permission || (permissions[i] == PACKAGE_MANAGE && "package-" <= permission)
  }

  function RequirePermission(who: Identity, permission: string): Outcome {
    if !who.authenticated then Fail(UNAUTHORIZED)
    else if who.token.None? || |who.token.value.permissions| == 0 then Pass
    else if Grants(who.token.value.permissions, permission) then Pass
    else Fail(NO_PERMISSION)
  }

  predicate TokenAllowsPackage(token: StoreToken, pkg: Package) {
    exists i | 0 <= i < |token.packages| ::
      || (token.packages[i].id != "" && token.packages[i].id == pkg.id)
      || (token.packages[i].name != "" && token.packages[i].name == pkg.name)
  }

  function TokenPackageGuard(who: Identity, pkg: Package): Outcome {
    if who.token.Some? && |who.token.value.packages| > 0 && !TokenAllowsPackage(who.token.value, pkg)
    then Fail(OTHER_PACKAGE) else Pass
  }

  function RequirePackageView(r: Repo.Repository, who: Identity, pkg: Package, needsPermission: bool): Outcome {
    if !pkg.isPrivate then
      if needsPermission && who.authenticated then RequirePermission(who, PACKAGE_VIEW) else Pass
    else if !who.authenticated then Fail(UNAUTHORIZED)
    else
      match Repo.CanViewPackage(r, pkg.id, who.accountId)
      case Err(e) => Fail(e)
      case Ok(false) => Fail(PRIVATE_PACKAGE)
      case Ok(true) =>
        if TokenPackageGuard(who, pkg).Fail? then TokenPackageGuard(who, pkg)
        else if needsPermission then RequirePermission(who, PACKAGE_VIEW)
        else Pass
  }

  /** The rest of `requirePackageManage` once `CanManagePackage` has answered. */
  function ManageVerdict(who: Identity, pkg: Package, permission: string, allowed: Result<bool>): Outcome {
    if RequirePermission(who, permission).Fail? then RequirePermission(who, permission)
    else
      match allowed
      case Err(e) => Fail(e)
      case Ok(false) => Fail(NO_MANAGEMENT)
      case Ok(true) => TokenPackageGuard(who, pkg)
  }

  function RequirePackageManage(r: Repo.Repository, who: Identity, pkg: Package, permission: string): Outcome {
    ManageVerdict(who, pkg, permission, Repo.CanManagePackage(r, pkg.id, who.accountId))
  }

  function EnforceChannel(who: Identity, channel: string): Outcome {
    if who.token.None? || |who.token.value.channels| == 0 || channel in who.token.value.channels then Pass
    else Fail(OTHER_CHANNEL)
  }

  // ---------- managing implies viewing ----------

  /** For every owner, ACL table and group membership. */
  lemma ManageImpliesView(r: Repo.Repository, p: Id, account: Id)
    requires Repo.CanManagePackage(r, p, account) == Ok(true)
    ensures Repo.CanViewPackage(r, p, account) == Ok(true)
  {
    if r.Postgres? && Sql.HasRole(r.t, p, account, {"editor", "owner"}) {
      var k :| k in r.t.acl && k.0 == p && r.t.acl[k] in {"editor", "owner"}
               && ((k.1 == "account" && k.2 == account) || (k.1 == "group" && (k.2, account) in r.t.members));
      assert r.t.acl[k] in {"viewer", "editor", "owner"};
    }
  }

  /** Whoever may manage a package, under any permission, passes the guard that Find, Info,
      Refresh and both downloads share. */
  lemma ManagerSeesPackage(r: Repo.Repository, who: Identity, pkg: Package, permission: string)
    requires RequirePackageManage(r, who, pkg, permission) == Pass
    ensures RequirePackageView(r, who, pkg, false) == Pass
  {
    ManageImpliesView(r, pkg.id, who.accountId);
  }
}
