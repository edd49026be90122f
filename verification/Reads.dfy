/** The calls that only read: refresh (internal/service/releases.go) and info
    (internal/service/packages.go), as functions of the repository. */
module Reads {
  import opened Core
  import opened Repository
  import Repo = Repository
  import opened Access
  import opened Channels
  import Calls
  import Filenames

  const NO_SELECTOR := Api(400, "invalid-request", "refresh action must include id or name")

  datatype Action = Action(action: string, instanceKey: string, id: Option<Id>, name: Option<string>,
                           revision: Option<int>, channel: Option<string>, overrides: seq<ResourceRef>)

  datatype Selection = Selection(release: Release, revision: Revision, channel: string, redirect: string)

  datatype Item =
    | Refused(instanceKey: string, code: string, message: string)
    | Resolved(instanceKey: string, action: string, packageId: Id, name: string, revision: Revision, url: string,
               effectiveChannel: string, redirect: Option<string>, releasedAt: Time)

  predicate Named(s: Option<string>) {
    s.Some? && s.value != ""
  }

  function ResolvePackage(r: Repository, a: Action): Result<Package> {
    if Named(a.name) || Named(a.id) then
      match if Named(a.name) then GetPackageByName(r, a.name.value) else GetPackageByID(r, a.id.value)
      case None => Err(Translate(NotFound, "package not found"))
      case Some(pkg) => Ok(pkg)
    else Err(NO_SELECTOR)
  }

  /** The release that an action pinning a revision is treated as selecting. */
  function PinnedRelease(channel: string, revision: Revision): Release {
    Release("", "", channel, revision.number, None, [], revision.createdAt, None)
  }

  function WithRevision(r: Repository, p: Id, release: Release, channel: string): Result<Selection> {
    match GetRevisionByNumber(r, p, release.revision)
    case None => Err(NotFound)
    case Some(revision) => Ok(Selection(release, revision, channel, channel))
  }

  function ResolveReleaseAndRevision(w: World, r: Repository, p: Id, a: Action): Result<Selection> {
    var channel := NormalizeChannel(if a.channel.Some? then a.channel.value else "");
    if a.revision.Some? && a.revision.value > 0 then
      match GetRevisionByNumber(r, p, a.revision.value)
      case None => Err(Translate(NotFound, "revision not found"))
      case Some(revision) => Ok(Selection(PinnedRelease(channel, revision), revision, channel, channel))
    else if channel != "" then
      match ResolveRelease(r, p, channel)
      case None => Err(Translate(NotFound, "release not found"))
      case Some(release) => WithRevision(r, p, release, channel)
    else
      match ResolveDefaultRelease(w, r, p)
      case None => Err(Translate(NotFound, "release not found"))
      case Some(release) => WithRevision(r, p, release, release.channel)
  }

  function Attach(api: string, p: Id, item: ResourceRevision): ResourceRevision {
    item.(download := Some(Download(Filenames.ResourceDownloadURL(api, p, item.name, item.number), item.size,
                                    item.sha256, item.sha384, item.sha512, item.sha3384)))
  }

  /** One reference of a release: nothing when it names no revision. */
  function ResolveRef(r: Repository, api: string, p: Id, ref: ResourceRef): Result<seq<ResourceRevision>> {
    match GetDefinition(r, p, ref.name)
    case None => Err(NotFound)
    case Some(d) =>
      if ref.revision.None? then Ok([])
      else
        match GetResourceRevision(r, d.id, ref.revision.value)
        case None => Err(NotFound)
        case Some(row) => Ok([Attach(api, p, row)])
  }

  function Prepend<T>(head: seq<T>, rest: Result<seq<T>>): Result<seq<T>> {
    if rest.Err? then rest else Ok(head + rest.value)
  }

  lemma PrependTwice<T>(a: seq<T>, b: seq<T>, rest: Result<seq<T>>)
    ensures Prepend(a, Prepend(b, rest)) == Prepend(a + b, rest)
    ensures Prepend([], rest) == rest
  {
    if rest.Ok? {
      assert a + (b + rest.value) == (a + b) + rest.value;
      assert [] + rest.value == rest.value;
    }
  }

  function ResolveResources(r: Repository, api: string, p: Id, refs: seq<ResourceRef>): Result<seq<ResourceRevision>>
    decreases |refs|
  {
    if refs == [] then Ok([])
    else
      match ResolveRef(r, api, p, refs[0])
      case Err(e) => Err(e)
      case Ok(one) => Prepend(one, ResolveResources(r, api, p, refs[1..]))
  }

  /** The map built from the overrides: a later one for the same name replaces an earlier one. */
  function Lookup(overrides: seq<ResourceRef>): map<string, int>
    decreases |overrides|
  {
    if overrides == [] then map[]
    else
      var rest := Lookup(overrides[..|overrides| - 1]);
      var last := overrides[|overrides| - 1];
      if last.revision.Some? then rest[last.name := last.revision.value] else rest
  }

  function OverrideItem(r: Repository, api: string, p: Id, item: ResourceRevision, lookup: map<string, int>)
    : Result<ResourceRevision>
  {
    if item.name !in lookup then Ok(item)
    else
      match GetDefinition(r, p, item.name)
      case None => Err(NotFound)
      case Some(d) =>
        match GetResourceRevision(r, d.id, lookup[item.name])
        case None => Err(NotFound)
        case Some(row) => Ok(Attach(api, p, row))
  }

  function OverrideEach(r: Repository, api: string, p: Id, items: seq<ResourceRevision>, lookup: map<string, int>)
    : Result<seq<ResourceRevision>>
    decreases |items|
  {
    if items == [] then Ok([])
    else
      match OverrideItem(r, api, p, items[0], lookup)
      case Err(e) => Err(e)
      case Ok(item) => Prepend([item], OverrideEach(r, api, p, items[1..], lookup))
  }

  function ApplyOverrides(r: Repository, api: string, p: Id, items: seq<ResourceRevision>, overrides: seq<ResourceRef>)
    : Result<seq<ResourceRevision>>
  {
    if overrides == [] then Ok(items) else OverrideEach(r, api, p, items, Lookup(overrides))
  }

  function ResolveSelection(w: World, r: Repository, api: string, p: Id, a: Action): Result<Selection> {
    match ResolveReleaseAndRevision(w, r, p, a)
    case Err(e) => Err(e)
    case Ok(s) =>
      match ResolveResources(r, api, p, s.release.resources)
      case Err(e) => Err(e)
      case Ok(items) =>
        match ApplyOverrides(r, api, p, items, a.overrides)
        case Err(e) => Err(e)
        case Ok(resources) => Ok(s.(revision := s.revision.(resources := resources)))
  }

  /** Service errors become an entry of the results; any other error ends the call. */
  function ErrorItem(a: Action, e: Error): Result<Item> {
    if e.Api? then Ok(Refused(a.instanceKey, e.code, e.message)) else Err(e)
  }

  function ResolvedItem(api: string, pkg: Package, a: Action, s: Selection): Item {
    Resolved(a.instanceKey, a.action, pkg.id, pkg.name, s.revision,
             Filenames.CharmDownloadURL(api, pkg.id, s.revision.number), s.channel,
             if s.redirect == "" then None else Some(s.redirect), s.release.when)
  }

  function ResolveAction(w: World, r: Repository, api: string, who: Identity, a: Action): Result<Item> {
    match ResolvePackage(r, a)
    case Err(e) => ErrorItem(a, e)
    case Ok(pkg) =>
      match RequirePackageView(r, who, pkg, false)
      case Fail(e) => ErrorItem(a, e)
      case Pass =>
        match ResolveSelection(w, r, api, pkg.id, a)
        case Err(e) => ErrorItem(a, e)
        case Ok(s) => Ok(ResolvedItem(api, pkg, a, s))
  }

  /** All actions in order; the first one that ends in an error of the last kind ends the call. */
  function Refresh(w: World, r: Repository, api: string, who: Identity, actions: seq<Action>): Result<seq<Item>>
    decreases |actions|
  {
    if actions == [] then Ok([])
    else
      match ResolveAction(w, r, api, who, actions[0])
      case Err(e) => Err(e)
      case Ok(item) => Prepend([item], Refresh(w, r, api, who, actions[1..]))
  }

  // ---------- info ----------

  /** `revisionToInfo`: it never looks at the resources of the revision. */
  datatype RevisionInfo = RevisionInfo(createdAt: Time, sha256: string, size: nat, url: string,
                                       metadata: string, number: int, version: string)

  function RevisionToInfo(api: string, p: Id, rev: Revision): RevisionInfo {
    RevisionInfo(rev.createdAt, rev.sha256, rev.size, Filenames.CharmDownloadURL(api, p, rev.number),
                 rev.metadata, rev.number, rev.version)
  }

  datatype ChannelEntry = ChannelEntry(base: Option<string>, name: string, releasedAt: Time, parts: Parts,
                                       revision: RevisionInfo)

  function Entry(api: string, p: Id, release: Release, rev: Revision): ChannelEntry {
    ChannelEntry(release.base, release.channel, release.when, SplitChannel(release.channel),
                 RevisionToInfo(api, p, rev))
  }

  /** The channel map with one repository lookup per release; a release whose revision is missing
      is skipped. */
  function FreshChannelMap(r: Repository, api: string, p: Id, releases: seq<Release>): seq<ChannelEntry>
    decreases |releases|
  {
    if releases == [] then []
    else
      var rest := FreshChannelMap(r, api, p, releases[1..]);
      match GetRevisionByNumber(r, p, releases[0].revision)
      case None => rest
      case Some(rev) => [Entry(api, p, releases[0], rev)] + rest
  }

  datatype PackageInfo = PackageInfo(package: Package, default: ChannelEntry, resources: seq<ResourceRevision>,
                                     channelMap: seq<ChannelEntry>)

  /** A package looked up by name, shown to the caller with its tracks. */
  function GetPackage(w: World, r: Repository, who: Identity, name: string, needsPermission: bool): Result<Package> {
    match GetPackageByName(r, name)
    case None => Err(Translate(NotFound, "package not found"))
    case Some(pkg) =>
      match RequirePackageView(r, who, pkg, needsPermission)
      case Fail(e) => Err(e)
      case Pass => Calls.EnrichPackage(w, r, pkg)
  }

  function Info(w: World, r: Repository, api: string, who: Identity, name: string): Result<PackageInfo> {
    match GetPackage(w, r, who, name, false)
    case Err(e) => Err(e)
    case Ok(pkg) =>
      match ResolveDefaultRelease(w, r, pkg.id)
      case None => Err(Translate(NotFound, "no released revisions found"))
      case Some(release) =>
        match GetRevisionByNumber(r, pkg.id, release.revision)
        case None => Err(NotFound)
        case Some(rev) =>
          match ResolveResources(r, api, pkg.id, release.resources)
          case Err(e) => Err(e)
          case Ok(resources) =>
            Ok(PackageInfo(pkg, Entry(api, pkg.id, release, rev), resources,
                           FreshChannelMap(r, api, pkg.id, w.listing(ListReleases(r, pkg.id)))))
  }
}
