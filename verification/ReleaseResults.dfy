/** What a release records and answers, field by field, and which request stops it with which error; on
    either repository. */
module ReleaseResults {
  import opened Core
  import opened Repository
  import opened Access
  import opened AccessTheorems
  import opened Health
  import opened PushResults
  import opened ReleaseTheorems
  import C = Calls
  import Sql = Tables

  // ---------- what is stored ----------

  /** Request `i` is the last one for its channel. */
  predicate LastRequest(requests: seq<Release>, i: int) {
    0 <= i < |requests| && forall j | i < j < |requests| :: requests[j].channel != requests[i].channel
  }

  lemma ChannelShows(r: Repository, p: Id, c: string)
    ensures c in ChannelMap(r, p) <==> ResolveRelease(r, p, c).Some?
    ensures c in ChannelMap(r, p) ==> ChannelMap(r, p)[c] == Shown(ResolveRelease(r, p, c).value)
  {}

  /** The rows of the loop: requested channels show their last request, the others keep their release. */
  lemma RowsRecorded(r: Repository, who: Identity, p: Id, requests: seq<Release>, ids: seq<Id>, now: Time)
    requires |ids| == |requests| && C.ReleaseEach(r, who, p, requests, ids, now).2.Pass?
    ensures var r' := C.ReleaseEach(r, who, p, requests, ids, now).0;
      && (forall i | LastRequest(requests, i) ::
            && ResolveRelease(r', p, requests[i].channel).Some?
            && ShowsRequest(requests[i], now, ResolveRelease(r', p, requests[i].channel).value))
      && (forall c | (forall i | 0 <= i < |requests| :: requests[i].channel != c) ::
            ResolveRelease(r', p, c) == ResolveRelease(r, p, c))
      && OnlyReleases(r, r')
  {
    hide C.ReleaseEach, ResolveRelease, ShowsRequest, ChannelMap, Shown, OnlyReleases;
    var r' := C.ReleaseEach(r, who, p, requests, ids, now).0;
    ReleaseIsFold(r, who, p, requests, ids, now);
    assert requests[..|requests|] == requests && ids[..|ids|] == ids;
    var stamped := C.StampAll(requests, ids, now);
    forall i | LastRequest(requests, i)
      ensures ResolveRelease(r', p, requests[i].channel).Some?
      ensures ShowsRequest(requests[i], now, ResolveRelease(r', p, requests[i].channel).value)
    {
      var c := requests[i].channel;
      StampFillsIn(requests[i], ids[i], now);
      assert forall j | 0 <= j < |requests| :: stamped[j].channel == requests[j].channel;
      OverwriteAt(ChannelMap(r, p), stamped, c, i);
      ChannelShows(r', p, c);
    }
    forall c | (forall i | 0 <= i < |requests| :: requests[i].channel != c)
      ensures ResolveRelease(r', p, c) == ResolveRelease(r, p, c)
    {
      OtherChannelStays(r, who, p, requests, ids, now, c);
    }
  }

  /** The ids of the rows: Memory stores what is answered, ids included; in the tables a channel that had a row
      keeps its id. */
  ghost predicate RowIds(r: Repository, r': Repository, p: Id, requests: seq<Release>, ids: seq<Id>, now: Time)
    requires |ids| == |requests|
  {
    && (r.InMemory? ==>
          forall i | LastRequest(requests, i) ::
            && ResolveRelease(r', p, requests[i].channel).Some?
            && FilledIn(requests[i], ids[i], now, ResolveRelease(r', p, requests[i].channel).value))
    && (r.Postgres? ==>
          forall c | ResolveRelease(r, p, c).Some? ::
            && ResolveRelease(r', p, c).Some?
            && ResolveRelease(r', p, c).value.id == ResolveRelease(r, p, c).value.id)
  }

  lemma {:induction false} RowIdsKept(r: Repository, who: Identity, p: Id, requests: seq<Release>, ids: seq<Id>,
                                      now: Time)
    requires |ids| == |requests| && C.ReleaseEach(r, who, p, requests, ids, now).2.Pass?
    ensures RowIds(r, C.ReleaseEach(r, who, p, requests, ids, now).0, p, requests, ids, now)
    decreases |requests|
  {
    hide FilledIn, ResolveRelease, C.ReleaseOne;
    if requests != [] {
      var rest := requests[1..];
      var r1 := C.ReleaseOne(r, who, p, requests[0], ids[0], now).0;
      OneRow(r, who, p, requests[0], ids[0], now);
      RowIdsKept(r1, who, p, rest, ids[1..], now);
      assert forall j | 0 <= j < |rest| :: rest[j] == requests[j + 1];
      forall i | r.InMemory? && LastRequest(requests, i)
        ensures var row := ResolveRelease(C.ReleaseEach(r, who, p, requests, ids, now).0, p, requests[i].channel);
          row.Some? && FilledIn(requests[i], ids[i], now, row.value)
      {
        if i > 0 {
          assert rest[i - 1] == requests[i] && LastRequest(rest, i - 1);
        } else {
          OtherChannelStays(r1, who, p, rest, ids[1..], now, requests[0].channel);
        }
      }
    }
  }

  lemma OneRow(r: Repository, who: Identity, p: Id, request: Release, id: Id, now: Time)
    requires C.ReleaseOne(r, who, p, request, id, now).1.Pass?
    ensures var r' := C.ReleaseOne(r, who, p, request, id, now).0;
      && (r'.Postgres? <==> r.Postgres?)
      && (r.InMemory? ==>
            && ResolveRelease(r', p, request.channel).Some?
            && FilledIn(request, id, now, ResolveRelease(r', p, request.channel).value))
      && (r.Postgres? ==>
            forall c | ResolveRelease(r, p, c).Some? ::
              && ResolveRelease(r', p, c).Some?
              && ResolveRelease(r', p, c).value.id == ResolveRelease(r, p, c).value.id)
  {}

  /** A successful release: the answer has one item per request, filled in; every requested channel shows its
      last request; no other channel of this or another package changes; and the package is published. */
  lemma ReleaseRecorded(r: Repository, who: Identity, name: string, requests: seq<Release>, ids: seq<Id>, now: Time)
    requires Healthy(r) && |ids| == |requests|
    requires C.Release(r, who, name, requests, ids, now).1.Ok?
    ensures CallRefusal(r, who, name, "package-manage-releases") == None
    ensures GetPackageByName(r, name).Some?
    ensures var (r', res) := C.Release(r, who, name, requests, ids, now);
      var pkg := GetPackageByName(r, name).value;
      var published := pkg.(status := "published", updatedAt := now);
      && |res.value| == |requests|
      && (forall i | 0 <= i < |requests| :: FilledIn(requests[i], ids[i], now, res.value[i]))
      && (forall i | LastRequest(requests, i) ::
            && ResolveRelease(r', pkg.id, requests[i].channel).Some?
            && ShowsRequest(requests[i], now, ResolveRelease(r', pkg.id, requests[i].channel).value))
      && (forall c | (forall i | 0 <= i < |requests| :: requests[i].channel != c) ::
            ResolveRelease(r', pkg.id, c) == ResolveRelease(r, pkg.id, c))
      && GetPackageByID(r', pkg.id) == Some(published) && GetPackageByName(r', name) == Some(published)
      && (forall q | q != pkg.id :: GetPackageByID(r', q) == GetPackageByID(r, q))
      && (forall other | other != name :: GetPackageByName(r', other) == GetPackageByName(r, other))
      && (forall q | q != pkg.id :: ChannelMap(r', q) == ChannelMap(r, q))
      && RowIds(r, r', pkg.id, requests, ids, now)
      && SameUploads(r, r') && SameRevisions(r, r') && SameDefinitions(r, r')
  {
    hide Healthy, Indexed, C.Managed, C.ReleaseEach, ResolveRelease, ChannelMap, OnlyReleases, GetPackageByID,
         GetPackageByName, ManageRefusal,
         UpdatePackage, FilledIn, ShowsRequest, SamePackages, SameUploads, SameRevisions, SameDefinitions, SameOthers;
    if GetPackageByName(r, name).Some? {
      FoundByName(r, name);
    }
    ManagedDecided(r, who, name, "package-manage-releases");
    HealthyIndexed(r);
    var pkg := GetPackageByName(r, name).value;
    var r1 := C.ReleaseEach(r, who, pkg.id, requests, ids, now).0;
    RowsRecorded(r, who, pkg.id, requests, ids, now);
    RowIdsKept(r, who, pkg.id, requests, ids, now);
    OnlyReleasesKeep(r, r1);
    SameLookups(r, r1);
    var published := pkg.(status := "published", updatedAt := now);
    var r2 := UpdatePackage(r1, published).0;
    PackageUpdated(r1, pkg, published);
    ReleasesAside(r1, r2);
    ReleaseIsFold(r, who, pkg.id, requests, ids, now);
    UpdateKeepsChannels(r1, published);
    AllSameTwice(r, r1, r2);
    forall i | 0 <= i < |requests|
      ensures FilledIn(requests[i], ids[i], now, C.StampAll(requests, ids, now)[i])
    {
      StampFillsIn(requests[i], ids[i], now);
    }
  }

  lemma OnlyReleasesKeep(r: Repository, r': Repository)
    requires OnlyReleases(r, r')
    ensures SamePackages(r, r') && SameUploads(r, r') && SameRevisions(r, r') && SameDefinitions(r, r')
  {}

  lemma ReleasesAside(r: Repository, r': Repository)
    requires SameOthers(r, r')
    ensures forall p, c :: ResolveRelease(r', p, c) == ResolveRelease(r, p, c)
  {}

  lemma AllSameTwice(a: Repository, b: Repository, c: Repository)
    ensures SameUploads(a, b) && SameUploads(b, c) ==> SameUploads(a, c)
    ensures SameRevisions(a, b) && SameRevisions(b, c) ==> SameRevisions(a, c)
    ensures SameDefinitions(a, b) && SameDefinitions(b, c) ==> SameDefinitions(a, c)
  {}

  // ---------- when a release stops ----------

  /** Why a request is refused, if it is: the first condition that fails. */
  function Objection(r: Repository, who: Identity, p: Id, request: Release): Option<Error> {
    if request.channel == "" then Some(Api(400, "invalid-request", "channel is required"))
    else if GetRevisionByNumber(r, p, request.revision).None? then Some(Api(404, "not-found", "revision not found"))
    else if who.token.Some? && who.token.value.channels != [] && request.channel !in who.token.value.channels then
      Some(Api(403, "forbidden", "token does not allow this channel"))
    else None
  }

  lemma OneDecided(r: Repository, who: Identity, p: Id, request: Release, id: Id, now: Time)
    ensures var (r', out) := C.ReleaseOne(r, who, p, request, id, now);
      match Objection(r, who, p, request)
      case Some(e) => r' == r && out == Fail(e)
      case None => (r.InMemory? ==> out == Pass) && (out.Fail? ==> out == Fail(Storage))
  {
    ChannelDecided(who, request.channel);
  }

  /** No request brings its own row id, and the ids drawn are new; Memory does not look. */
  ghost predicate NewIds(r: Repository, requests: seq<Release>, ids: seq<Id>)
    requires |ids| == |requests|
  {
    r.Postgres? ==>
      && (forall i | 0 <= i < |requests| :: requests[i].id == "")
      && (forall i, j | 0 <= i < j < |ids| :: ids[i] != ids[j])
      && (forall i, k | 0 <= i < |ids| && k in r.t.releases :: r.t.releases[k].id != ids[i])
  }

  lemma RoundStores(r: Repository, who: Identity, p: Id, requests: seq<Release>, ids: seq<Id>, now: Time)
    requires |ids| == |requests| > 0 && NewIds(r, requests, ids) && GetPackageByID(r, p).Some?
    requires Objection(r, who, p, requests[0]) == None
    ensures var (r', out) := C.ReleaseOne(r, who, p, requests[0], ids[0], now);
      out == Pass && NewIds(r', requests[1..], ids[1..]) && GetPackageByID(r', p).Some?
  {
    ChannelDecided(who, requests[0].channel);
    assert forall i | 0 <= i < |ids| - 1 :: ids[1..][i] == ids[i + 1] && requests[1..][i] == requests[i + 1];
  }

  lemma RoundKeepsRevisions(r: Repository, who: Identity, p: Id, request: Release, id: Id, now: Time)
    ensures var r' := C.ReleaseOne(r, who, p, request, id, now).0;
      forall q, n :: GetRevisionByNumber(r', q, n) == GetRevisionByNumber(r, q, n)
  {}

  lemma {:induction false} LoopDecided(r: Repository, who: Identity, p: Id, requests: seq<Release>, ids: seq<Id>,
                                       now: Time)
    requires |ids| == |requests|
    ensures var (r', k, out) := C.ReleaseEach(r, who, p, requests, ids, now);
      && k <= |requests| && (out.Pass? <==> k == |requests|)
      && (forall i | 0 <= i < k :: Objection(r, who, p, requests[i]).None?)
      && (k < |requests| ==>
            match Objection(r, who, p, requests[k])
            case Some(e) => out == Fail(e)
            case None => out == Fail(Storage))
      && (NewIds(r, requests, ids) && GetPackageByID(r, p).Some? && k < |requests| ==>
            Objection(r, who, p, requests[k]).Some?)
    decreases |requests|
  {
    hide Objection, GetRevisionByNumber, GetPackageByID, C.ReleaseOne, NewIds;
    if requests != [] {
      if NewIds(r, requests, ids) && GetPackageByID(r, p).Some? && Objection(r, who, p, requests[0]).None? {
        RoundStores(r, who, p, requests, ids, now);
      }
      OneDecided(r, who, p, requests[0], ids[0], now);
      var (r1, out1) := C.ReleaseOne(r, who, p, requests[0], ids[0], now);
      if out1.Pass? {
        LoopDecided(r1, who, p, requests[1..], ids[1..], now);
        RoundKeepsRevisions(r, who, p, requests[0], ids[0], now);
        forall i | 0 < i < |requests|
          ensures requests[i] == requests[1..][i - 1]
          ensures Objection(r1, who, p, requests[i]) == Objection(r, who, p, requests[i])
        {
          SameObjection(r, r1, who, p, requests[i]);
        }
      }
    }
  }

  lemma SameObjection(r: Repository, r': Repository, who: Identity, p: Id, request: Release)
    requires GetRevisionByNumber(r', p, request.revision) == GetRevisionByNumber(r, p, request.revision)
    ensures Objection(r', who, p, request) == Objection(r, who, p, request)
  {}

  /** With ids that are new, a release succeeds exactly when no request meets an objection, and otherwise ends with
      the objection to the first request that meets one. */
  lemma ReleaseDecided(r: Repository, who: Identity, name: string, requests: seq<Release>, ids: seq<Id>, now: Time)
    requires Healthy(r) && |ids| == |requests| && CallRefusal(r, who, name, "package-manage-releases") == None
    requires NewIds(r, requests, ids)
    ensures var res := C.Release(r, who, name, requests, ids, now).1;
      var p := GetPackageByName(r, name).value.id;
      && (res.Ok? <==> forall i | 0 <= i < |requests| :: Objection(r, who, p, requests[i]).None?)
      && (forall k | 0 <= k < |requests| && Objection(r, who, p, requests[k]).Some?
                     && (forall i | 0 <= i < k :: Objection(r, who, p, requests[i]).None?) ::
            res == Err(Objection(r, who, p, requests[k]).value))
  {
    hide Healthy, Indexed, C.Managed, C.ReleaseEach, GetPackageByID, GetPackageByName, ManageRefusal, UpdatePackage,
         Objection, NewIds, SamePackages, SameUploads, SameRevisions, SameDefinitions, SameOthers, OnlyReleases,
         ChannelMap;
    FoundByName(r, name);
    ManagedDecided(r, who, name, "package-manage-releases");
    HealthyIndexed(r);
    var pkg := GetPackageByName(r, name).value;
    LoopDecided(r, who, pkg.id, requests, ids, now);
    ReleaseIsFold(r, who, pkg.id, requests, ids, now);
    var r1 := C.ReleaseEach(r, who, pkg.id, requests, ids, now).0;
    OnlyReleasesKeep(r, r1);
    SameLookups(r, r1);
    PackageUpdated(r1, pkg, pkg.(status := "published", updatedAt := now));
  }
}
