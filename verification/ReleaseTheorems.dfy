/** `Release` as a fold over the channel map, on either repository, and what refresh then sees. */
module ReleaseTheorems {
  import opened Core
  import opened Invariants
  import opened Repository
  import opened Access
  import opened Channels
  import Sql = Tables
  import Mem = MemoryModel
  import C = Calls
  import R = Reads

  /** A release as its channel shows it: the row id and the package id are the store's business. */
  function Shown(r: Release): Release {
    r.(id := "", packageId := "")
  }

  /** The release that is stored and answered for a request: its time and id are filled in when missing, and
      everything else is the request's. */
  predicate FilledIn(request: Release, id: Id, now: Time, out: Release) {
    && out.when == (if request.when == 0 then now else request.when)
    && out.id == (if request.id == "" then id else request.id)
    && out.packageId == request.packageId && out.channel == request.channel && out.revision == request.revision
    && out.base == request.base && out.resources == request.resources && out.expiration == request.expiration
  }

  /** What a channel shows of it: all but the ids. */
  predicate ShowsRequest(request: Release, now: Time, row: Release) {
    && row.when == (if request.when == 0 then now else request.when)
    && row.channel == request.channel && row.revision == request.revision && row.base == request.base
    && row.resources == request.resources && row.expiration == request.expiration
  }

  lemma StampFillsIn(request: Release, id: Id, now: Time)
    ensures FilledIn(request, id, now, C.StampRelease(request, id, now))
    ensures forall row | Shown(row) == Shown(C.StampRelease(request, id, now)) :: ShowsRequest(request, now, row)
  {
    forall row | Shown(row) == Shown(C.StampRelease(request, id, now)) ensures ShowsRequest(request, now, row) {
      var s := C.StampRelease(request, id, now);
      assert Shown(row).when == row.when && Shown(s).when == s.when;
      assert Shown(row).channel == row.channel && Shown(row).revision == row.revision && Shown(row).base == row.base;
      assert Shown(row).resources == row.resources && Shown(row).expiration == row.expiration;
    }
  }

  function ReleasedChannels(r: Repository, p: Id): (cs: set<string>)
    ensures forall c :: c in cs <==> ResolveRelease(r, p, c).Some?
  {
    match r
    case InMemory(m) => Mem.Get(m.releases, p, map[]).Keys
    case Postgres(t) => set k | k in t.releases && k.0 == p :: k.1
  }

  function ChannelMap(r: Repository, p: Id): map<string, Release> {
    map c | c in ReleasedChannels(r, p) :: Shown(ResolveRelease(r, p, c).value)
  }

  /** The old map overwritten by the requests in order. */
  function Overwrite(m: map<string, Release>, requests: seq<Release>): map<string, Release>
    decreases |requests|
  {
    if requests == [] then m else Overwrite(m[requests[0].channel := Shown(requests[0])], requests[1..])
  }

  /** The last request for a channel wins; a channel nobody requested keeps its release. */
  lemma {:induction false} OverwriteAt(m: map<string, Release>, requests: seq<Release>, channel: string, i: nat)
    requires i <= |requests|
    requires forall j | i < j < |requests| :: requests[j].channel != channel
    requires if i < |requests| then requests[i].channel == channel
             else forall j | 0 <= j < i :: requests[j].channel != channel
    ensures i < |requests|
      ==> channel in Overwrite(m, requests) && Overwrite(m, requests)[channel] == Shown(requests[i])
    ensures i == |requests| && channel in m
      ==> channel in Overwrite(m, requests) && Overwrite(m, requests)[channel] == m[channel]
    ensures i == |requests| && channel !in m ==> channel !in Overwrite(m, requests)
    decreases |requests|
  {
    if requests != [] {
      var m1 := m[requests[0].channel := Shown(requests[0])];
      if i > 0 {
        OverwriteAt(m1, requests[1..], channel, i - 1);
      } else {
        OverwriteAt(m1, requests[1..], channel, |requests| - 1);
      }
    }
  }

  /** `after` is `before` with other releases. */
  predicate OnlyReleases(before: Repository, after: Repository) {
    match (before, after)
    case (InMemory(m), InMemory(m')) => m' == m.(releases := m'.releases)
    case (Postgres(t), Postgres(t')) => t' == t.(releases := t'.releases)
    case _ => false
  }

  lemma ReplaceResolves(r: Repository, p: Id, release: Release)
    requires ReplaceRelease(r, p, release).1.Pass?
    ensures var r' := ReplaceRelease(r, p, release).0;
      && OnlyReleases(r, r')
      && ResolveRelease(r', p, release.channel).Some?
      && Shown(ResolveRelease(r', p, release.channel).value) == Shown(release)
      && forall q, c | q != p || c != release.channel :: ResolveRelease(r', q, c) == ResolveRelease(r, q, c)
  {}

  lemma ReplaceShown(r: Repository, p: Id, release: Release)
    requires ReplaceRelease(r, p, release).1.Pass?
    ensures var r' := ReplaceRelease(r, p, release).0;
      && OnlyReleases(r, r')
      && ChannelMap(r', p) == ChannelMap(r, p)[release.channel := Shown(release)]
      && forall q | q != p :: ChannelMap(r', q) == ChannelMap(r, q)
  {
    hide ReplaceRelease, ResolveRelease, OnlyReleases, Shown;
    ReplaceResolves(r, p, release);
  }

  lemma OnlyReleasesTwice(a: Repository, b: Repository, c: Repository)
    ensures OnlyReleases(a, a)
    ensures OnlyReleases(a, b) && OnlyReleases(b, c) ==> OnlyReleases(a, c)
  {}

  /** Why a request is refused. */
  predicate Refusable(r: Repository, who: Identity, p: Id, request: Release) {
    || request.channel == ""
    || GetRevisionByNumber(r, p, request.revision).None?
    || EnforceChannel(who, request.channel).Fail?
    || (r.Postgres? && ReplaceRelease(r, p, request).1.Fail?)
  }

  lemma RefusedLeavesAll(r: Repository, who: Identity, p: Id, request: Release, id: Id, now: Time)
    requires C.ReleaseOne(r, who, p, request, id, now).1.Fail?
    ensures C.ReleaseOne(r, who, p, request, id, now).0 == r
    ensures Refusable(r, who, p, C.StampRelease(request, id, now))
  {}

  /** The loop stops after `k` rounds, at the first request it refuses or at the end; by then the
      channel map is the old one overwritten by exactly those `k`, and nothing else has changed. */
  lemma {:induction false} ReleaseIsFold(r: Repository, who: Identity, p: Id, requests: seq<Release>, ids: seq<Id>,
                                         now: Time)
    requires |ids| == |requests|
    ensures var (r', k, out) := C.ReleaseEach(r, who, p, requests, ids, now);
      && k <= |requests|
      && (out.Pass? <==> k == |requests|)
      && OnlyReleases(r, r')
      && ChannelMap(r', p) == Overwrite(ChannelMap(r, p), C.StampAll(requests[..k], ids[..k], now))
      && (forall q | q != p :: ChannelMap(r', q) == ChannelMap(r, q))
      && (k < |requests| ==> Refusable(r', who, p, C.StampRelease(requests[k], ids[k], now)))
    decreases |requests|
  {
    hide ChannelMap, OnlyReleases, ReplaceRelease, C.ReleaseOne, C.StampRelease, C.StampAll, Refusable, Shown;
    var (r', k, out) := C.ReleaseEach(r, who, p, requests, ids, now);
    OnlyReleasesTwice(r, r, r);
    if requests == [] {
      NoStamps(requests, ids, now);
    } else {
      var (r1, out1) := C.ReleaseOne(r, who, p, requests[0], ids[0], now);
      if out1.Pass? {
        var stamped := C.StampRelease(requests[0], ids[0], now);
        RoundPasses(r, who, p, requests[0], ids[0], now);
        ReplaceShown(r, p, stamped);
        ReleaseIsFold(r1, who, p, requests[1..], ids[1..], now);
        OnlyReleasesTwice(r, r1, r');
        StampTail(requests, ids, now, k);
        SameChannel(requests[0], ids[0], now);
      } else {
        RefusedLeavesAll(r, who, p, requests[0], ids[0], now);
        NoStamps(requests, ids, now);
      }
    }
  }

  lemma RoundPasses(r: Repository, who: Identity, p: Id, request: Release, id: Id, now: Time)
    requires C.ReleaseOne(r, who, p, request, id, now).1.Pass?
    ensures C.ReleaseOne(r, who, p, request, id, now) == ReplaceRelease(r, p, C.StampRelease(request, id, now))
  {}

  lemma SameChannel(request: Release, id: Id, now: Time)
    ensures C.StampRelease(request, id, now).channel == request.channel
  {}

  lemma NoStamps(requests: seq<Release>, ids: seq<Id>, now: Time)
    requires |ids| == |requests|
    ensures C.StampAll(requests[..0], ids[..0], now) == []
  {}

  lemma StampTail(requests: seq<Release>, ids: seq<Id>, now: Time, k: nat)
    requires |ids| == |requests| && 1 <= k <= |requests|
    ensures C.StampAll(requests[..k], ids[..k], now)
            == [C.StampRelease(requests[0], ids[0], now)]
               + C.StampAll(requests[1..][..k - 1], ids[1..][..k - 1], now)
  {}

  lemma ReleaseParts(r: Repository, who: Identity, name: string, requests: seq<Release>, ids: seq<Id>, now: Time)
    requires |ids| == |requests| && C.Release(r, who, name, requests, ids, now).1.Ok?
    ensures C.Managed(r, who, name, MANAGE_RELEASES).Ok?
    ensures var pkg := C.Managed(r, who, name, MANAGE_RELEASES).value;
      var (each, k, out) := C.ReleaseEach(r, who, pkg.id, requests, ids, now);
      GetPackageByName(r, name) == Some(pkg) && out.Pass?
      && C.Release(r, who, name, requests, ids, now).0
         == UpdatePackage(each, pkg.(status := "published", updatedAt := now)).0
  {}

  lemma UpdateKeepsChannels(r: Repository, pkg: Package)
    ensures forall q :: ChannelMap(UpdatePackage(r, pkg).0, q) == ChannelMap(r, q)
  {
    var r' := UpdatePackage(r, pkg).0;
    assert r.Postgres? ==> r'.t.releases == r.t.releases;
    assert r.InMemory? ==> r'.m.releases == r.m.releases;
  }

  /** The whole call: all requests on success, exactly the first `k` on failure, and no other
      package's channels ever. */
  lemma ReleaseCall(r: Repository, who: Identity, name: string, requests: seq<Release>, ids: seq<Id>,
                    now: Time) returns (k: nat)
    requires |ids| == |requests|
    ensures var (r', res) := C.Release(r, who, name, requests, ids, now);
      var found := C.Managed(r, who, name, MANAGE_RELEASES);
      && k <= |requests|
      && (res.Ok? ==>
            && k == |requests| && found.Ok? && |res.value| == |requests|
            && forall i | 0 <= i < |requests| :: FilledIn(requests[i], ids[i], now, res.value[i]))
      && (found.Err? ==> res == Err(found.error) && r' == r)
      && (found.Ok? && k < |requests|
          ==> res.Err? && Refusable(r', who, found.value.id, C.StampRelease(requests[k], ids[k], now)))
      && (found.Ok? ==>
            && ChannelMap(r', found.value.id)
               == Overwrite(ChannelMap(r, found.value.id), C.StampAll(requests[..k], ids[..k], now))
            && (forall i | 0 <= i < k ::
                  FilledIn(requests[i], ids[i], now, C.StampAll(requests[..k], ids[..k], now)[i]))
            && (forall q | q != found.value.id :: ChannelMap(r', q) == ChannelMap(r, q)))
  {
    hide C.Managed, C.ReleaseEach, C.StampAll, ChannelMap, OnlyReleases, Overwrite, FilledIn, Refusable, UpdatePackage;
    k := 0;
    var found := C.Managed(r, who, name, MANAGE_RELEASES);
    if found.Ok? {
      var (r1, done, out) := C.ReleaseEach(r, who, found.value.id, requests, ids, now);
      k := done;
      ReleaseIsFold(r, who, found.value.id, requests, ids, now);
      AllFilledIn(requests, ids, now, k);
      assert requests[..|requests|] == requests && ids[..|ids|] == ids;
      UpdateKeepsChannels(r1, found.value.(status := "published", updatedAt := now));
    }
  }

  lemma AllFilledIn(requests: seq<Release>, ids: seq<Id>, now: Time, k: nat)
    requires |ids| == |requests| && k <= |requests|
    ensures var stamped := C.StampAll(requests[..k], ids[..k], now);
      |stamped| == k && forall i | 0 <= i < k :: FilledIn(requests[i], ids[i], now, stamped[i])
  {
    hide FilledIn, C.StampRelease;
    forall i | 0 <= i < k ensures FilledIn(requests[i], ids[i], now, C.StampAll(requests[..k], ids[..k], now)[i]) {
      StampFillsIn(requests[i], ids[i], now);
    }
  }

  // ---------- release, then refresh ----------

  /** After a successful release over Postgres, refreshing on a channel with a "/" that was among
      the requests gives the revision of its last request and that same effective channel, whether
      the package is named or given by id. */
  lemma RefreshSeesRelease(w: World, t: Sql.Tables, who: Identity, name: string, requests: seq<Release>, ids: seq<Id>,
                           now: Time, i: nat, a: R.Action)
    requires Consistent(t) && |ids| == |requests| && i < |requests|
    requires C.Release(Postgres(t), who, name, requests, ids, now).1.Ok?
    requires forall j | i < j < |requests| :: requests[j].channel != requests[i].channel
    requires a.channel == Some(requests[i].channel) && '/' in requests[i].channel
    requires a.revision.Some? ==> a.revision.value <= 0
    requires name in t.names
    requires a.name == Some(name) || (!R.Named(a.name) && a.id == Some(t.names[name]))
    requires name != "" && t.names[name] != ""
    ensures var u := C.Release(Postgres(t), who, name, requests, ids, now).0;
      var p := t.names[name];
      var n := requests[i].revision;
      && R.ResolvePackage(u, a).Ok? && R.ResolvePackage(u, a).value.id == p
      && GetRevisionByNumber(u, p, n).Some? && GetRevisionByNumber(u, p, n).value.number == n
      && R.ResolveReleaseAndRevision(w, u, p, a).Ok?
      && var s := R.ResolveReleaseAndRevision(w, u, p, a).value;
         && s.revision == GetRevisionByNumber(u, p, n).value
         && s.channel == requests[i].channel
         && s.redirect == requests[i].channel
         && ShowsRequest(requests[i], now, s.release)
  {
    hide Consistent, C.Release;
    var p, c := t.names[name], requests[i].channel;
    ReleasedRow(t, who, name, requests, ids, now, i);
    NormalizeIdempotent(c);
  }

  lemma ReleasedRow(t: Sql.Tables, who: Identity, name: string, requests: seq<Release>, ids: seq<Id>, now: Time, i: nat)
    requires Consistent(t) && |ids| == |requests| && i < |requests| && name in t.names
    requires C.Release(Postgres(t), who, name, requests, ids, now).1.Ok?
    requires forall j | i < j < |requests| :: requests[j].channel != requests[i].channel
    ensures var u := C.Release(Postgres(t), who, name, requests, ids, now).0;
      var p := t.names[name];
      && u.Postgres? && u.t.revisions == t.revisions && (p, requests[i].revision) in t.revisions
      && t.revisions[(p, requests[i].revision)].number == requests[i].revision
      && ResolveRelease(u, p, requests[i].channel).Some?
      && ShowsRequest(requests[i], now, ResolveRelease(u, p, requests[i].channel).value)
      && u.t.names == t.names && p in u.t.packages && u.t.packages[p].id == p && u.t.packages[p].name == name
  {
    hide C.Release, C.ReleaseEach, ReleasesOk, Dense, ResourcesOk, DefinitionsOk;
    var p, c := t.names[name], requests[i].channel;
    ReleaseParts(Postgres(t), who, name, requests, ids, now);
    var pkg := C.Managed(Postgres(t), who, name, MANAGE_RELEASES).value;
    var each := C.ReleaseEach(Postgres(t), who, p, requests, ids, now).0;
    ReleaseIsFold(Postgres(t), who, p, requests, ids, now);
    assert requests[..|requests|] == requests && ids[..|ids|] == ids;
    var stamped := C.StampAll(requests, ids, now);
    OverwriteAt(ChannelMap(Postgres(t), p), stamped, c, i);
    StampFillsIn(requests[i], ids[i], now);
    assert c in ChannelMap(each, p);
    RequestedExists(t, who, p, requests, ids, now, i);
  }

  /** Each released revision was there before. */
  lemma {:induction false} RequestedExists(t: Sql.Tables, who: Identity, p: Id, requests: seq<Release>, ids: seq<Id>,
                                           now: Time, i: nat)
    requires |ids| == |requests| && i < |requests|
    requires C.ReleaseEach(Postgres(t), who, p, requests, ids, now).2.Pass?
    ensures (p, requests[i].revision) in t.revisions
    decreases |requests|
  {
    if i > 0 {
      var r1 := C.ReleaseOne(Postgres(t), who, p, requests[0], ids[0], now).0;
      RequestedExists(r1.t, who, p, requests[1..], ids[1..], now, i - 1);
    }
  }

  /** Release stores channels as written and refresh normalises them: refreshing on a channel reads
      the row of that very channel exactly when it contains a "/". */
  lemma RefreshReadsRow(w: World, r: Repository, p: Id, a: R.Action)
    requires a.channel.Some? && a.channel.value != "" && (a.revision.Some? ==> a.revision.value <= 0)
    ensures var c := a.channel.value;
      var row := if '/' in c then c else "latest/" + c;
      (row == c <==> '/' in c)
      && (ResolveRelease(r, p, row).None? ==>
            R.ResolveReleaseAndRevision(w, r, p, a) == Err(Api(404, "not-found", "release not found")))
      && (ResolveRelease(r, p, row).Some? ==>
            R.ResolveReleaseAndRevision(w, r, p, a) == R.WithRevision(r, p, ResolveRelease(r, p, row).value, row))
  {
    NormalizeIdempotent(a.channel.value);
  }

  /** A channel that no request names keeps its release, and every revision lookup its answer. */
  lemma {:induction false} OtherChannelStays(r: Repository, who: Identity, p: Id, requests: seq<Release>, ids: seq<Id>,
                                             now: Time, c: string)
    requires |ids| == |requests| && forall i | 0 <= i < |requests| :: requests[i].channel != c
    ensures var r' := C.ReleaseEach(r, who, p, requests, ids, now).0;
      && ResolveRelease(r', p, c) == ResolveRelease(r, p, c)
      && (forall n :: GetRevisionByNumber(r', p, n) == GetRevisionByNumber(r, p, n))
    decreases |requests|
  {
    hide ResolveRelease, ReplaceRelease, GetRevisionByNumber;
    if requests != [] {
      var (r1, out) := C.ReleaseOne(r, who, p, requests[0], ids[0], now);
      OneKeepsOthers(r, who, p, requests[0], ids[0], now, c);
      if out.Pass? {
        OtherChannelStays(r1, who, p, requests[1..], ids[1..], now, c);
      }
    }
  }

  lemma OneKeepsOthers(r: Repository, who: Identity, p: Id, request: Release, id: Id, now: Time, c: string)
    requires request.channel != c
    ensures var r' := C.ReleaseOne(r, who, p, request, id, now).0;
      && ResolveRelease(r', p, c) == ResolveRelease(r, p, c)
      && (forall n :: GetRevisionByNumber(r', p, n) == GetRevisionByNumber(r, p, n))
  {
    if C.ReleaseOne(r, who, p, request, id, now).1.Pass? {
      ReplaceResolves(r, p, C.StampRelease(request, id, now));
    } else {
      RefusedLeavesAll(r, who, p, request, id, now);
    }
  }

  lemma UpdateKeepsLookups(r: Repository, pkg: Package, p: Id, c: string)
    ensures var r' := UpdatePackage(r, pkg).0;
      && ResolveRelease(r', p, c) == ResolveRelease(r, p, c)
      && (forall n :: GetRevisionByNumber(r', p, n) == GetRevisionByNumber(r, p, n))
  {}

  /** A release that does not name the row a refresh reads leaves that refresh as it was. With
      `RefreshReadsRow`: releasing on a bare channel is not seen by refreshing on it. */
  lemma ReleaseUnseen(w: World, r: Repository, who: Identity, name: string, requests: seq<Release>, ids: seq<Id>,
                      now: Time, a: R.Action)
    requires |ids| == |requests| && C.Release(r, who, name, requests, ids, now).1.Ok?
    requires a.channel.Some? && a.channel.value != ""
    requires forall i | 0 <= i < |requests| :: requests[i].channel != NormalizeChannel(a.channel.value)
    ensures var p := C.Managed(r, who, name, MANAGE_RELEASES).value.id;
      R.ResolveReleaseAndRevision(w, C.Release(r, who, name, requests, ids, now).0, p, a)
      == R.ResolveReleaseAndRevision(w, r, p, a)
  {
    hide ResolveRelease, GetRevisionByNumber, C.ReleaseEach, C.Managed, UpdatePackage, C.Release;
    ReleaseParts(r, who, name, requests, ids, now);
    var pkg := C.Managed(r, who, name, MANAGE_RELEASES).value;
    var each := C.ReleaseEach(r, who, pkg.id, requests, ids, now).0;
    var row := NormalizeChannel(a.channel.value);
    OtherChannelStays(r, who, pkg.id, requests, ids, now, row);
    UpdateKeepsLookups(each, pkg.(status := "published", updatedAt := now), pkg.id, row);
    assert row != "";
  }

  lemma {:induction false} ReleasedChannelNamed(r: Repository, who: Identity, p: Id, requests: seq<Release>,
                                                ids: seq<Id>, now: Time, i: nat)
    requires |ids| == |requests| && i < |requests| && C.ReleaseEach(r, who, p, requests, ids, now).2.Pass?
    ensures requests[i].channel != ""
    decreases |requests|
  {
    if i > 0 {
      var r1 := C.ReleaseOne(r, who, p, requests[0], ids[0], now).0;
      ReleasedChannelNamed(r1, who, p, requests[1..], ids[1..], now, i - 1);
    }
  }

  /** After a successful release, a refresh on a released channel selects a release on that very
      channel exactly when the channel contains a "/"; then it is the last request for it. */
  lemma RefreshMeetsReleaseExactly(w: World, t: Sql.Tables, who: Identity, name: string, requests: seq<Release>,
                                   ids: seq<Id>, now: Time, i: nat, a: R.Action)
    requires Consistent(t) && |ids| == |requests| && i < |requests|
    requires C.Release(Postgres(t), who, name, requests, ids, now).1.Ok?
    requires forall j | i < j < |requests| :: requests[j].channel != requests[i].channel
    requires a.channel == Some(requests[i].channel) && (a.revision.Some? ==> a.revision.value <= 0)
    requires name in t.names
    ensures var u := C.Release(Postgres(t), who, name, requests, ids, now).0;
      var res := R.ResolveReleaseAndRevision(w, u, t.names[name], a);
      && (res.Ok? && res.value.channel == requests[i].channel <==> '/' in requests[i].channel)
      && (res.Ok? && res.value.channel == requests[i].channel ==>
            ShowsRequest(requests[i], now, res.value.release)
            && res.value.revision.number == requests[i].revision)
  {
    hide Consistent, C.Release, C.Managed, C.ReleaseEach, UpdatePackage;
    ReleaseParts(Postgres(t), who, name, requests, ids, now);
    var pkg := C.Managed(Postgres(t), who, name, MANAGE_RELEASES).value;
    ReleasedChannelNamed(Postgres(t), who, pkg.id, requests, ids, now, i);
    ReleasedRow(t, who, name, requests, ids, now, i);
    var u := C.Release(Postgres(t), who, name, requests, ids, now).0;
    RefreshReadsRow(w, u, t.names[name], a);
    NormalizeIdempotent(requests[i].channel);
  }
}
