/** `service.Service` (internal/service): the calls themselves, statement by statement and loop by
    loop, over a repository and a blob store held in fields. Each method is proved equal to its
    function in Calls.dfy or Reads.dfy; what those functions satisfy is proved about them. */
module Service {
  import opened Core
  import opened Repository
  import Repo = Repository
  import opened Access
  import opened Channels
  import C = Calls
  import R = Reads
  import Filenames

  class Service {
    const w: World
    const api: string
    var repo: Repository
    var blobs: C.Blobs

    constructor (w: World, api: string, repo: Repository, blobs: C.Blobs)
      ensures this.w == w && this.api == api && this.repo == repo && this.blobs == blobs
    {
      this.w, this.api, this.repo, this.blobs := w, api, repo, blobs;
    }

    method RegisterPackage(who: Identity, name: string, kind: string, isPrivate: bool, id: Id, now: Time)
      returns (res: Result<Package>)
      modifies this`repo
      ensures (repo, res) == C.RegisterPackage(old(repo), who, name, kind, isPrivate, id, now)
    {
      var allowed := RequirePermission(who, REGISTER_PACKAGE);
      if allowed.Fail? {
        return Err(allowed.error);
      }
      var pkg := C.NewPackage(who, name, kind, isPrivate, id, now);
      var (repo1, created) := Repo.CreatePackage(repo, pkg);
      repo := repo1;
      if created.Fail? {
        return Err(Translate(created.error, "package already exists"));
      }
      var (repo2, tracks) := Repo.CreateTracks(repo, pkg.id, pkg.tracks);
      repo := repo2;
      if tracks.outcome.Fail? {
        return Err(tracks.outcome.error);
      }
      res := Ok(pkg);
    }

    method UpdatePackage(who: Identity, name: string, patch: C.Patch, now: Time) returns (res: Result<Package>)
      modifies this`repo
      ensures (repo, res) == C.PatchPackage(w, old(repo), who, name, patch, now)
    {
      var found := C.Managed(repo, who, name, MANAGE_METADATA);
      if found.Err? {
        return found;
      }
      var pkg := found.value;
      var texts := PatchTexts(pkg.texts, patch);
      pkg := pkg.(texts := texts);
      if patch.defaultTrack.Some? {
        pkg := pkg.(defaultTrack := patch.defaultTrack);
      }
      if patch.isPrivate.Some? {
        pkg := pkg.(isPrivate := patch.isPrivate.value);
      }
      pkg := pkg.(updatedAt := now);
      assert pkg == C.ApplyPatch(found.value, patch, now);
      var (repo1, out) := Repo.UpdatePackage(repo, pkg);
      repo := repo1;
      if out.Fail? {
        return Err(out.error);
      }
      res := C.EnrichPackage(w, repo, pkg);
    }

    /** The free-text part of UpdatePackage: a given field replaces the stored one. */
    method PatchTexts(stored: Texts, patch: C.Patch) returns (texts: Texts)
      ensures texts == C.PatchTexts(stored, patch)
    {
      texts := stored;
      if patch.contact.Some? {
        texts := texts.(contact := patch.contact);
      }
      if patch.description.Some? {
        texts := texts.(description := patch.description);
      }
      if patch.summary.Some? {
        texts := texts.(summary := patch.summary);
      }
      if patch.title.Some? {
        texts := texts.(title := patch.title);
      }
      if patch.website.Some? {
        texts := texts.(website := patch.website);
      }
      if patch.links.Some? {
        texts := texts.(links := patch.links.value);
      }
    }

    method UnregisterPackage(who: Identity, name: string) returns (res: Result<Id>)
      modifies this`repo
      ensures (repo, res) == C.UnregisterPackage(old(repo), who, name)
    {
      var found := C.Managed(repo, who, name, PACKAGE_MANAGE);
      if found.Err? {
        return Err(found.error);
      }
      if HasRevisions(repo, found.value.id) {
        return Err(C.HAS_REVISIONS);
      }
      var (repo1, out) := DeletePackage(repo, found.value.id);
      repo := repo1;
      if out.Fail? {
        return Err(out.error);
      }
      res := Ok(found.value.id);
    }

    method CreateTracks(who: Identity, name: string, tracks: seq<Track>, now: Time) returns (res: Count)
      modifies this`repo
      ensures (repo, res) == C.AddPackageTracks(old(repo), who, name, tracks, now)
    {
      var found := C.Managed(repo, who, name, MANAGE_METADATA);
      if found.Err? {
        return Count(0, Fail(found.error));
      }
      var stamped := tracks;
      for index := 0 to |stamped|
        invariant |stamped| == |tracks|
        invariant forall i | 0 <= i < |tracks| ::
          stamped[i] == if i < index then C.Stamped(tracks[i], now) else tracks[i]
      {
        if stamped[index].createdAt == ZERO_TIME {
          stamped := stamped[index := stamped[index].(createdAt := now)];
        }
      }
      assert stamped == C.StampTracks(tracks, now);
      var (repo1, created) := Repo.CreateTracks(repo, found.value.id, stamped);
      repo := repo1;
      res := created;
    }

    method CreateUpload(filename: string, payload: Bytes, id: Id, now: Time) returns (res: Result<Upload>)
      modifies this
      ensures (repo, blobs, res) == C.CreateUpload(w, old(repo), old(blobs), filename, payload, id, now)
    {
      var key := C.ObjectKey(id, filename);
      blobs := blobs[key := payload];
      var upload := Upload(id, filename, key, |payload|, w.sha256(payload), w.sha384(payload), "pending",
                           C.UploadKind(filename), now, None, None, []);
      var (repo1, out) := Repo.CreateUpload(repo, upload);
      repo := repo1;
      if out.Fail? {
        return Err(out.error);
      }
      res := Ok(upload);
    }

    method PushRevision(who: Identity, name: string, uploadId: Id, revisionId: Id, order: seq<(string, Id)>, now: Time)
      returns (res: Result<string>)
      modifies this`repo
      ensures (repo, res) == C.PushRevision(w, old(repo), blobs, who, name, uploadId, revisionId, order, now)
    {
      var found := C.Managed(repo, who, name, MANAGE_REVISIONS);
      if found.Err? {
        return Err(found.error);
      }
      var pkg := found.value;
      var upload := GetUpload(repo, uploadId);
      if upload.None? {
        return Err(Translate(NotFound, "upload not found"));
      }
      if upload.value.objectKey !in blobs {
        return Err(Storage);
      }
      var parsed := w.parse(blobs[upload.value.objectKey]);
      if parsed.None? {
        repo := ApproveUpload(repo, upload.value.id, None, [C.INVALID_ARCHIVE], now).0;
        return Err(Api(400, "invalid-archive", C.INVALID_ARCHIVE));
      }
      var archive := parsed.value;
      var latest := GetLatestRevision(repo, pkg.id);
      var number := 1;
      if latest.Some? {
        number := latest.value.number + 1;
      }
      var (repo1, out1) := CreateRevision(repo, C.NewRevision(pkg.id, who, upload.value, archive, number, revisionId,
                                                              now));
      repo := repo1;
      if out1.Fail? {
        return Err(out1.error);
      }
      var (repo2, out2) := ApproveUpload(repo, upload.value.id, Some(number), [], now);
      repo := repo2;
      if out2.Fail? {
        return Err(out2.error);
      }
      var (repo3, out3) := Repo.UpdatePackage(repo, C.Published(w, pkg, archive, now));
      repo := repo3;
      if out3.Fail? {
        return Err(out3.error);
      }
      var out4 := UpsertDefinitions(pkg.id, archive, order, now);
      if out4.Fail? {
        return Err(out4.error);
      }
      res := Ok(C.ReviewURL(name, upload.value.id));
    }

    /** The last loop of PushRevision. */
    method UpsertDefinitions(p: Id, archive: Archive, order: seq<(string, Id)>, now: Time) returns (out: Outcome)
      modifies this`repo
      ensures (repo, out) == C.UpsertAll(old(repo), p, archive, order, now)
    {
      for i := 0 to |order|
        invariant C.UpsertAll(old(repo), p, archive, order, now) == C.UpsertAll(repo, p, archive, order[i..], now)
      {
        assert order[i..][1..] == order[i + 1..];
        var (name, id) := order[i];
        if name in archive.resources {
          var (repo1, upserted) := UpsertDefinition(repo, C.Definition(p, name, archive.resources[name], id, now));
          repo := repo1;
          if upserted.Fail? {
            return upserted;
          }
        }
      }
      out := Pass;
    }

    method PushResource(who: Identity, name: string, resource: string, push: C.ResourcePush, id: Id, now: Time)
      returns (res: Result<string>)
      modifies this`repo
      ensures (repo, res) == C.PushResource(w, old(repo), blobs, who, name, resource, push, id, now)
    {
      var found := C.Managed(repo, who, name, MANAGE_REVISIONS);
      if found.Err? {
        return Err(found.error);
      }
      var def := GetDefinition(repo, found.value.id, resource);
      if def.None? {
        return Err(Translate(NotFound, "resource not declared"));
      }
      var upload := GetUpload(repo, push.uploadId);
      if upload.None? {
        return Err(Translate(NotFound, "upload not found"));
      }
      if upload.value.objectKey !in blobs {
        return Err(Storage);
      }
      var payload := blobs[upload.value.objectKey];
      var existing := FirstResourceRevision(repo, def.value.id);
      var number := 1;
      if existing.Some? {
        number := existing.value.number + 1;
      }
      var row := ResourceRevision(
        id, def.value.id, def.value.name, FirstNonEmpty(push.kind, def.value.kind), def.value.description,
        FirstNonEmpty(def.value.filename, upload.value.filename), number, now, |payload|, upload.value.sha256,
        upload.value.sha384, w.sha512(payload), w.sha384(payload), upload.value.objectKey, push.bases,
        push.architectures, [], None);
      if row.kind == "oci-image" {
        row := row.(ociBlob := payload);
        row := row.(objectKey := "");
        row := row.(size := |payload|);
      }
      var (repo1, out1) := CreateResourceRevision(repo, row);
      repo := repo1;
      if out1.Fail? {
        return Err(out1.error);
      }
      var (repo2, out2) := ApproveUpload(repo, upload.value.id, Some(number), [], now);
      repo := repo2;
      if out2.Fail? {
        return Err(out2.error);
      }
      res := Ok(C.ReviewURL(name, upload.value.id));
    }

    method UpdateResourceRevisions(who: Identity, name: string, resource: string, updates: seq<C.ResourceUpdate>)
      returns (updated: nat, out: Outcome)
      modifies this`repo
      ensures (repo, updated, out) == C.UpdateResources(old(repo), who, name, resource, updates)
    {
      updated := 0;
      var found := C.Managed(repo, who, name, MANAGE_REVISIONS);
      if found.Err? {
        return updated, Fail(found.error);
      }
      var def := GetDefinition(repo, found.value.id, resource);
      if def.None? {
        return updated, Fail(Translate(NotFound, "resource not found"));
      }
      updated, out := UpdateEach(def.value.id, updates);
    }

    /** The loop of UpdateResourceRevisions. */
    method UpdateEach(d: Id, updates: seq<C.ResourceUpdate>) returns (updated: nat, out: Outcome)
      modifies this`repo
      ensures (repo, updated, out) == C.UpdateEach(old(repo), d, updates)
    {
      hide C.UpdateOne;
      updated := 0;
      for i := 0 to |updates|
        invariant updated == i
        invariant var (r, done, stop) := C.UpdateEach(repo, d, updates[i..]);
                  C.UpdateEach(old(repo), d, updates) == (r, i + done, stop)
      {
        assert updates[i..][1..] == updates[i + 1..];
        out := UpdateOne(d, updates[i]);
        if out.Fail? {
          return;
        }
        updated := updated + 1;
      }
      out := Pass;
    }

    /** One round of the loop of UpdateResourceRevisions. */
    method UpdateOne(d: Id, update: C.ResourceUpdate) returns (out: Outcome)
      modifies this`repo
      ensures (repo, out) == C.UpdateOne(old(repo), d, update)
    {
      var item := GetResourceRevision(repo, d, update.number);
      if item.None? {
        return Fail(NotFound);
      }
      var changed := item.value.(bases := update.bases);
      changed := changed.(architectures := update.architectures);
      var (repo1, out1) := UpdateResourceRevision(repo, changed);
      repo := repo1;
      out := out1;
    }

    method Release(who: Identity, name: string, requests: seq<Release>, ids: seq<Id>, now: Time)
      returns (res: Result<seq<Release>>)
      requires |ids| == |requests|
      modifies this`repo
      ensures (repo, res) == C.Release(old(repo), who, name, requests, ids, now)
    {
      hide C.Managed, C.ReleaseOne;
      var found := C.Managed(repo, who, name, MANAGE_RELEASES);
      if found.Err? {
        return Err(found.error);
      }
      var pkg := found.value;
      var released: seq<Release> := [];
      for i := 0 to |requests|
        invariant var (r, done, stop) := C.ReleaseEach(repo, who, pkg.id, requests[i..], ids[i..], now);
                  C.ReleaseEach(old(repo), who, pkg.id, requests, ids, now) == (r, i + done, stop)
        invariant released == C.StampAll(requests, ids, now)[..i]
      {
        assert requests[i..][1..] == requests[i + 1..] && ids[i..][1..] == ids[i + 1..];
        var request, out := ReleaseOne(who, pkg.id, requests[i], ids[i], now);
        if out.Fail? {
          return Err(out.error);
        }
        released := released + [request];
      }
      assert released == C.StampAll(requests, ids, now);
      pkg := pkg.(status := "published");
      pkg := pkg.(updatedAt := now);
      var (repo2, out2) := Repo.UpdatePackage(repo, pkg);
      repo := repo2;
      if out2.Fail? {
        return Err(out2.error);
      }
      res := Ok(released);
    }

    /** One round of the loop of Release. */
    method ReleaseOne(who: Identity, p: Id, requested: Release, id: Id, now: Time)
      returns (request: Release, out: Outcome)
      modifies this`repo
      ensures (repo, out) == C.ReleaseOne(old(repo), who, p, requested, id, now)
      ensures out.Pass? ==> request == C.StampRelease(requested, id, now)
    {
      request := requested;
      if request.channel == "" {
        return request, Fail(C.CHANNEL_REQUIRED);
      }
      if GetRevisionByNumber(repo, p, request.revision).None? {
        return request, Fail(Translate(NotFound, "revision not found"));
      }
      if request.when == ZERO_TIME {
        request := request.(when := now);
      }
      if request.id == "" {
        request := request.(id := id);
      }
      var channelAllowed := EnforceChannel(who, request.channel);
      if channelAllowed.Fail? {
        return request, channelAllowed;
      }
      var (repo1, out1) := ReplaceRelease(repo, p, request);
      repo := repo1;
      out := out1;
    }

    // ---------- refresh ----------

    method Refresh(who: Identity, actions: seq<R.Action>) returns (res: Result<seq<R.Item>>)
      ensures res == R.Refresh(w, repo, api, who, actions)
    {
      var results: seq<R.Item> := [];
      R.PrependTwice([], [], R.Refresh(w, repo, api, who, actions));
      for i := 0 to |actions|
        invariant R.Refresh(w, repo, api, who, actions)
          == R.Prepend(results, R.Refresh(w, repo, api, who, actions[i..]))
      {
        assert actions[i..][1..] == actions[i + 1..];
        var item := ResolveRefreshAction(who, actions[i]);
        if item.Err? {
          return Err(item.error);
        }
        R.PrependTwice(results, [item.value], R.Refresh(w, repo, api, who, actions[i + 1..]));
        results := results + [item.value];
      }
      assert results + [] == results;
      res := Ok(results);
    }

    method ResolveRefreshAction(who: Identity, a: R.Action) returns (res: Result<R.Item>)
      ensures res == R.ResolveAction(w, repo, api, who, a)
    {
      var found := R.ResolvePackage(repo, a);
      if found.Err? {
        return R.ErrorItem(a, found.error);
      }
      var pkg := found.value;
      var seen := RequirePackageView(repo, who, pkg, false);
      if seen.Fail? {
        return R.ErrorItem(a, seen.error);
      }
      var selected := R.ResolveReleaseAndRevision(w, repo, pkg.id, a);
      if selected.Err? {
        return R.ErrorItem(a, selected.error);
      }
      var resources := ResolveReleaseResources(pkg.id, selected.value.release.resources);
      if resources.Err? {
        return R.ErrorItem(a, resources.error);
      }
      resources := ApplyResourceOverrides(pkg.id, resources.value, a.overrides);
      if resources.Err? {
        return R.ErrorItem(a, resources.error);
      }
      var revision := selected.value.revision.(resources := resources.value);
      res := Ok(R.ResolvedItem(api, pkg, a, selected.value.(revision := revision)));
    }

    method ResolveReleaseResources(p: Id, refs: seq<ResourceRef>) returns (res: Result<seq<ResourceRevision>>)
      ensures res == R.ResolveResources(repo, api, p, refs)
    {
      var out: seq<ResourceRevision> := [];
      R.PrependTwice([], [], R.ResolveResources(repo, api, p, refs));
      for i := 0 to |refs|
        invariant R.ResolveResources(repo, api, p, refs) == R.Prepend(out, R.ResolveResources(repo, api, p, refs[i..]))
      {
        assert refs[i..][1..] == refs[i + 1..];
        ghost var rest := R.ResolveResources(repo, api, p, refs[i + 1..]);
        R.PrependTwice(out, [], rest);
        var def := GetDefinition(repo, p, refs[i].name);
        if def.None? {
          return Err(NotFound);
        }
        if refs[i].revision.Some? {
          var revision := GetResourceRevision(repo, def.value.id, refs[i].revision.value);
          if revision.None? {
            return Err(NotFound);
          }
          R.PrependTwice(out, [R.Attach(api, p, revision.value)], rest);
          out := out + [R.Attach(api, p, revision.value)];
        }
      }
      assert out + [] == out;
      res := Ok(out);
    }

    /** Builds the lookup map, then replaces the listed items in place. */
    method ApplyResourceOverrides(p: Id, resources: seq<ResourceRevision>, overrides: seq<ResourceRef>)
      returns (res: Result<seq<ResourceRevision>>)
      ensures res == R.ApplyOverrides(repo, api, p, resources, overrides)
    {
      if |overrides| == 0 {
        return Ok(resources);
      }
      var lookup: map<string, int> := map[];
      for i := 0 to |overrides|
        invariant lookup == R.Lookup(overrides[..i])
      {
        assert overrides[..i + 1][..i] == overrides[..i];
        if overrides[i].revision.Some? {
          lookup := lookup[overrides[i].name := overrides[i].revision.value];
        }
      }
      assert overrides[..|overrides|] == overrides;
      var out := resources;
      R.PrependTwice([], [], R.OverrideEach(repo, api, p, resources, lookup));
      for idx := 0 to |resources|
        invariant |out| == |resources| && out[idx..] == resources[idx..]
        invariant R.OverrideEach(repo, api, p, resources, lookup)
                  == R.Prepend(out[..idx], R.OverrideEach(repo, api, p, resources[idx..], lookup))
      {
        assert resources[idx..][1..] == resources[idx + 1..];
        assert out[idx] == out[idx..][0] == resources[idx];
        var item := out[idx];
        if item.name in lookup {
          var def := GetDefinition(repo, p, item.name);
          if def.None? {
            return Err(NotFound);
          }
          var overrideItem := GetResourceRevision(repo, def.value.id, lookup[item.name]);
          if overrideItem.None? {
            return Err(NotFound);
          }
          out := out[idx := R.Attach(api, p, overrideItem.value)];
        }
        assert out[..idx + 1] == out[..idx] + [out[idx]];
        R.PrependTwice(out[..idx], [out[idx]], R.OverrideEach(repo, api, p, resources[idx + 1..], lookup));
      }
      assert out[..|resources|] == out && out + [] == out;
      res := Ok(out);
    }

    // ---------- info ----------

    /** The channel map is built from a cache of revisions that starts with the default revision,
        resources filled in; the answer is the one of a fresh lookup per release. */
    method Info(who: Identity, name: string) returns (res: Result<R.PackageInfo>)
      ensures res == R.Info(w, repo, api, who, name)
    {
      var found := R.GetPackage(w, repo, who, name, false);
      if found.Err? {
        return Err(found.error);
      }
      var pkg := found.value;
      var defaultRelease := ResolveDefaultRelease(w, repo, pkg.id);
      if defaultRelease.None? {
        return Err(Translate(NotFound, "no released revisions found"));
      }
      var defaultRevision := GetRevisionByNumber(repo, pkg.id, defaultRelease.value.revision);
      if defaultRevision.None? {
        return Err(NotFound);
      }
      var resources := ResolveReleaseResources(pkg.id, defaultRelease.value.resources);
      if resources.Err? {
        return Err(resources.error);
      }
      var seeded := defaultRevision.value.(resources := resources.value);
      var releases := w.listing(ListReleases(repo, pkg.id));
      var cache := map[defaultRelease.value.revision := seeded];
      var channelMap: seq<R.ChannelEntry> := [];
      for i := 0 to |releases|
        invariant forall n | n in cache :: exists rev :: GetRevisionByNumber(repo, pkg.id, n) == Some(rev)
                                                         && rev.(resources := cache[n].resources) == cache[n]
        invariant R.FreshChannelMap(repo, api, pkg.id, releases)
                  == channelMap + R.FreshChannelMap(repo, api, pkg.id, releases[i..])
      {
        assert releases[i..][1..] == releases[i + 1..];
        var release := releases[i];
        if release.revision !in cache {
          var loaded := GetRevisionByNumber(repo, pkg.id, release.revision);
          if loaded.None? {
            continue;
          }
          cache := cache[release.revision := loaded.value];
        }
        var entry := R.Entry(api, pkg.id, release, cache[release.revision]);
        assert channelMap + [entry] + R.FreshChannelMap(repo, api, pkg.id, releases[i + 1..])
            == channelMap + ([entry] + R.FreshChannelMap(repo, api, pkg.id, releases[i + 1..]));
        channelMap := channelMap + [entry];
      }
      assert channelMap + [] == channelMap;
      res := Ok(R.PackageInfo(pkg, R.Entry(api, pkg.id, defaultRelease.value, seeded), resources.value,
                              channelMap));
    }
  }
}
