/** `repo.Memory` itself: ten map fields that its methods reassign, with its loops. The mutex is
    not modelled: every method body runs without interruption. */
module MemoryRepo {
  import opened Core
  import opened MemoryModel
  import T = Tokens

  function Inserted(sorted: seq<StoreToken>, j: nat, token: StoreToken): seq<StoreToken>
    requires j <= |sorted|
  {
    sorted[..j] + [token] + sorted[j..]
  }

  lemma InsertedSorted(sorted: seq<StoreToken>, j: nat, token: StoreToken)
    requires j <= |sorted| && T.SortedByValidSince(sorted)
    requires j > 0 ==> sorted[j - 1].validSince <= token.validSince
    requires j < |sorted| ==> token.validSince <= sorted[j].validSince
    ensures T.SortedByValidSince(Inserted(sorted, j, token))
  {
    var all := Inserted(sorted, j, token);
    forall a, b | 0 <= a < b < |all| ensures all[a].validSince <= all[b].validSince {
      assert all[a] == if a < j then sorted[a] else if a == j then token else sorted[a - 1];
      assert all[b] == if b < j then sorted[b] else if b == j then token else sorted[b - 1];
    }
  }

  lemma InsertedElements(sorted: seq<StoreToken>, j: nat, token: StoreToken)
    requires j <= |sorted|
    ensures multiset(Inserted(sorted, j, token)) == multiset(sorted) + multiset{token}
  {
    assert sorted == sorted[..j] + sorted[j..];
  }

  /** What `slices.SortFunc` returns here; which of several orders of equal keys is left open. */
  method SortedTokens(tokens: seq<StoreToken>) returns (sorted: seq<StoreToken>)
    ensures T.SortedByValidSince(sorted)
    ensures multiset(sorted) == multiset(tokens)
  {
    sorted := [];
    for i := 0 to |tokens|
      invariant T.SortedByValidSince(sorted)
      invariant multiset(sorted) == multiset(tokens[..i])
    {
      var j := |sorted|;
      while j > 0 && tokens[i].validSince < sorted[j - 1].validSince
        invariant 0 <= j <= |sorted|
        invariant j < |sorted| ==> tokens[i].validSince < sorted[j].validSince
      {
        j := j - 1;
      }
      hide T.SortedByValidSince, Inserted;
      InsertedSorted(sorted, j, tokens[i]);
      InsertedElements(sorted, j, tokens[i]);
      assert tokens[..i + 1] == tokens[..i] + [tokens[i]];
      sorted := Inserted(sorted, j, tokens[i]);
    }
    assert tokens[..|tokens|] == tokens;
  }

  class Memory {
    var accounts: map<string, Account>
    var accountsById: map<Id, Account>
    var tokens: map<string, StoreToken>
    var packages: map<string, Package>
    var packagesById: map<Id, Package>
    var uploads: map<Id, Upload>
    var revisions: map<Id, seq<Revision>>
    var defs: map<Id, map<string, ResourceDefinition>>
    var resourceRevs: map<Id, seq<ResourceRevision>>
    var releases: map<Id, map<string, Release>>

    function Contents(): Mem
      reads this
    {
      Mem(accounts, accountsById, tokens, packages, packagesById, uploads, revisions, defs, resourceRevs, releases)
    }

    constructor ()
      ensures Contents() == EMPTY
    {
      accounts, accountsById, tokens := map[], map[], map[];
      packages, packagesById, uploads, revisions := map[], map[], map[], map[];
      defs, resourceRevs, releases := map[], map[], map[];
    }

    method EnsureAccount(account: Account, now: Time) returns (stored: Account)
      modifies this
      ensures (Contents(), stored) == MemoryModel.EnsureAccount(old(Contents()), account, now)
    {
      if account.subject in accounts {
        stored := accounts[account.subject];
        stored := stored.(email := account.email);
        stored := stored.(displayName := account.displayName);
        stored := stored.(username := account.username);
        accounts := accounts[account.subject := stored];
        accountsById := accountsById[stored.id := stored];
      } else {
        stored := account.(createdAt := now);
        accounts := accounts[account.subject := stored];
        accountsById := accountsById[account.id := stored];
      }
    }

    method CreateStoreToken(token: StoreToken)
      modifies this
      ensures Contents() == MemoryModel.CreateStoreToken(old(Contents()), token)
    {
      tokens := tokens[token.hash := token];
    }

    /** How often `token` belongs in the list once all hashes but `todo` have been met. */
    ghost function Due(token: StoreToken, todo: set<string>, account: Id, includeInactive: bool, now: Time): nat
      reads this
    {
      if T.Stored(Contents(), token) && token.hash !in todo && T.Listed(token, account, includeInactive, now)
      then 1 else 0
    }

    /** The range loop filters, then the tokens are sorted by the start of their validity. */
    method ListStoreTokens(account: Id, includeInactive: bool, now: Time) returns (listed: seq<StoreToken>)
      requires T.TokensKeyed(Contents())
      ensures T.IsListing(Contents(), account, includeInactive, now, listed)
    {
      listed := [];
      var todo := tokens.Keys;
      while todo != {}
        invariant todo <= tokens.Keys
        invariant forall token :: multiset(listed)[token] == Due(token, todo, account, includeInactive, now)
        decreases |todo|
      {
        var hash :| hash in todo;
        todo := todo - {hash};
        var token := tokens[hash];
        if token.accountId != account {
          continue;
        }
        if !includeInactive && (token.revokedAt.Some? || token.validUntil < now) {
          continue;
        }
        listed := listed + [token];
      }
      listed := SortedTokens(listed);
    }

    /** The first token the range loop meets with this account and session is revoked. */
    method RevokeStoreToken(account: Id, session: Id, revokedBy: Id, now: Time) returns (out: Outcome)
      modifies this
      ensures out.Fail? ==> out.error == NotFound && Contents() == old(Contents())
                            && forall h :: !Selects(old(Contents()), h, account, session)
      ensures out.Pass? ==> exists h :: Selects(old(Contents()), h, account, session)
                                        && Contents() == Revoke(old(Contents()), h, revokedBy, now)
    {
      var todo := tokens.Keys;
      while todo != {}
        invariant todo <= tokens.Keys
        invariant forall h | h in tokens && h !in todo :: !Selects(Contents(), h, account, session)
        invariant Contents() == old(Contents())
        decreases |todo|
      {
        var hash :| hash in todo;
        var token := tokens[hash];
        if token.accountId == account && token.sessionId == session {
          assert Selects(old(Contents()), hash, account, session);
          token := token.(revokedAt := Some(now));
          token := token.(revokedBy := Some(revokedBy));
          tokens := tokens[hash := token];
          return Pass;
        }
        todo := todo - {hash};
      }
      out := Fail(NotFound);
    }

    method CreatePackage(pkg: Package) returns (out: Outcome)
      modifies this
      ensures (Contents(), out) == MemoryModel.CreatePackage(old(Contents()), pkg)
    {
      if pkg.name in packages {
        return Fail(Conflict);
      }
      packages := packages[pkg.name := pkg];
      packagesById := packagesById[pkg.id := pkg];
      out := Pass;
    }

    method UpdatePackage(pkg: Package) returns (out: Outcome)
      modifies this
      ensures (Contents(), out) == MemoryModel.UpdatePackage(old(Contents()), pkg)
    {
      if pkg.name !in packages {
        return Fail(NotFound);
      }
      packages := packages[pkg.name := pkg];
      packagesById := packagesById[pkg.id := pkg];
      out := Pass;
    }

    method DeletePackage(p: Id) returns (out: Outcome)
      modifies this
      ensures (Contents(), out) == MemoryModel.DeletePackage(old(Contents()), p)
    {
      if p !in packagesById {
        return Fail(NotFound);
      }
      var pkg := packagesById[p];
      packagesById := packagesById - {p};
      packages := packages - {pkg.name};
      out := Pass;
    }

    method CreateTracks(p: Id, tracks: seq<Track>) returns (out: Count)
      modifies this
      ensures (Contents(), out) == MemoryModel.CreateTracks(old(Contents()), p, tracks)
    {
      if p !in packagesById {
        return Count(0, Fail(NotFound));
      }
      var pkg := packagesById[p];
      var created := 0;
      for i := 0 to |tracks|
        invariant pkg == packagesById[p].(tracks := AddTracks(packagesById[p].tracks, tracks[..i]))
        invariant created == |pkg.tracks| - |packagesById[p].tracks|
      {
        var exists_ := false;
        for j := 0 to |pkg.tracks|
          invariant exists_ <==> HasTrack(pkg.tracks[..j], tracks[i].name)
        {
          assert pkg.tracks[..j + 1] == pkg.tracks[..j] + [pkg.tracks[j]];
          if pkg.tracks[j].name == tracks[i].name {
            exists_ := true;
            assert HasTrack(pkg.tracks[..j + 1], tracks[i].name) by {
              assert pkg.tracks[..j + 1][j].name == tracks[i].name;
            }
          }
          assert HasTrack(pkg.tracks[..j], tracks[i].name) ==> HasTrack(pkg.tracks[..j + 1], tracks[i].name) by {
            if HasTrack(pkg.tracks[..j], tracks[i].name) {
              var k :| 0 <= k < j && pkg.tracks[..j][k].name == tracks[i].name;
              assert pkg.tracks[..j + 1][k].name == tracks[i].name;
            }
          }
        }
        assert pkg.tracks[..|pkg.tracks|] == pkg.tracks;
        assert tracks[..i + 1][..i] == tracks[..i];
        if !exists_ {
          pkg := pkg.(tracks := pkg.tracks + [tracks[i]]);
          created := created + 1;
        }
      }
      assert tracks[..|tracks|] == tracks;
      packagesById := packagesById[p := pkg];
      packages := packages[pkg.name := pkg];
      out := Count(created, Pass);
    }

    method CreateUpload(u: Upload)
      modifies this
      ensures Contents() == MemoryModel.CreateUpload(old(Contents()), u)
    {
      uploads := uploads[u.id := u];
    }

    method ApproveUpload(id: Id, revision: Option<int>, errors: seq<string>, now: Time) returns (out: Outcome)
      modifies this
      ensures (Contents(), out) == MemoryModel.ApproveUpload(old(Contents()), id, revision, errors, now)
      ensures out == if id in old(uploads) then Pass else Fail(NotFound)
      ensures id in old(uploads) ==>
                id in uploads
                && uploads[id] == old(uploads)[id].(status := if errors == [] then "approved" else "rejected",
                                                    errors := errors, revision := revision,
                                                    approvedAt := Some(now))
    {
      if id !in uploads {
        return Fail(NotFound);
      }
      var upload := uploads[id];
      upload := upload.(approvedAt := Some(now));
      upload := upload.(errors := errors);
      if |errors| == 0 {
        upload := upload.(status := "approved");
      } else {
        upload := upload.(status := "rejected");
      }
      upload := upload.(revision := revision);
      uploads := uploads[id := upload];
      out := Pass;
    }

    method CreateRevision(r: Revision)
      modifies this
      ensures Contents() == MemoryModel.CreateRevision(old(Contents()), r)
    {
      revisions := revisions[r.packageId := Get(revisions, r.packageId, []) + [r]];
    }

    method GetRevisionByNumber(p: Id, n: int) returns (out: Option<Revision>)
      ensures out == MemoryModel.GetRevisionByNumber(Contents(), p, n)
    {
      var rows := Get(revisions, p, []);
      for i := 0 to |rows|
        invariant FirstNumbered(rows, n) == FirstNumbered(rows[i..], n)
      {
        if rows[i].number == n {
          return Some(rows[i]);
        }
        assert rows[i..][1..] == rows[i + 1..];
      }
      out := None;
    }

    method UpsertDefinition(d: ResourceDefinition)
      modifies this
      ensures Contents() == MemoryModel.UpsertDefinition(old(Contents()), d)
    {
      if d.packageId !in defs {
        defs := defs[d.packageId := map[]];
      }
      defs := defs[d.packageId := defs[d.packageId][d.name := d]];
    }

    method CreateResourceRevision(r: ResourceRevision)
      modifies this
      ensures Contents() == MemoryModel.CreateResourceRevision(old(Contents()), r)
    {
      resourceRevs := resourceRevs[r.resourceId := Get(resourceRevs, r.resourceId, []) + [r]];
    }

    method UpdateResourceRevision(r: ResourceRevision) returns (out: Outcome)
      modifies this
      ensures (Contents(), out) == MemoryModel.UpdateResourceRevision(old(Contents()), r)
    {
      var entries := Get(resourceRevs, r.resourceId, []);
      for idx := 0 to |entries|
        invariant forall j | 0 <= j < idx :: entries[j].number != r.number
      {
        if entries[idx].number == r.number {
          assert IndexOf(entries, r.number) == idx;
          entries := entries[idx := r];
          resourceRevs := resourceRevs[r.resourceId := entries];
          return Pass;
        }
      }
      out := Fail(NotFound);
    }

    method GetResourceRevision(d: Id, n: int) returns (out: Option<ResourceRevision>)
      ensures out == MemoryModel.GetResourceRevision(Contents(), d, n)
    {
      var rows := Get(resourceRevs, d, []);
      for i := 0 to |rows|
        invariant forall j | 0 <= j < i :: rows[j].number != n
      {
        if rows[i].number == n {
          assert IndexOf(rows, n) == i;
          return Some(rows[i]);
        }
      }
      out := None;
    }

    method ReplaceRelease(p: Id, r: Release)
      modifies this
      ensures Contents() == MemoryModel.ReplaceRelease(old(Contents()), p, r)
    {
      if p !in releases {
        releases := releases[p := map[]];
      }
      releases := releases[p := releases[p][r.channel := r]];
    }
  }
}
