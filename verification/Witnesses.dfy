/** Concrete sessions over an empty registry for two properties that the code does not have: resource
    numbers that tell revisions apart over Memory, and a release on a bare channel that refreshing on
    the same channel sees. When each does hold is in MemoryNumbering.dfy and ReleaseTheorems.dfy. */
module Witnesses {
  import opened Core
  import opened Access
  import opened Channels
  import opened Repository
  import opened Sessions
  import M = MemoryModel
  import Sql = Tables
  import C = Calls
  import R = Reads
  import S = Simulation
  import SS = SimulationSteps
  import ST = SimulationTheorems

  const OWNER := Identity("owner", None, true)

  function RegisterCall(): Call {
    Call.Register(OWNER, "charm", "charm", false, "p", 1)
  }

  function UploadCall(id: Id, payload: Bytes): Call {
    Call.Upload("file", payload, id, 1)
  }

  function PushCall(): Call {
    Call.PushRevision(OWNER, "charm", "u", "row", [("r", "d")], 1)
  }

  function ResourceCall(uploadId: Id, id: Id): Call {
    Call.PushResource(OWNER, "charm", "r", C.ResourcePush(uploadId, "", [], []), id, 1)
  }

  // ---------- a package of the owner with a revision and the resource "r" ----------

  /** The owner's package is stored under both indexes. */
  predicate HasPackage(m: M.Mem) {
    && "charm" in m.packages && "p" in m.packagesById && m.packagesById["p"] == m.packages["charm"]
    && m.packages["charm"].id == "p" && m.packages["charm"].name == "charm"
    && m.packages["charm"].owner == "owner" && !m.packages["charm"].isPrivate
  }

  /** The upload and its blob. */
  predicate HasUpload(g: Registry, id: Id, payload: Bytes) {
    && g.repo.InMemory? && id in g.repo.m.uploads && g.repo.m.uploads[id].id == id
    && g.repo.m.uploads[id].objectKey == C.ObjectKey(id, "file")
    && C.ObjectKey(id, "file") in g.blobs && g.blobs[C.ObjectKey(id, "file")] == payload
  }

  predicate Declares(m: M.Mem, decl: ResourceDecl) {
    && "p" in m.defs && "r" in m.defs["p"]
    && m.defs["p"]["r"] == C.Definition("p", "r", decl, "d", 1)
  }

  /** What a download of the row returns. */
  predicate Holds(g: Registry, row: ResourceRevision, payload: Bytes) {
    if row.objectKey == "" then row.ociBlob == payload
    else row.objectKey in g.blobs && g.blobs[row.objectKey] == payload
  }

  lemma OwnerManages(m: M.Mem, permission: string)
    requires HasPackage(m)
    ensures C.Managed(InMemory(m), OWNER, "charm", permission) == Ok(m.packages["charm"])
  {}

  lemma Registered(w: World)
    ensures var (g, a) := Serve(w, Registry.Registry(InMemory(M.EMPTY), map[]), RegisterCall());
      Succeeded(a) && g.repo.InMemory? && HasPackage(g.repo.m) && g.blobs == map[]
      && g.repo.m == M.EMPTY.(packages := g.repo.m.packages, packagesById := g.repo.m.packagesById)
  {
    SS.RegisterMemory(M.EMPTY, OWNER, "charm", "charm", false, "p", 1);
    hide C.RegisterPackage;
  }

  lemma KeysApart(a: Id, b: Id)
    requires a == "u" && b == "v"
    ensures C.ObjectKey(a, "file") != C.ObjectKey(b, "file")
  {
    assert C.ObjectKey(a, "file")[8] == 'u' && C.ObjectKey(b, "file")[8] == 'v';
  }

  lemma Uploaded(w: World, g: Registry, id: Id, payload: Bytes)
    requires g.repo.InMemory?
    ensures var (g', a) := Serve(w, g, UploadCall(id, payload));
      && Succeeded(a) && g'.repo.InMemory? && HasUpload(g', id, payload)
      && g'.repo.m == g.repo.m.(uploads := g'.repo.m.uploads)
      && (forall k | k != C.ObjectKey(id, "file") && k in g.blobs :: k in g'.blobs && g'.blobs[k] == g.blobs[k])
      && (forall i | i != id && i in g.repo.m.uploads ::
          i in g'.repo.m.uploads && g'.repo.m.uploads[i] == g.repo.m.uploads[i])
  {}

  /** A push of the charm whose archive has been parsed stores revision 1 and the definition of "r". */
  lemma ArchivePushed(w: World, m: M.Mem, archive: Archive)
    requires HasPackage(m) && "u" in m.uploads && m.uploads["u"].id == "u" && "r" in archive.resources
    requires "p" !in m.revisions && "p" !in m.defs
    ensures var (r, a) := C.PushArchive(w, InMemory(m), OWNER, "charm", m.packages["charm"], m.uploads["u"], archive,
                                        "row", [("r", "d")], 1);
      && a.Ok? && r.InMemory? && HasPackage(r.m) && Declares(r.m, archive.resources["r"])
      && M.GetRevisionByNumber(r.m, "p", 1).Some?
      && r.m.resourceRevs == m.resourceRevs && r.m.releases == m.releases
      && "u" in r.m.uploads && r.m.uploads["u"].id == "u" && r.m.uploads["u"].objectKey == m.uploads["u"].objectKey
  {
    hide C.NewRevision, C.Definition, C.UpsertAll, M.ApproveUpload;
    var pkg, up := m.packages["charm"], m.uploads["u"];
    SS.RevisionIs("p", OWNER, up, archive, 1, "row", 1);
    var m1 := M.CreateRevision(m, C.NewRevision("p", OWNER, up, archive, 1, "row", 1));
    var m2 := M.ApproveUpload(m1, "u", Some(1), [], 1).0;
    Reviewed(m1);
    var m3 := M.UpdatePackage(m2, C.Published(w, pkg, archive, 1)).0;
    OneUpserted(m3, archive);
    DefinitionIs(archive.resources["r"]);
  }

  lemma Reviewed(m: M.Mem)
    requires "u" in m.uploads
    ensures var (m', out) := M.ApproveUpload(m, "u", Some(1), [], 1);
      && out.Pass? && m' == m.(uploads := m'.uploads) && "u" in m'.uploads
      && m'.uploads["u"].id == m.uploads["u"].id && m'.uploads["u"].objectKey == m.uploads["u"].objectKey
  {}

  lemma OneUpserted(m: M.Mem, archive: Archive)
    requires "r" in archive.resources
    ensures C.UpsertAll(InMemory(m), "p", archive, [("r", "d")], 1)
            == (InMemory(M.UpsertDefinition(m, C.Definition("p", "r", archive.resources["r"], "d", 1))), Pass)
  {
    hide C.Definition;
    var m1 := M.UpsertDefinition(m, C.Definition("p", "r", archive.resources["r"], "d", 1));
    assert [("r", "d")][1..] == [];
    assert C.UpsertAll(InMemory(m1), "p", archive, [], 1) == (InMemory(m1), Pass);
  }

  lemma DefinitionIs(decl: ResourceDecl)
    ensures var d := C.Definition("p", "r", decl, "d", 1);
      d.packageId == "p" && d.name == "r"
  {}

  lemma Pushed(w: World, g: Registry, payload: Bytes, archive: Archive)
    requires g.repo.InMemory? && HasPackage(g.repo.m) && HasUpload(g, "u", payload)
    requires w.parse(payload) == Some(archive) && "r" in archive.resources
    requires "p" !in g.repo.m.revisions && "p" !in g.repo.m.defs
    ensures var (g', a) := Serve(w, g, PushCall());
      && Succeeded(a) && g'.repo.InMemory? && g'.blobs == g.blobs
      && HasPackage(g'.repo.m) && HasUpload(g', "u", payload)
      && Declares(g'.repo.m, archive.resources["r"])
      && M.GetRevisionByNumber(g'.repo.m, "p", 1).Some?
      && g'.repo.m.resourceRevs == g.repo.m.resourceRevs && g'.repo.m.releases == g.repo.m.releases
  {
    hide C.Managed, C.PushArchive, C.ObjectKey, Declares;
    OwnerManages(g.repo.m, MANAGE_REVISIONS);
    ArchivePushed(w, g.repo.m, archive);
  }

  /** A push of the resource from a stored upload adds the row with the number computed from the
      first one. */
  lemma ResourcePushed(w: World, g: Registry, decl: ResourceDecl, uploadId: Id, payload: Bytes, id: Id)
    requires HasUpload(g, uploadId, payload) && HasPackage(g.repo.m) && Declares(g.repo.m, decl)
    ensures var (g', a) := Serve(w, g, ResourceCall(uploadId, id));
      var rows, rows' := M.ListResourceRevisions(g.repo.m, "d"), M.ListResourceRevisions(g'.repo.m, "d");
      && Succeeded(a) && g'.repo.InMemory? && g'.blobs == g.blobs
      && HasPackage(g'.repo.m) && Declares(g'.repo.m, decl)
      && (forall i, bytes | HasUpload(g, i, bytes) :: HasUpload(g', i, bytes))
      && |rows'| == |rows| + 1 && rows' == rows + [rows'[|rows|]]
      && rows'[|rows|].number == (if rows == [] then 1 else rows[0].number + 1)
      && Holds(g', rows'[|rows|], payload)
  {
    OwnerManages(g.repo.m, MANAGE_REVISIONS);
    hide C.Managed;
  }

  // ---------- sessions ----------

  const NOTHING := Registry.Registry(InMemory(M.EMPTY), map[])

  predicate AllSucceed(answers: seq<Answer>) {
    forall i | 0 <= i < |answers| :: Succeeded(answers[i])
  }

  /** The first call of a session, then the others. */
  lemma First(w: World, g: Registry, c: Call, rest: seq<Call>)
    requires WellFormed(c) && forall d | d in rest :: WellFormed(d)
    ensures forall d | d in [c] + rest :: WellFormed(d)
    ensures ServeAll(w, g, [c] + rest) == ServeAll(w, Serve(w, g, c).0, rest)
    ensures Succeeded(Serve(w, g, c).1) && AllSucceed(Answers(w, Serve(w, g, c).0, rest))
            ==> AllSucceed(Answers(w, g, [c] + rest))
  {
    assert ([c] + rest)[1..] == rest;
  }

  lemma Nothing(w: World, g: Registry)
    ensures ServeAll(w, g, []) == g && AllSucceed(Answers(w, g, []))
  {}

  /** A charm registered, uploaded and pushed, and then `rest`. */
  function Opening(payload: Bytes, rest: seq<Call>): seq<Call> {
    [RegisterCall()] + ([UploadCall("u", payload)] + ([PushCall()] + rest))
  }

  ghost predicate Opened(w: World, g: Registry, payload: Bytes, archive: Archive) {
    && "r" in archive.resources
    && g.repo.InMemory? && HasPackage(g.repo.m) && HasUpload(g, "u", payload)
    && Declares(g.repo.m, archive.resources["r"])
    && M.GetRevisionByNumber(g.repo.m, "p", 1).Some?
    && g.repo.m.resourceRevs == map[] && g.repo.m.releases == map[]
  }

  lemma Opens(w: World, payload: Bytes, archive: Archive, rest: seq<Call>) returns (g: Registry)
    requires w.parse(payload) == Some(archive) && "r" in archive.resources
    requires forall d | d in rest :: WellFormed(d)
    ensures Opened(w, g, payload, archive)
    ensures forall d | d in Opening(payload, rest) :: WellFormed(d)
    ensures ServeAll(w, NOTHING, Opening(payload, rest)) == ServeAll(w, g, rest)
    ensures AllSucceed(Answers(w, g, rest)) ==> AllSucceed(Answers(w, NOTHING, Opening(payload, rest)))
  {
    hide Serve, AllSucceed, ServeAll, Answers, HasPackage, HasUpload, Declares;
    var g1 := Serve(w, NOTHING, RegisterCall()).0;
    Registered(w);
    var g2 := Serve(w, g1, UploadCall("u", payload)).0;
    Uploaded(w, g1, "u", payload);
    SamePackage(g1.repo.m, g2.repo.m);
    g := Serve(w, g2, PushCall()).0;
    Pushed(w, g2, payload, archive);
    First(w, g2, PushCall(), rest);
    First(w, g1, UploadCall("u", payload), [PushCall()] + rest);
    First(w, NOTHING, RegisterCall(), [UploadCall("u", payload)] + ([PushCall()] + rest));
  }

  lemma SamePackage(m: M.Mem, m': M.Mem)
    requires HasPackage(m) && m'.packages == m.packages && m'.packagesById == m.packagesById
    ensures HasPackage(m')
  {}

  // ---------- a resource number that two revisions share ----------

  function ThreePushes(payload: Bytes, other: Bytes): seq<Call> {
    Opening(payload, [UploadCall("v", other)] + Pushes())
  }

  function Pushes(): seq<Call> {
    [ResourceCall("u", "first")] + ([ResourceCall("u", "second")] + ([ResourceCall("v", "last")] + []))
  }

  lemma SecondIsTwo(m: M.Mem)
    requires var rows := M.ListResourceRevisions(m, "d");
      |rows| == 3 && rows[0].number == 1 && rows[1].number == 2
    ensures M.GetResourceRevision(m, "d", 2) == Some(M.ListResourceRevisions(m, "d")[1])
  {
    var rows := M.ListResourceRevisions(m, "d");
    assert rows[1].number == 2;
    var i := M.IndexOf(rows, 2);
    assert i != 0;
  }

  lemma DownloadIs(g: Registry, decl: ResourceDecl, n: int, row: ResourceRevision, payload: Bytes)
    requires g.repo.InMemory? && HasPackage(g.repo.m) && Declares(g.repo.m, decl)
    requires M.GetResourceRevision(g.repo.m, "d", n) == Some(row) && Holds(g, row, payload)
    ensures C.DownloadResource(g.repo, g.blobs, OWNER, "p", "r", n) == Ok(payload)
  {
    hide M.GetResourceRevision;
  }

  /** The second upload leaves what was there. */
  lemma UploadedToo(w: World, g: Registry, payload: Bytes, other: Bytes, archive: Archive)
    requires Opened(w, g, payload, archive)
    ensures var (g', a) := Serve(w, g, UploadCall("v", other));
      && Succeeded(a) && Opened(w, g', payload, archive) && HasUpload(g', "v", other)
  {
    KeysApart("u", "v");
    Uploaded(w, g, "v", other);
    hide Serve, HasPackage, Declares, M.GetRevisionByNumber;
    var g' := Serve(w, g, UploadCall("v", other)).0;
    SamePackage(g.repo.m, g'.repo.m);
    SameDefinitions(g.repo.m, g'.repo.m, archive.resources["r"]);
  }

  lemma SameDefinitions(m: M.Mem, m': M.Mem, decl: ResourceDecl)
    requires Declares(m, decl) && M.GetRevisionByNumber(m, "p", 1).Some?
    requires m'.defs == m.defs && m'.revisions == m.revisions
    ensures Declares(m', decl) && M.GetRevisionByNumber(m', "p", 1).Some?
  {}

  /** Three pushes in a row. */
  lemma PushedThrice(w: World, g: Registry, decl: ResourceDecl, payload: Bytes, other: Bytes)
    requires HasUpload(g, "u", payload) && HasUpload(g, "v", other) && HasPackage(g.repo.m) && Declares(g.repo.m, decl)
    requires M.ListResourceRevisions(g.repo.m, "d") == []
    ensures AllSucceed(Answers(w, g, Pushes()))
    ensures var g' := ServeAll(w, g, Pushes());
      && g'.repo.InMemory? && HasPackage(g'.repo.m) && Declares(g'.repo.m, decl)
      && var rows := M.ListResourceRevisions(g'.repo.m, "d");
         && |rows| == 3 && rows[0].number == 1 && rows[1].number == 2 && rows[2].number == 2
         && Holds(g', rows[1], payload) && Holds(g', rows[2], other)
  {
    hide Serve, HasPackage, HasUpload, Declares, M.ListResourceRevisions;
    var a, b, c := ResourceCall("u", "first"), ResourceCall("u", "second"), ResourceCall("v", "last");
    var g1 := Serve(w, g, a).0;
    ResourcePushed(w, g, decl, "u", payload, "first");
    var g2 := Serve(w, g1, b).0;
    ResourcePushed(w, g1, decl, "u", payload, "second");
    var g3 := Serve(w, g2, c).0;
    ResourcePushed(w, g2, decl, "v", other, "last");
    First(w, g2, c, []);
    First(w, g1, b, [c] + []);
    First(w, g, a, [b] + ([c] + []));
  }

  lemma AllDistinct(payload: Bytes, other: Bytes)
    ensures AllFresh({}, ThreePushes(payload, other))
  {
    hide AllFresh, Fresh;
    Letters();
    var a, b, c := ResourceCall("u", "first"), ResourceCall("u", "second"), ResourceCall("v", "last");
    DrawsFirst({"p", "u", "row", "d", "v", "first", "second"}, c, [],
               {"p", "u", "row", "d", "v", "first", "second", "last"});
    DrawsFirst({"p", "u", "row", "d", "v", "first"}, b, [c] + [], {"p", "u", "row", "d", "v", "first", "second"});
    DrawsFirst({"p", "u", "row", "d", "v"}, a, [b] + ([c] + []), {"p", "u", "row", "d", "v", "first"});
    DrawsFirst({"p", "u", "row", "d"}, UploadCall("v", other), Pushes(), {"p", "u", "row", "d", "v"});
    OpeningFresh(payload, [UploadCall("v", other)] + Pushes());
  }

  lemma Letters()
    ensures "p" != "u" && "p" != "d" && "p" != "v" && "u" != "d" && "u" != "v" && "d" != "v"
  {
    assert "p"[0] == 'p' && "u"[0] == 'u' && "d"[0] == 'd' && "v"[0] == 'v';
  }

  /** The first call draws ids of its own. */
  lemma DrawsFirst(drawn: set<Id>, c: Call, rest: seq<Call>, after: set<Id>)
    requires WellFormed(c) && Draws(c) !! drawn && after == drawn + Draws(c) && AllFresh(after, rest)
    requires c.PushRevision? ==> Distinct(Seconds(c.order)) && c.id !in OrderIds(c.order)
    requires c.Publish? ==> Distinct(c.ids)
    ensures AllFresh(drawn, [c] + rest)
  {
    assert ([c] + rest)[1..] == rest;
  }

  lemma OpeningFresh(payload: Bytes, rest: seq<Call>)
    requires AllFresh({"p", "u", "row", "d"}, rest)
    ensures AllFresh({}, Opening(payload, rest))
  {
    hide AllFresh, Fresh;
    Letters();
    var push := PushCall();
    assert OrderIds(push.order) == {"d"} by {
      assert push.order[0].1 == "d";
    }
    DrawsFirst({"p", "u"}, push, rest, {"p", "u", "row", "d"});
    DrawsFirst({"p"}, UploadCall("u", payload), [push] + rest, {"p", "u"});
    DrawsFirst({}, RegisterCall(), [UploadCall("u", payload)] + ([push] + rest), {"p"});
  }

  /** Over Memory, a charm that declares a resource is pushed, then the resource three times: every
      call succeeds, the numbers are 1, 2 and 2, and a download of number 2 gives the bytes of the
      second push, never those of the third. */
  lemma ThirdPushReusesTwo(w: World, payload: Bytes, other: Bytes, archive: Archive)
    requires w.parse(payload) == Some(archive) && "r" in archive.resources && other != payload
    ensures AllFresh({}, ThreePushes(payload, other))
    ensures forall c | c in ThreePushes(payload, other) :: WellFormed(c)
    ensures AllSucceed(Answers(w, NOTHING, ThreePushes(payload, other)))
    ensures var g := ServeAll(w, NOTHING, ThreePushes(payload, other));
      && g.repo.InMemory?
      && var rows := M.ListResourceRevisions(g.repo.m, "d");
         && |rows| == 3 && rows[0].number == 1 && rows[1].number == 2 && rows[2].number == 2
         && M.GetResourceRevision(g.repo.m, "d", 2) == Some(rows[1])
         && Holds(g, rows[2], other) && !Holds(g, rows[1], other)
         && C.DownloadResource(g.repo, g.blobs, OWNER, "p", "r", 2) == Ok(payload)
  {
    hide Serve, ServeAll, Answers, AllFresh, HasPackage, HasUpload, Declares, AllSucceed, Pushes, M.GetResourceRevision,
         M.ListResourceRevisions, Holds, C.DownloadResource;
    AllDistinct(payload, other);
    AllWellFormed({}, ThreePushes(payload, other));
    var rest := [UploadCall("v", other)] + Pushes();
    var g := Opens(w, payload, archive, rest);
    UploadedToo(w, g, payload, other, archive);
    First(w, g, UploadCall("v", other), Pushes());
    var g1 := Serve(w, g, UploadCall("v", other)).0;
    NoRows(g1);
    PushedThrice(w, g1, archive.resources["r"], payload, other);
    var g2 := ServeAll(w, g1, Pushes());
    SecondIsTwo(g2.repo.m);
    var rows := M.ListResourceRevisions(g2.repo.m, "d");
    HoldsOne(g2, rows[1], payload, other);
    DownloadIs(g2, archive.resources["r"], 2, rows[1], payload);
  }

  lemma NoRows(g: Registry)
    requires g.repo.InMemory? && g.repo.m.resourceRevs == map[]
    ensures M.ListResourceRevisions(g.repo.m, "d") == []
  {}

  lemma HoldsOne(g: Registry, row: ResourceRevision, payload: Bytes, other: Bytes)
    requires Holds(g, row, payload) && other != payload
    ensures !Holds(g, row, other)
  {}

  // ---------- a release that refreshing does not see ----------

  const STABLE := Release("", "", "stable", 1, None, [], 0, None)

  function BareCall(): Call {
    Publish(OWNER, "charm", [STABLE], ["id"], 1)
  }

  function BareRelease(payload: Bytes): seq<Call> {
    Opening(payload, [BareCall()] + [])
  }

  /** A refresh by name on the bare channel that was released. */
  const REFRESH := R.Action("install", "key", None, Some("charm"), None, Some("stable"), [])

  /** A charm is pushed and released to "stable", all with success, and refreshing on "stable" answers
      that there is no such release: over Memory, and by `BareReleaseInTables` over the tables. */
  lemma BareReleaseNotFound(w: World, api: string, who: Identity, payload: Bytes, archive: Archive)
    requires w.parse(payload) == Some(archive) && "r" in archive.resources
    ensures AllFresh({}, BareRelease(payload))
    ensures forall c | c in BareRelease(payload) :: WellFormed(c)
    ensures AllSucceed(Answers(w, NOTHING, BareRelease(payload)))
    ensures var g := ServeAll(w, NOTHING, BareRelease(payload));
      && ResolveRelease(g.repo, "p", "stable").Some?
      && R.ResolveAction(w, g.repo, api, who, REFRESH) == Ok(R.Refused("key", "not-found", "release not found"))
  {
    hide ServeAll, Answers, AllFresh, HasPackage, AllSucceed, R.ResolveAction;
    BareReleaseStored(w, payload, archive);
    var g := ServeAll(w, NOTHING, BareRelease(payload));
    PackageShown(g.repo.m);
    NotFoundBare(w, g.repo, api, who);
  }

  lemma BareReleaseStored(w: World, payload: Bytes, archive: Archive)
    requires w.parse(payload) == Some(archive) && "r" in archive.resources
    ensures AllFresh({}, BareRelease(payload))
    ensures forall c | c in BareRelease(payload) :: WellFormed(c)
    ensures AllSucceed(Answers(w, NOTHING, BareRelease(payload)))
    ensures var g := ServeAll(w, NOTHING, BareRelease(payload));
      && g.repo.InMemory? && HasPackage(g.repo.m)
      && ResolveRelease(g.repo, "p", "stable").Some? && ResolveRelease(g.repo, "p", "latest/stable").None?
  {
    hide Serve, ServeAll, Answers, AllFresh, HasPackage, HasUpload, Declares, AllSucceed;
    BareFresh(payload);
    AllWellFormed({}, BareRelease(payload));
    var call := BareCall();
    var g := Opens(w, payload, archive, [call] + []);
    First(w, g, call, []);
    PublishedBare(w, g);
    Nothing(w, Serve(w, g, call).0);
  }

  lemma BareFresh(payload: Bytes)
    ensures AllFresh({}, BareRelease(payload))
  {
    hide AllFresh, Fresh;
    var call := BareCall();
    assert Draws(call) == {"id"} by {
      assert call.ids[0] == "id";
    }
    DrawsFirst({"p", "u", "row", "d"}, call, [], {"p", "u", "row", "d", "id"});
    OpeningFresh(payload, [call] + []);
  }

  lemma PublishedBare(w: World, g: Registry)
    requires g.repo.InMemory? && HasPackage(g.repo.m) && g.repo.m.releases == map[]
    requires M.GetRevisionByNumber(g.repo.m, "p", 1).Some?
    ensures var (g', a) := Serve(w, g, BareCall());
      && Succeeded(a) && g'.repo.InMemory? && HasPackage(g'.repo.m)
      && ResolveRelease(g'.repo, "p", "stable").Some? && ResolveRelease(g'.repo, "p", "latest/stable").None?
  {
    hide C.Managed, HasPackage;
    OwnerManages(g.repo.m, MANAGE_RELEASES);
    PackageShown(g.repo.m);
    ReleasedBare(g.repo.m);
  }

  lemma PackageShown(m: M.Mem)
    requires HasPackage(m)
    ensures GetPackageByName(InMemory(m), "charm") == Some(m.packages["charm"]) && m.packages["charm"].id == "p"
    ensures !m.packages["charm"].isPrivate && m.packages["charm"].name == "charm"
  {}

  lemma ReleasedBare(m: M.Mem)
    requires HasPackage(m) && m.releases == map[] && M.GetRevisionByNumber(m, "p", 1).Some?
    ensures var (r, a) := C.ReleaseManaged(InMemory(m), OWNER, m.packages["charm"], [STABLE], ["id"], 1);
      && a.Ok? && r.InMemory? && HasPackage(r.m)
      && ResolveRelease(r, "p", "stable").Some? && ResolveRelease(r, "p", "latest/stable").None?
  {
    hide M.GetRevisionByNumber;
    var r1 := InMemory(M.ReplaceRelease(m, "p", C.StampRelease(STABLE, "id", 1)));
    assert C.ReleaseOne(InMemory(m), OWNER, "p", STABLE, "id", 1) == (r1, Pass);
    assert C.ReleaseEach(r1, OWNER, "p", [], [], 1) == (r1, 0, Pass);
    assert C.ReleaseEach(InMemory(m), OWNER, "p", [STABLE], ["id"], 1) == (r1, 1, Pass);
    assert |"stable"| != |"latest/stable"|;
  }

  lemma StableRow()
    ensures NormalizeChannel("stable") == "latest/stable"
  {
    assert "latest/" + "stable" == "latest/stable";
    assert "latest/stable"[7..] == "stable";
  }

  lemma NotFoundBare(w: World, r: Repository, api: string, who: Identity)
    requires GetPackageByName(r, "charm").Some? && !GetPackageByName(r, "charm").value.isPrivate
    requires GetPackageByName(r, "charm").value.id == "p"
    requires ResolveRelease(r, "p", "latest/stable").None?
    ensures R.ResolveAction(w, r, api, who, REFRESH) == Ok(R.Refused("key", "not-found", "release not found"))
  {
    hide GetPackageByName, ResolveRelease, NormalizeChannel;
    StableRow();
  }

  const NO_ROWS := Registry.Registry(Postgres(Sql.EMPTY.(accounts := {"owner"})), map[])

  lemma BareReleaseInTables(w: World, api: string, who: Identity, payload: Bytes, archive: Archive)
    requires w.parse(payload) == Some(archive) && "r" in archive.resources
    ensures forall c | c in BareRelease(payload) :: WellFormed(c)
    ensures AllSucceed(Answers(w, NO_ROWS, BareRelease(payload)))
    ensures var g := ServeAll(w, NO_ROWS, BareRelease(payload));
      && ResolveRelease(g.repo, "p", "stable").Some?
      && R.ResolveAction(w, g.repo, api, who, REFRESH) == Ok(R.Refused("key", "not-found", "release not found"))
  {
    hide ServeAll, Answers, AllFresh, R.ResolveAction, ST.SameAnswers, AllSucceed, Opening, C.DownloadCharm;
    BareReleaseStored(w, payload, archive);
    BareIsCharmCall(payload);
    var calls := BareRelease(payload);
    ST.MemorySimulatesTables(w, {"owner"}, calls);
    AllSucceedToo(Answers(w, NOTHING, calls), Answers(w, NO_ROWS, calls));
    var gm, gt := ServeAll(w, NOTHING, calls), ServeAll(w, NO_ROWS, calls);
    LookupsToo(gm.repo.m, gt.repo.t);
    NotFoundBare(w, gt.repo, api, who);
  }

  lemma BareIsCharmCall(payload: Bytes)
    ensures forall c | c in BareRelease(payload) :: WellFormed(c) && ST.CharmCall({"owner"}, c)
  {}

  lemma AllSucceedToo(am: seq<Answer>, at: seq<Answer>)
    requires ST.SameAnswers(am, at) && AllSucceed(am)
    ensures AllSucceed(at)
  {
    forall i | 0 <= i < |at| ensures Succeeded(at[i]) {
      assert Succeeded(am[i]) && ST.BareAnswer(am[i]) == ST.BareAnswer(at[i]);
    }
  }

  lemma LookupsToo(m: M.Mem, t: Sql.Tables)
    requires ST.SamePackageViews(m, t) && ST.SameArtefactViews(m, t) && HasPackage(m)
    requires ResolveRelease(InMemory(m), "p", "stable").Some? && ResolveRelease(InMemory(m), "p", "latest/stable").None?
    ensures var r := Postgres(t);
      && GetPackageByName(r, "charm") == Some(S.Bare(m.packages["charm"]))
      && ResolveRelease(r, "p", "stable").Some? && ResolveRelease(r, "p", "latest/stable").None?
  {
    assert S.BareOption(M.GetPackageByName(m, "charm")) == Sql.GetPackageByName(t, "charm");
    assert ST.ShownOption(M.ResolveRelease(m, "p", "stable")) == ST.ShownOption(Sql.ResolveRelease(t, "p", "stable"));
    assert ST.ShownOption(M.ResolveRelease(m, "p", "latest/stable"))
        == ST.ShownOption(Sql.ResolveRelease(t, "p", "latest/stable"));
  }
}
