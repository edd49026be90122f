/** The registry's records (internal/core/types.go) and the errors its layers return.

    Descriptive texts that no decision reads (titles, summaries, links, YAML copies)
    are kept as one opaque value per record, so that copying them is still visible. */
module Core {
  type Id = string
  type Bytes = seq<bv8>

  /** Times are ticks; the zero time is Go's `time.Time{}`. */
  type Time = int
  const ZERO_TIME: Time := 0

  datatype Option<+T> = None | Some(value: T)

  /** `NotFound` and `Conflict` are the repository's sentinel errors, `Storage` any other
      database or blob failure, `Api` the typed service error with its HTTP status. */
  datatype Error =
    | NotFound
    | Conflict
    | Storage
    | Api(status: int, code: string, message: string)

  datatype Outcome = Pass | Fail(error: Error)

  datatype Result<+T> = Ok(value: T) | Err(error: Error)

  /** Go's `(int, error)`: the count reached and how the call ended. */
  datatype Count = Count(created: nat, outcome: Outcome)

  /** The free-text fields of a package that only `UpdatePackage` and `PushRevision` write. */
  datatype Texts = Texts(
    contact: Option<string>,
    description: Option<string>,
    summary: Option<string>,
    title: Option<string>,
    website: Option<string>,
    links: map<string, seq<string>>)

  datatype Account = Account(id: Id, subject: string, username: string, displayName: string,
                             email: string, validation: string, createdAt: Time)

  datatype Selector = Selector(id: Id, name: string)

  datatype StoreToken = StoreToken(
    sessionId: Id,
    hash: string,
    accountId: Id,
    description: Option<string>,
    packages: seq<Selector>,
    channels: seq<string>,
    permissions: seq<string>,
    validSince: Time,
    validUntil: Time,
    revokedAt: Option<Time>,
    revokedBy: Option<Id>)

  datatype Identity = Identity(accountId: Id, token: Option<StoreToken>, authenticated: bool)

  datatype Track = Track(name: string, pattern: Option<string>, createdAt: Time)

  datatype Package = Package(
    id: Id,
    name: string,
    kind: string,
    isPrivate: bool,
    status: string,
    owner: Id,
    defaultTrack: Option<string>,
    texts: Texts,
    tracks: seq<Track>,
    createdAt: Time,
    updatedAt: Time)

  datatype Upload = Upload(
    id: Id,
    filename: string,
    objectKey: string,
    size: nat,
    sha256: string,
    sha384: string,
    status: string,
    kind: string,
    createdAt: Time,
    approvedAt: Option<Time>,
    revision: Option<int>,
    errors: seq<string>)

  datatype Revision = Revision(
    id: Id,
    packageId: Id,
    number: int,
    version: string,
    status: string,
    createdAt: Time,
    createdBy: Id,
    size: nat,
    sha256: string,
    sha384: string,
    objectKey: string,
    metadata: string,
    resources: seq<ResourceRevision>)

  datatype ResourceDefinition = ResourceDefinition(
    id: Id,
    packageId: Id,
    name: string,
    kind: string,
    description: string,
    filename: string,
    optional: bool,
    createdAt: Time)

  datatype Download = Download(url: string, size: nat, sha256: string, sha384: string,
                               sha512: string, sha3384: string)

  datatype ResourceRevision = ResourceRevision(
    id: Id,
    resourceId: Id,
    name: string,
    kind: string,
    description: string,
    filename: string,
    number: int,
    createdAt: Time,
    size: nat,
    sha256: string,
    sha384: string,
    sha512: string,
    sha3384: string,
    objectKey: string,
    bases: seq<string>,
    architectures: seq<string>,
    ociBlob: Bytes,
    download: Option<Download>)

  datatype ResourceRef = ResourceRef(name: string, revision: Option<int>)

  datatype Release = Release(
    id: Id,
    packageId: Id,
    channel: string,
    revision: int,
    base: Option<string>,
    resources: seq<ResourceRef>,
    when: Time,
    expiration: Option<Time>)

  datatype ResourceDecl = ResourceDecl(kind: string, description: string, filename: string)

  /** What `charm.ParseArchive` returns: the file texts and the declared resources. */
  datatype Archive = Archive(texts: string, resources: map<string, ResourceDecl>)

  /** Everything the registry calls but does not define: archive parsing, hashing, the
      package texts derived from a manifest, and the choices Go and SQL leave open (which
      of several newest releases `LIMIT 1` returns, which map entry a range loop meets first,
      in which order a query without a total ORDER BY lists its rows). */
  datatype World = World(
    parse: Bytes -> Option<Archive>,
    describe: (Archive, string, Texts) -> Texts,
    sha256: Bytes -> string,
    sha384: Bytes -> string,
    sha512: Bytes -> string,
    hashToken: string -> string,
    newest: set<Release> -> Release,
    any: set<Release> -> Release,
    listing: set<Release> -> seq<Release>,
    byCreation: set<Track> -> seq<Track>)

  /** `xs` lists the elements of `s`, each once. */
  ghost predicate Lists<T(!new)>(xs: seq<T>, s: set<T>) {
    && (forall x :: x in s <==> x in xs)
    && forall i, j | 0 <= i < j < |xs| :: xs[i] != xs[j]
  }

  /** The listings are listings, tracks in the order of their creation. */
  ghost predicate Orderly(w: World) {
    && (forall s: set<Release> :: Lists(w.listing(s), s))
    && (forall s: set<Track> :: Lists(w.byCreation(s), s))
    && (forall s: set<Track>, i, j | 0 <= i < j < |w.byCreation(s)| ::
          w.byCreation(s)[i].createdAt <= w.byCreation(s)[j].createdAt)
  }

  /** The two open choices do return an element they may return. */
  ghost predicate Sound(w: World) {
    forall s: set<Release> {:trigger w.newest(s)} {:trigger w.any(s)} | s != {} ::
      && w.newest(s) in s
      && (forall r | r in s :: r.when <= w.newest(s).when)
      && w.any(s) in s
  }

  function FirstNonEmpty(a: string, b: string): string {
    if a != "" then a else b
  }

  /** `translateRepoError`: sentinel errors become typed API errors, others pass through. */
  function Translate(e: Error, message: string): Error {
    match e
    case NotFound => Api(404, "not-found", message)
    case Conflict => Api(409, "already-registered", message)
    case _ => e
  }
}
