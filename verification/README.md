# A verified model of the charm registry's publish, release and refresh engine

The registry stores packages, uploads, charm revisions, resource revisions and releases. Its service
layer (`internal/service`) runs over one of two repositories: `repo.Memory`, a set of maps, and
`repo.Postgres`, SQL statements over the schema in `internal/repo/migrations/0001_init.sql`. The
service takes no locks and opens no transactions: a push reads the latest revision number and inserts
the next one in two separate statements, and an unregistration checks for revisions and deletes the
package in two more.

The project models that engine three ways, and proves what it keeps.

**As a concurrent protocol over the tables.** `Tables.dfy` has the schema and one function per SQL
statement, with the UNIQUE constraints, foreign keys and cascades that decide whether it fails.
`Protocol.dfy` runs any number of clients, each a service call with its program counter and local
variables, one SQL statement or blob call per step, in any interleaving, with crashes and with other
traffic that registers and edits packages, adds tracks and changes access lists. `Invariants.dfy`
and `ProtocolInvariant.dfy` hold the inductive invariant, which says what the tables satisfy and
what each client in flight already knows; `ProtocolSteps.dfy` and `ProtocolTheorems.dfy` prove it and
what follows. `Uninterrupted.dfy` shows that a client nobody interrupts does what the atomic call does.
`Unregistration.dfy` says exactly when an unregistration destroys a stored revision, and `LostPush.dfy`
builds a run in which one does.

**As sequential code.** `MemoryRepo.dfy` (class `Memory`), `BlobStore.dfy` (class `MemoryStore`),
`PostgresRepo.dfy`, `Service.dfy` and `TokenService.dfy` follow the Go methods statement by statement
and loop by loop. Each method is proved equal to a function in `MemoryModel.dfy`, `Tables.dfy`,
`Calls.dfy`, `Reads.dfy` or `Tokens.dfy`, and the theorems are about those functions: whole sessions of
calls over the tables (`Sequential.dfy`, `SessionTheorems.dfy`, `SessionDownloads.dfy`), over Memory
(`MemorySessions.dfy`, `MemoryNumbering.dfy`), the release loop and refresh (`ReleaseTheorems.dfy`,
`ReadTheorems.dfy`, `RefreshTheorems.dfy`), tokens (`TokenTheorems.dfy`), and Memory against the tables
(`Simulation.dfy`, `SimulationSteps.dfy`, `SimulationTheorems.dfy`). `Witnesses.dfy` has concrete
sessions for two properties that the code does not have.

What each of those functions gives is stated outright, field by field and error by error:
`AccessTheorems.dfy` decides every guard from the rows and says what a refused caller gets;
`PushResults.dfy`, `CallResults.dfy`, `ReleaseResults.dfy` and `TokenResults.dfy` say what each writing
call records, answers and leaves alone, on either repository; `RefreshTheorems.dfy` and
`InfoTheorems.dfy` do the same for the entries of refresh and info. `Health.dfy` has the facts they start
from, which hold after any calls.

**As a printer and a parser.** `Filenames.dfy` prints the download filenames and parses them back, and
`Channels.dfy` splits and normalises channel names.

What the program calls but does not define is a parameter: archive parsing, the hash functions, the
package texts derived from a manifest, the time, the ids drawn, and the choices that Go maps and SQL
leave open, such as the order of a listing. Ids are assumed fresh and without "/"; stored filenames are
plain path elements.

Where the code and its own descriptions differ, the model follows the code:

- The resource field for SHA3-384 holds SHA-384 (internal/service/resources.go:94-122).
- `PushResource` takes the first listed revision for the newest. Postgres lists newest first, Memory
  oldest first, so Memory numbers a resource 1, 2, 2, 2 and so on: `NumbersTellApartExactly` states
  exactly when the numbers still tell revisions apart, and `ThirdPushReusesTwo` is a session in which
  they do not.
- `Release` stores channels as written while refresh normalises them: a refresh on a released channel
  meets the release exactly when the channel contains a "/" (`RefreshMeetsReleaseExactly`), and a release
  on a bare name alone changes nothing that a refresh on that name sees (`ReleaseUnseen`), as in the
  sessions of `BareReleaseNotFound` and `BareReleaseInTables`.
- `UnregisterPackage` promises to delete only packages without revisions. Calls that do not overlap keep
  that promise (`ReleasedForGood`). When calls overlap, the delete destroys a stored revision exactly when
  the package still lives and some push has stored a revision of it since the unregistration saw none
  (`UnregisterLosesExactly`); `RevisionVanishes` is a run from the empty registry in which that happens.
- Exchanging a token whose permission list is empty writes the ten default permissions out;
  `CopyPermission` states exactly which permission strings that affects.
- An unrevoked token that expires at this very moment still authenticates and is still listed by Memory,
  and the SQL list leaves it out; at every other moment the two agree (`SqlListAgreesExactly`).

## Model

| member | source | states |
|---|---|---|
| `ProtocolTheorems.RunKeepsInv` | internal/service/revisions.go:55-153 | every legal interleaving of pushes, resource pushes, releases, unregistrations, uploads, edits and crashes keeps the tables consistent, the artefacts intact and the knowledge of every client in flight true, and nothing dead comes back |
| `ProtocolSteps.StepKeepsInv` | internal/repo/migrations/0001_init.sql:24-146 | the same for one event, whoever causes it |
| `ProtocolInvariant.KnowledgeLasts` | internal/service/revisions.go:82-121 | what a client read before it was interrupted is still true afterwards, unless the package or definition is gone for good |
| `ProtocolTheorems.RevisionNumbersDense` | internal/service/revisions.go:82-121 | in every reachable state the revision numbers of a package are exactly 1 to n, and only a live package has any |
| `ProtocolTheorems.PushRace` | internal/repo/postgres_revisions.go:91-124 | a client about to insert wins exactly when its package lives and its number is free; the winner adds that one row, the loser fails and the database is as it was |
| `ProtocolTheorems.WinnersGetDistinctNumbers` | internal/repo/migrations/0001_init.sql:77-99 | two clients whose revisions of one package both went in never got the same number, whether or not the package still lives |
| `ProtocolTheorems.ResourceNumbersDense` | internal/service/resources.go:86-122 | over Postgres, in every interleaving, the numbers of a resource are exactly 1 to n |
| `ProtocolTheorems.NoReleaseDangles` | internal/service/releases.go:36-56 | every release row names a stored revision of the same live package, although no foreign key says so |
| `ProtocolTheorems.StoredForGood` | internal/repo/postgres_resources.go:17-50 | across any further events, while the package lives, each revision number stands for the same row, each definition keeps its id and each channel keeps resolving |
| `ProtocolTheorems.ResourceStoredForGood` | internal/repo/postgres_resources.go:141-179 | a resource name and number that resolve once resolve to the same artefact in every later state where the package lives |
| `ProtocolTheorems.DeadStaysDead` | internal/repo/postgres_packages.go:95-104 | a deleted package id never comes back |
| `ProtocolTheorems.UnregisterLosesPush` | internal/service/packages.go:149-170 | the two steps that lose a revision: a push inserts it, then a client that had seen none deletes the package and the revision with it |
| `Unregistration.UnregisterLosesExactly` | internal/service/packages.go:149-170 | over any legal run between an empty revision list and the delete that follows it: the delete destroys a stored revision of the package if and only if the package still lives and some push stored one in between, and never one of another package |
| `Unregistration.HasRevisionsExactly` | internal/service/revisions.go:82-121 | after any run a package has revisions exactly when it lives and had some before or some push stored one on the way |
| `Unregistration.UnregisterChecks` | internal/service/packages.go:157-163 | the unregistration goes on to its delete exactly when the package has no revision at that moment |
| `LostPush.PushCanBeLost` | internal/service/packages.go:157-167 | that situation is reachable from an empty registry for any archive parser that accepts some payload |
| `LostPush.RevisionVanishes` | internal/service/packages.go:157-167 | there is a legal run from the empty registry in which a stored revision is gone after the last event, which is that delete |
| `Protocol.TwoReads` | internal/repo/postgres_packages.go:177-216 | the two queries behind a manage check, which other clients can come between, give the verdict of the guard when nobody does |
| `ProtocolTheorems.DownloadCharmIsUpload` | internal/service/revisions.go:210-227 | in every reachable state a charm download returns the bytes of the upload it was pushed from, and the recorded size and hashes are theirs |
| `ProtocolTheorems.DownloadResourceIsUpload` | internal/service/resources.go:243-267 | the same for resources, in the object-key branch and in the inline OCI branch |
| `Uninterrupted.PushAlone` | internal/service/revisions.go:55-153 | a pushing client that nobody interrupts leaves the tables, and fails, as the atomic call |
| `Uninterrupted.ResourceAlone` | internal/service/resources.go:61-127 | the same for a resource push |
| `Uninterrupted.ReleaseAlone` | internal/service/releases.go:21-63 | the same for a release of any number of requests |
| `Uninterrupted.UnregisterAlone` | internal/service/packages.go:149-170 | the same for an unregistration |
| `Uninterrupted.UpdateAlone` | internal/service/resources.go:160-191 | the same for updates of resource revisions, the count included |
| `Uninterrupted.UploaderAlone` | internal/service/revisions.go:25-48 | the same for an upload |
| `Invariants.CreatePackageSteps` | internal/repo/postgres_packages.go:15-48 | the INSERT keeps every table invariant and is an allowed evolution |
| `Invariants.UpdatePackageSteps` | internal/repo/postgres_packages.go:50-92 | the UPDATE does, whatever the patch |
| `Invariants.DeletePackageSteps` | internal/repo/postgres_packages.go:95-104 | the DELETE with its cascades leaves no orphan row and no gap in any numbering |
| `Invariants.CreateTrackSteps` | internal/repo/postgres_tracks.go:10-24 | one INSERT with ON CONFLICT DO NOTHING keeps the invariants |
| `Invariants.CreateUploadSteps` | internal/repo/postgres_revisions.go:13-38 | the INSERT never touches a stored upload |
| `Invariants.ApproveUploadSteps` | internal/repo/postgres_revisions.go:72-89 | a review changes only the review of one upload |
| `Invariants.CreateRevisionSteps` | internal/repo/postgres_revisions.go:91-124 | inserting a number whose predecessors are all taken keeps the numbering dense |
| `Invariants.UpsertDefinitionSteps` | internal/repo/postgres_resources.go:13-51 | the upsert keeps the id of a stored definition, so its resource revisions stay attached |
| `Invariants.CreateResourceRevisionSteps` | internal/repo/postgres_resources.go:109-139 | the INSERT keeps resource numbering dense and names equal to the definition's |
| `Invariants.UpdateResourceRevisionSteps` | internal/repo/postgres_resources.go:141-165 | the UPDATE changes no artefact |
| `Invariants.ReplaceReleaseSteps` | internal/repo/postgres_releases.go:13-39 | the upsert of a release of a stored revision keeps every invariant |
| `Invariants.NextRevision` | internal/service/revisions.go:79-88 | the number computed from the latest revision follows all stored ones |
| `Invariants.NextResource` | internal/service/resources.go:86-92 | the number computed from the first listed resource revision follows all stored ones |
| `Sequential.CallProgress` | internal/service/packages.go:16-170 | every atomic call keeps the tables consistent, and a package with a revision is never removed |
| `SessionTheorems.SessionKeeps` | internal/service/packages.go:149-170 | the same over a whole session of calls |
| `SessionTheorems.ReleasedForGood` | internal/service/releases.go:36-62 | once a release of at least one request succeeds, whatever calls follow: the name maps to the same id, nobody can unregister it, every released channel resolves, and the default release and its revision are found |
| `SessionTheorems.DefaultFound` | internal/repo/postgres_releases.go:75-104 | a package with any release has a default release, whose revision is stored |
| `SessionDownloads.PushedCharmComesBack` | internal/service/revisions.go:25-121 | in any session over the tables, an upload that is pushed later on is what a download of that revision returns at the end, with its size and hashes |
| `SessionDownloads.PushedResourceComesBack` | internal/service/resources.go:94-122 | the same for a resource, in the blob store or in the row: at the end the row is still there under its number, and its size and four hashes are those of the uploaded bytes |
| `SessionDownloads.MemoryCharmComesBack` | internal/repo/memory.go:280-364 | the same for charms over Memory, with size and hashes |
| `SessionDownloads.BlobLasts` | internal/service/revisions.go:25-48 | no call overwrites a blob that an earlier upload stored |
| `SimulationTheorems.MemorySimulatesTables` | internal/repo/memory.go:133-364 | any session of charm calls gives the same answers over Memory and over the tables, and then every package, revision, upload, release and track lookup, every view and manage check and every charm download agree |
| `SimulationTheorems.CallSimulates` | internal/repo/interface.go:10-56 | one call keeps the two in agreement and gives the same answer on both |
| `SimulationTheorems.SimulatesPackageViews` | internal/repo/postgres_packages.go:107-216 | package lookups, access checks and track sets of two agreeing registries are equal |
| `SimulationTheorems.SimulatesArtefactViews` | internal/repo/postgres_revisions.go:40-169 | so are upload, revision and release lookups and the listed releases as sets |
| `SimulationSteps.InsertAgrees` | internal/repo/postgres_tracks.go:10-24 | appending the new tracks in memory and inserting them one by one create the same tracks and the same count |
| `SimulationSteps.CreateRevisionAgrees` | internal/repo/memory.go:320-326 | the number computed from the last list element is one that the tables accept, and the two stay equal |
| `SimulationTheorems.UploadAgrees` | internal/repo/memory.go:280-285 | storing an upload gives the same answer and the same blob over Memory and over the tables, and the two stay equal |
| `SimulationTheorems.ReleaseEachAgrees` | internal/repo/memory.go:453-462 | the release loop stops at the same request with the same error on both |
| `ReleaseTheorems.ReleaseIsFold` | internal/service/releases.go:36-56 | on either repository the loop stops at the first refused request, the channel map is the old one overwritten by exactly the requests before it, and nothing else changes |
| `ReleaseTheorems.ReleaseCall` | internal/service/releases.go:21-63 | the whole call: all requests on success, each answered with its own fields and with the time and id filled in when missing; exactly the first k on failure with the reason why request k was refused; no other package's channels ever |
| `ReleaseResults.ReleaseRecorded` | internal/service/releases.go:43-62 | a successful release field by field: what is answered per request, what the row of every requested channel holds, and the package published at that time; nothing else changes |
| `ReleaseResults.ReleaseDecided` | internal/service/releases.go:36-54 | the call ends with the objection to the first request that meets one: no channel 400, no such revision 404, a channel outside the token 403 |
| `ReleaseTheorems.OverwriteAt` | internal/repo/memory.go:453-462 | the last request for a channel wins and channels nobody requested keep their release |
| `ReleaseTheorems.RefreshSeesRelease` | internal/service/releases.go:238-317 | after a successful release, a refresh by name or id on a released channel with a "/" selects the revision of the last request for it and that effective channel |
| `RefreshTheorems.RefreshReturnsRelease` | internal/service/releases.go:183-236 | the entry that such a refresh returns to whoever passes the visibility guard: the stored revision, the link that leads back to it, that channel, the time of the request or else of the call, and the resources chosen by its references and the overrides; or an error exactly when one of those is broken |
| `RefreshTheorems.PackageAsked` | internal/service/releases.go:238-248 | an action means the package of its name, or else the one of its id; 404 when there is none, 400 when it gives neither |
| `RefreshTheorems.PinnedSelection` | internal/service/releases.go:282-294 | a pinned revision is selected whatever the channel, exactly when it is stored: that row, no resources, its creation time, the channel asked for in full |
| `RefreshTheorems.PinnedEntry` | internal/service/releases.go:183-236 | the same end to end: the entry of a pinned revision, or one that says it is not there |
| `RefreshTheorems.ChannelSelection` | internal/service/releases.go:296-306 | without a revision, a channel selects the release on it and the revision of that release |
| `RefreshTheorems.DefaultDecided` | internal/repo/postgres_releases.go:75-104 | which release is the default one, in the tables and in Memory |
| `RefreshTheorems.DefaultSelection` | internal/service/releases.go:308-316 | with neither, the default release is selected, on its own channel |
| `RefreshTheorems.EntryDecided` | internal/service/releases.go:206-236 | the entry of any action whose package the caller sees: what was selected, with its link and its resources, or the service error, or the end of the call for a broken reference |
| `RefreshTheorems.ReleaserSeesPackage` | internal/service/helpers.go:48-99 | the releaser passes that guard after the release |
| `ReleaseTheorems.RefreshMeetsReleaseExactly` | internal/service/releases.go:274-317 | after a successful release, a refresh on a released channel selects a release on that very channel exactly when the channel contains a "/", and then it is the last request for it |
| `ReleaseTheorems.ReleaseUnseen` | internal/service/releases.go:423-428 | a successful release that does not name the channel a refresh reads leaves the result of that refresh as it was, on either repository |
| `Witnesses.BareReleaseNotFound` | internal/service/releases.go:305-317 | over Memory, a session of successful calls that releases to "stable", after which refreshing on "stable" answers that there is no such release |
| `Witnesses.BareReleaseInTables` | internal/service/releases.go:305-317 | the same session over the tables |
| `ReleaseTheorems.RefreshReadsRow` | internal/service/releases.go:274-317 | refresh on a channel reads the row of that very channel exactly when it contains a "/" |
| `ReadTheorems.RefreshInOrder` | internal/service/releases.go:162-181 | one result per action, in order, each what resolving that action alone gives, and an error exactly when some action alone gives one |
| `ReadTheorems.RefreshFailsExactly` | internal/service/releases.go:183-236 | over consistent tables, a top-level error exactly when some visible, selected action meets an unresolvable reference in its release or in an override that applies |
| `ReadTheorems.OverridesExact` | internal/service/releases.go:319-350 | overrides keep length and names, each item is the last non-nil override for its name or else the released one, and the call fails exactly when such an override resolves to nothing |
| `ReadTheorems.LookupIsLast` | internal/service/releases.go:319-350 | the lookup map holds for each name its last override that gives a revision |
| `ReadTheorems.ResolveResourcesExact` | internal/service/releases.go:352-374 | fails exactly when some reference is broken, and otherwise gives, for the references that name a revision, in their order, the stored row of that name and number with its download link |
| `ReadTheorems.SelectionExact` | internal/service/releases.go:250-272 | references and overrides together: one resource per reference that names a revision, in order, each the row that the last override for its name points at or else the released row, and an error exactly when one of them is broken |
| `ReadTheorems.ChannelMapComplete` | internal/service/packages.go:228-258 | every listed release of a consistent package gets its own entry, in order, with its base, time, track and risk and with the number, version, hash, size, metadata and link of its stored revision |
| `ReadTheorems.InfoListsEveryRelease` | internal/service/packages.go:207-278 | when info answers, its channel map has exactly one entry per channel with a release, and each says that about its own release and revision |
| `ReadTheorems.EntryIs` | internal/service/revisions.go:230-253 | an entry field by field, with a link that is parsed back into its revision |
| `ReadTheorems.AttachIs` | internal/service/resources.go:314-324 | a resource as readers get it: the stored row, with a link that is parsed back into it, its size and its hashes |
| `InfoTheorems.InfoDecided` | internal/service/packages.go:207-278 | when info answers a caller who is shown the package, and the whole answer: package and tracks, default release and revision, its resources in order, and the channel map |
| `Access.ManageImpliesView` | internal/repo/postgres_packages.go:177-216 | for every owner, ACL table and group membership, managing implies viewing |
| `Access.ManagerSeesPackage` | internal/service/helpers.go:48-99 | whoever passes the manage guard under some permission passes the visibility guard; who passes each is stated outright in ViewDecided and ManageDecided |
| `AccessTheorems.PermissionDecided` | internal/service/helpers.go:26-39 | a permission is granted exactly to an authenticated caller whose token lists no permissions, this one, or package-manage for one that begins with "package-"; with the error in each other case |
| `AccessTheorems.ViewDecided` | internal/service/helpers.go:48-77 | on either repository a stored package is shown exactly when it is public, or the caller is authenticated, owns it or is a viewer, editor or owner of it directly or through a group, and carries a token that covers it; with the error of the first condition that fails |
| `AccessTheorems.ViewWithPermissionDecided` | internal/service/helpers.go:41-77 | asking for the view permission as well refuses exactly the authenticated callers whose token lacks it |
| `AccessTheorems.ManageDecided` | internal/service/helpers.go:79-99 | a package is managed exactly by an authenticated caller with the permission who owns it or is an editor or owner of it and carries a token that covers it; with the error of the first condition that fails |
| `AccessTheorems.ChannelDecided` | internal/service/helpers.go:101-111 | a channel is allowed exactly when the token lists no channels or this one |
| `AccessTheorems.RefusedSeesNothing` | internal/service/revisions.go:210-227 | a caller who is not shown a package gets that one error from both downloads and from info, and an entry with its code and message from refresh |
| `AccessTheorems.UnknownSeesNothing` | internal/service/packages.go:81-95 | a package that is not there is answered with 404 by all of them |
| `AccessTheorems.DownloadsDecided` | internal/service/resources.go:243-267 | what a caller who is shown the package downloads, and the 404 for each missing row |
| `AccessTheorems.RefusedChangesNothing` | internal/service/helpers.go:79-99 | each managing call asks for its own permission, and a refused caller gets the error and leaves the repository as it was |
| `Health.TablesHealthy` | internal/repo/migrations/0001_init.sql:24-146 | the tables are consistent after any session of calls |
| `Health.MemoryHealthy` | internal/repo/memory.go:133-364 | after any run over Memory the package indexes agree, uploads are filed under their ids, and revisions are numbered 1, 2, 3 and so on |
| `PushResults.PushDecided` | internal/service/revisions.go:55-78 | every way a charm push can end: refused, unknown upload, missing blob, archive rejected with its review recorded, or success |
| `PushResults.PushRecorded` | internal/service/revisions.go:79-153 | a successful push records exactly this: one revision with the next number and the artefact of the upload; the upload approved under that number with no errors; the package published at that time; and each declared resource with its kind, description and filename, under its old id in the tables |
| `PushResults.ResourcePushDecided` | internal/service/resources.go:61-127 | every way a resource push can end; success records exactly one row, with the asked kind or else the declared one, kept inline for an OCI image, and approves the upload under its number |
| `CallResults.UploadRecorded` | internal/service/revisions.go:25-48 | an upload is stored pending under its key with the size and hashes of its bytes, as a revision exactly when the filename ends in ".charm" |
| `CallResults.RegistrationDecided` | internal/service/packages.go:16-56 | refused without the permission, 409 for a taken name, else every field of the new package and its one track |
| `CallResults.PatchRecorded` | internal/service/packages.go:101-143 | each given field replaces its own column, the others stay, and the answer has the listed tracks |
| `CallResults.UnregistrationDecided` | internal/service/packages.go:149-170 | 400 as long as there is a revision, else the package is gone under both keys and no other package changes |
| `CallResults.TracksRecorded` | internal/service/releases.go:133-156 | the first request for a new name adds its track, dated when it has no time; stored tracks stay; the new names are counted |
| `CallResults.UpdatesRecorded` | internal/service/resources.go:160-191 | the last update for each number sets the bases and architectures of that revision and nothing else, up to the first unknown number, and the count is of those |
| `CallResults.MissingRowsReported` | internal/repo/memory.go:145-167 | a statement about a package, upload or resource revision that is not there reports that and changes nothing, on either repository |
| `TokenResults.IssueRecorded` | internal/service/tokens.go:49-85 | every field of an issued token: the restrictions asked for, the ten permissions when none are listed, the seconds asked for or 30 hours |
| `TokenResults.ExchangeRecorded` | internal/service/tokens.go:91-100 | the same for an exchange, with the restrictions of the current token |
| `TokenResults.AuthenticationDecided` | internal/auth/auth.go:134-149 | which tokens are rejected and why, and the claims of the others |
| `TokenResults.ListingDecided` | internal/repo/memory.go:82-99 | a listing has each token of the account once, by the start of its validity, those that no longer work only when asked for |
| `TokenResults.RevocationRecorded` | internal/repo/memory.go:102-115 | the one token of this account and session is marked with who revoked it and when, or there is none and nothing changes |
| `TokenResults.LoginRecorded` | internal/service/tokens.go:18-42 | a login gives the account of its subject the claimed names or their substitutes; a known account keeps its id, validation and creation time |
| `Channels.NormalizeIdempotent` | internal/service/releases.go:423-428 | normalising twice is normalising once, and changes exactly the bare risk names |
| `Channels.SplitNormalized` | internal/service/releases.go:412-421 | normalising never changes what a channel splits into |
| `Channels.SplitDecided` | internal/service/releases.go:412-418 | a bare channel is a risk of track "latest"; otherwise the track stands before the first "/" and the risk between it and the next one or the end |
| `Filenames.CharmRoundTrip` | internal/api/http.go:197-208 | printing and parsing gives back package id and revision exactly when the id has no "_" and the revision is an int |
| `Filenames.ResourceRoundTrip` | internal/api/http.go:210-227 | the same with resource names, dots and underscores included, exactly when the id has no "." |
| `Filenames.CharmFilenamesInjective` | internal/service/helpers.go:119-121 | two charm revisions never share a filename |
| `Filenames.ResourceFilenamesInjective` | internal/service/helpers.go:123-128 | two resource revisions never share a filename |
| `Filenames.DownloadsLeadBack` | internal/service/helpers.go:119-128 | the text of both download links, and that the parsers give back what they were printed from |
| `TokenTheorems.ExchangesDecideAlike` | internal/service/tokens.go:91-100 | any chain of exchanges used in time leaves every guard's answer as it was for the ten known permissions, all packages and channels, and grants no other permission string |
| `TokenTheorems.CopyPermission` | internal/service/helpers.go:26-39 | exactly which permission strings an exchange can take away |
| `TokenTheorems.ActiveMeansAuthenticated` | internal/auth/auth.go:134-149 | a stored token of a known account authenticates exactly when it is in the list of that account's active tokens |
| `TokenTheorems.SqlListAgreesExactly` | internal/repo/postgres_accounts.go:91-118 | the SQL condition for an active token agrees with authentication exactly when the token is revoked or does not expire at this moment |
| `TokenTheorems.LoginKeepsAccount` | internal/service/tokens.go:18-42 | logging in again with an account's own claims keeps its id |
| `MemorySessions.IndexesAgree` | internal/repo/memory.go:45-60 | after every run of service calls, logins and token calls the two package indexes and the two account indexes hold the same rows, and no subject's account id ever changes |
| `MemorySessions.CallKeeps` | internal/repo/memory.go:133-168 | one call of any kind keeps that representation invariant |
| `MemorySessions.CreateKeeps` | internal/repo/memory.go:74-79 | filing a token with a new hash and session keeps every stored token and keeps sessions distinct |
| `MemorySessions.RevokedExactly` | internal/repo/memory.go:102-115 | over a run a token is revoked exactly when some call names its account and session, and nothing else about it changes |
| `MemorySessions.AuthenticatesExactly` | internal/auth/auth.go:134-149 | after any run a stored token authenticates exactly when it was not revoked before, no call revoked it and it has not expired |
| `MemorySessions.DeadTokenStaysDead` | internal/auth/auth.go:140-142 | once revoked or expired, a token never authenticates again in any later run |
| `MemoryNumbering.NumbersTellApartExactly` | internal/repo/memory.go:430-435 | after any session over Memory the numbers of a resource are distinct exactly when there are at most two, and the next number is free exactly when there are fewer than two |
| `MemoryNumbering.ServeKeeps` | internal/service/resources.go:86-92 | every call keeps the pattern 1, 2, 2, 2 of Memory's resource numbers |
| `MemoryNumbering.AppendNumbered` | internal/repo/memory.go:407-412 | appending the row with the number that a push computes keeps that pattern |
| `Witnesses.ThirdPushReusesTwo` | internal/repo/memory.go:430-450 | a session of successful calls over Memory in which three pushes of a resource get the numbers 1, 2 and 2, and a download of number 2 gives the bytes of the second push instead of the third |
| `MemoryRepo.Memory.EnsureAccount` | internal/repo/memory.go:45-60 | updates the stored account of the subject under both indexes, or stores a new one |
| `MemoryRepo.Memory.ListStoreTokens` | internal/repo/memory.go:82-99 | a sorted list that holds each stored token of the account, active ones only unless asked otherwise, exactly once |
| `MemoryRepo.Memory.RevokeStoreToken` | internal/repo/memory.go:102-115 | revokes one token of this account and session, or changes nothing when there is none |
| `MemoryRepo.Memory.CreatePackage` | internal/repo/memory.go:133-142 | refuses a taken name, else stores under both indexes |
| `MemoryRepo.Memory.UpdatePackage` | internal/repo/memory.go:145-154 | refuses an unknown name, else replaces under both indexes |
| `MemoryRepo.Memory.DeletePackage` | internal/repo/memory.go:157-167 | removes from both indexes and leaves the rows of other maps |
| `MemoryRepo.Memory.CreateTracks` | internal/repo/memory.go:241-266 | appends the tracks with new names, in order, and counts them |
| `MemoryRepo.Memory.ApproveUpload` | internal/repo/memory.go:299-317 | records the review in its four fields, "approved" exactly when there are no errors and "rejected" otherwise, or reports that there is no such upload |
| `MemoryRepo.Memory.GetRevisionByNumber` | internal/repo/memory.go:344-353 | the first revision in insertion order with that number |
| `MemoryRepo.Memory.UpsertDefinition` | internal/repo/memory.go:367-378 | replaces the definition of that name, its id included |
| `MemoryRepo.Memory.UpdateResourceRevision` | internal/repo/memory.go:415-427 | replaces the first entry with that number, or reports that there is none |
| `MemoryRepo.Memory.GetResourceRevision` | internal/repo/memory.go:437-450 | the first entry with that number |
| `MemoryRepo.Memory.ReplaceRelease` | internal/repo/memory.go:453-461 | overwrites the release of that channel |
| `BlobStore.MemoryStore.Put` | internal/blob/store.go:34-39 | stores a copy in a buffer of its own and changes no other blob |
| `BlobStore.MemoryStore.Get` | internal/blob/store.go:42-50 | returns a fresh copy of the stored bytes |
| `PostgresRepo.Postgres.CreateTracks` | internal/repo/postgres_tracks.go:10-24 | inserts track by track until one insert fails, adding up the affected rows; the count reached is returned with the error |
| `PostgresRepo.Postgres.ListResourceRevisions` | internal/repo/postgres_resources.go:168-179 | every row of the resource once, highest number first |
| `PostgresRepo.Postgres.GetResourceRevision` | internal/repo/postgres_resources.go:182-197 | the scan of that list finds the row with that number, if there is one |
| `PostgresRepo.Postgres.ResolveDefaultRelease` | internal/repo/postgres_releases.go:75-104 | the release of the default track's stable channel, else a newest one |
| `PostgresRepo.FirstIsFirst` | internal/service/resources.go:86-92 | the first row of the descending list is the one with the largest number |
| `Service.Service.RegisterPackage` | internal/service/packages.go:16-56 | equals the atomic call: permission, name conflict, first track |
| `Service.Service.UpdatePackage` | internal/service/packages.go:101-143 | equals the atomic call: exactly the given fields replace the stored ones, and the answer has the listed tracks |
| `Service.Service.UnregisterPackage` | internal/service/packages.go:149-170 | equals the atomic call: refused when there are revisions |
| `Service.Service.CreateTracks` | internal/service/releases.go:133-156 | equals the atomic call: stamped creation times, count of new tracks, also beside an error |
| `Service.Service.CreateUpload` | internal/service/revisions.go:25-48 | equals the atomic call: blob first, then the row with size and hashes |
| `Service.Service.PushRevision` | internal/service/revisions.go:55-153 | equals the atomic call, every early exit included; what that records is stated in PushDecided and PushRecorded |
| `Service.Service.PushResource` | internal/service/resources.go:61-127 | equals the atomic call, in the OCI branch and in the file branch; what that records is stated in ResourcePushDecided |
| `Service.Service.UpdateResourceRevisions` | internal/service/resources.go:160-191 | equals the atomic call: the updates before the first failure are applied and counted |
| `Service.Service.Release` | internal/service/releases.go:21-63 | equals the atomic call: the loop with its early returns, then the status update; what that records is stated in ReleaseRecorded |
| `Service.Service.Refresh` | internal/service/releases.go:162-181 | equals the list of resolved actions, or the first error |
| `Service.Service.ResolveRefreshAction` | internal/service/releases.go:183-236 | equals the resolution of one action: which errors become results and which abort; what it gives is stated in EntryDecided, PinnedEntry and RefusedSeesNothing |
| `Service.Service.ResolveReleaseResources` | internal/service/releases.go:352-374 | equals the resolution of the references in order, those without a revision left out |
| `Service.Service.ApplyResourceOverrides` | internal/service/releases.go:319-350 | equals replacing each item by its override, the loop over the lookup map included |
| `Service.Service.Info` | internal/service/packages.go:207-278 | equals the function of the repository's own listing of releases: the cached channel map equals the one built by a fresh lookup per release, although the seeded cache entry has its resources filled in; what that answers is stated in InfoDecided |
| `TokenService.TokenService.IssueStoreToken` | internal/service/tokens.go:49-85 | stores a token with the requested restrictions, ten permissions when none are given, and the requested or the default lifetime |
| `TokenService.TokenService.ExchangeStoreToken` | internal/service/tokens.go:91-100 | issues a token with the current token's restrictions |
| `TokenService.TokenService.ListStoreTokens` | internal/service/tokens.go:106-115 | the account's listing, only when authenticated |
| `TokenService.TokenService.RevokeStoreToken` | internal/service/tokens.go:121-126 | revokes a token that the range loop can meet first, as its own account |
| `TokenService.TokenService.ResolveIdentity` | internal/service/tokens.go:18-42 | nobody without a subject, else the account with its fallback names |
| `TokenService.TokenService.AuthenticateToken` | internal/auth/auth.go:134-149 | rejects unknown, revoked and expired tokens, else gives the account's claims |

## Left out

- HTTP handlers, routing, JSON decoding and response shaping, apart from the two filename parsers.
- S3, OIDC and bearer-header parsing, configuration and wiring, and the generated query code.
- Zip and YAML parsing, hashing, and the package texts, links and bases derived from a manifest: uninterpreted functions.
- Publisher, store, media, attributes and relation fields of packages and revisions, which no decision reads.
- `Find`, `ListReleases` of the service, `ListRevisions`, `ReviewUpload`, `ListResources` and the OCI credential and blob helpers: further reads over the same lookups.
- The service's repository is held as a value in `Service.Service`, not as a `Memory` object: aliasing between a service and its repository is not captured there. `TokenService.TokenService` does hold the object.
- `Memory`'s mutex: each of its methods runs without interruption.
- Go's wrap-around of a token lifetime longer than its integer type can hold, and the Postgres token tables; tokens are modelled over `Memory`.
- The TEXT column that Postgres keeps inline OCI images in: the bytes come back as they went in.
- `filepath.Join` on filenames that are not plain path elements.
- Clocks: each call carries its time, and NOW() in a statement is the time of its call.
- In the concurrent protocol, registering, patching, adding a track and changing access lists are single statements; the calls they belong to are modelled atomically.
- Resources over `Memory` beyond their numbering, since Memory replaces definition ids.
- InfoTheorems.InfoDecided: over the tables; over `Memory` a resource number can name two revisions.
- RefreshTheorems.EntryDecided: over the tables, for the same reason; `PinnedEntry` and the selections hold on both.
- SimulationTheorems.MemorySimulatesTables: leaves out the two resource calls, embedded tracks, and the row and package ids of releases, and assumes that whoever registers is an existing account, that nobody has been granted a role, and that release requests bring no row id, which their JSON form cannot.
- `Memory.ResolveDefaultRelease` without a `latest/stable` release depends on map order: a parameter chooses.
- TokenTheorems.ExchangesDecideAlike: the exchanges of a chain follow one another with no other call between them.
