# CNS volume migrator, modelled in Dafny

This project models the orchestration logic of the `cnsmigration` package.
The package moves vSphere Cloud Native Storage (CNS) block volumes from a
source datastore to a destination datastore. It is driven by a file that lists
persistent-volume (PV) names, one per line.

A run of `StartMigration` does these steps in order:

1. Log in to vCenter.
2. Load the CNS catalog of the source datastore, page by page.
3. List all persistent volumes and all pods, and build the in-use store from them.
4. Read the file. For each listed name, look the PV up. When the PV is a vSphere CSI
   volume whose handle is in the catalog and not in use, ask CNS to relocate it
   and classify the outcome.

Every external system is an oracle: a total function from request to
response. These functions are held in datatypes:

- `KubeClient`: PV lookup and the PV and pod listings.
- `VSphereConnection`: the datastore finder, CNS query and relocate, and the wait on a relocate task.
- `Environment`: the login, the file system and the in-use lookup.

What is left is the migrator's decision logic. Each spec function returns
the error it ends with and the external calls it issues, in order (`Call`).
The class `CnsMigration.CnsVolumeMigrator` holds the migrator's state as
fields that its methods update in place:

- the vCenter session;
- `matchingCnsVolumes`, the catalog;
- `usedVolumeCache`, the in-use store.

A ghost field `calls` records the requests. Each method is proved to produce
exactly the status, calls and new state of its spec function.

Modules: `CnsTypes` (data model), `VolumeList` (splitting and trimming the
file), `Catalog` (the paginated catalog query), `Relocation` (one
relocation and its outcome), `Eligibility` (`checkForDatastore`), `Run`
(`findCSIVolumes` and `StartMigration` as functions, and their properties),
`CnsMigration` (the class).

Where the intended design and the code differ, the model follows the code:

- The catalog is not de-duplicated. Every page is appended as fetched, and a
  second run appends again (migrator.go:231).
- A PV that cannot be looked up is fatal. It ends the whole run with an
  error, and no later name is looked up or migrated (migrator.go:134-139).
  The whole file has already been read by then (migrator.go:116).
- A file of white space alone is not an error. Only a zero-byte file is
  refused. Otherwise nothing is looked up and the run succeeds
  (migrator.go:122).
- No per-volume outcome list is produced. A failed relocation is only
  logged, and `findCSIVolumes` returns nil (migrator.go:144-155).

## Model

| member | source | states |
|---|---|---|
| VolumeList.TrimSpace | pkg/cnsmigration/migrator.go:129 | the trimmed line is a slice of the line with only white space cut from its two ends (Go's `unicode.IsSpace` set); it has no white space at either end, and is blank exactly when the line is all white space |
| VolumeList.Split | pkg/cnsmigration/migrator.go:127 | splitting on "\n" yields at least one piece and no piece contains "\n" |
| VolumeList.JoinSplit | pkg/cnsmigration/migrator.go:127 | joining the pieces with "\n" gives the file text back: no character is lost |
| VolumeList.SplitJoin | pkg/cnsmigration/migrator.go:127 | splitting a "\n"-join of newline-free lines gives exactly those lines back |
| VolumeList.PvNamesAreTrimmed | pkg/cnsmigration/migrator.go:128-132 | every listed name is non-blank and trimmed, and there are no more names than lines |
| VolumeList.PvNamesAppend | pkg/cnsmigration/migrator.go:128-132 | the names of concatenated lines are the names of each part in order: nothing is reordered or merged |
| VolumeList.PvNamesMembership | pkg/cnsmigration/migrator.go:128-132 | a name is listed if and only if it is the non-blank trim of some line |
| VolumeList.WhitespaceOnlyListsNothing | pkg/cnsmigration/migrator.go:127-132 | a text of white space alone lists no name |
| VolumeList.DuplicateAndBlankLines | pkg/cnsmigration/migrator.go:127-132 | a file with a repeated name and a blank line lists the repeated name twice, in file order, and nothing for the blank line |
| Catalog.PaginateSound | pkg/cnsmigration/migrator.go:226-236 | what the query loop returns is a run as `IsPagination` describes: the first query has no cursor, each next query carries the previous page's cursor, it stops exactly on an error or a terminal page, and the volumes are all pages' volumes in fetch order |
| Catalog.PaginateComplete | pkg/cnsmigration/migrator.go:226-236 | every run as `IsPagination` describes is what the loop returns |
| Catalog.PaginateFuel | pkg/cnsmigration/migrator.go:226-236 | a finished loop does not depend on the query bound |
| Catalog.PaginationIsUnique | pkg/cnsmigration/migrator.go:226-236 | the platform's answers determine the run: two runs from the same first query are equal |
| Catalog.OnePageSuffices | pkg/cnsmigration/migrator.go:232-234 | a first page with offset equal to the total, or with no volumes, ends the loop after one query |
| Catalog.PaginateStep | pkg/cnsmigration/migrator.go:227-235 | one query of a run: an error ends it, a terminal page ends it after appending, any other page continues with that page's cursor |
| Catalog.LoadCatalog | pkg/cnsmigration/migrator.go:217-221 | the datastore is resolved first; an unknown datastore fails with the finder's error before any query and appends nothing |
| Catalog.LoadCatalogPaginates | pkg/cnsmigration/migrator.go:217-238 | a found datastore is queried by a run of the loop, one CNS call per request; the appended volumes are every fetched page's, also when a later query fails, and the load fails exactly when the last query did |
| Relocation.FirstFaultIndex | pkg/cnsmigration/migrator.go:189-195 | the index of the first per-volume result with a fault: all earlier ones are clean |
| Relocation.BatchStatus | pkg/cnsmigration/migrator.go:188-196 | a finished task succeeds exactly when no per-volume result carries a fault; otherwise it fails with a volume fault |
| Relocation.FirstFaultDecides | pkg/cnsmigration/migrator.go:189-194 | the first faulty result decides the error, with its own message; later results do not matter |
| Relocation.MigrateSpec | pkg/cnsmigration/migrator.go:158-197 | the destination is resolved first and an unresolved one makes no relocate call; only this volume is relocated, to the resolved datastore; an `AlreadyExists` SOAP fault succeeds without a wait, another call error is returned; an accepted call is waited on, a wait error fails, otherwise the batch result decides |
| Relocation.AlreadyRelocatedSucceeds | pkg/cnsmigration/migrator.go:167-178 | re-relocating a volume already on the destination succeeds and waits on no task |
| Relocation.MigrateSucceedsExactly | pkg/cnsmigration/migrator.go:158-197 | a relocation succeeds if and only if the destination resolves and either the call fails with `AlreadyExists` or its relocate task finishes with no per-volume fault |
| Eligibility.CheckForDatastore | pkg/cnsmigration/migrator.go:199-215 | a volume is eligible if and only if its handle equals the id of some catalog entry and the in-use store does not report it in use |
| Run.FirstMissing | pkg/cnsmigration/migrator.go:134-139 | the index of the first listed name whose PV lookup fails; all earlier names are found |
| Run.HandlePvSpec | pkg/cnsmigration/migrator.go:133-153 | one listed name is looked up and nothing else; the step fails exactly when the lookup fails, with that name; a relocation is attempted exactly for a vSphere CSI volume that `checkForDatastore` accepts, and only of its handle; a failed relocation does not fail the step |
| Run.ProcessNamesSnoc | pkg/cnsmigration/migrator.go:128-154 | after names that were all found, the next name adds its own step's calls and result |
| Run.ProcessNamesStops | pkg/cnsmigration/migrator.go:134-139 | once a lookup has failed, later names change nothing: no later name is looked up or migrated |
| Run.ProcessNamesLookups | pkg/cnsmigration/migrator.go:128-155 | the names are looked up in order, duplicates again, up to and including the first missing one and no further; the run fails exactly when one is missing, with that name, and relocation errors never change the result |
| Run.RelocatesOnlyEligible | pkg/cnsmigration/migrator.go:141-150 | every relocated volume is the handle of a listed vSphere CSI volume, is in the catalog, and is not in use |
| Run.FindCsiVolumesSpec | pkg/cnsmigration/migrator.go:107-156 | the file is read first; an unopenable, unreadable or zero-byte file fails before any lookup; otherwise the lookups are the listed names in order up to the first missing one, and the result is that missing name's error or success |
| Run.WhitespaceFileSucceeds | pkg/cnsmigration/migrator.go:122-132 | a non-empty file of white space alone succeeds and looks nothing up |
| Run.DuplicateLinesLookedUpTwice | pkg/cnsmigration/migrator.go:127-139 | with a repeated name and a blank line, the repeated PV is looked up twice, in file order |
| Run.ListAndProcessSpec | pkg/cnsmigration/migrator.go:92-104 | a failed PV or pod listing ends the run before the file is read, with no lookup; otherwise the in-use store is built from all PVs and all pods, and then the file is read |
| Run.StartMigrationLogsInFirst | pkg/cnsmigration/migrator.go:79-83 | the run starts with the login, and a failed login issues no other call and changes no field |
| Run.StartMigrationAborts | pkg/cnsmigration/migrator.go:79-104 | unless login, catalog and both listings succeed, the run fails, reads no file and looks up no PV |
| Run.StartMigrationOrder | pkg/cnsmigration/migrator.go:79-104 | a run that reaches the file keeps the session, has the fetched volumes appended to the catalog, and has built the in-use store from all PVs and all pods; the calls are login, catalog, PV listing, pod listing, then the file read |
| Run.StartMigrationRelocatesOnlyEligible | pkg/cnsmigration/migrator.go:75-105 | in a whole run, nothing is relocated unless the run reached the file, and every relocated volume is in the run's catalog and not in use according to the store the run built |
| CnsMigration.CnsVolumeMigrator.constructor | pkg/cnsmigration/migrator.go:59-65 | a new migrator keeps its datastores and has no session, an empty catalog and no in-use store |
| CnsMigration.CnsVolumeMigrator.LoginToVCenter | pkg/cnsmigration/migrator.go:255-301 | the login is one call; its error is returned, and on success the session is kept |
| CnsMigration.CnsVolumeMigrator.GetDatastore | pkg/cnsmigration/migrator.go:240-253 | one finder call, whose answer is returned |
| CnsMigration.CnsVolumeMigrator.GetCnsVolumes | pkg/cnsmigration/migrator.go:217-238 | the cursor loop appends to `matchingCnsVolumes` exactly the volumes, and issues exactly the calls, of `Catalog.LoadCatalog`, and returns its error |
| CnsMigration.CnsVolumeMigrator.CheckForDatastore | pkg/cnsmigration/migrator.go:199-215 | the scan of the catalog answers `Eligibility.CheckForDatastore` for the PV's handle and the in-use store |
| CnsMigration.CnsVolumeMigrator.MigrateVolume | pkg/cnsmigration/migrator.go:158-197 | the relocation returns the status, and issues the calls, of `Relocation.Migrate` |
| CnsMigration.CnsVolumeMigrator.MigratePv | pkg/cnsmigration/migrator.go:133-153 | one turn of the line loop returns the status and issues the calls of `Run.HandlePv` |
| CnsMigration.CnsVolumeMigrator.MigrateLines | pkg/cnsmigration/migrator.go:127-155 | the loop over the lines, with its `continue` and early `return`, returns the status and issues the calls of `Run.ProcessNames` on the listed names |
| CnsMigration.CnsVolumeMigrator.FindCsiVolumes | pkg/cnsmigration/migrator.go:107-156 | returns the status and issues the calls of `Run.FindCsiVolumes` |
| CnsMigration.CnsVolumeMigrator.ListAndProcess | pkg/cnsmigration/migrator.go:92-104 | returns the status, issues the calls and sets the in-use store as `Run.ListAndProcess` says |
| CnsMigration.CnsVolumeMigrator.StartMigration | pkg/cnsmigration/migrator.go:75-105 | returns the status, issues the calls and leaves the fields as `Run.StartMigration` says |

## Left out

- `cmd/main.go` is not part of this model. It holds the flag parsing, the kubeconfig handling and process start-up. Its calls also do not match the package's signatures.
- `createOpenshiftClients` (migrator.go:67-73) is not modelled. The Kubernetes client is part of the environment.
- CnsMigration.CnsVolumeMigrator.LoginToVCenter: the whole login is one success/failure oracle, because it is all I/O. That covers the infrastructure object, the cloud-config map, the INI parsing, the credentials secret and the connect. The code stores the session at migrator.go:294 before connecting. The model keeps it only on success. A failed login ends the run, so nothing later can observe the difference.
- CnsMigration.CnsVolumeMigrator.GetDatastore: the datacenter lookup and the datastore lookup are one finder oracle. The error texts of migrator.go:244 and 250 are not modelled.
- The in-use store (`NewInUseStore`, `addAllPods`, `volumeInUse`) is defined in another file of the `cnsmigration` package, which is not part of this model. It is the value `InUseStore(pvs, pods)` plus an uninterpreted lookup on a volume handle. The PVC and pod names it also returns are only logged, so they are left out.
- Error texts are not modelled. Errors are structured `Error` values that carry the same information. The message at migrator.go:161 formats the unresolved datastore value rather than its name. The model records the name.
- Relocation.Migrate: the unchecked type assertion at migrator.go:188 is built into the type. A finished task's result is always a `BatchResult`.
- Catalog.LoadCatalog: the query loop at migrator.go:226 has no bound, and the code does not promise that it ends. The model takes a ghost bound `fuel` and requires the platform to end the listing within that many queries (`Catalog.EndsWithin`). A platform that never sends a terminal page is not modelled.
- CnsMigration.CnsVolumeMigrator.CheckForDatastore requires a CSI source and a built in-use store. Its only caller guarantees both. The nil dereferences other callers could hit are not modelled.
- Oracles answer by request alone. The same request always gets the same answer, so a platform whose answers change over time is not modelled.
- The file's bytes are read as characters. UTF-8 decoding is not modelled, and a zero-byte file is the empty text.
- Logging, `SayHello`, the unused `resyncPeriod`, `context` cancellation and timing are left out. The same goes for the constants that only the login uses.
- Eligibility.CheckForDatastore: the code asks the in-use store only about the first catalog entry that matches. The lookup is a pure oracle on the handle, so how often it is asked cannot be observed in this model, and the contract does not state it.
