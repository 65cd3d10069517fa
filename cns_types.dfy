/**
 Data model of the CNS volume migrator: the values it exchanges with the
 Kubernetes API and with the vCenter Cloud Native Storage (CNS) API, the
 errors it returns, and the record of the requests it issues.

 Every external system is an oracle: a total function from a request to a
 response, held in a datatype (`KubeClient`, `VSphereConnection`,
 `Environment`). The migrator's decision logic is modelled against these.
 */
module CnsTypes {

  datatype Option<+T> = None | Some(value: T)

  /** The fault kind carried by a SOAP fault from vCenter. Only
      `AlreadyExists` is told apart by the migrator. */
  datatype VimFault = AlreadyExists | OtherVimFault(kind: string)

  /** A non-nil Go `error`. The first two come from external calls; the
      others are the errors the migrator itself builds. */
  datatype Error =
    | SoapFault(vimFault: VimFault)
    | ApiError(message: string)
    | FileOpenFailed(path: string, cause: Error)
    | FileReadFailed(path: string, cause: Error)
    | NoListedVolumes(path: string)
    | PvLookupFailed(pvName: string, cause: Error)
    | DestinationNotFound(datastore: string, cause: Error)
    | TaskWaitFailed(cause: Error)
    | VolumeFault(message: string)

  /** A value or an error, as in Go's `(T, error)` returns. */
  datatype Result<+T> = Success(value: T) | Failure(error: Error)

  /** Go's lone `error` return: nil or an error. */
  datatype Status = Ok | Fail(error: Error)

  // ---------------------------------------------------------------- CNS

  /** Managed object reference of a datastore, as returned by the finder. */
  datatype DatastoreRef = DatastoreRef(value: string)

  datatype CnsVolumeId = CnsVolumeId(id: string)

  /** One entry of the CNS catalog. */
  datatype CnsVolume = CnsVolume(volumeId: CnsVolumeId, name: string, datastoreUrl: string)

  /** The pagination cursor of a CNS volume query. */
  datatype Cursor = Cursor(offset: int, limit: int, totalRecords: int)

  /** A CNS volume query: the datastores it is scoped to and, after the first
      page, the cursor of the previous response. */
  datatype QueryFilter = QueryFilter(datastores: seq<DatastoreRef>, cursor: Option<Cursor>)

  /** One page of a CNS volume query. */
  datatype QueryResult = QueryResult(volumes: seq<CnsVolume>, cursor: Cursor)

  /** A block volume relocate request: the volume and its destination. */
  datatype RelocateSpec = RelocateSpec(volumeId: CnsVolumeId, datastore: DatastoreRef)

  /** Handle of a vCenter task. */
  datatype Task = Task(id: string)

  datatype Fault = Fault(localizedMessage: string)

  /** One per-volume entry of a batch operation result; `fault` is nil on
      success. */
  datatype VolumeOperationResult = VolumeOperationResult(volumeId: CnsVolumeId, fault: Option<Fault>)

  /** The result of a finished relocate task, taken to be a
      batch result, which is what the migrator asserts it to be. */
  datatype BatchResult = BatchResult(volumeResults: seq<VolumeOperationResult>)

  /** An authenticated vCenter session: the datastore finder and the CNS
      client, each answering a request with a response or an error. */
  datatype VSphereConnection = VSphereConnection(
    findDatastore: string -> Result<DatastoreRef>,
    queryVolume: QueryFilter -> Result<QueryResult>,
    relocateVolume: RelocateSpec -> Result<Task>,
    waitForResult: Task -> Result<BatchResult>)

  // --------------------------------------------------------- Kubernetes

  /** The CSI part of a persistent volume's spec. */
  datatype CsiSource = CsiSource(driver: string, volumeHandle: string)

  /** A persistent volume; `csi` is nil for volumes of other plugins. */
  datatype PersistentVolume = PersistentVolume(name: string, csi: Option<CsiSource>)

  datatype Pod = Pod(namespace: string, name: string)

  const VSphereCsiDriverName: string := "csi.vsphere.vmware.com"

  /** The Kubernetes API calls the migrator makes. */
  datatype KubeClient = KubeClient(
    getPersistentVolume: string -> Result<PersistentVolume>,
    listPersistentVolumes: Result<seq<PersistentVolume>>,
    listPods: Result<seq<Pod>>)

  /** The in-use volume store, built from every persistent volume and every
      pod of the cluster. Its lookup is defined outside the migrator and is
      the oracle `Environment.volumeInUse`. */
  datatype InUseStore = InUseStore(persistentVolumes: seq<PersistentVolume>, pods: seq<Pod>)

  /** Opening and reading the volume list file. */
  datatype FileRead = OpenError(cause: Error) | ReadError(cause: Error) | Contents(text: string)

  /** Everything outside the migrator: the Kubernetes clients, the file
      system, the vCenter login (whose success yields a session) and the
      in-use lookup of the in-use store. */
  datatype Environment = Environment(
    kube: KubeClient,
    readFile: string -> FileRead,
    login: Result<VSphereConnection>,
    volumeInUse: (InUseStore, string) -> bool)

  // ------------------------------------------------------------ requests

  /** An external request issued by the migrator, in the order issued. */
  datatype Call =
    | Login
    | FindDatastore(datastore: string)
    | QueryVolume(filter: QueryFilter)
    | ListPersistentVolumes
    | ListPods
    | ReadFile(path: string)
    | GetPersistentVolume(pvName: string)
    | RelocateVolume(spec: RelocateSpec)
    | WaitForTask(task: Task)
}
