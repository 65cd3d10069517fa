/**
 Relocating one CNS volume to the destination datastore and classifying
 the outcome: an `AlreadyExists` SOAP fault from the relocate call counts as
 success, every other call error fails, so does a failed wait on the relocate task,
 and otherwise the first per-volume fault of the batch result decides.
 */
module Relocation {
  import opened CnsTypes

  /** The relocate call was refused because the volume already exists on
      the target datastore. */
  predicate IsAlreadyExists(e: Error) {
    e.SoapFault? && e.vimFault == AlreadyExists
  }

  /** Index of the first per-volume result that carries a fault, or the
      number of results when none does. */
  function FirstFaultIndex(results: seq<VolumeOperationResult>): (k: nat)
    ensures k <= |results|
    ensures forall i | 0 <= i < k :: results[i].fault.None?
    ensures k < |results| ==> results[k].fault.Some?
  {
    if results == [] || results[0].fault.Some? then 0 else 1 + FirstFaultIndex(results[1..])
  }

  /** The status of a relocate task that finished with `batch`: the first
      fault's message, or success when no result carries a fault. */
  function BatchStatus(batch: BatchResult): (s: Status)
    ensures s.Ok? <==> forall i | 0 <= i < |batch.volumeResults| :: batch.volumeResults[i].fault.None?
    ensures s.Fail? ==> s.error.VolumeFault?
  {
    var results := batch.volumeResults;
    var k := FirstFaultIndex(results);
    if k < |results| then Fail(VolumeFault(results[k].fault.value.localizedMessage)) else Ok
  }

  /** A faulty result preceded only by clean ones decides the status, with
      its own message; later results do not matter. */
  lemma FirstFaultDecides(batch: BatchResult, k: nat)
    requires k < |batch.volumeResults| && batch.volumeResults[k].fault.Some?
    requires forall i | 0 <= i < k :: batch.volumeResults[i].fault.None?
    ensures BatchStatus(batch) == Fail(VolumeFault(batch.volumeResults[k].fault.value.localizedMessage))
  {
  }

  /** The result of one migration attempt, and the calls it issued. */
  datatype Attempt = Attempt(status: Status, calls: seq<Call>)

  /** `migrateVolume`: resolve the destination datastore, ask CNS to
      relocate the volume there, wait for its task, and classify. */
  function Migrate(conn: VSphereConnection, destination: string, volumeId: string): Attempt {
    match conn.findDatastore(destination)
    case Failure(e) => Attempt(Fail(DestinationNotFound(destination, e)), [FindDatastore(destination)])
    case Success(ds) =>
      var spec := RelocateSpec(CnsVolumeId(volumeId), ds);
      var calls := [FindDatastore(destination), RelocateVolume(spec)];
      match conn.relocateVolume(spec)
      case Failure(e) => Attempt(if IsAlreadyExists(e) then Ok else Fail(e), calls)
      case Success(task) =>
        var calls := calls + [WaitForTask(task)];
        match conn.waitForResult(task)
        case Failure(e) => Attempt(Fail(TaskWaitFailed(e)), calls)
        case Success(batch) => Attempt(BatchStatus(batch), calls)
  }

  /** The destination is looked up first, and an unresolved one stops the
      attempt before any relocate call; only this volume is relocated, to
      the resolved destination; a refused call succeeds exactly when the
      volume is already there and issues no wait; an accepted call is
      waited on, and the wait's error or the batch result decides. */
  lemma MigrateSpec(conn: VSphereConnection, destination: string, volumeId: string)
    ensures var a := Migrate(conn, destination, volumeId);
      && |a.calls| >= 1 && a.calls[0] == FindDatastore(destination)
      && (conn.findDatastore(destination).Failure? ==>
            a == Attempt(Fail(DestinationNotFound(destination, conn.findDatastore(destination).error)), [FindDatastore(destination)]))
      && (forall c | c in a.calls :: c.FindDatastore? || c.RelocateVolume? || c.WaitForTask?)
      && (forall c | c in a.calls && c.RelocateVolume? ::
            conn.findDatastore(destination) == Success(c.spec.datastore) && c.spec.volumeId.id == volumeId)
      && (conn.findDatastore(destination).Success? ==>
            var spec := RelocateSpec(CnsVolumeId(volumeId), conn.findDatastore(destination).value);
            var call := conn.relocateVolume(spec);
            && |a.calls| >= 2 && a.calls[..2] == [FindDatastore(destination), RelocateVolume(spec)]
            && (call.Failure? ==> |a.calls| == 2)
            && (call.Failure? && IsAlreadyExists(call.error) ==> a.status == Ok)
            && (call.Failure? && !IsAlreadyExists(call.error) ==> a.status == Fail(call.error))
            && (call.Success? ==>
                  var wait := conn.waitForResult(call.value);
                  && |a.calls| == 3 && a.calls[2] == WaitForTask(call.value)
                  && (wait.Failure? ==> a.status == Fail(TaskWaitFailed(wait.error)))
                  && (wait.Success? ==> a.status == BatchStatus(wait.value))))
  {
  }

  /** Idempotence: re-running the migration of a volume that is already on
      the destination succeeds, and issues no wait. */
  lemma AlreadyRelocatedSucceeds(conn: VSphereConnection, destination: string, volumeId: string)
    requires conn.findDatastore(destination).Success?
    requires conn.relocateVolume(RelocateSpec(CnsVolumeId(volumeId), conn.findDatastore(destination).value)) == Failure(SoapFault(AlreadyExists))
    ensures Migrate(conn, destination, volumeId).status == Ok
    ensures forall c | c in Migrate(conn, destination, volumeId).calls :: !c.WaitForTask?
  {
  }

  /** The attempt succeeds exactly when the destination resolves and either
      the call is refused as `AlreadyExists` or its task finishes with no
      per-volume fault. */
  lemma MigrateSucceedsExactly(conn: VSphereConnection, destination: string, volumeId: string)
    ensures Migrate(conn, destination, volumeId).status.Ok? <==>
      && conn.findDatastore(destination).Success?
      && var call := conn.relocateVolume(RelocateSpec(CnsVolumeId(volumeId), conn.findDatastore(destination).value));
         || (call.Failure? && IsAlreadyExists(call.error))
         || (call.Success? && conn.waitForResult(call.value).Success?
             && forall i | 0 <= i < |conn.waitForResult(call.value).value.volumeResults| ::
                  conn.waitForResult(call.value).value.volumeResults[i].fault.None?)
  {
  }
}
