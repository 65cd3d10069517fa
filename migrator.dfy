/**
 The migrator object: it holds the vCenter session, the CNS catalog of the
 source datastore and the in-use store, and updates them in place as a run
 proceeds. Each method is proved to do what the functions of module `Run`,
 `Catalog`, `Relocation` and `Eligibility` describe; the ghost field `calls`
 records the external requests it issues.
 */
module CnsMigration {
  import opened CnsTypes
  import VolumeList
  import Catalog
  import Relocation
  import Eligibility
  import Run

  class CnsVolumeMigrator {
    /** The Kubernetes client, the vCenter login, the file system and the
        in-use lookup, as they answer during this run. */
    const env: Environment
    const sourceDatastore: string
    const destinationDatastore: string

    var vSphereConnection: Option<VSphereConnection>
    var matchingCnsVolumes: seq<CnsVolume>
    var usedVolumeCache: Option<InUseStore>

    /** Every external request issued so far, in order. */
    ghost var calls: seq<Call>

    /** The fields a run sets. */
    function State(): Run.State
      reads this`vSphereConnection, this`matchingCnsVolumes, this`usedVolumeCache
    {
      Run.State(vSphereConnection, matchingCnsVolumes, usedVolumeCache)
    }

    /** What the processing of the volume list works with. */
    function Context(): Run.Context
      requires vSphereConnection.Some? && usedVolumeCache.Some?
      reads this`vSphereConnection, this`matchingCnsVolumes, this`usedVolumeCache
    {
      Run.Context(env.kube, vSphereConnection.value, destinationDatastore, matchingCnsVolumes,
                  Run.InUse(env, usedVolumeCache.value))
    }

    /** `NewCNSVolumeMigrator`: no session, an empty catalog, no store. */
    constructor (env: Environment, dsSource: string, dsTarget: string)
      ensures this.env == env && sourceDatastore == dsSource && destinationDatastore == dsTarget
      ensures State() == Run.State(None, [], None)
      ensures calls == []
    {
      this.env := env;
      sourceDatastore := dsSource;
      destinationDatastore := dsTarget;
      vSphereConnection := None;
      matchingCnsVolumes := [];
      usedVolumeCache := None;
      calls := [];
    }

    /** `loginToVCenter`: keep the session when the login succeeds. */
    method LoginToVCenter() returns (status: Status)
      modifies this`vSphereConnection, this`calls
      ensures calls == old(calls) + [Login]
      ensures env.login.Failure? ==> status == Fail(env.login.error) && vSphereConnection == old(vSphereConnection)
      ensures env.login.Success? ==> status == Ok && vSphereConnection == Some(env.login.value)
    {
      calls := calls + [Login];
      var session := env.login;
      if session.Failure? {
        return Fail(session.error);
      }
      vSphereConnection := Some(session.value);
      return Ok;
    }

    /** `getDatastore`: resolve a datastore by name in the session. */
    method GetDatastore(dsName: string) returns (ds: Result<DatastoreRef>)
      requires vSphereConnection.Some?
      modifies this`calls
      ensures ds == vSphereConnection.value.findDatastore(dsName)
      ensures calls == old(calls) + [FindDatastore(dsName)]
    {
      calls := calls + [FindDatastore(dsName)];
      ds := vSphereConnection.value.findDatastore(dsName);
    }

    /** `getCNSVolumes`: append every page of the datastore's CNS volumes to
        the catalog, as `Catalog.LoadCatalog` describes; `fuel` bounds the
        number of queries the platform takes to end the listing. */
    method GetCnsVolumes(dsName: string, ghost fuel: nat) returns (status: Status)
      requires vSphereConnection.Some?
      requires Catalog.EndsWithin(vSphereConnection.value, dsName, fuel)
      modifies this`matchingCnsVolumes, this`calls
      ensures var load := Catalog.LoadCatalog(vSphereConnection.value, dsName, fuel);
        && status == load.status
        && matchingCnsVolumes == old(matchingCnsVolumes) + load.volumes
        && calls == old(calls) + load.calls
    {
      var conn := vSphereConnection.value;
      var found := GetDatastore(dsName);
      if found.Failure? {
        return Fail(found.error);
      }
      var filter := Catalog.FirstFilter(found.value);
      ghost var run := Catalog.Paginate(conn.queryVolume, filter, fuel).value;
      ghost var fuelLeft := fuel;
      ghost var fetched: seq<CnsVolume> := [];
      ghost var issued: seq<QueryFilter> := [];
      ghost var calls0 := calls;
      assert issued + run.requests == run.requests && fetched + run.volumes == run.volumes;
      assert calls0 + Catalog.QueryCalls(issued) == calls0;
      while true
        invariant Catalog.Paginate(conn.queryVolume, filter, fuelLeft).Some?
        invariant var rest := Catalog.Paginate(conn.queryVolume, filter, fuelLeft).value;
          run == Catalog.Pages(fetched + rest.volumes, issued + rest.requests, rest.error)
        invariant matchingCnsVolumes == old(matchingCnsVolumes) + fetched
        invariant calls == calls0 + Catalog.QueryCalls(issued)
        decreases fuelLeft
      {
        Catalog.PaginateStep(conn.queryVolume, filter, fuelLeft, run, fetched, issued);
        Catalog.QueryCallsSnoc(calls0, issued, filter);
        calls := calls + [QueryVolume(filter)];
        var res := conn.queryVolume(filter);
        if res.Failure? {
          Loaded(conn, dsName, fuel, run, Fail(res.error), old(calls), calls, old(matchingCnsVolumes), matchingCnsVolumes);
          return Fail(res.error);
        }
        AppendAssoc(old(matchingCnsVolumes), fetched, res.value.volumes);
        matchingCnsVolumes := matchingCnsVolumes + res.value.volumes;
        if Catalog.IsLastPage(res.value) {
          Loaded(conn, dsName, fuel, run, Ok, old(calls), calls, old(matchingCnsVolumes), matchingCnsVolumes);
          return Ok;
        }
        fetched, issued := fetched + res.value.volumes, issued + [filter];
        filter := Catalog.NextFilter(filter, res.value);
        fuelLeft := fuelLeft - 1;
      }
    }

    /** How the loop of `GetCnsVolumes` ends: its run is the catalog's. */
    static lemma Loaded(conn: VSphereConnection, dsName: string, fuel: nat, run: Catalog.Pages, status: Status,
                        oldCalls: seq<Call>, calls: seq<Call>, oldVolumes: seq<CnsVolume>, volumes: seq<CnsVolume>)
      requires Catalog.EndsWithin(conn, dsName, fuel) && conn.findDatastore(dsName).Success?
      requires run == Catalog.Paginate(conn.queryVolume, Catalog.FirstFilter(conn.findDatastore(dsName).value), fuel).value
      requires status == if run.error.Some? then Fail(run.error.value) else Ok
      requires calls == oldCalls + [FindDatastore(dsName)] + Catalog.QueryCalls(run.requests)
      requires volumes == oldVolumes + run.volumes
      ensures var load := Catalog.LoadCatalog(conn, dsName, fuel);
        status == load.status && volumes == oldVolumes + load.volumes && calls == oldCalls + load.calls
    {
      AppendAssoc(oldCalls, [FindDatastore(dsName)], Catalog.QueryCalls(run.requests));
    }

    /** `checkForDatastore`: the volume handle is in the catalog and the
        in-use store does not report it as used. */
    method CheckForDatastore(pv: PersistentVolume) returns (eligible: bool)
      requires pv.csi.Some? && usedVolumeCache.Some?
      ensures eligible == Eligibility.CheckForDatastore(matchingCnsVolumes, pv.csi.value.volumeHandle,
                                                        Run.InUse(env, usedVolumeCache.value))
    {
      var i := 0;
      while i < |matchingCnsVolumes|
        invariant 0 <= i <= |matchingCnsVolumes|
        invariant forall j | 0 <= j < i :: matchingCnsVolumes[j].volumeId.id != pv.csi.value.volumeHandle
      {
        var vh := pv.csi.value.volumeHandle;
        if matchingCnsVolumes[i].volumeId.id == vh {
          var inUse := env.volumeInUse(usedVolumeCache.value, vh);
          return !inUse;
        }
        i := i + 1;
      }
      return false;
    }

    /** `migrateVolume`: relocate one volume to the destination datastore, as
        `Relocation.Migrate` describes. */
    method MigrateVolume(volumeId: string) returns (status: Status)
      requires vSphereConnection.Some?
      modifies this`calls
      ensures var attempt := Relocation.Migrate(vSphereConnection.value, destinationDatastore, volumeId);
        status == attempt.status && calls == old(calls) + attempt.calls
    {
      var conn := vSphereConnection.value;
      var dtsDatastore := GetDatastore(destinationDatastore);
      if dtsDatastore.Failure? {
        return Fail(DestinationNotFound(destinationDatastore, dtsDatastore.error));
      }
      var relocatedSpec := RelocateSpec(CnsVolumeId(volumeId), dtsDatastore.value);
      calls := calls + [RelocateVolume(relocatedSpec)];
      var task := conn.relocateVolume(relocatedSpec);
      if task.Failure? {
        if Relocation.IsAlreadyExists(task.error) {
          return Ok;
        }
        return Fail(task.error);
      }
      calls := calls + [WaitForTask(task.value)];
      var taskInfo := conn.waitForResult(task.value);
      if taskInfo.Failure? {
        return Fail(TaskWaitFailed(taskInfo.error));
      }
      var results := taskInfo.value.volumeResults;
      var i := 0;
      while i < |results|
        invariant 0 <= i <= |results|
        invariant forall j | 0 <= j < i :: results[j].fault.None?
      {
        var fault := results[i].fault;
        if fault.Some? {
          Relocation.FirstFaultDecides(taskInfo.value, i);
          return Fail(VolumeFault(fault.value.localizedMessage));
        }
        i := i + 1;
      }
      return Ok;
    }

    /** The body of the loop of `findCSIVolumes` for one listed name: look
        the persistent volume up, and relocate it when it is a vSphere CSI
        volume that `checkForDatastore` accepts, as `Run.HandlePv`
        describes. A failed relocation is not an error. */
    method MigratePv(pvName: string) returns (status: Status)
      requires vSphereConnection.Some? && usedVolumeCache.Some?
      modifies this`calls
      ensures var step := Run.HandlePv(Context(), pvName);
        status == step.status && calls == old(calls) + step.calls
    {
      calls := calls + [GetPersistentVolume(pvName)];
      var pv := env.kube.getPersistentVolume(pvName);
      if pv.Failure? {
        return Fail(PvLookupFailed(pvName, pv.error));
      }
      var csiSource := pv.value.csi;
      if csiSource.Some? && csiSource.value.driver == VSphereCsiDriverName {
        var eligible := CheckForDatastore(pv.value);
        if eligible {
          ghost var before := calls;
          var err := MigrateVolume(csiSource.value.volumeHandle);
          AppendAssoc(old(calls), [GetPersistentVolume(pvName)], calls[|before|..]);
        }
      }
      return Ok;
    }

    /** `findCSIVolumes`: read the volume list file and, line by line, look
        up each listed persistent volume and relocate it when it qualifies,
        as `Run.FindCsiVolumes` describes. */
    method FindCsiVolumes(volumeFile: string) returns (status: Status)
      requires vSphereConnection.Some? && usedVolumeCache.Some?
      modifies this`calls
      ensures var p := Run.FindCsiVolumes(Context(), env.readFile, volumeFile);
        status == p.status && calls == old(calls) + p.calls
    {
      calls := calls + [ReadFile(volumeFile)];
      var file := env.readFile(volumeFile);
      if file.OpenError? {
        return Fail(FileOpenFailed(volumeFile, file.cause));
      }
      if file.ReadError? {
        return Fail(FileReadFailed(volumeFile, file.cause));
      }
      var fileBytes := file.text;
      if |fileBytes| == 0 {
        return Fail(NoListedVolumes(volumeFile));
      }
      var volumeLines := VolumeList.Split(fileBytes);
      ghost var before := calls;
      status := MigrateLines(volumeLines);
      AppendAssoc(old(calls), [ReadFile(volumeFile)], calls[|before|..]);
    }

    /** The loop of `findCSIVolumes` over the lines of the file: the
        non-blank trimmed lines are handled in order until a lookup fails,
        as `Run.ProcessNames` describes. */
    method MigrateLines(volumeLines: seq<string>) returns (status: Status)
      requires vSphereConnection.Some? && usedVolumeCache.Some?
      modifies this`calls
      ensures var p := Run.ProcessNames(Context(), VolumeList.PvNames(volumeLines));
        status == p.status && calls == old(calls) + p.calls
    {
      ghost var ctx := Context();
      ghost var calls0 := calls;
      var i := 0;
      while i < |volumeLines|
        invariant 0 <= i <= |volumeLines|
        invariant Context() == ctx
        invariant Run.ProcessNames(ctx, VolumeList.PvNames(volumeLines[..i])).status == Ok
        invariant calls == calls0 + Run.ProcessNames(ctx, VolumeList.PvNames(volumeLines[..i])).calls
      {
        ghost var before := calls;
        var pvName := VolumeList.TrimSpace(volumeLines[i]);
        var err := Ok;
        if pvName != "" {
          err := MigratePv(pvName);
        }
        LineDone(ctx, volumeLines, i, calls0, before, calls, err);
        if err.Fail? {
          return err;
        }
        i := i + 1;
      }
      assert volumeLines[..i] == volumeLines;
      return Ok;
    }

    /** One turn of the loop of `MigrateLines`: a blank line changes
        nothing, a name is handled as `Run.HandlePv` describes, and a failed
        lookup ends the loop with the result for the whole file. */
    static lemma LineDone(ctx: Run.Context, lines: seq<string>, i: nat, calls0: seq<Call>,
                          before: seq<Call>, after: seq<Call>, status: Status)
      requires i < |lines|
      requires Run.ProcessNames(ctx, VolumeList.PvNames(lines[..i])).status == Ok
      requires before == calls0 + Run.ProcessNames(ctx, VolumeList.PvNames(lines[..i])).calls
      requires VolumeList.TrimSpace(lines[i]) == "" ==> after == before && status == Ok
      requires VolumeList.TrimSpace(lines[i]) != "" ==>
        var step := Run.HandlePv(ctx, VolumeList.TrimSpace(lines[i]));
        after == before + step.calls && status == step.status
      ensures status.Ok? ==>
        && Run.ProcessNames(ctx, VolumeList.PvNames(lines[..i + 1])).status == Ok
        && after == calls0 + Run.ProcessNames(ctx, VolumeList.PvNames(lines[..i + 1])).calls
      ensures status.Fail? ==>
        && status == Run.ProcessNames(ctx, VolumeList.PvNames(lines)).status
        && after == calls0 + Run.ProcessNames(ctx, VolumeList.PvNames(lines)).calls
    {
      var done := VolumeList.PvNames(lines[..i]);
      var name := VolumeList.TrimSpace(lines[i]);
      VolumeList.PvNamesPrefix(lines, i);
      if name == "" {
        assert done + [] == done;
      } else {
        Run.ProcessNamesSnoc(ctx, done, name);
        AppendAssoc(calls0, Run.ProcessNames(ctx, done).calls, Run.HandlePv(ctx, name).calls);
        if status.Fail? {
          LinesStop(ctx, lines, i, name);
        }
      }
    }

    static lemma AppendAssoc<T>(a: seq<T>, b: seq<T>, c: seq<T>)
      ensures a + b + c == a + (b + c)
    {
    }

    /** A failed lookup on line `i` ends the loop with the names so far. */
    static lemma LinesStop(ctx: Run.Context, lines: seq<string>, i: nat, name: string)
      requires i < |lines| && VolumeList.LineName(lines[i]) == [name]
      requires Run.ProcessNames(ctx, VolumeList.PvNames(lines[..i]) + [name]).status.Fail?
      ensures Run.ProcessNames(ctx, VolumeList.PvNames(lines)) == Run.ProcessNames(ctx, VolumeList.PvNames(lines[..i]) + [name])
    {
      var head, tail := lines[..i + 1], lines[i + 1..];
      var names := VolumeList.PvNames(lines[..i]) + [name];
      VolumeList.PvNamesPrefix(lines, i);
      assert VolumeList.PvNames(head) == names;
      assert lines == head + tail;
      VolumeList.PvNamesAppend(head, tail);
      assert VolumeList.PvNames(lines) == names + VolumeList.PvNames(tail);
      Run.ProcessNamesStops(ctx, names, VolumeList.PvNames(tail));
    }

    /** `StartMigration`: log in, load the source datastore's catalog, list
        all persistent volumes and pods, build the in-use store, and process
        the volume list file, as `Run.StartMigration` describes. */
    method StartMigration(volumeFile: string, ghost fuel: nat) returns (status: Status)
      requires Run.CatalogEnds(env, sourceDatastore, fuel)
      modifies this
      ensures var r := Run.StartMigration(env, sourceDatastore, destinationDatastore, volumeFile, old(State()), fuel);
        && status == r.status
        && calls == old(calls) + r.calls
        && State() == r.state
    {
      status := LoginToVCenter();
      if status.Fail? {
        return;
      }
      ghost var afterLogin := calls;
      status := GetCnsVolumes(sourceDatastore, fuel);
      ghost var load := Catalog.LoadCatalog(vSphereConnection.value, sourceDatastore, fuel);
      AppendAssoc(old(calls), [Login], load.calls);
      if status.Fail? {
        return;
      }
      ghost var afterCatalog := calls;
      status := ListAndProcess(volumeFile);
      AppendAssoc(old(calls), [Login] + load.calls, calls[|afterCatalog|..]);
    }

    /** The steps of `StartMigration` after the catalog, as
        `Run.ListAndProcess` describes. */
    method ListAndProcess(volumeFile: string) returns (status: Status)
      requires vSphereConnection.Some?
      modifies this`usedVolumeCache, this`calls
      ensures var r := Run.ListAndProcess(env, vSphereConnection.value, destinationDatastore, volumeFile, old(State()));
        && status == r.status
        && calls == old(calls) + r.calls
        && State() == r.state
    {
      calls := calls + [ListPersistentVolumes];
      var pvList := env.kube.listPersistentVolumes;
      if pvList.Failure? {
        return Fail(pvList.error);
      }
      calls := calls + [ListPods];
      var podList := env.kube.listPods;
      if podList.Failure? {
        return Fail(podList.error);
      }
      usedVolumeCache := Some(InUseStore(pvList.value, podList.value));
      ghost var before := calls;
      status := FindCsiVolumes(volumeFile);
      AppendAssoc(old(calls), [ListPersistentVolumes, ListPods], calls[|before|..]);
    }
  }
}
