/**
 A migration run, as functions of the external systems' answers: the
 processing of the volume list file (`findCSIVolumes`) and the sequence of
 steps of `StartMigration`. Each returns the run's error and the external
 calls it issued, in order; the class in module `CnsMigration` is proved to
 do exactly this.
 */
module Run {
  import opened CnsTypes
  import VolumeList
  import Catalog
  import Relocation
  import Eligibility

  /** The error returned so far and the calls issued so far. */
  datatype Progress = Progress(status: Status, calls: seq<Call>)

  /** What the processing of the volume list works with, all of it set up
      by `StartMigration`: the Kubernetes client, the vCenter session, the
      destination datastore's name, the catalog and the in-use lookup. */
  datatype Context = Context(
    kube: KubeClient,
    conn: VSphereConnection,
    destination: string,
    catalog: seq<CnsVolume>,
    inUse: string -> bool)

  /** The in-use lookup of a built in-use store. */
  function InUse(env: Environment, cache: InUseStore): string -> bool {
    h => env.volumeInUse(cache, h)
  }

  /** A persistent volume provisioned by the vSphere CSI driver. */
  predicate IsVSphereVolume(pv: PersistentVolume) {
    pv.csi.Some? && pv.csi.value.driver == VSphereCsiDriverName
  }

  /** The persistent volume named `name` exists, is a vSphere CSI volume,
      and passes `checkForDatastore`: the migrator relocates it. */
  predicate Migrates(ctx: Context, name: string) {
    var pv := ctx.kube.getPersistentVolume(name);
    && pv.Success?
    && IsVSphereVolume(pv.value)
    && Eligibility.CheckForDatastore(ctx.catalog, pv.value.csi.value.volumeHandle, ctx.inUse)
  }

  /** The volume handle of a volume the migrator relocates. */
  function HandleOf(ctx: Context, name: string): string
    requires Migrates(ctx, name)
  {
    ctx.kube.getPersistentVolume(name).value.csi.value.volumeHandle
  }

  /** The persistent-volume names that the calls look up, in order. */
  function Lookups(calls: seq<Call>): seq<string> {
    if calls == [] then []
    else (if calls[0].GetPersistentVolume? then [calls[0].pvName] else []) + Lookups(calls[1..])
  }

  lemma {:induction false} LookupsAppend(a: seq<Call>, b: seq<Call>)
    ensures Lookups(a + b) == Lookups(a) + Lookups(b)
  {
    if a == [] {
      assert a + b == b;
    } else {
      assert (a + b)[0] == a[0];
      assert (a + b)[1..] == a[1..] + b;
      LookupsAppend(a[1..], b);
    }
  }

  lemma {:induction false} NoLookups(calls: seq<Call>)
    requires forall c | c in calls :: !c.GetPersistentVolume?
    ensures Lookups(calls) == []
  {
    if calls != [] {
      assert calls[0] in calls;
      NoLookups(calls[1..]);
    }
  }

  /** One line of the file: look the persistent volume up (a failed lookup
      ends the run), and relocate it when it qualifies. A failed relocation
      does not make the step fail. */
  function HandlePv(ctx: Context, name: string): Progress {
    match ctx.kube.getPersistentVolume(name)
    case Failure(e) => Progress(Fail(PvLookupFailed(name, e)), [GetPersistentVolume(name)])
    case Success(pv) =>
      if IsVSphereVolume(pv) && Eligibility.CheckForDatastore(ctx.catalog, pv.csi.value.volumeHandle, ctx.inUse) then
        var attempt := Relocation.Migrate(ctx.conn, ctx.destination, pv.csi.value.volumeHandle);
        Progress(Ok, [GetPersistentVolume(name)] + attempt.calls)
      else
        Progress(Ok, [GetPersistentVolume(name)])
  }

  /** A step looks up its name and nothing else, fails exactly when the
      lookup fails, and relocates exactly the volumes that qualify, by their
      own handle. */
  lemma HandlePvSpec(ctx: Context, name: string)
    ensures var p := HandlePv(ctx, name);
      && Lookups(p.calls) == [name]
      && (p.status.Fail? <==> ctx.kube.getPersistentVolume(name).Failure?)
      && (p.status.Fail? ==> p.status.error == PvLookupFailed(name, ctx.kube.getPersistentVolume(name).error))
      && ((|p.calls| > 1) <==> Migrates(ctx, name))
      && forall c | c in p.calls && c.RelocateVolume? ::
           Migrates(ctx, name) && c.spec.volumeId.id == HandleOf(ctx, name)
  {
    var p := HandlePv(ctx, name);
    if Migrates(ctx, name) {
      var attempt := Relocation.Migrate(ctx.conn, ctx.destination, HandleOf(ctx, name));
      Relocation.MigrateSpec(ctx.conn, ctx.destination, HandleOf(ctx, name));
      NoLookups(attempt.calls);
      LookupsAppend([GetPersistentVolume(name)], attempt.calls);
    }
  }

  /** The loop of `findCSIVolumes` over the listed names, in order, up to
      and including the first failed lookup. */
  function ProcessNames(ctx: Context, names: seq<string>): Progress {
    if names == [] then Progress(Ok, [])
    else
      var done := ProcessNames(ctx, names[..|names| - 1]);
      if done.status.Fail? then done
      else
        var step := HandlePv(ctx, names[|names| - 1]);
        Progress(step.status, done.calls + step.calls)
  }

  /** One more name, after names that were all found. */
  lemma ProcessNamesSnoc(ctx: Context, done: seq<string>, name: string)
    requires ProcessNames(ctx, done).status == Ok
    ensures ProcessNames(ctx, done + [name]) ==
      Progress(HandlePv(ctx, name).status, ProcessNames(ctx, done).calls + HandlePv(ctx, name).calls)
  {
    assert (done + [name])[..|done|] == done;
  }

  /** Once a lookup has failed, later names change nothing: the loop has
      returned. */
  lemma {:induction false} ProcessNamesStops(ctx: Context, a: seq<string>, b: seq<string>)
    requires ProcessNames(ctx, a).status.Fail?
    ensures ProcessNames(ctx, a + b) == ProcessNames(ctx, a)
    decreases |b|
  {
    if b == [] {
      assert a + b == a;
    } else {
      var b' := b[..|b| - 1];
      assert (a + b)[..|a + b| - 1] == a + b';
      ProcessNamesStops(ctx, a, b');
    }
  }

  /** Index of the first name whose persistent volume cannot be looked up,
      or the number of names. */
  function FirstMissing(kube: KubeClient, names: seq<string>): (k: nat)
    ensures k <= |names|
    ensures forall i | 0 <= i < k :: kube.getPersistentVolume(names[i]).Success?
    ensures k < |names| ==> kube.getPersistentVolume(names[k]).Failure?
  {
    if names == [] || kube.getPersistentVolume(names[0]).Failure? then 0
    else 1 + FirstMissing(kube, names[1..])
  }

  /** A name appended after the others is reached only when every other
      name exists. */
  lemma {:induction false} FirstMissingSnoc(kube: KubeClient, init: seq<string>, last: string)
    ensures FirstMissing(kube, init + [last]) ==
      if FirstMissing(kube, init) < |init| then FirstMissing(kube, init)
      else if kube.getPersistentVolume(last).Failure? then |init|
      else |init| + 1
  {
    if init == [] {
      assert init + [last] == [last];
    } else {
      assert (init + [last])[0] == init[0];
      assert (init + [last])[1..] == init[1..] + [last];
      FirstMissingSnoc(kube, init[1..], last);
    }
  }

  /** The names are looked up in order, repetitions included, up to and
      including the first that is missing, and no further; the run fails
      exactly when one is missing, with that name. Relocation failures do
      not change the result. */
  lemma {:induction false} ProcessNamesLookups(ctx: Context, names: seq<string>)
    ensures var k := FirstMissing(ctx.kube, names);
      && Lookups(ProcessNames(ctx, names).calls) == (if k < |names| then names[..k + 1] else names)
      && ProcessNames(ctx, names).status ==
           (if k < |names| then Fail(PvLookupFailed(names[k], ctx.kube.getPersistentVolume(names[k]).error)) else Ok)
  {
    if names != [] {
      var init, last := names[..|names| - 1], names[|names| - 1];
      assert names == init + [last];
      FirstMissingSnoc(ctx.kube, init, last);
      ProcessNamesLookups(ctx, init);
      var k := FirstMissing(ctx.kube, init);
      if k < |init| {
        ProcessNamesStops(ctx, init, [last]);
        assert names[k] == init[k];
        assert names[..k + 1] == init[..k + 1];
      } else {
        ProcessNamesSnoc(ctx, init, last);
        HandlePvSpec(ctx, last);
        LookupsAppend(ProcessNames(ctx, init).calls, HandlePv(ctx, last).calls);
        assert names[..k + 1] == names;
      }
    }
  }

  /** In-use safety: every volume the run relocates is the handle of a
      listed vSphere CSI volume, is in the source catalog and is not in
      use. */
  lemma {:induction false} RelocatesOnlyEligible(ctx: Context, names: seq<string>)
    ensures forall c | c in ProcessNames(ctx, names).calls && c.RelocateVolume? ::
      && Eligibility.InCatalog(ctx.catalog, c.spec.volumeId.id)
      && !ctx.inUse(c.spec.volumeId.id)
      && exists j | 0 <= j < |names| :: Migrates(ctx, names[j]) && HandleOf(ctx, names[j]) == c.spec.volumeId.id
  {
    if names != [] {
      var init, last := names[..|names| - 1], names[|names| - 1];
      RelocatesOnlyEligible(ctx, init);
      var done := ProcessNames(ctx, init);
      if done.status.Ok? {
        var step := HandlePv(ctx, last);
        HandlePvSpec(ctx, last);
        forall c | c in done.calls + step.calls && c.RelocateVolume?
          ensures Eligibility.InCatalog(ctx.catalog, c.spec.volumeId.id)
          ensures !ctx.inUse(c.spec.volumeId.id)
          ensures exists j | 0 <= j < |names| :: Migrates(ctx, names[j]) && HandleOf(ctx, names[j]) == c.spec.volumeId.id
        {
          if c in done.calls {
            var j :| 0 <= j < |init| && Migrates(ctx, init[j]) && HandleOf(ctx, init[j]) == c.spec.volumeId.id;
            assert names[j] == init[j];
          } else {
            assert names[|names| - 1] == last;
          }
        }
      } else {
        forall c | c in done.calls && c.RelocateVolume?
          ensures exists j | 0 <= j < |names| :: Migrates(ctx, names[j]) && HandleOf(ctx, names[j]) == c.spec.volumeId.id
        {
          var j :| 0 <= j < |init| && Migrates(ctx, init[j]) && HandleOf(ctx, init[j]) == c.spec.volumeId.id;
          assert names[j] == init[j];
        }
      }
    }
  }

  /** `findCSIVolumes`: read the file, refuse a zero-length one, and process
      the names it lists. */
  function FindCsiVolumes(ctx: Context, readFile: string -> FileRead, path: string): Progress {
    match readFile(path)
    case OpenError(e) => Progress(Fail(FileOpenFailed(path, e)), [ReadFile(path)])
    case ReadError(e) => Progress(Fail(FileReadFailed(path, e)), [ReadFile(path)])
    case Contents(text) =>
      if |text| == 0 then Progress(Fail(NoListedVolumes(path)), [ReadFile(path)])
      else
        var p := ProcessNames(ctx, VolumeList.VolumeNames(text));
        Progress(p.status, [ReadFile(path)] + p.calls)
  }

  /** The file is read first; an unreadable or zero-length file is an
      error before any lookup; otherwise the listed names are processed. */
  lemma FindCsiVolumesSpec(ctx: Context, readFile: string -> FileRead, path: string)
    ensures var p := FindCsiVolumes(ctx, readFile, path);
      && |p.calls| >= 1 && p.calls[0] == ReadFile(path)
      && (readFile(path).OpenError? ==> p == Progress(Fail(FileOpenFailed(path, readFile(path).cause)), [ReadFile(path)]))
      && (readFile(path).ReadError? ==> p == Progress(Fail(FileReadFailed(path, readFile(path).cause)), [ReadFile(path)]))
      && (readFile(path) == Contents("") ==> p == Progress(Fail(NoListedVolumes(path)), [ReadFile(path)]))
      && (readFile(path).Contents? && readFile(path).text != "" ==>
            var names := VolumeList.VolumeNames(readFile(path).text);
            var k := FirstMissing(ctx.kube, names);
            && Lookups(p.calls) == (if k < |names| then names[..k + 1] else names)
            && p.status == (if k < |names| then Fail(PvLookupFailed(names[k], ctx.kube.getPersistentVolume(names[k]).error)) else Ok))
  {
    var f := readFile(path);
    if f.Contents? && f.text != "" {
      var names := VolumeList.VolumeNames(f.text);
      var q := ProcessNames(ctx, names);
      ProcessNamesLookups(ctx, names);
      LookupsAppend([ReadFile(path)], q.calls);
    }
  }

  /** A file of white space alone is not an error: nothing is looked up
      and the run succeeds. */
  lemma WhitespaceFileSucceeds(ctx: Context, readFile: string -> FileRead, path: string)
    requires readFile(path).Contents? && readFile(path).text != ""
    requires VolumeList.AllSpace(readFile(path).text)
    ensures FindCsiVolumes(ctx, readFile, path) == Progress(Ok, [ReadFile(path)])
  {
    VolumeList.WhitespaceOnlyListsNothing(readFile(path).text);
  }

  /** A file with a repeated name and a blank line: when every persistent
      volume exists, the repeated name is looked up twice, in file order. */
  lemma DuplicateLinesLookedUpTwice(ctx: Context, readFile: string -> FileRead, path: string)
    requires readFile(path) == Contents("pv-1\npv-2\n  \npv-1")
    requires ctx.kube.getPersistentVolume("pv-1").Success? && ctx.kube.getPersistentVolume("pv-2").Success?
    ensures FindCsiVolumes(ctx, readFile, path).status == Ok
    ensures Lookups(FindCsiVolumes(ctx, readFile, path).calls) == ["pv-1", "pv-2", "pv-1"]
  {
    VolumeList.DuplicateAndBlankLines();
    AllFound(ctx.kube, ["pv-1", "pv-2", "pv-1"]);
    FindCsiVolumesSpec(ctx, readFile, path);
  }

  lemma AllFound(kube: KubeClient, names: seq<string>)
    requires names == ["pv-1", "pv-2", "pv-1"]
    requires kube.getPersistentVolume("pv-1").Success? && kube.getPersistentVolume("pv-2").Success?
    ensures FirstMissing(kube, names) == 3
  {
    assert names[1..] == ["pv-2", "pv-1"];
    assert names[1..][1..] == ["pv-1"];
    assert names[1..][1..][1..] == [];
  }

  // ------------------------------------------------------ StartMigration

  /** The migrator's fields that a run sets. */
  datatype State = State(connection: Option<VSphereConnection>, catalog: seq<CnsVolume>, cache: Option<InUseStore>)

  /** The error, the calls issued and the fields after a run. */
  datatype Outcome = Outcome(status: Status, calls: seq<Call>, state: State)

  /** Once logged in, the catalog query loop ends within `fuel` queries. */
  predicate CatalogEnds(env: Environment, source: string, fuel: nat) {
    env.login.Success? ==> Catalog.EndsWithin(env.login.value, source, fuel)
  }

  /** The run gets as far as the volume list file: login, the catalog and
      both listings succeed. */
  predicate ReachesFile(env: Environment, source: string, fuel: nat)
    requires CatalogEnds(env, source, fuel)
  {
    && env.login.Success?
    && Catalog.LoadCatalog(env.login.value, source, fuel).status.Ok?
    && env.kube.listPersistentVolumes.Success?
    && env.kube.listPods.Success?
  }

  /** The steps after the catalog: list all persistent volumes and all
      pods, build the in-use store from them, and process the file. */
  function ListAndProcess(env: Environment, conn: VSphereConnection, destination: string, path: string, s: State): Outcome {
    match env.kube.listPersistentVolumes
    case Failure(e) => Outcome(Fail(e), [ListPersistentVolumes], s)
    case Success(pvs) =>
      match env.kube.listPods
      case Failure(e) => Outcome(Fail(e), [ListPersistentVolumes, ListPods], s)
      case Success(pods) =>
        var cache := InUseStore(pvs, pods);
        var ctx := Context(env.kube, conn, destination, s.catalog, InUse(env, cache));
        var p := FindCsiVolumes(ctx, env.readFile, path);
        Outcome(p.status, [ListPersistentVolumes, ListPods] + p.calls, s.(cache := Some(cache)))
  }

  /** A failed listing ends the run before the file is read; otherwise the
      in-use store is built from all persistent volumes and all pods, and
      then the file is read. */
  lemma ListAndProcessSpec(env: Environment, conn: VSphereConnection, destination: string, path: string, s: State)
    ensures var r := ListAndProcess(env, conn, destination, path, s);
      && |r.calls| >= 1 && r.calls[0] == ListPersistentVolumes
      && (ReadFile(path) in r.calls <==> env.kube.listPersistentVolumes.Success? && env.kube.listPods.Success?)
      && (!(env.kube.listPersistentVolumes.Success? && env.kube.listPods.Success?) ==>
            r.status.Fail? && Lookups(r.calls) == [] && r.state == s
            && forall c | c in r.calls :: !c.RelocateVolume?)
      && (env.kube.listPersistentVolumes.Success? && env.kube.listPods.Success? ==>
            && r.state == s.(cache := Some(InUseStore(env.kube.listPersistentVolumes.value, env.kube.listPods.value)))
            && |r.calls| >= 3 && r.calls[..2] == [ListPersistentVolumes, ListPods] && r.calls[2] == ReadFile(path))
  {
    var r := ListAndProcess(env, conn, destination, path, s);
    if env.kube.listPersistentVolumes.Failure? {
      NoLookups([ListPersistentVolumes]);
    } else if env.kube.listPods.Failure? {
      NoLookups([ListPersistentVolumes, ListPods]);
    } else {
      var cache := InUseStore(env.kube.listPersistentVolumes.value, env.kube.listPods.value);
      FindCsiVolumesSpec(Context(env.kube, conn, destination, s.catalog, InUse(env, cache)), env.readFile, path);
    }
  }

  /** `StartMigration`: log in, load the catalog of the source datastore,
      list all persistent volumes and all pods, build the in-use store from
      them, then process the volume list file. The first error ends it. */
  function StartMigration(env: Environment, source: string, destination: string, path: string, s: State, fuel: nat): Outcome
    requires CatalogEnds(env, source, fuel)
  {
    match env.login
    case Failure(e) => Outcome(Fail(e), [Login], s)
    case Success(conn) =>
      var load := Catalog.LoadCatalog(conn, source, fuel);
      var s := s.(connection := Some(conn), catalog := s.catalog + load.volumes);
      var calls := [Login] + load.calls;
      if load.status.Fail? then Outcome(load.status, calls, s)
      else
        var rest := ListAndProcess(env, conn, destination, path, s);
        Outcome(rest.status, calls + rest.calls, rest.state)
  }

  /** The run starts with the login, and without a login it issues no
      other call and changes nothing. */
  lemma StartMigrationLogsInFirst(env: Environment, source: string, destination: string, path: string, s: State, fuel: nat)
    requires CatalogEnds(env, source, fuel)
    ensures var r := StartMigration(env, source, destination, path, s, fuel);
      && |r.calls| >= 1 && r.calls[0] == Login
      && (env.login.Failure? ==> r == Outcome(Fail(env.login.error), [Login], s))
  {
  }

  /** A run that does not get as far as the file fails, looks up no
      persistent volume and does not read the file. */
  lemma StartMigrationAborts(env: Environment, source: string, destination: string, path: string, s: State, fuel: nat)
    requires CatalogEnds(env, source, fuel) && !ReachesFile(env, source, fuel)
    ensures var r := StartMigration(env, source, destination, path, s, fuel);
      r.status.Fail? && Lookups(r.calls) == [] && ReadFile(path) !in r.calls
  {
    if env.login.Success? {
      var conn := env.login.value;
      var load := Catalog.LoadCatalog(conn, source, fuel);
      var calls := [Login] + load.calls;
      assert forall c | c in calls :: c.Login? || c.FindDatastore? || c.QueryVolume?;
      NoLookups(calls);
      if load.status.Ok? {
        var s' := s.(connection := Some(conn), catalog := s.catalog + load.volumes);
        var rest := ListAndProcess(env, conn, destination, path, s');
        ListAndProcessSpec(env, conn, destination, path, s');
        LookupsAppend(calls, rest.calls);
      }
    }
  }

  /** A run that gets as far as the file: the session is kept, the catalog
      holds the fetched volumes, and the in-use store is built from all
      persistent volumes and all pods, all before the file is read. */
  lemma StartMigrationOrder(env: Environment, source: string, destination: string, path: string, s: State, fuel: nat)
    requires CatalogEnds(env, source, fuel) && ReachesFile(env, source, fuel)
    ensures var r := StartMigration(env, source, destination, path, s, fuel);
      var load := Catalog.LoadCatalog(env.login.value, source, fuel);
      var k := 1 + |load.calls| + 2;
      && r.state == State(Some(env.login.value), s.catalog + load.volumes,
                          Some(InUseStore(env.kube.listPersistentVolumes.value, env.kube.listPods.value)))
      && |r.calls| > k
      && r.calls[..k] == [Login] + load.calls + [ListPersistentVolumes, ListPods]
      && r.calls[k] == ReadFile(path)
  {
    var conn := env.login.value;
    var load := Catalog.LoadCatalog(conn, source, fuel);
    var s' := s.(connection := Some(conn), catalog := s.catalog + load.volumes);
    var calls := [Login] + load.calls;
    var rest := ListAndProcess(env, conn, destination, path, s');
    ListAndProcessSpec(env, conn, destination, path, s');
    assert (calls + rest.calls)[..|calls| + 2] == calls + rest.calls[..2];
  }

  /** In-use safety for the whole run: every relocated volume is in the
      catalog of the source datastore and, by the in-use store the run
      built, not in use; and nothing is relocated unless the run got as far
      as the file. */
  lemma {:induction false} StartMigrationRelocatesOnlyEligible(env: Environment, source: string, destination: string, path: string, s: State, fuel: nat)
    requires CatalogEnds(env, source, fuel)
    ensures var r := StartMigration(env, source, destination, path, s, fuel);
      forall c | c in r.calls && c.RelocateVolume? ::
        && ReachesFile(env, source, fuel)
        && Eligibility.InCatalog(r.state.catalog, c.spec.volumeId.id)
        && !env.volumeInUse(r.state.cache.value, c.spec.volumeId.id)
  {
    var r := StartMigration(env, source, destination, path, s, fuel);
    if env.login.Success? {
      var conn := env.login.value;
      var load := Catalog.LoadCatalog(conn, source, fuel);
      var s' := s.(connection := Some(conn), catalog := s.catalog + load.volumes);
      if load.status.Ok? {
        var rest := ListAndProcess(env, conn, destination, path, s');
        ListAndProcessSpec(env, conn, destination, path, s');
        if env.kube.listPersistentVolumes.Success? && env.kube.listPods.Success? {
          var cache := InUseStore(env.kube.listPersistentVolumes.value, env.kube.listPods.value);
          var ctx := Context(env.kube, conn, destination, s'.catalog, InUse(env, cache));
          var text := env.readFile(path);
          if text.Contents? && text.text != "" {
            RelocatesOnlyEligible(ctx, VolumeList.VolumeNames(text.text));
          }
        }
      }
    }
  }
}
