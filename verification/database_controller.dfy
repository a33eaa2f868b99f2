/**
 One pass of `DatabaseReconciler.Reconcile` (stateful/cmd/controller/main.go)
 as a step function over the request's namespace, with the headless Service
 and the StatefulSet it builds (`makeHeadlessService`, `makeStatefulSet`) and
 the readiness-driven phase.

 Unlike the two job controllers, this one names its children after the
 fetched Database, does nothing when the Database is gone (cleanup is left
 to the platform), and compares replica counts as int32 on both sides.
 The Database is read through the cache, whose copy has no status, so the
 status step always writes.
 */
module DatabaseController {
  import opened Kube
  import opened Gateway
  import opened DatabaseApi

  /** The request's namespace as the Database controller sees it. */
  datatype Cluster = Cluster(
    db: Option<Database>,
    statefulSets: map<string, StatefulSet>,
    services: map<string, Service>)

  /**
   What `r.Get` finds for the request: the stored Database if it has the
   requested name, else nothing.
   */
  function DatabaseNamed(c: Cluster, name: string): (r: Option<Database>)
    ensures r.Some? <==> c.db.Some? && c.db.value.meta.name == name
    ensures r.Some? ==> r == c.db
  {
    if c.db.Some? && c.db.value.meta.name == name then c.db else None
  }

  /**
   What `r.Get` hands the reconciler. The manager's client reads from its
   informer cache, which answers with `DeepCopyObject` of the cached
   Database: the stored Database without its status.
   */
  function CachedGet(c: Cluster, name: string): (r: Option<Database>)
    ensures r.Some? <==> DatabaseNamed(c, name).Some?
    ensures r.Some? ==> r.value == DeepCopyObject(c.db.value)
    ensures Readable(c, name, r)
  {
    match DatabaseNamed(c, name)
    case None => None
    case Some(db) => CopyClearsOnlyStatus(db); Some(DeepCopyObject(db))
  }

  /**
   `got` can be what a Get of `name` hands back: nothing exactly when no
   Database of that name is stored, else the stored Database up to its status.
   */
  predicate Readable(c: Cluster, name: string, got: Option<Database>) {
    && (got.Some? <==> DatabaseNamed(c, name).Some?)
    && (got.Some? ==> got.value == c.db.value.(status := got.value.status))
  }

  /** `db` is the stored Database up to its status, as a fetched copy is. */
  predicate CopyOf(c: Cluster, db: Database) {
    c.db.Some? && db == c.db.value.(status := db.status)
  }

  const PostgresPort: int := 5432
  const DefaultStorage: string := "1Gi"
  const DefaultImage: string := "postgres:15-alpine"
  const DataVolume: string := "data"
  const DataMountPath: string := "/var/lib/postgresql/data"

  const Ready: string := "Ready"

  /** Seconds to wait after creating or scaling the StatefulSet. */
  const SettleRequeueSeconds: nat := 5

  /** Seconds to wait between readiness checks. */
  const MonitorRequeueSeconds: nat := 10

  /** The name of every child: the database name, or the Database's own name when that is empty. */
  function ResourceName(db: Database): (name: string)
    ensures db.spec.databaseName != "" ==> name == db.spec.databaseName
    ensures db.spec.databaseName == "" ==> name == db.meta.name
  {
    if db.spec.databaseName == "" then db.meta.name else db.spec.databaseName
  }

  /** `makeHeadlessService`: no cluster IP, port 5432, selecting the `app` label. */
  function HeadlessServiceFor(name: string): (s: Service)
    ensures s.meta.name == name
    ensures s.clusterIP == ClusterIPNone
    ensures s.ports == [ServicePort(5432, 5432)]
    ensures s.selector == AppLabels(name)
  {
    Service(Named(name), ClusterIPNone, AppLabels(name), [ServicePort(PostgresPort, PostgresPort)])
  }

  /** The storage a Database asks for, defaulting to 1Gi. */
  function ResolveStorage(requested: string): (storage: string)
    ensures storage != ""
    ensures requested != "" ==> storage == requested
    ensures requested == "" ==> storage == DefaultStorage
  {
    if requested == "" then DefaultStorage else requested
  }

  /** The image a Database runs, defaulting to postgres:15-alpine. */
  function ResolveImage(requested: string): (image: string)
    ensures image != ""
    ensures requested != "" ==> image == requested
    ensures requested == "" ==> image == DefaultImage
  {
    if requested == "" then DefaultImage else requested
  }

  /** The postgres container of the pod template. */
  function PostgresContainer(db: Database): Container {
    Container(
      "postgres",
      ResolveImage(db.spec.image),
      ResolvePullPolicy(db.spec.imagePullPolicy),
      [PostgresPort],
      [EnvVar("POSTGRES_PASSWORD", Literal(db.spec.password))],
      [VolumeMount(DataVolume, DataMountPath)],
      Some(TcpProbe(PostgresPort, 5, 5)))
  }

  /** `makeStatefulSet`: the StatefulSet a Database calls for, under child name `name`. */
  function StatefulSetFor(db: Database, name: string): (s: StatefulSet)
    ensures s.meta.name == name && s.serviceName == name
    ensures s.replicas == Some(ToInt32(db.spec.replicas))
    ensures s.selector == AppLabels(name) && s.template.meta.labels == s.selector
    ensures s.volumeClaimTemplates ==
      [VolumeClaim(Named(DataVolume), [ReadWriteOnce], ResolveStorage(db.spec.storage))]
    ensures |s.template.containers| == 1
    ensures s.template.containers[0].name == "postgres" && s.template.containers[0].ports == [5432]
    ensures s.template.containers[0].image == ResolveImage(db.spec.image)
    ensures s.template.containers[0].imagePullPolicy == ResolvePullPolicy(db.spec.imagePullPolicy)
    ensures s.template.containers[0].env == [EnvVar("POSTGRES_PASSWORD", Literal(db.spec.password))]
    ensures s.readyReplicas == 0
  {
    var labels := AppLabels(name);
    var claim := VolumeClaim(Named(DataVolume), [ReadWriteOnce], ResolveStorage(db.spec.storage));
    StatefulSet(Named(name), Some(ToInt32(db.spec.replicas)), labels, name,
                PodTemplate(Labelled(labels), [PostgresContainer(db)]), [claim], 0)
  }

  /**
   The StatefulSet and its headless Service fit together: the StatefulSet
   names the Service as its governing service, the Service selects the pods
   the template stamps out, and the container mounts the claim template.
   */
  lemma StatefulChildrenFitTogether(db: Database, name: string)
    ensures var s := StatefulSetFor(db, name); var svc := HeadlessServiceFor(name);
      && s.serviceName == svc.meta.name
      && Selects(svc.selector, s.template.meta.labels)
      && Selects(s.selector, s.template.meta.labels)
      && forall claim :: claim in s.volumeClaimTemplates ==>
           exists m :: m in s.template.containers[0].volumeMounts && m.name == claim.meta.name
  {
    var s := StatefulSetFor(db, name);
    assert s.template.containers[0].volumeMounts[0].name == DataVolume;
  }

  /** The desired children depend on the name and spec only, never on status. */
  lemma DesiredChildrenIgnoreStatus(db: Database, status: DatabaseStatus)
    ensures ResourceName(db.(status := status)) == ResourceName(db)
    ensures StatefulSetFor(db.(status := status), ResourceName(db)) == StatefulSetFor(db, ResourceName(db))
  {
  }

  /** The phase of a StatefulSet from its ready and desired replica counts. */
  function PhaseOf(ready: Int32, replicas: Int32): (phase: string)
    ensures phase in {Pending, Running, Ready}
  {
    if ready == 0 then Pending
    else if ready < replicas then Running
    else Ready
  }

  /** With a non-negative ready count: none ready is Pending, some is Running, all (or more) is Ready. */
  lemma PhaseClassification(ready: Int32, replicas: Int32)
    requires ready >= 0
    ensures PhaseOf(ready, replicas) == Pending <==> ready == 0
    ensures PhaseOf(ready, replicas) == Running <==> 0 < ready < replicas
    ensures PhaseOf(ready, replicas) == Ready <==> ready > 0 && ready >= replicas
  {
  }

  /** The status a StatefulSet's readiness calls for: the phase of its ready count against its replica count, and that ready count. */
  function StatusOf(s: StatefulSet): DatabaseStatus
    requires s.replicas.Some?
  {
    DatabaseStatus(PhaseOf(s.readyReplicas, s.replicas.value), s.readyReplicas)
  }

  /**
   The stored Database after a status step that found `seen` on the fetched
   copy and computed `wanted`: `wanted` is written unless the copy showed it already.
   */
  function AfterStatusStep(stored: Database, seen: DatabaseStatus, wanted: DatabaseStatus): Database {
    if seen == wanted then stored else stored.(status := wanted)
  }

  /**
   Write status when phase or ready count differ from the fetched copy's,
   then ask to run again in ten seconds. A status write replaces the stored
   status and nothing else.
   */
  function SyncStatus(c: Cluster, db: Database, ready: Int32, replicas: Int32, faults: set<Call>): (p: Pass<Cluster>)
    requires CopyOf(c, db)
    ensures |p.calls| <= 1
    ensures |p.calls| == 1 <==> db.status.phase != PhaseOf(ready, replicas) || db.status.readyReplicas != ready
    ensures |p.calls| == 1 ==> p.calls[0] == UpdateCustomStatus(db.meta.name, PhaseOf(ready, replicas))
    ensures StopsAtFailure(p)
    ensures p.outcome == RequeueAfter(MonitorRequeueSeconds) || p.outcome.Failed?
    ensures p.outcome.RequeueAfter? ==>
      p.cluster.db == Some(AfterStatusStep(c.db.value, db.status, DatabaseStatus(PhaseOf(ready, replicas), ready)))
    ensures p.cluster.statefulSets == c.statefulSets && p.cluster.services == c.services
  {
    var phase := PhaseOf(ready, replicas);
    if db.status.phase != phase || db.status.readyReplicas != ready then
      var write := UpdateCustomStatus(db.meta.name, phase);
      if write in faults then StopAt(c, write, Unavailable)
      else Pass(c.(db := Some(c.db.value.(status := DatabaseStatus(phase, ready)))), RequeueAfter(MonitorRequeueSeconds), [write])
    else Pass(c, RequeueAfter(MonitorRequeueSeconds), [])
  }

  /** Ensure the StatefulSet exists with the spec's replica count, then sync status. */
  function EnsureStatefulSet(c: Cluster, db: Database, name: string, faults: set<Call>): (p: Pass<Cluster>)
    requires CopyOf(c, db)
    ensures |p.calls| >= 1 && p.calls[0] == GetStatefulSet(name)
    ensures ChildCallsUse(p.calls, name) && CreatesUse(p.calls, name)
    ensures StopsAtFailure(p)
    ensures p.cluster.services == c.services
    ensures name !in c.statefulSets && GetStatefulSet(name) !in faults && CreateStatefulSet(name) !in faults ==>
      && p.calls == [GetStatefulSet(name), CreateStatefulSet(name)]
      && p.outcome == RequeueAfter(SettleRequeueSeconds)
      && p.cluster == c.(statefulSets := c.statefulSets[name := StatefulSetFor(db, name)])
    ensures p.outcome == RequeueAfter(MonitorRequeueSeconds) ==>
      && name in c.statefulSets && c.statefulSets[name].replicas == Some(ToInt32(db.spec.replicas))
      && p.cluster == c.(db := Some(AfterStatusStep(c.db.value, db.status, StatusOf(c.statefulSets[name]))))
    ensures p.cluster.db.Some? && p.cluster.db.value.meta == db.meta && p.cluster.db.value.spec == db.spec
  {
    var get := GetStatefulSet(name);
    match Get(c.statefulSets, name, get in faults)
    case Err(NotFound) =>
      var create := CreateStatefulSet(name);
      (match Create(c.statefulSets, name, StatefulSetFor(db, name), create in faults)
       case Err(cause) => Pass(c, Failed(ApiError(create, cause)), [get, create])
       case Ok(sets) => Pass(c.(statefulSets := sets), RequeueAfter(SettleRequeueSeconds), [get, create]))
    case Err(cause) => StopAt(c, get, cause)
    case Ok(live) =>
      var desired := ToInt32(db.spec.replicas);
      if live.replicas.None? || live.replicas.value != desired then
        var update := UpdateStatefulSet(name);
        match Update(c.statefulSets, name, live.(replicas := Some(desired)), update in faults)
        case Err(cause) => Pass(c, Failed(ApiError(update, cause)), [get, update])
        case Ok(sets) => Pass(c.(statefulSets := sets), RequeueAfter(SettleRequeueSeconds), [get, update])
      else After(get, SyncStatus(c, db, live.readyReplicas, desired, faults))
  }

  /** The headless Service was not found: create it, then go on to the StatefulSet. */
  function CreateServiceThenStatefulSet(c: Cluster, db: Database, name: string, faults: set<Call>): (p: Pass<Cluster>)
    requires CopyOf(c, db) && name !in c.services
    ensures |p.calls| >= 1 && p.calls[0] == CreateService(name)
    ensures ChildCallsUse(p.calls, name) && CreatesUse(p.calls, name)
    ensures StopsAtFailure(p)
    ensures CreateService(name) !in faults ==>
      && |p.calls| >= 2 && p.calls[1] == GetStatefulSet(name)
      && p.cluster.services == c.services[name := HeadlessServiceFor(name)]
    ensures p.outcome == RequeueAfter(MonitorRequeueSeconds) ==>
      && name in c.statefulSets && c.statefulSets[name].replicas == Some(ToInt32(db.spec.replicas))
      && p.cluster.statefulSets == c.statefulSets
      && p.cluster.services == c.services[name := HeadlessServiceFor(name)]
      && p.cluster.db == Some(AfterStatusStep(c.db.value, db.status, StatusOf(c.statefulSets[name])))
    ensures p.cluster.db.Some? && p.cluster.db.value.meta == db.meta && p.cluster.db.value.spec == db.spec
  {
    var create := CreateService(name);
    match Create(c.services, name, HeadlessServiceFor(name), create in faults)
    case Err(cause) => StopAt(c, create, cause)
    case Ok(services) => After(create, EnsureStatefulSet(c.(services := services), db, name, faults))
  }

  /** Ensure the headless Service exists (creating it does not end the pass), then the StatefulSet. */
  function EnsureService(c: Cluster, db: Database, name: string, faults: set<Call>): (p: Pass<Cluster>)
    requires CopyOf(c, db)
    ensures |p.calls| >= 1 && p.calls[0] == GetService(name)
    ensures ChildCallsUse(p.calls, name) && CreatesUse(p.calls, name)
    ensures StopsAtFailure(p)
    ensures name in c.services && GetService(name) !in faults ==>
      |p.calls| >= 2 && p.calls[1] == GetStatefulSet(name) && p.cluster.services == c.services
    ensures name !in c.services && GetService(name) !in faults ==> |p.calls| >= 2 && p.calls[1] == CreateService(name)
    ensures name !in c.services && GetService(name) !in faults && CreateService(name) !in faults ==>
      && |p.calls| >= 3 && p.calls[2] == GetStatefulSet(name)
      && p.cluster.services == c.services[name := HeadlessServiceFor(name)]
    ensures p.outcome == RequeueAfter(MonitorRequeueSeconds) ==>
      && name in c.statefulSets && c.statefulSets[name].replicas == Some(ToInt32(db.spec.replicas))
      && p.cluster.statefulSets == c.statefulSets
      && p.cluster.services == (if name in c.services then c.services else c.services[name := HeadlessServiceFor(name)])
      && p.cluster.db == Some(AfterStatusStep(c.db.value, db.status, StatusOf(c.statefulSets[name])))
    ensures p.cluster.db.Some? && p.cluster.db.value.meta == db.meta && p.cluster.db.value.spec == db.spec
  {
    var get := GetService(name);
    match Get(c.services, name, get in faults)
    case Err(NotFound) => After(get, CreateServiceThenStatefulSet(c, db, name, faults))
    case Err(cause) => StopAt(c, get, cause)
    case Ok(_) => After(get, EnsureStatefulSet(c, db, name, faults))
  }

  /** One pass of `DatabaseReconciler.Reconcile` for `req`, given what the fetch of the Database hands back. */
  function ReconcileOn(c: Cluster, req: Request, got: Option<Database>, faults: set<Call>): (p: Pass<Cluster>)
    requires Readable(c, req.name, got)
    ensures |p.calls| >= 1 && p.calls[0] == GetCustom(req.name)
    ensures DatabaseNamed(c, req.name).Some? ==>
      ChildCallsUse(p.calls, ResourceName(c.db.value)) && CreatesUse(p.calls, ResourceName(c.db.value))
    ensures StopsAtFailure(p)
    ensures DatabaseNamed(c, req.name).None? ==> p.cluster == c && NoWrites(p.calls)
    ensures p.outcome == RequeueAfter(MonitorRequeueSeconds) ==>
      && DatabaseNamed(c, req.name).Some?
      && var db := c.db.value; var name := ResourceName(db);
      && name in c.statefulSets && c.statefulSets[name].replicas == Some(ToInt32(db.spec.replicas))
      && p.cluster.statefulSets == c.statefulSets
      && p.cluster.services == (if name in c.services then c.services else c.services[name := HeadlessServiceFor(name)])
      && p.cluster.db == Some(AfterStatusStep(db, got.value.status, StatusOf(c.statefulSets[name])))
    ensures p.cluster.db.Some? ==>
      c.db.Some? && p.cluster.db.value.meta == c.db.value.meta && p.cluster.db.value.spec == c.db.value.spec
  {
    var fetch := GetCustom(req.name);
    match Fetch(got, fetch in faults)
    case Err(NotFound) => Pass(c, Done, [fetch])
    case Err(cause) => StopAt(c, fetch, cause)
    case Ok(db) =>
      assert CopyOf(c, db) && ResourceName(db) == ResourceName(c.db.value);
      var q := EnsureService(c, db, ResourceName(db), faults);
      AfterKeepsShape(fetch, q, ResourceName(db));
      After(fetch, q)
  }

  /** One pass of `DatabaseReconciler.Reconcile` for `req`, with the calls in `faults` failing. */
  function Reconcile(c: Cluster, req: Request, faults: set<Call>): (p: Pass<Cluster>)
    ensures |p.calls| >= 1 && p.calls[0] == GetCustom(req.name)
    ensures DatabaseNamed(c, req.name).Some? ==>
      ChildCallsUse(p.calls, ResourceName(c.db.value)) && CreatesUse(p.calls, ResourceName(c.db.value))
    ensures StopsAtFailure(p)
    ensures DatabaseNamed(c, req.name).None? ==> p.cluster == c && NoWrites(p.calls)
    ensures p.outcome == RequeueAfter(MonitorRequeueSeconds) ==>
      && DatabaseNamed(c, req.name).Some?
      && var db := c.db.value; var name := ResourceName(db);
      && name in c.statefulSets && c.statefulSets[name].replicas == Some(ToInt32(db.spec.replicas))
      && p.cluster.statefulSets == c.statefulSets
      && p.cluster.services == (if name in c.services then c.services else c.services[name := HeadlessServiceFor(name)])
      && p.cluster.db == Some(db.(status := StatusOf(c.statefulSets[name])))
    ensures p.cluster.db.Some? ==>
      c.db.Some? && p.cluster.db.value.meta == c.db.value.meta && p.cluster.db.value.spec == c.db.value.spec
  {
    ReconcileOn(c, req, CachedGet(c, req.name), faults)
  }

  /**
   The pass as it would run if `DeepCopyObject` copied every property, as its
   comment says: the fetch hands back the stored Database itself. It agrees
   with the real pass whenever the copy loses nothing.
   */
  function ReconcileWithFullCopy(c: Cluster, req: Request, faults: set<Call>): (p: Pass<Cluster>)
    ensures StopsAtFailure(p)
    ensures p.outcome == RequeueAfter(MonitorRequeueSeconds) ==>
      && DatabaseNamed(c, req.name).Some?
      && var db := c.db.value; var name := ResourceName(db);
      && name in c.statefulSets && c.statefulSets[name].replicas == Some(ToInt32(db.spec.replicas))
      && p.cluster.statefulSets == c.statefulSets
      && p.cluster.services == (if name in c.services then c.services else c.services[name := HeadlessServiceFor(name)])
      && p.cluster.db == Some(db.(status := StatusOf(c.statefulSets[name])))
  {
    ReconcileOn(c, req, DatabaseNamed(c, req.name), faults)
  }

  /** When the copy loses nothing (no Database, or one with no status), both passes are the same. */
  lemma AgreesWhenCopyLosesNothing(c: Cluster, req: Request, faults: set<Call>)
    requires DatabaseNamed(c, req.name).None? || c.db.value.status == ZeroStatus
    ensures ReconcileWithFullCopy(c, req, faults) == Reconcile(c, req, faults)
  {
    if c.db.Some? {
      CopyClearsOnlyStatus(c.db.value);
    }
  }

  /** With no Database of the requested name the pass stops at once: it deletes nothing and changes nothing. */
  lemma MissingDatabaseLeavesChildren(c: Cluster, req: Request)
    requires DatabaseNamed(c, req.name).None?
    ensures Reconcile(c, req, {}) == Pass(c, Done, [GetCustom(req.name)])
  {
  }

  /** A failed fetch of the Database is returned, with no other call made. */
  lemma FetchErrorStopsPass(c: Cluster, req: Request, faults: set<Call>)
    requires GetCustom(req.name) in faults
    ensures Reconcile(c, req, faults) == Pass(c, Failed(ApiError(GetCustom(req.name), Unavailable)), [GetCustom(req.name)])
  {
  }

  /** A missing headless Service is created, and the pass goes on to the StatefulSet step. */
  lemma MissingServiceCreatedThenContinues(c: Cluster, req: Request, faults: set<Call>)
    requires c.db.Some? && c.db.value.meta.name == req.name && ResourceName(c.db.value) !in c.services
    requires GetCustom(req.name) !in faults
    requires GetService(ResourceName(c.db.value)) !in faults && CreateService(ResourceName(c.db.value)) !in faults
    ensures var p := Reconcile(c, req, faults); var name := ResourceName(c.db.value);
      && |p.calls| >= 4
      && p.calls[..4] == [GetCustom(req.name), GetService(name), CreateService(name), GetStatefulSet(name)]
      && p.cluster.services == c.services[name := HeadlessServiceFor(name)]
  {
    var db := c.db.value;
    var name := ResourceName(db);
    var got := DeepCopyObject(db);
    assert CachedGet(c, req.name) == Some(got);
    var q := EnsureService(c, got, name, faults);
    assert Reconcile(c, req, faults) == After(GetCustom(req.name), q);
    assert q.calls[..3] == [GetService(name), CreateService(name), GetStatefulSet(name)];
  }

  /** A missing StatefulSet is created from the spec, and the pass asks to run again in five seconds, without a status write. */
  lemma MissingStatefulSetCreated(c: Cluster, req: Request)
    requires c.db.Some? && c.db.value.meta.name == req.name && ResourceName(c.db.value) in c.services
    requires ResourceName(c.db.value) !in c.statefulSets
    ensures var p := Reconcile(c, req, {}); var name := ResourceName(c.db.value);
      && p.calls == [GetCustom(req.name), GetService(name), GetStatefulSet(name), CreateStatefulSet(name)]
      && p.outcome == RequeueAfter(5)
      && p.cluster == c.(statefulSets := c.statefulSets[name := StatefulSetFor(c.db.value, name)])
  {
  }

  /**
   A StatefulSet with no replica count, or one that differs from int32 of the
   spec's, gets only that count set; the pass asks to run again in five
   seconds, without a status write.
   */
  lemma ReplicaSyncRequeues(c: Cluster, req: Request)
    requires c.db.Some? && c.db.value.meta.name == req.name && ResourceName(c.db.value) in c.services
    requires ResourceName(c.db.value) in c.statefulSets
    requires c.statefulSets[ResourceName(c.db.value)].replicas != Some(ToInt32(c.db.value.spec.replicas))
    ensures var p := Reconcile(c, req, {}); var name := ResourceName(c.db.value);
      var live := c.statefulSets[name];
      && p.calls == [GetCustom(req.name), GetService(name), GetStatefulSet(name), UpdateStatefulSet(name)]
      && p.outcome == RequeueAfter(5)
      && p.cluster == c.(statefulSets := c.statefulSets[name := live.(replicas := Some(ToInt32(c.db.value.spec.replicas)))])
  {
  }

  /** The Database named `name` is stored, both children exist, and the StatefulSet has the spec's replica count. */
  predicate Settled(c: Cluster, name: string) {
    && DatabaseNamed(c, name).Some? && ResourceName(c.db.value) in c.services
    && ResourceName(c.db.value) in c.statefulSets
    && c.statefulSets[ResourceName(c.db.value)].replicas == Some(ToInt32(c.db.value.spec.replicas))
  }

  /** With both children in place and the replica count in sync, a fault-free pass goes straight to the status step. */
  lemma SettledPassReachesStatusStep(c: Cluster, req: Request, got: Option<Database>)
    requires Readable(c, req.name, got) && Settled(c, req.name)
    ensures var name := ResourceName(c.db.value);
      ReconcileOn(c, req, got, {})
      == After(GetCustom(req.name), After(GetService(name), After(GetStatefulSet(name),
           SyncStatus(c, got.value, c.statefulSets[name].readyReplicas, ToInt32(c.db.value.spec.replicas), {}))))
  {
    var db := got.value;
    var name := ResourceName(c.db.value);
    assert CopyOf(c, db) && ResourceName(db) == name;
    var sync := SyncStatus(c, db, c.statefulSets[name].readyReplicas, ToInt32(c.db.value.spec.replicas), {});
    assert EnsureStatefulSet(c, db, name, {}) == After(GetStatefulSet(name), sync);
    assert EnsureService(c, db, name, {}) == After(GetService(name), After(GetStatefulSet(name), sync));
  }

  /**
   With both children in place and the replica count in sync, status gets
   the phase of the ready count against the desired count and the ready
   count verbatim. It is written on every such pass, since the fetched copy
   has an empty phase, which no computed phase equals.
   */
  lemma SettledPassSyncsStatus(c: Cluster, req: Request)
    requires Settled(c, req.name)
    ensures var p := Reconcile(c, req, {}); var db := c.db.value; var name := ResourceName(db);
      var ready := c.statefulSets[name].readyReplicas;
      var status := DatabaseStatus(PhaseOf(ready, ToInt32(db.spec.replicas)), ready);
      && p.outcome == RequeueAfter(10)
      && p.cluster == c.(db := Some(db.(status := status)))
      && p.calls == [GetCustom(req.name), GetService(name), GetStatefulSet(name), UpdateCustomStatus(req.name, status.phase)]
  {
    var db := c.db.value;
    var name := ResourceName(db);
    CopyClearsOnlyStatus(db);
    SettledPassReachesStatusStep(c, req, CachedGet(c, req.name));
  }

  /**
   No idempotence at the status layer: after a pass that reached the status
   step, a repeat pass changes nothing but writes status again.
   */
  lemma RepeatPassRewritesStatus(c: Cluster, req: Request)
    requires Reconcile(c, req, {}).outcome == RequeueAfter(10)
    ensures var p1 := Reconcile(c, req, {}); var p2 := Reconcile(p1.cluster, req, {});
      && p2.cluster == p1.cluster
      && p2.outcome == RequeueAfter(10)
      && |p2.calls| == 4 && p2.calls[3] == UpdateCustomStatus(req.name, p1.cluster.db.value.status.phase)
      && !NoWrites(p2.calls)
  {
    var c1 := Reconcile(c, req, {}).cluster;
    assert Settled(c1, req.name);
    SettledPassSyncsStatus(c1, req);
    var db1 := c1.db.value;
    assert db1.status == StatusOf(c1.statefulSets[ResourceName(db1)]);
    assert c1.(db := Some(db1.(status := db1.status))) == c1;
    assert Reconcile(c1, req, {}).calls[3].IsWrite();
  }

  /**
   A new Database converges in two passes: the first creates the Service and
   the StatefulSet and asks to run again in five seconds; the second records
   phase Pending with no ready replica; a third changes nothing but writes
   the same status again.
   */
  lemma NewDatabaseConverges(db: Database, req: Request)
    requires db.meta.name == req.name
    ensures var p1 := Reconcile(Cluster(Some(db), map[], map[]), req, {});
      var p2 := Reconcile(p1.cluster, req, {});
      var p3 := Reconcile(p2.cluster, req, {});
      var name := ResourceName(db);
      && p1.outcome == RequeueAfter(5)
      && p1.cluster == Cluster(Some(db), map[name := StatefulSetFor(db, name)], map[name := HeadlessServiceFor(name)])
      && p2.outcome == RequeueAfter(10)
      && p2.cluster.db == Some(db.(status := DatabaseStatus(Pending, 0)))
      && p3.cluster == p2.cluster
      && p3.calls[3] == UpdateCustomStatus(req.name, Pending)
  {
    var c := Cluster(Some(db), map[], map[]);
    var name := ResourceName(db);
    MissingServiceCreatedThenContinues(c, req, {});
    var c1 := c.(services := map[name := HeadlessServiceFor(name)]);
    MissingStatefulSetCreated(c1, req);
    var p1 := Reconcile(c, req, {});
    assert p1 == After(GetCustom(req.name), After(GetService(name), After(CreateService(name),
      EnsureStatefulSet(c1, DeepCopyObject(db), name, {}))));
    SettledPassSyncsStatus(p1.cluster, req);
    RepeatPassRewritesStatus(p1.cluster, req);
  }

  /**
   With a copy that keeps every property, a settled pass writes status only
   when the phase or the ready count differs from what is stored.
   */
  lemma FullCopySettledPassSyncsStatus(c: Cluster, req: Request)
    requires Settled(c, req.name)
    ensures var p := ReconcileWithFullCopy(c, req, {}); var db := c.db.value; var name := ResourceName(db);
      var ready := c.statefulSets[name].readyReplicas;
      var status := DatabaseStatus(PhaseOf(ready, ToInt32(db.spec.replicas)), ready);
      && p.outcome == RequeueAfter(10)
      && p.cluster == c.(db := Some(db.(status := status)))
      && p.calls[..3] == [GetCustom(req.name), GetService(name), GetStatefulSet(name)]
      && |p.calls| == (if db.status == status then 3 else 4)
      && (|p.calls| == 4 ==> p.calls[3] == UpdateCustomStatus(req.name, status.phase))
  {
    var db := c.db.value;
    var name := ResourceName(db);
    var p := ReconcileWithFullCopy(c, req, {});
    assert p == ReconcileOn(c, req, Some(db), {});
    SettledPassReachesStatusStep(c, req, Some(db));
    var sync := SyncStatus(c, db, c.statefulSets[name].readyReplicas, ToInt32(db.spec.replicas), {});
    assert p.calls == [GetCustom(req.name), GetService(name), GetStatefulSet(name)] + sync.calls;
  }

  /**
   With a copy that keeps every property, the pass is idempotent: after a
   pass that reached the status step, a repeat pass writes nothing and
   changes nothing.
   */
  lemma FullCopyRepeatPassWritesNothing(c: Cluster, req: Request)
    requires ReconcileWithFullCopy(c, req, {}).outcome == RequeueAfter(10)
    ensures var p1 := ReconcileWithFullCopy(c, req, {}); var p2 := ReconcileWithFullCopy(p1.cluster, req, {});
      && p2.cluster == p1.cluster
      && p2.outcome == RequeueAfter(10)
      && NoWrites(p2.calls)
  {
    var c1 := ReconcileWithFullCopy(c, req, {}).cluster;
    FullCopyPassLeavesStatusInSync(c, req);
    FullCopySettledPassSyncsStatus(c1, req);
    var calls := ReconcileWithFullCopy(c1, req, {}).calls;
    assert calls == calls[..3];
  }

  /** A full-copy pass that reached the status step leaves a settled cluster whose stored status is the one it calls for. */
  lemma FullCopyPassLeavesStatusInSync(c: Cluster, req: Request)
    requires ReconcileWithFullCopy(c, req, {}).outcome == RequeueAfter(10)
    ensures var c1 := ReconcileWithFullCopy(c, req, {}).cluster;
      && Settled(c1, req.name)
      && var db1 := c1.db.value; var ready := c1.statefulSets[ResourceName(db1)].readyReplicas;
      && db1.status == DatabaseStatus(PhaseOf(ready, ToInt32(db1.spec.replicas)), ready)
  {
  }
}
