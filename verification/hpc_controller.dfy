/**
 One pass of `HPCJobReconciler.Reconcile` (cmd/controller/main.go) as a step
 function over the request's namespace, with the Deployment and Service it
 builds (`getDeploymentObject`, `getServiceObject`) and its status steps.

 Quirks of the code that the model keeps:
 - the child name is formed from the HPCJob before it is fetched, so every
   lookup, update and delete uses the request name; created children are
   named after the fetched HPCJob, which carries the request name;
 - deleting a child that is already gone is an error;
 - the HPCJob is read through the cache, whose copy has neither pull policy
   nor status, so every Deployment pulls IfNotPresent and every pass that
   reaches the status step writes Pending and then Completed, stamped with
   the zero time.
 */
module HpcController {
  import opened Kube
  import opened Gateway
  import opened HpcApi

  /** The request's namespace as the HPC controller sees it. */
  datatype Cluster = Cluster(
    job: Option<HPCJob>,
    deployments: map<string, Deployment>,
    services: map<string, Service>)

  /**
   What `r.Client.Get` finds for the request: the stored HPCJob if it has the
   requested name, else nothing.
   */
  function JobNamed(c: Cluster, name: string): (r: Option<HPCJob>)
    ensures r.Some? <==> c.job.Some? && c.job.value.meta.name == name
    ensures r.Some? ==> r == c.job
  {
    if c.job.Some? && c.job.value.meta.name == name then c.job else None
  }

  /**
   What `r.Client.Get` hands the reconciler. The manager's client reads from
   its informer cache, which answers with `DeepCopyObject` of the cached
   HPCJob: the stored HPCJob without its status and without its pull policy.
   */
  function CachedGet(c: Cluster, name: string): (r: Option<HPCJob>)
    ensures r.Some? <==> JobNamed(c, name).Some?
    ensures r.Some? ==> r.value == DeepCopyObject(c.job.value)
    ensures Readable(c, name, r)
  {
    match JobNamed(c, name)
    case None => None
    case Some(job) => CopyClearsPullPolicyAndStatus(job); Some(DeepCopyObject(job))
  }

  /**
   `got` can be what a Get of `name` hands back: nothing exactly when no
   HPCJob of that name is stored, else the stored HPCJob up to its status and
   its pull policy.
   */
  predicate Readable(c: Cluster, name: string, got: Option<HPCJob>) {
    && (got.Some? <==> JobNamed(c, name).Some?)
    && (got.Some? ==>
          got.value == c.job.value.(spec := c.job.value.spec.(imagePullPolicy := got.value.spec.imagePullPolicy),
                                    status := got.value.status))
  }

  const JobPort: int := 8080

  /** The pod template's single container. */
  function JobContainer(job: HPCJob): Container {
    Container(
      job.meta.name,
      job.spec.image,
      ResolvePullPolicy(job.spec.imagePullPolicy),
      [JobPort],
      [EnvVar("JOB_NAME", Literal(job.spec.jobName)), EnvVar("JOB_PARAMS", FormattedParams(job.spec.jobParams))],
      [],
      None)
  }

  /** `getDeploymentObject`: the Deployment an HPCJob calls for. */
  function DeploymentFor(job: HPCJob): (d: Deployment)
    ensures d.meta.name == job.meta.name
    ensures d.replicas == ToInt32(job.spec.replicas)
    ensures d.selector == AppLabels(job.meta.name) && d.template.meta.labels == d.selector
    ensures |d.template.containers| == 1
    ensures d.template.containers[0].image == job.spec.image
    ensures d.template.containers[0].imagePullPolicy == ResolvePullPolicy(job.spec.imagePullPolicy)
    ensures d.template.containers[0].ports == [8080]
    ensures d.template.containers[0].env ==
      [EnvVar("JOB_NAME", Literal(job.spec.jobName)), EnvVar("JOB_PARAMS", FormattedParams(job.spec.jobParams))]
  {
    var labels := AppLabels(job.meta.name);
    Deployment(Named(job.meta.name), ToInt32(job.spec.replicas), labels, PodTemplate(Labelled(labels), [JobContainer(job)]))
  }

  /** `getServiceObject`: a load-balanced Service on port 8080 in front of the job's pods. */
  function ServiceFor(job: HPCJob): (s: Service)
    ensures s.meta.name == job.meta.name
    ensures s.clusterIP == ""
    ensures s.selector == AppLabels(job.meta.name)
    ensures s.ports == [ServicePort(8080, 8080)]
  {
    Service(Named(job.meta.name), "", AppLabels(job.meta.name), [ServicePort(JobPort, JobPort)])
  }

  /** The Deployment's selector picks the pods of its own template, and the Service routes to those pods. */
  lemma ChildrenSelectTheJobPods(job: HPCJob)
    ensures Selects(DeploymentFor(job).selector, DeploymentFor(job).template.meta.labels)
    ensures Selects(ServiceFor(job).selector, DeploymentFor(job).template.meta.labels)
  {
  }

  /** The desired children depend on the HPCJob's name and spec only, never on its status. */
  lemma DesiredChildrenIgnoreStatus(job: HPCJob, status: HPCJobStatus)
    ensures DeploymentFor(job.(status := status)) == DeploymentFor(job)
    ensures ServiceFor(job.(status := status)) == ServiceFor(job)
  {
  }

  /**
   Building from a copy made by `DeepCopyObject` gives the same Deployment
   exactly when the pull policy the copy loses made no difference.
   */
  lemma CopyBuildsSameDeploymentIff(job: HPCJob)
    ensures DeploymentFor(DeepCopyObject(job)) == DeploymentFor(job)
      <==> job.spec.imagePullPolicy == "" || job.spec.imagePullPolicy == PullIfNotPresent
  {
    var a := DeploymentFor(DeepCopyObject(job));
    var b := DeploymentFor(job);
    if a == b {
      assert a.template.containers[0].imagePullPolicy == b.template.containers[0].imagePullPolicy;
    }
  }

  /** The child name, formed from the still-empty HPCJob before the fetch fills it in. */
  function ChildName(req: Request): (name: string)
    ensures name == req.name
  {
    ZeroJob.meta.name + req.name
  }

  /** `updateJobStatus`'s rule: an empty state becomes Pending, any other is kept. */
  function InitialState(state: string): (r: string)
    ensures r != ""
    ensures state != "" ==> r == state
    ensures state == "" ==> r == Pending
  {
    if state == "" then Pending else state
  }

  /** The HPCJob is gone: delete the Deployment, then the Service; any failure, not-found included, stops the pass. */
  function RemoveChildren(c: Cluster, name: string, faults: set<Call>): (p: Pass<Cluster>)
    ensures ChildCallsUse(p.calls, name)
    ensures StopsAtFailure(p)
    ensures p.cluster.job == c.job
    ensures p.outcome.Done? || p.outcome.Failed?
    ensures 1 <= |p.calls| <= 2 && p.calls[0] == DeleteDeployment(name)
    ensures |p.calls| == 2 ==> p.calls[1] == DeleteService(name)
    ensures name !in c.deployments && DeleteDeployment(name) !in faults ==>
      p.outcome == Failed(ApiError(DeleteDeployment(name), NotFound)) && p.cluster == c
    ensures name in c.deployments && name !in c.services && DeleteDeployment(name) !in faults && DeleteService(name) !in faults ==>
      p.outcome == Failed(ApiError(DeleteService(name), NotFound))
    ensures p.outcome == Done <==>
      name in c.deployments && name in c.services && DeleteDeployment(name) !in faults && DeleteService(name) !in faults
    ensures p.outcome == Done ==>
      p.cluster == c.(deployments := c.deployments - {name}, services := c.services - {name})
  {
    var deleteDeployment := DeleteDeployment(name);
    match Delete(c.deployments, name, deleteDeployment in faults)
    case Err(cause) => StopAt(c, deleteDeployment, cause)
    case Ok(deployments) =>
      var c1 := c.(deployments := deployments);
      var deleteService := DeleteService(name);
      match Delete(c1.services, name, deleteService in faults)
      case Err(cause) => Pass(c1, Failed(ApiError(deleteService, cause)), [deleteDeployment, deleteService])
      case Ok(services) => Pass(c1.(services := services), Done, [deleteDeployment, deleteService])
  }

  /** No Deployment: create it, then the Service; a failed Deployment create means no Service create. */
  function CreateChildren(c: Cluster, job: HPCJob, faults: set<Call>): (p: Pass<Cluster>)
    ensures StopsAtFailure(p)
    ensures p.cluster.job == c.job
    ensures p.outcome.Done? || p.outcome.Failed?
    ensures 1 <= |p.calls| <= 2 && p.calls[0] == CreateDeployment(job.meta.name)
    ensures |p.calls| == 2 ==> p.calls[1] == CreateService(job.meta.name)
  {
    var d := DeploymentFor(job);
    var createDeployment := CreateDeployment(d.meta.name);
    match Create(c.deployments, d.meta.name, d, createDeployment in faults)
    case Err(cause) => StopAt(c, createDeployment, cause)
    case Ok(deployments) =>
      var c1 := c.(deployments := deployments);
      var s := ServiceFor(job);
      var createService := CreateService(s.meta.name);
      match Create(c1.services, s.meta.name, s, createService in faults)
      case Err(cause) => Pass(c1, Failed(ApiError(createService, cause)), [createDeployment, createService])
      case Ok(services) => Pass(c1.(services := services), Done, [createDeployment, createService])
  }

  /** Replica drift: set only the replica count of the live Deployment and update it. */
  function Scale(c: Cluster, live: Deployment, job: HPCJob, name: string, faults: set<Call>): (p: Pass<Cluster>)
    ensures p.calls == [UpdateDeployment(name)]
    ensures StopsAtFailure(p)
    ensures p.cluster.job == c.job && p.cluster.services == c.services
    ensures p.outcome.Done? || p.outcome.Failed?
    ensures p.outcome.Done? <==> name in c.deployments && UpdateDeployment(name) !in faults
    ensures p.outcome.Done? ==> p.cluster.deployments == c.deployments[name := live.(replicas := ToInt32(job.spec.replicas))]
    ensures p.outcome.Failed? ==> p.cluster == c
  {
    var update := UpdateDeployment(name);
    match Update(c.deployments, name, live.(replicas := ToInt32(job.spec.replicas)), update in faults)
    case Err(cause) => StopAt(c, update, cause)
    case Ok(deployments) => Pass(c.(deployments := deployments), Done, [update])
  }

  /**
   `updateJobStatus` followed by the simulated completion, on the fetched
   copy `job`: write its status (empty state made Pending), then, unless that
   state is Completed, write state Completed with a zero completion time.
   A status write replaces the stored status and nothing else. The
   five-second sleep is not modelled.
   */
  function Complete(c: Cluster, job: HPCJob, faults: set<Call>): (p: Pass<Cluster>)
    requires c.job.Some?
    ensures 1 <= |p.calls| <= 2 && p.calls[0] == UpdateCustomStatus(job.meta.name, InitialState(job.status.state))
    ensures |p.calls| == 2 <==> p.calls[0] !in faults && job.status.state != Completed
    ensures |p.calls| == 2 ==> p.calls[1] == UpdateCustomStatus(job.meta.name, Completed)
    ensures StopsAtFailure(p)
    ensures p.outcome.Done? || p.outcome.Failed?
    ensures p.outcome.Done? ==> p.cluster.job.Some? && p.cluster.job.value.status.state == Completed
    ensures p.cluster.deployments == c.deployments && p.cluster.services == c.services
    ensures p.cluster.job.Some? && p.cluster.job.value.meta == c.job.value.meta && p.cluster.job.value.spec == c.job.value.spec
  {
    var sent := job.status.(state := InitialState(job.status.state));
    var record := UpdateCustomStatus(job.meta.name, sent.state);
    if record in faults then StopAt(c, record, Unavailable)
    else
      var c1 := c.(job := Some(c.job.value.(status := sent)));
      if sent.state == Completed then Pass(c1, Done, [record])
      else
        var finish := UpdateCustomStatus(job.meta.name, Completed);
        if finish in faults then Pass(c1, Failed(ApiError(finish, Unavailable)), [record, finish])
        else Pass(c.(job := Some(c.job.value.(status := HPCJobStatus(Completed, Some(ZeroTime))))), Done, [record, finish])
  }

  /** The HPCJob exists and `job` is the fetched copy: create the children, fix the replica count, or run the status steps. */
  function Converge(c: Cluster, job: HPCJob, name: string, faults: set<Call>): (p: Pass<Cluster>)
    requires c.job.Some?
    ensures p.outcome.Done? || p.outcome.Failed?
    ensures |p.calls| >= 1 && p.calls[0] == GetDeployment(name)
    ensures ChildCallsUse(p.calls, name)
    ensures StopsAtFailure(p)
    ensures p.cluster.job.Some? && p.cluster.job.value.meta == c.job.value.meta && p.cluster.job.value.spec == c.job.value.spec
  {
    var get := GetDeployment(name);
    match Get(c.deployments, name, get in faults)
    case Err(NotFound) =>
      var q := CreateChildren(c, job, faults);
      ChildCallsUseAfter(get, q.calls, name);
      StopsAtFailureAfter(get, q);
      After(get, q)
    case Err(cause) => StopAt(c, get, cause)
    case Ok(live) =>
      var q := if live.replicas != job.spec.replicas then Scale(c, live, job, name, faults) else Complete(c, job, faults);
      ChildCallsUseAfter(get, q.calls, name);
      StopsAtFailureAfter(get, q);
      After(get, q)
  }

  /** One pass of `HPCJobReconciler.Reconcile` for `req`, given what the fetch of the HPCJob hands back. */
  function ReconcileOn(c: Cluster, req: Request, got: Option<HPCJob>, faults: set<Call>): (p: Pass<Cluster>)
    requires Readable(c, req.name, got)
    ensures |p.calls| >= 1 && p.calls[0] == GetCustom(req.name)
    ensures ChildCallsUse(p.calls, req.name)
    ensures StopsAtFailure(p)
    ensures !p.outcome.RequeueAfter?
    ensures JobNamed(c, req.name).None? ==> p.cluster.job == c.job && NoCreates(p.calls)
    ensures p.cluster.job.Some? ==>
      c.job.Some? && p.cluster.job.value.meta == c.job.value.meta && p.cluster.job.value.spec == c.job.value.spec
  {
    var name := ChildName(req);
    var fetch := GetCustom(req.name);
    match Fetch(got, fetch in faults)
    case Err(NotFound) =>
      var q := RemoveChildren(c, name, faults);
      ChildCallsUseAfter(fetch, q.calls, name);
      StopsAtFailureAfter(fetch, q);
      After(fetch, q)
    case Err(cause) => StopAt(c, fetch, cause)
    case Ok(job) =>
      var q := Converge(c, job, name, faults);
      ChildCallsUseAfter(fetch, q.calls, name);
      StopsAtFailureAfter(fetch, q);
      After(fetch, q)
  }

  /** One pass of `HPCJobReconciler.Reconcile` for `req`, with the calls in `faults` failing. */
  function Reconcile(c: Cluster, req: Request, faults: set<Call>): (p: Pass<Cluster>)
    ensures |p.calls| >= 1 && p.calls[0] == GetCustom(req.name)
    ensures ChildCallsUse(p.calls, req.name)
    ensures StopsAtFailure(p)
    ensures !p.outcome.RequeueAfter?
    ensures JobNamed(c, req.name).None? ==> p.cluster.job == c.job && NoCreates(p.calls)
    ensures p.cluster.job.Some? ==>
      c.job.Some? && p.cluster.job.value.meta == c.job.value.meta && p.cluster.job.value.spec == c.job.value.spec
  {
    ReconcileOn(c, req, CachedGet(c, req.name), faults)
  }

  /**
   The pass as it would run if `DeepCopyObject` copied every property, as its
   comment says: the fetch hands back the stored HPCJob itself. It agrees with
   the real pass whenever the copy loses nothing.
   */
  function ReconcileWithFullCopy(c: Cluster, req: Request, faults: set<Call>): (p: Pass<Cluster>)
    ensures |p.calls| >= 1 && p.calls[0] == GetCustom(req.name)
    ensures ChildCallsUse(p.calls, req.name)
    ensures StopsAtFailure(p)
    ensures JobNamed(c, req.name).None? ==> p.cluster.job == c.job && NoCreates(p.calls)
  {
    ReconcileOn(c, req, JobNamed(c, req.name), faults)
  }

  /** When the copy loses nothing (no HPCJob, or one with no pull policy and no status), both passes are the same. */
  lemma AgreesWhenCopyLosesNothing(c: Cluster, req: Request, faults: set<Call>)
    requires JobNamed(c, req.name).None? || (c.job.value.spec.imagePullPolicy == "" && c.job.value.status == ZeroStatus)
    ensures ReconcileWithFullCopy(c, req, faults) == Reconcile(c, req, faults)
  {
    if c.job.Some? {
      CopyFaithfulIff(c.job.value);
    }
  }

  /**
   With no HPCJob of the requested name, the pass deletes the Deployment and then the Service,
   both under the request name. A delete of a child that is already gone
   fails the pass, and a failed Deployment delete means no Service delete.
   */
  lemma MissingJobDeletesChildren(c: Cluster, req: Request, faults: set<Call>)
    requires JobNamed(c, req.name).None? && GetCustom(req.name) !in faults
    ensures var p := Reconcile(c, req, faults);
      && |p.calls| >= 2 && p.calls[..2] == [GetCustom(req.name), DeleteDeployment(req.name)]
      && NoCreates(p.calls)
      && (DeleteService(req.name) in p.calls <==> req.name in c.deployments && DeleteDeployment(req.name) !in faults)
      && (req.name !in c.deployments && DeleteDeployment(req.name) !in faults ==>
            p.outcome == Failed(ApiError(DeleteDeployment(req.name), NotFound)) && p.cluster == c)
      && (p.outcome == Done <==>
            && req.name in c.deployments && req.name in c.services
            && DeleteDeployment(req.name) !in faults && DeleteService(req.name) !in faults)
      && (p.outcome == Done ==>
            p.cluster == c.(deployments := c.deployments - {req.name}, services := c.services - {req.name}))
  {
    var p := Reconcile(c, req, faults);
    assert p == After(GetCustom(req.name), RemoveChildren(c, req.name, faults));
  }

  /**
   With the HPCJob present and no Deployment under the request name, the pass
   creates the Deployment and then the Service, both named after the HPCJob
   (whose name is the request name), and writes no status. A failed
   Deployment create means no Service create. The Deployment is built from
   the fetched copy, which has lost the pull policy, so its container always
   gets IfNotPresent.
   */
  lemma MissingDeploymentCreatesChildren(c: Cluster, req: Request, faults: set<Call>)
    requires c.job.Some? && c.job.value.meta.name == req.name && req.name !in c.deployments
    requires GetCustom(req.name) !in faults && GetDeployment(req.name) !in faults
    ensures var p := Reconcile(c, req, faults); var job := c.job.value;
      && |p.calls| >= 3
      && p.calls[..3] == [GetCustom(req.name), GetDeployment(req.name), CreateDeployment(req.name)]
      && p.cluster.job == c.job
      && (CreateService(req.name) in p.calls <==> CreateDeployment(req.name) !in faults)
      && (p.outcome == Done <==>
            req.name !in c.services && CreateDeployment(req.name) !in faults && CreateService(req.name) !in faults)
      && (p.outcome == Done ==>
            && p.cluster.deployments == c.deployments[req.name := DeploymentFor(DeepCopyObject(job))]
            && p.cluster.deployments[req.name].template.containers[0].imagePullPolicy == PullIfNotPresent
            && p.cluster.services == c.services[req.name := ServiceFor(job)])
  {
    var p := Reconcile(c, req, faults);
    var copy := DeepCopyObject(c.job.value);
    assert p == After(GetCustom(req.name), After(GetDeployment(req.name), CreateChildren(c, copy, faults)));
    assert ServiceFor(copy) == ServiceFor(c.job.value);
  }

  /**
   An existing Deployment whose replica count differs from the spec gets only
   that count set, and the pass ends there, without touching status.
   */
  lemma ReplicaDriftOnlyScales(c: Cluster, req: Request, faults: set<Call>)
    requires c.job.Some? && c.job.value.meta.name == req.name && req.name in c.deployments
    requires c.deployments[req.name].replicas != c.job.value.spec.replicas
    requires GetCustom(req.name) !in faults && GetDeployment(req.name) !in faults
    ensures var p := Reconcile(c, req, faults); var live := c.deployments[req.name];
      && p.calls == [GetCustom(req.name), GetDeployment(req.name), UpdateDeployment(req.name)]
      && p.cluster.job == c.job && p.cluster.services == c.services
      && (UpdateDeployment(req.name) !in faults ==>
            && p.outcome == Done
            && p.cluster.deployments == c.deployments[req.name := live.(replicas := ToInt32(c.job.value.spec.replicas))])
      && (UpdateDeployment(req.name) in faults ==> p.cluster == c && p.outcome.Failed?)
  {
  }

  /**
   A pass that finds the Deployment settled always writes status twice: the
   fetched copy has an empty state, so `updateJobStatus` records Pending, and
   the simulated completion then records Completed with the zero time. Whatever
   the HPCJob held before, it ends Completed at the zero time.
   */
  lemma SettledPassCompletes(c: Cluster, req: Request)
    requires c.job.Some? && c.job.value.meta.name == req.name && req.name in c.deployments
    requires c.deployments[req.name].replicas == c.job.value.spec.replicas
    ensures var p := Reconcile(c, req, {}); var job := c.job.value;
      && p.outcome == Done
      && p.calls == [GetCustom(req.name), GetDeployment(req.name),
                     UpdateCustomStatus(req.name, Pending), UpdateCustomStatus(req.name, Completed)]
      && p.cluster == c.(job := Some(job.(status := HPCJobStatus(Completed, Some(ZeroTime)))))
  {
    var job := c.job.value;
    assert Reconcile(c, req, {})
      == After(GetCustom(req.name), After(GetDeployment(req.name), Complete(c, DeepCopyObject(job), {})));
  }

  /**
   The HPC pass is not idempotent at the status layer: once everything is
   settled, a repeat pass changes nothing yet writes status twice again.
   */
  lemma RepeatPassStillWritesStatus(c: Cluster, req: Request)
    requires c.job.Some? && c.job.value.meta.name == req.name && req.name in c.deployments
    requires c.deployments[req.name].replicas == c.job.value.spec.replicas
    ensures var p1 := Reconcile(c, req, {}); var p2 := Reconcile(p1.cluster, req, {});
      && p2.cluster == p1.cluster
      && p2.outcome == Done
      && p2.calls == [GetCustom(req.name), GetDeployment(req.name),
                      UpdateCustomStatus(req.name, Pending), UpdateCustomStatus(req.name, Completed)]
      && !NoWrites(p2.calls)
  {
    var p1 := Reconcile(c, req, {});
    SettledPassCompletes(c, req);
    SettledPassCompletes(p1.cluster, req);
    var p2 := Reconcile(p1.cluster, req, {});
    assert p2.calls[2].IsWrite();
  }

  /**
   Go compares `int(*replicas)` with the spec's `int`, but the Deployment only
   holds `int32(spec)`. A replica count outside the int32 range therefore never
   matches: every pass updates the Deployment again and never reaches the status steps.
   */
  lemma OutOfRangeReplicasNeverSettle(c: Cluster, req: Request)
    requires c.job.Some? && c.job.value.meta.name == req.name && req.name in c.deployments
    requires !(-0x8000_0000 <= c.job.value.spec.replicas < 0x8000_0000)
    ensures var p := Reconcile(c, req, {});
      && p.calls == [GetCustom(req.name), GetDeployment(req.name), UpdateDeployment(req.name)]
      && p.outcome == Done
      && p.cluster.job == c.job && req.name in p.cluster.deployments
      && p.cluster.deployments[req.name].replicas != c.job.value.spec.replicas
  {
  }

  /**
   A new HPCJob whose name is the request name and whose replica count fits
   in int32: the first pass creates both children, with pull policy
   IfNotPresent whatever the spec asks, and the second completes the job at
   the zero time.
   */
  lemma NewJobCompletesOnSecondPass(job: HPCJob, req: Request)
    requires job.meta.name == req.name
    requires -0x8000_0000 <= job.spec.replicas < 0x8000_0000
    ensures var p1 := Reconcile(Cluster(Some(job), map[], map[]), req, {});
      var p2 := Reconcile(p1.cluster, req, {});
      && p1.outcome == Done
      && p1.cluster == Cluster(Some(job), map[req.name := DeploymentFor(DeepCopyObject(job))], map[req.name := ServiceFor(job)])
      && p1.cluster.deployments[req.name].template.containers[0].imagePullPolicy == PullIfNotPresent
      && p2.outcome == Done
      && p2.cluster.job == Some(job.(status := HPCJobStatus(Completed, Some(ZeroTime))))
  {
    var c := Cluster(Some(job), map[], map[]);
    MissingDeploymentCreatesChildren(c, req, {});
    var p1 := Reconcile(c, req, {});
    SettledPassCompletes(p1.cluster, req);
  }

  /**
   With a copy that keeps every property, the Deployment a pass creates
   carries the pull policy the spec asks for, IfNotPresent only when it asks
   for none.
   */
  lemma FullCopyCreatesRequestedPullPolicy(c: Cluster, req: Request)
    requires c.job.Some? && c.job.value.meta.name == req.name
    requires req.name !in c.deployments && req.name !in c.services
    ensures var p := ReconcileWithFullCopy(c, req, {});
      && p.outcome == Done
      && p.cluster.deployments == c.deployments[req.name := DeploymentFor(c.job.value)]
      && p.cluster.deployments[req.name].template.containers[0].imagePullPolicy
           == ResolvePullPolicy(c.job.value.spec.imagePullPolicy)
  {
    assert ReconcileWithFullCopy(c, req, {})
      == After(GetCustom(req.name), After(GetDeployment(req.name), CreateChildren(c, c.job.value, {})));
  }

  /**
   With a copy that keeps every property, a settled pass writes the stored
   state (Pending if empty) and moves to Completed only when not Completed
   already, so a Completed HPCJob keeps its completion time.
   */
  lemma FullCopySettledPassCompletes(c: Cluster, req: Request)
    requires c.job.Some? && c.job.value.meta.name == req.name && req.name in c.deployments
    requires c.deployments[req.name].replicas == c.job.value.spec.replicas
    ensures var p := ReconcileWithFullCopy(c, req, {}); var job := c.job.value;
      && p.outcome == Done
      && p.calls[..3] == [GetCustom(req.name), GetDeployment(req.name), UpdateCustomStatus(req.name, InitialState(job.status.state))]
      && (|p.calls| == 3 <==> job.status.state == Completed)
      && p.cluster.deployments == c.deployments && p.cluster.services == c.services
      && p.cluster.job == Some(job.(status :=
           if job.status.state == Completed then job.status else HPCJobStatus(Completed, Some(ZeroTime))))
  {
    var job := c.job.value;
    assert ReconcileWithFullCopy(c, req, {})
      == After(GetCustom(req.name), After(GetDeployment(req.name), Complete(c, job, {})));
  }

  /** With a copy that keeps every property, a repeat pass over a settled, Completed HPCJob writes status once and changes nothing. */
  lemma FullCopyRepeatPassWritesOnce(c: Cluster, req: Request)
    requires c.job.Some? && c.job.value.meta.name == req.name && req.name in c.deployments
    requires c.deployments[req.name].replicas == c.job.value.spec.replicas
    ensures var p1 := ReconcileWithFullCopy(c, req, {}); var p2 := ReconcileWithFullCopy(p1.cluster, req, {});
      && p2.cluster == p1.cluster
      && p2.outcome == Done
      && p2.calls == [GetCustom(req.name), GetDeployment(req.name), UpdateCustomStatus(req.name, Completed)]
  {
    var p1 := ReconcileWithFullCopy(c, req, {});
    FullCopySettledPassCompletes(c, req);
    FullCopySettledPassCompletes(p1.cluster, req);
  }
}
