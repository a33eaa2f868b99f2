/**
 One pass of `TaskJobReconciler.Reconcile` (stateless/cmd/controller/main.go)
 as a step function over the request's namespace, with the Deployment and
 Service it builds and the pod-driven status step `updateJobStatus`.

 The child name falls back to the request name when the job name is empty,
 but the fallback reads the TaskJob before it is fetched, so the name used to
 look up, update and delete children is always the request name. Created
 children are named after the spec's job name, so the two differ whenever
 the job name is not the request name.

 The TaskJob is read through the cache, whose copy has no status, so the
 status step always finds a state to write.
 */
module TaskController {
  import opened Kube
  import opened Gateway
  import opened TaskApi
  import PodStatus

  /** The request's namespace as the TaskJob controller sees it; `pods` are all pods in it. */
  datatype Cluster = Cluster(
    job: Option<TaskJob>,
    deployments: map<string, Deployment>,
    services: map<string, Service>,
    pods: seq<Pod>)

  /**
   What `r.Client.Get` finds for the request: the stored TaskJob if it has the
   requested name, else nothing.
   */
  function JobNamed(c: Cluster, name: string): (r: Option<TaskJob>)
    ensures r.Some? <==> c.job.Some? && c.job.value.meta.name == name
    ensures r.Some? ==> r == c.job
  {
    if c.job.Some? && c.job.value.meta.name == name then c.job else None
  }

  /**
   What `r.Client.Get` hands the reconciler. The manager's client reads from
   its informer cache, which answers with `DeepCopyObject` of the cached
   TaskJob: the stored TaskJob without its status.
   */
  function CachedGet(c: Cluster, name: string): (r: Option<TaskJob>)
    ensures r.Some? <==> JobNamed(c, name).Some?
    ensures r.Some? ==> r.value == DeepCopyObject(c.job.value)
    ensures Readable(c, name, r)
  {
    match JobNamed(c, name)
    case None => None
    case Some(job) => CopyClearsOnlyStatus(job); Some(DeepCopyObject(job))
  }

  /**
   `got` can be what a Get of `name` hands back: nothing exactly when no
   TaskJob of that name is stored, else the stored TaskJob up to its status.
   */
  predicate Readable(c: Cluster, name: string, got: Option<TaskJob>) {
    && (got.Some? <==> JobNamed(c, name).Some?)
    && (got.Some? ==> got.value == c.job.value.(status := got.value.status))
  }

  const JobPort: int := 8080

  /** Seconds after which a pass that reached the status step asks to run again. */
  const MonitorRequeueSeconds: nat := 10

  /** The pod template's single container. */
  function JobContainer(job: TaskJob): Container {
    Container(
      job.spec.jobName,
      job.spec.image,
      ResolvePullPolicy(job.spec.imagePullPolicy),
      [JobPort],
      [EnvVar("JOB_NAME", Literal(job.spec.jobName)), EnvVar("JOB_PARAMS", FormattedParams(job.spec.jobParams))],
      [],
      None)
  }

  /** `getDeploymentObject`: the Deployment a TaskJob calls for, named and labelled by its job name. */
  function DeploymentFor(job: TaskJob): (d: Deployment)
    ensures d.meta.name == job.spec.jobName
    ensures d.replicas == ToInt32(job.spec.replicas)
    ensures d.selector == AppLabels(job.spec.jobName) && d.template.meta.labels == d.selector
    ensures |d.template.containers| == 1
    ensures d.template.containers[0].image == job.spec.image
    ensures d.template.containers[0].imagePullPolicy == ResolvePullPolicy(job.spec.imagePullPolicy)
    ensures d.template.containers[0].ports == [8080]
    ensures d.template.containers[0].env ==
      [EnvVar("JOB_NAME", Literal(job.spec.jobName)), EnvVar("JOB_PARAMS", FormattedParams(job.spec.jobParams))]
  {
    var labels := AppLabels(job.spec.jobName);
    Deployment(Named(job.spec.jobName), ToInt32(job.spec.replicas), labels, PodTemplate(Labelled(labels), [JobContainer(job)]))
  }

  /** `getServiceObject`: a load-balanced Service on port 8080, named after the job name. */
  function ServiceFor(job: TaskJob): (s: Service)
    ensures s.meta.name == job.spec.jobName
    ensures s.clusterIP == ""
    ensures s.selector == AppLabels(job.spec.jobName)
    ensures s.ports == [ServicePort(8080, 8080)]
  {
    Service(Named(job.spec.jobName), "", AppLabels(job.spec.jobName), [ServicePort(JobPort, JobPort)])
  }

  /** The selector `updateJobStatus` lists pods with. */
  function PodSelector(job: TaskJob): map<string, string> {
    AppLabels(job.spec.jobName)
  }

  /**
   The pods the status step lists include those the Deployment's template
   stamps out: its labels satisfy the list selector, as do the Deployment's
   and the Service's selectors. Any other pod with the same `app` label is
   listed too.
   */
  lemma StatusListsTheDeploymentPods(job: TaskJob)
    ensures Selects(PodSelector(job), DeploymentFor(job).template.meta.labels)
    ensures Selects(DeploymentFor(job).selector, DeploymentFor(job).template.meta.labels)
    ensures Selects(ServiceFor(job).selector, DeploymentFor(job).template.meta.labels)
  {
  }

  /** The desired children depend on the spec only, never on status or on the TaskJob's own name. */
  lemma DesiredChildrenIgnoreStatusAndName(job: TaskJob, status: TaskJobStatus, meta: ObjectMeta)
    ensures DeploymentFor(job.(status := status, meta := meta)) == DeploymentFor(job)
    ensures ServiceFor(job.(status := status, meta := meta)) == ServiceFor(job)
  {
  }

  /** The pods a label selector picks, in list order. */
  function SelectPods(pods: seq<Pod>, selector: map<string, string>): seq<Pod>
  {
    if pods == [] then []
    else
      var rest := SelectPods(pods[1..], selector);
      if Selects(selector, pods[0].meta.labels) then [pods[0]] + rest else rest
  }

  /** Listing with a selector returns exactly the pods whose labels it selects, and never more pods than there are. */
  lemma {:induction false} SelectPodsPicksMatching(pods: seq<Pod>, selector: map<string, string>)
    ensures forall p :: p in SelectPods(pods, selector) <==> p in pods && Selects(selector, p.meta.labels)
    ensures |SelectPods(pods, selector)| <= |pods|
    decreases |pods|
  {
    if pods != [] {
      SelectPodsPicksMatching(pods[1..], selector);
      assert forall x :: x in pods <==> x == pods[0] || x in pods[1..];
    }
  }

  /** The child name: the job name of the still-empty TaskJob, else the request name. */
  function ChildName(req: Request): (name: string)
    ensures name == req.name
  {
    var jobName := ZeroJob.spec.jobName;
    if jobName == "" then req.name else jobName
  }

  /** The TaskJob is gone: delete the Deployment, then the Service; any failure, not-found included, stops the pass. */
  function RemoveChildren(c: Cluster, name: string, faults: set<Call>): (p: Pass<Cluster>)
    ensures ChildCallsUse(p.calls, name)
    ensures StopsAtFailure(p)
    ensures p.cluster.job == c.job
    ensures p.outcome.Done? || p.outcome.Failed?
    ensures 1 <= |p.calls| <= 2 && p.calls[0] == DeleteDeployment(name)
    ensures |p.calls| == 2 ==> p.calls[1] == DeleteService(name)
    ensures name !in c.deployments && DeleteDeployment(name) !in faults ==>
      p.outcome == Failed(ApiError(DeleteDeployment(name), NotFound)) && p.cluster == c
    ensures name in c.deployments && name !in c.services && DeleteDeployment(name) !in faults && DeleteService(name) !in faults ==>
      p.outcome == Failed(ApiError(DeleteService(name), NotFound))
    ensures p.outcome == Done <==>
      name in c.deployments && name in c.services && DeleteDeployment(name) !in faults && DeleteService(name) !in faults
    ensures p.outcome == Done ==>
      p.cluster == c.(deployments := c.deployments - {name}, services := c.services - {name})
  {
    var deleteDeployment := DeleteDeployment(name);
    match Delete(c.deployments, name, deleteDeployment in faults)
    case Err(cause) => StopAt(c, deleteDeployment, cause)
    case Ok(deployments) =>
      var c1 := c.(deployments := deployments);
      var deleteService := DeleteService(name);
      match Delete(c1.services, name, deleteService in faults)
      case Err(cause) => Pass(c1, Failed(ApiError(deleteService, cause)), [deleteDeployment, deleteService])
      case Ok(services) => Pass(c1.(services := services), Done, [deleteDeployment, deleteService])
  }

  /** No Deployment under the child name: create one, then the Service, both named after the job name. */
  function CreateChildren(c: Cluster, job: TaskJob, faults: set<Call>): (p: Pass<Cluster>)
    ensures StopsAtFailure(p)
    ensures p.cluster.job == c.job && p.cluster.pods == c.pods
    ensures p.outcome.Done? || p.outcome.Failed?
    ensures 1 <= |p.calls| <= 2 && p.calls[0] == CreateDeployment(job.spec.jobName)
    ensures |p.calls| == 2 ==> p.calls[1] == CreateService(job.spec.jobName)
  {
    var d := DeploymentFor(job);
    var createDeployment := CreateDeployment(d.meta.name);
    match Create(c.deployments, d.meta.name, d, createDeployment in faults)
    case Err(cause) => StopAt(c, createDeployment, cause)
    case Ok(deployments) =>
      var c1 := c.(deployments := deployments);
      var s := ServiceFor(job);
      var createService := CreateService(s.meta.name);
      match Create(c1.services, s.meta.name, s, createService in faults)
      case Err(cause) => Pass(c1, Failed(ApiError(createService, cause)), [createDeployment, createService])
      case Ok(services) => Pass(c1.(services := services), Done, [createDeployment, createService])
  }

  /** Replica drift: set only the replica count of the live Deployment and update it. */
  function Scale(c: Cluster, live: Deployment, job: TaskJob, name: string, faults: set<Call>): (p: Pass<Cluster>)
    ensures p.calls == [UpdateDeployment(name)]
    ensures StopsAtFailure(p)
    ensures p.cluster.job == c.job && p.cluster.pods == c.pods && p.cluster.services == c.services
    ensures p.outcome.Done? || p.outcome.Failed?
    ensures p.outcome.Done? <==> name in c.deployments && UpdateDeployment(name) !in faults
    ensures p.outcome.Done? ==> p.cluster.deployments == c.deployments[name := live.(replicas := ToInt32(job.spec.replicas))]
    ensures p.outcome.Failed? ==> p.cluster == c
  {
    var update := UpdateDeployment(name);
    match Update(c.deployments, name, live.(replicas := ToInt32(job.spec.replicas)), update in faults)
    case Err(cause) => StopAt(c, update, cause)
    case Ok(deployments) => Pass(c.(deployments := deployments), Done, [update])
  }

  /** The status a TaskJob gets when its inferred state is `state` at time `now`. */
  function NextStatus(status: TaskJobStatus, state: string, now: Time): (r: TaskJobStatus)
    ensures r.state == state
    ensures r.completionTime == if state == Completed then Some(now) else status.completionTime
  {
    TaskJobStatus(state, if state == Completed then Some(now) else status.completionTime)
  }

  /**
   `updateJobStatus` on the fetched copy `job`: list the job's pods, infer a
   state, and write status only when the state differs from the copy's,
   stamping `now` on Completed. A status write replaces the stored status and
   nothing else. A pass that gets through asks to run again in ten seconds.
   */
  function UpdateJobStatus(c: Cluster, job: TaskJob, now: Time, faults: set<Call>): (p: Pass<Cluster>)
    requires c.job.Some?
    ensures 1 <= |p.calls| <= 2 && p.calls[0] == ListPods(PodSelector(job))
    ensures |p.calls| == 2 ==> p.calls[1].UpdateCustomStatus?
    ensures StopsAtFailure(p)
    ensures p.outcome.RequeueAfter? || p.outcome.Failed?
    ensures p.cluster.deployments == c.deployments && p.cluster.services == c.services && p.cluster.pods == c.pods
    ensures p.cluster.job.Some? && p.cluster.job.value.meta == c.job.value.meta && p.cluster.job.value.spec == c.job.value.spec
  {
    var list := ListPods(PodSelector(job));
    if list in faults then StopAt(c, list, Unavailable)
    else
      var state := PodStatus.InferState(SelectPods(c.pods, PodSelector(job)));
      if job.status.state == state then Pass(c, RequeueAfter(MonitorRequeueSeconds), [list])
      else
        var write := UpdateCustomStatus(job.meta.name, state);
        if write in faults then Pass(c, Failed(ApiError(write, Unavailable)), [list, write])
        else
          var updated := c.job.value.(status := NextStatus(job.status, state, now));
          Pass(c.(job := Some(updated)), RequeueAfter(MonitorRequeueSeconds), [list, write])
  }

  /** The Deployment `live` exists under `name`: fix its replica count if it differs from the spec, else run the status step. */
  function ScaleOrRecord(c: Cluster, live: Deployment, job: TaskJob, name: string, now: Time, faults: set<Call>): (p: Pass<Cluster>)
    requires c.job.Some? && name in c.deployments && live == c.deployments[name]
    ensures |p.calls| >= 1
    ensures ChildCallsUse(p.calls, name)
    ensures StopsAtFailure(p)
    ensures p.cluster.pods == c.pods
    ensures p.cluster.job.Some? && p.cluster.job.value.meta == c.job.value.meta && p.cluster.job.value.spec == c.job.value.spec
    ensures live.replicas != job.spec.replicas ==> p.calls == [UpdateDeployment(name)] && !p.outcome.RequeueAfter?
    ensures live.replicas == job.spec.replicas ==> p.calls[0] == ListPods(PodSelector(job))
  {
    if live.replicas != job.spec.replicas then Scale(c, live, job, name, faults)
    else UpdateJobStatus(c, job, now, faults)
  }

  /** The TaskJob exists and `job` is the fetched copy: create the children, fix the replica count, or run the status step. */
  function Converge(c: Cluster, job: TaskJob, name: string, now: Time, faults: set<Call>): (p: Pass<Cluster>)
    requires c.job.Some?
    ensures |p.calls| >= 1 && p.calls[0] == GetDeployment(name)
    ensures ChildCallsUse(p.calls, name)
    ensures StopsAtFailure(p)
    ensures p.cluster.pods == c.pods
    ensures p.cluster.job.Some? && p.cluster.job.value.meta == c.job.value.meta && p.cluster.job.value.spec == c.job.value.spec
    ensures p.outcome.RequeueAfter? ==> name in c.deployments && c.deployments[name].replicas == job.spec.replicas
  {
    var get := GetDeployment(name);
    match Get(c.deployments, name, get in faults)
    case Err(NotFound) =>
      var q := CreateChildren(c, job, faults);
      ChildCallsUseAfter(get, q.calls, name);
      StopsAtFailureAfter(get, q);
      After(get, q)
    case Err(cause) => StopAt(c, get, cause)
    case Ok(live) =>
      var q := ScaleOrRecord(c, live, job, name, now, faults);
      ChildCallsUseAfter(get, q.calls, name);
      StopsAtFailureAfter(get, q);
      After(get, q)
  }

  /** One pass of `TaskJobReconciler.Reconcile` for `req` at time `now`, given what the fetch of the TaskJob hands back. */
  function ReconcileOn(c: Cluster, req: Request, got: Option<TaskJob>, now: Time, faults: set<Call>): (p: Pass<Cluster>)
    requires Readable(c, req.name, got)
    ensures |p.calls| >= 1 && p.calls[0] == GetCustom(req.name)
    ensures ChildCallsUse(p.calls, req.name)
    ensures StopsAtFailure(p)
    ensures p.cluster.pods == c.pods
    ensures JobNamed(c, req.name).None? ==> p.cluster.job == c.job && NoCreates(p.calls)
    ensures p.outcome.RequeueAfter? ==>
      && JobNamed(c, req.name).Some?
      && req.name in c.deployments && c.deployments[req.name].replicas == c.job.value.spec.replicas
    ensures p.cluster.job.Some? ==>
      c.job.Some? && p.cluster.job.value.meta == c.job.value.meta && p.cluster.job.value.spec == c.job.value.spec
  {
    var name := ChildName(req);
    var fetch := GetCustom(req.name);
    match Fetch(got, fetch in faults)
    case Err(NotFound) =>
      var q := RemoveChildren(c, name, faults);
      ChildCallsUseAfter(fetch, q.calls, name);
      StopsAtFailureAfter(fetch, q);
      After(fetch, q)
    case Err(cause) => StopAt(c, fetch, cause)
    case Ok(job) =>
      var q := Converge(c, job, name, now, faults);
      ChildCallsUseAfter(fetch, q.calls, name);
      StopsAtFailureAfter(fetch, q);
      After(fetch, q)
  }

  /** One pass of `TaskJobReconciler.Reconcile` for `req` at time `now`, with the calls in `faults` failing. */
  function Reconcile(c: Cluster, req: Request, now: Time, faults: set<Call>): (p: Pass<Cluster>)
    ensures |p.calls| >= 1 && p.calls[0] == GetCustom(req.name)
    ensures ChildCallsUse(p.calls, req.name)
    ensures StopsAtFailure(p)
    ensures p.cluster.pods == c.pods
    ensures JobNamed(c, req.name).None? ==> p.cluster.job == c.job && NoCreates(p.calls)
    ensures p.outcome.RequeueAfter? ==>
      && JobNamed(c, req.name).Some?
      && req.name in c.deployments && c.deployments[req.name].replicas == c.job.value.spec.replicas
    ensures p.cluster.job.Some? ==>
      c.job.Some? && p.cluster.job.value.meta == c.job.value.meta && p.cluster.job.value.spec == c.job.value.spec
  {
    ReconcileOn(c, req, CachedGet(c, req.name), now, faults)
  }

  /**
   The pass as it would run if `DeepCopyObject` copied every property, as its
   comment says: the fetch hands back the stored TaskJob itself. It agrees
   with the real pass whenever the copy loses nothing.
   */
  function ReconcileWithFullCopy(c: Cluster, req: Request, now: Time, faults: set<Call>): (p: Pass<Cluster>)
    ensures |p.calls| >= 1 && p.calls[0] == GetCustom(req.name)
    ensures ChildCallsUse(p.calls, req.name)
    ensures StopsAtFailure(p)
    ensures p.cluster.pods == c.pods
    ensures JobNamed(c, req.name).None? ==> p.cluster.job == c.job && NoCreates(p.calls)
    ensures p.outcome.RequeueAfter? ==>
      && JobNamed(c, req.name).Some?
      && req.name in c.deployments && c.deployments[req.name].replicas == c.job.value.spec.replicas
    ensures p.cluster.job.Some? ==>
      c.job.Some? && p.cluster.job.value.meta == c.job.value.meta && p.cluster.job.value.spec == c.job.value.spec
  {
    ReconcileOn(c, req, JobNamed(c, req.name), now, faults)
  }

  /** When the copy loses nothing (no TaskJob, or one with no status), both passes are the same. */
  lemma AgreesWhenCopyLosesNothing(c: Cluster, req: Request, now: Time, faults: set<Call>)
    requires JobNamed(c, req.name).None? || c.job.value.status == ZeroStatus
    ensures ReconcileWithFullCopy(c, req, now, faults) == Reconcile(c, req, now, faults)
  {
    if c.job.Some? {
      CopyClearsOnlyStatus(c.job.value);
    }
  }

  /**
   With no TaskJob of the requested name, the pass deletes the Deployment and then the Service,
   both under the request name, never the job name. A delete of a child that
   is already gone fails the pass, and a failed Deployment delete means no
   Service delete.
   */
  lemma MissingJobDeletesChildren(c: Cluster, req: Request, now: Time, faults: set<Call>)
    requires JobNamed(c, req.name).None? && GetCustom(req.name) !in faults
    ensures var p := Reconcile(c, req, now, faults);
      && |p.calls| >= 2 && p.calls[..2] == [GetCustom(req.name), DeleteDeployment(req.name)]
      && (DeleteService(req.name) in p.calls <==> req.name in c.deployments && DeleteDeployment(req.name) !in faults)
      && (req.name !in c.deployments && DeleteDeployment(req.name) !in faults ==>
            p.outcome == Failed(ApiError(DeleteDeployment(req.name), NotFound)) && p.cluster == c)
      && (p.outcome == Done <==>
            && req.name in c.deployments && req.name in c.services
            && DeleteDeployment(req.name) !in faults && DeleteService(req.name) !in faults)
      && (p.outcome == Done ==>
            p.cluster == c.(deployments := c.deployments - {req.name}, services := c.services - {req.name}))
  {
    var p := Reconcile(c, req, now, faults);
    assert p == After(GetCustom(req.name), RemoveChildren(c, req.name, faults));
  }

  /**
   With no Deployment under the request name, the pass creates the Deployment
   and then the Service under the job name and ends without touching status.
   */
  lemma MissingDeploymentCreatesChildren(c: Cluster, req: Request, now: Time, faults: set<Call>)
    requires c.job.Some? && c.job.value.meta.name == req.name && req.name !in c.deployments
    requires GetCustom(req.name) !in faults && GetDeployment(req.name) !in faults
    ensures var p := Reconcile(c, req, now, faults); var jobName := c.job.value.spec.jobName;
      && |p.calls| >= 3
      && p.calls[..3] == [GetCustom(req.name), GetDeployment(req.name), CreateDeployment(jobName)]
      && p.cluster.job == c.job
      && !p.outcome.RequeueAfter?
      && (CreateService(jobName) in p.calls <==> jobName !in c.deployments && CreateDeployment(jobName) !in faults)
      && (p.outcome == Done <==>
            && jobName !in c.deployments && jobName !in c.services
            && CreateDeployment(jobName) !in faults && CreateService(jobName) !in faults)
      && (p.outcome == Done ==>
            && p.cluster.deployments == c.deployments[jobName := DeploymentFor(c.job.value)]
            && p.cluster.services == c.services[jobName := ServiceFor(c.job.value)])
  {
    var copy := DeepCopyObject(c.job.value);
    DesiredChildrenIgnoreStatusAndName(c.job.value, ZeroStatus, c.job.value.meta);
    assert CachedGet(c, req.name) == Some(copy);
    var q := CreateChildren(c, copy, faults);
    assert Converge(c, copy, req.name, now, faults) == After(GetDeployment(req.name), q);
    assert Reconcile(c, req, now, faults) == After(GetCustom(req.name), After(GetDeployment(req.name), q));
  }

  /**
   An existing Deployment whose replica count differs from the spec gets only
   that count set, and the pass ends there, without touching status.
   */
  lemma ReplicaDriftOnlyScales(c: Cluster, req: Request, now: Time, faults: set<Call>)
    requires c.job.Some? && c.job.value.meta.name == req.name && req.name in c.deployments
    requires c.deployments[req.name].replicas != c.job.value.spec.replicas
    requires GetCustom(req.name) !in faults && GetDeployment(req.name) !in faults
    ensures var p := Reconcile(c, req, now, faults); var live := c.deployments[req.name];
      && p.calls == [GetCustom(req.name), GetDeployment(req.name), UpdateDeployment(req.name)]
      && p.cluster.job == c.job && p.cluster.services == c.services
      && (UpdateDeployment(req.name) !in faults ==>
            && p.outcome == Done
            && p.cluster.deployments == c.deployments[req.name := live.(replicas := ToInt32(c.job.value.spec.replicas))])
      && (UpdateDeployment(req.name) in faults ==> p.cluster == c && p.outcome.Failed?)
  {
  }

  /**
   Once the Deployment is settled, the pass infers a state from the job's
   pods and always writes it: the fetched copy has an empty state, which no
   inferred state equals. The written status has that state, with completion
   time `now` on Completed and none otherwise, whatever was stored before.
   */
  lemma StatusStepFollowsPods(c: Cluster, req: Request, now: Time, faults: set<Call>)
    requires c.job.Some? && c.job.value.meta.name == req.name && req.name in c.deployments
    requires c.deployments[req.name].replicas == c.job.value.spec.replicas
    requires GetCustom(req.name) !in faults && GetDeployment(req.name) !in faults
    requires ListPods(PodSelector(c.job.value)) !in faults
    ensures var p := Reconcile(c, req, now, faults); var job := c.job.value;
      var state := PodStatus.InferState(SelectPods(c.pods, PodSelector(job)));
      && p.calls == [GetCustom(req.name), GetDeployment(req.name), ListPods(PodSelector(job)),
                     UpdateCustomStatus(req.name, state)]
      && p.cluster.deployments == c.deployments && p.cluster.services == c.services
      && (UpdateCustomStatus(req.name, state) !in faults ==>
            && p.outcome == RequeueAfter(10)
            && p.cluster.job == Some(job.(status := TaskJobStatus(state, if state == Completed then Some(now) else None))))
      && (UpdateCustomStatus(req.name, state) in faults ==> p.cluster == c && p.outcome.Failed?)
  {
    var job := c.job.value;
    PodStatus.InferStateIsKnown(SelectPods(c.pods, PodSelector(job)));
    assert Reconcile(c, req, now, faults)
      == After(GetCustom(req.name), After(GetDeployment(req.name), UpdateJobStatus(c, DeepCopyObject(job), now, faults)));
  }

  /**
   No idempotence: after a pass that reached the status step, a repeat pass
   with no change in between writes status again. It keeps the state, and
   re-stamps a Completed job with the later time.
   */
  lemma RepeatPassRewritesStatus(c: Cluster, req: Request, now: Time, later: Time)
    requires Reconcile(c, req, now, {}).outcome.RequeueAfter?
    ensures var p1 := Reconcile(c, req, now, {}); var p2 := Reconcile(p1.cluster, req, later, {});
      var state := p1.cluster.job.value.status.state;
      && p2.outcome == RequeueAfter(10)
      && |p2.calls| == 4 && p2.calls[3] == UpdateCustomStatus(req.name, state)
      && !NoWrites(p2.calls)
      && p2.cluster == p1.cluster.(job := Some(p1.cluster.job.value.(status :=
           TaskJobStatus(state, if state == Completed then Some(later) else None))))
  {
    var p1 := Reconcile(c, req, now, {});
    StatusStepFollowsPods(c, req, now, {});
    StatusStepFollowsPods(p1.cluster, req, later, {});
    var p2 := Reconcile(p1.cluster, req, later, {});
    assert p2.calls[3].IsWrite();
  }

  /**
   With a copy that keeps every property, the settled pass writes status
   exactly when the inferred state differs from the stored one, and stamps
   `now` only on a move to Completed.
   */
  lemma FullCopyStatusStepFollowsPods(c: Cluster, req: Request, now: Time, faults: set<Call>)
    requires c.job.Some? && c.job.value.meta.name == req.name && req.name in c.deployments
    requires c.deployments[req.name].replicas == c.job.value.spec.replicas
    requires GetCustom(req.name) !in faults && GetDeployment(req.name) !in faults
    requires ListPods(PodSelector(c.job.value)) !in faults
    ensures var p := ReconcileWithFullCopy(c, req, now, faults); var job := c.job.value;
      var state := PodStatus.InferState(SelectPods(c.pods, PodSelector(job)));
      && p.calls[..3] == [GetCustom(req.name), GetDeployment(req.name), ListPods(PodSelector(job))]
      && |p.calls| == (if job.status.state == state then 3 else 4)
      && (|p.calls| == 4 ==> p.calls[3] == UpdateCustomStatus(req.name, state))
      && (job.status.state == state ==> p.cluster == c)
      && p.cluster.deployments == c.deployments && p.cluster.services == c.services
      && (UpdateCustomStatus(req.name, state) !in faults ==>
            && p.outcome == RequeueAfter(10)
            && p.cluster.job.Some?
            && p.cluster.job.value.status.state == state
            && p.cluster.job.value.status.completionTime ==
                 (if job.status.state != state && state == Completed then Some(now)
                  else job.status.completionTime))
  {
    var job := c.job.value;
    assert ReconcileWithFullCopy(c, req, now, faults)
      == After(GetCustom(req.name), After(GetDeployment(req.name), UpdateJobStatus(c, job, now, faults)));
  }

  /**
   With a copy that keeps every property, the pass is idempotent: after a
   pass that reached the status step, a repeat pass at any later time writes
   nothing and changes nothing.
   */
  lemma FullCopyRepeatPassWritesNothing(c: Cluster, req: Request, now: Time, later: Time)
    requires ReconcileWithFullCopy(c, req, now, {}).outcome.RequeueAfter?
    ensures var p1 := ReconcileWithFullCopy(c, req, now, {}); var p2 := ReconcileWithFullCopy(p1.cluster, req, later, {});
      && p2.cluster == p1.cluster
      && p2.outcome == RequeueAfter(10)
      && NoWrites(p2.calls)
  {
    var c1 := ReconcileWithFullCopy(c, req, now, {}).cluster;
    FullCopyPassLeavesStateInSync(c, req, now);
    FullCopyStatusStepFollowsPods(c1, req, later, {});
    var calls := ReconcileWithFullCopy(c1, req, later, {}).calls;
    assert calls == calls[..3];
  }

  /** A full-copy pass that reached the status step leaves the job settled, with the stored state the pods call for. */
  lemma FullCopyPassLeavesStateInSync(c: Cluster, req: Request, now: Time)
    requires ReconcileWithFullCopy(c, req, now, {}).outcome.RequeueAfter?
    ensures var c1 := ReconcileWithFullCopy(c, req, now, {}).cluster;
      && c1.job.Some? && c1.job.value.meta.name == req.name && req.name in c1.deployments
      && c1.deployments[req.name].replicas == c1.job.value.spec.replicas
      && c1.job.value.status.state == PodStatus.InferState(SelectPods(c1.pods, PodSelector(c1.job.value)))
  {
    FullCopyStatusStepFollowsPods(c, req, now, {});
  }

  /**
   When the job name is set and differs from the request name, the pass looks
   for the Deployment under one name and creates it under the other: the
   first pass creates both children, and every later pass tries to create the
   Deployment again, fails with AlreadyExists, and never reaches the status step.
   */
  lemma NameMismatchNeverConverges(c: Cluster, req: Request, now: Time, later: Time)
    requires c.job.Some? && c.job.value.meta.name == req.name
    requires c.job.value.spec.jobName != req.name && c.job.value.spec.jobName != ""
    requires req.name !in c.deployments
    requires c.job.value.spec.jobName !in c.deployments && c.job.value.spec.jobName !in c.services
    ensures var p1 := Reconcile(c, req, now, {}); var p2 := Reconcile(p1.cluster, req, later, {});
      var jobName := c.job.value.spec.jobName;
      && p1.outcome == Done
      && jobName in p1.cluster.deployments && req.name !in p1.cluster.deployments
      && p2.outcome == Failed(ApiError(CreateDeployment(jobName), AlreadyExists))
      && p2.cluster == p1.cluster
  {
    MissingDeploymentCreatesChildren(c, req, now, {});
    var p1 := Reconcile(c, req, now, {});
    MissingDeploymentCreatesChildren(p1.cluster, req, later, {});
  }
}
