# job-operator in Dafny

A model of the three convergence controllers of job-operator, a set of
cluster controllers that each watch one custom resource kind and drive its
child objects towards the resource's spec:

- the **HPCJob** controller (`HPCJobReconciler`): a Deployment and a
  load-balanced Service per job, then a simulated completion;
- the **TaskJob** controller (`TaskJobReconciler`, the stateless kind): a
  Deployment and a Service per job, and a status inferred from the job's pods;
- the **Database** controller (`DatabaseReconciler`, the stateful kind): a
  headless Service and a postgres StatefulSet with a volume-claim template,
  and a phase derived from the StatefulSet's ready-replica count.

It also models the hand-written copy routines of the three custom resource types.

One reconcile pass is a pure step function
`Reconcile(cluster, request, [now,] faults) -> Pass(cluster', outcome, calls)`.
The cluster is the request's namespace: the custom resource if it exists,
name-keyed maps of child objects and, for the stateless kind, the pods.
Whether an object exists decides the NotFound and AlreadyExists answers.
Every other API failure is a parameter: the calls in `faults` fail with
`Unavailable` and change nothing. `calls` lists every API call the pass
attempted, in order. The outcome is `Done`, `RequeueAfter(seconds)` or
`Failed(error)`; a failure goes back to the work queue for a retry.

Module layout:

| file | module | contents |
|---|---|---|
| kube.dfy | `Kube` | object metadata, Deployment, Service, StatefulSet, Pod, Go's `int32` truncation, pull-policy default |
| gateway.dfy | `Gateway` | requests, API calls, errors, outcomes, name-keyed stores with get/create/update/delete |
| hpc_api.dfy, task_api.dfy, database_api.dfy | `HpcApi`, `TaskApi`, `DatabaseApi` | the three resource types and their `DeepCopyInto` / `DeepCopyObject` |
| pod_status.dfy | `PodStatus` | the pod scan of the stateless status step and the state it yields |
| hpc_controller.dfy, task_controller.dfy, database_controller.dfy | `HpcController`, `TaskController`, `DatabaseController` | builders, pass steps, `Reconcile`, and the lemmas about passes |

The model keeps these behaviours of the code:

- A delete that finds the child already gone is an error that fails the
  pass. It is not treated as success. In particular, a missing Deployment
  means the Service is never deleted
  (`HpcController.MissingJobDeletesChildren`, `TaskController.MissingJobDeletesChildren`).
- The Database controller deletes nothing when its Database is gone
  (`DatabaseController.MissingDatabaseLeavesChildren`).
- The HPC controller marks a job Completed within the same pass. The code
  does this after a blocking five-second sleep, which the model leaves out.
  The completion time the code writes is Go's zero time, not the current
  time (`HpcController.SettledPassCompletes`).
- Each controller reads its resource through the manager's cache, which hands
  back `DeepCopyObject` of the stored object (`CachedGet` in each controller).
  The pass therefore works on a copy without status and, for an HPCJob,
  without a pull policy. As a result:
  - every HPCJob Deployment pulls IfNotPresent;
  - every settled HPCJob pass writes Pending and then Completed;
  - every settled TaskJob or Database pass writes status again.

  Each controller also has `ReconcileWithFullCopy`, the same pass fed the
  stored object itself, and the lemmas that show what it would do
  (see "## Findings").
- The child name of both job controllers is computed before the resource
  is fetched. Lookups, updates and deletes therefore always use the request
  name. The TaskJob controller creates its children under the spec's job
  name, so a TaskJob whose job name differs from its own name never gets
  past the create step (`TaskController.NameMismatchNeverConverges`).
- The HPCJob copy routines drop `ImagePullPolicy` and every copy routine
  drops status, although they are documented as copying every property
  (`HpcApi.CopyClearsPullPolicyAndStatus`, `TaskApi.CopyClearsOnlyStatus`,
  `DatabaseApi.CopyClearsOnlyStatus`).

## Model

| member | source | states |
|---|---|---|
| Kube.ToInt32 | cmd/controller/main.go:110 | Go's `int32(x)`: identity on the int32 range, and always congruent to `x` modulo 2^32 |
| Kube.ToInt32Unique | cmd/controller/main.go:110 | the truncation is the only int32 value congruent to its input, so the two properties of `ToInt32` pin it down |
| Kube.ResolvePullPolicy | cmd/controller/main.go:209-215 | the container's pull policy is never empty: the requested one if set, else IfNotPresent |
| HpcApi.DeepCopyInto | api/v1/deepcopy.go:7-17 | type and object metadata and every spec field but the pull policy are copied; the pull policy comes out empty and the target's status is left as it was |
| HpcApi.DeepCopyObject | api/v1/deepcopy.go:20-25 | a copy made into a zero value has a zero status: no state, no completion time |
| HpcApi.CopyClearsPullPolicyAndStatus | api/v1/deepcopy.go:7-25 | a copy equals its original with the pull policy and the status cleared, nothing else |
| HpcApi.CopyFaithfulIff | api/v1/deepcopy.go:7-25 | a copy equals its original if and only if the original has no pull policy and a zero status |
| HpcApi.CopyIdempotent | api/v1/deepcopy.go:7-25 | copying a copy gives the same copy |
| HpcApi.DeepCopyList | api/v1/deepcopy.go:28-41 | list metadata is kept, a nil item list stays nil and a non-nil one stays non-nil, and item i of the result is the copy of item i |
| TaskApi.DeepCopyInto | stateless/api/v1/deepcopy.go:7-17 | metadata and the whole spec are copied; the target's status is left as it was |
| TaskApi.DeepCopyObject | stateless/api/v1/deepcopy.go:20-25 | a copy has an empty state and no completion time |
| TaskApi.CopyClearsOnlyStatus | stateless/api/v1/deepcopy.go:7-25 | a copy equals its original with the status cleared |
| TaskApi.CopyIdempotent | stateless/api/v1/deepcopy.go:7-25 | copying a copy gives the same copy |
| TaskApi.DeepCopyList | stateless/api/v1/deepcopy.go:28-41 | list metadata is kept, nil stays nil, and item i of the result is the copy of item i |
| DatabaseApi.DeepCopyInto | stateful/api/v1/deepcopy.go:7-18 | metadata and all six spec fields are copied; the target's status is left as it was |
| DatabaseApi.DeepCopyObject | stateful/api/v1/deepcopy.go:21-26 | a copy has an empty phase and no ready replicas |
| DatabaseApi.CopyClearsOnlyStatus | stateful/api/v1/deepcopy.go:7-26 | a copy equals its original with the status cleared |
| DatabaseApi.CopyIdempotent | stateful/api/v1/deepcopy.go:7-26 | copying a copy gives the same copy |
| DatabaseApi.DeepCopyList | stateful/api/v1/deepcopy.go:29-42 | list metadata is kept, nil stays nil, and item i of the result is the copy of item i |
| HpcController.DeploymentFor | cmd/controller/main.go:208-251 | the Deployment is named after the job, has int32 of the spec's replicas, selects exactly its template's `app` label, and runs one container on port 8080 with the job's image, the requested pull policy (IfNotPresent when none is requested) and the job name and parameters in its environment |
| HpcController.ServiceFor | cmd/controller/main.go:253-268 | the Service is named after the job, has a cluster IP, selects the job's `app` label and maps port 8080 to 8080 |
| HpcController.ChildrenSelectTheJobPods | cmd/controller/main.go:217-268 | the Deployment's selector and the Service's selector both pick the pods the Deployment's template stamps out |
| HpcController.DesiredChildrenIgnoreStatus | cmd/controller/main.go:208-268 | the desired children depend on the job's name and spec, never on its status |
| HpcController.CopyBuildsSameDeploymentIff | cmd/controller/main.go:209-215 | building from a copy gives the same Deployment if and only if the job's pull policy is empty or IfNotPresent |
| HpcController.JobNamed | cmd/controller/main.go:62 | the fetch finds the stored HPCJob if and only if it carries the requested name |
| HpcController.CachedGet | cmd/controller/main.go:62 | the fetch through the cache finds an HPCJob exactly when one of the requested name is stored, and hands back its `DeepCopyObject`: the stored object without pull policy and status |
| HpcController.ChildName | cmd/controller/main.go:53-62 | the child name is always the request name, because it is computed from the HPCJob before the fetch fills it in |
| HpcController.InitialState | cmd/controller/main.go:283-286 | an empty state becomes Pending and any other state is kept |
| HpcController.RemoveChildren | cmd/controller/main.go:64-75 | the Deployment is deleted, then the Service, under the given name; the first failure ends the pass, and a missing Deployment or Service fails it with NotFound; the pass succeeds if and only if both exist and neither delete fails, and then exactly those two are gone |
| HpcController.CreateChildren | cmd/controller/main.go:84-101 | the Deployment is created, then the Service, under the job's name; a failed Deployment create means no Service create |
| HpcController.Scale | cmd/controller/main.go:107-121 | one update of the Deployment, which on success gets only its replica count set to int32 of the spec's; status and Services are untouched, and a failed update changes nothing |
| HpcController.Complete | cmd/controller/main.go:123-140 | the first status write carries the fetched state with an empty state made Pending; a second write, of Completed, follows exactly when the first succeeds and the fetched state is not Completed; a pass that gets through leaves the job Completed; children, metadata and spec are unchanged |
| HpcController.Converge | cmd/controller/main.go:83-143 | the pass reads the Deployment under the child name, every later child call uses that name, and it never asks for a timed requeue |
| HpcController.ReconcileOn | cmd/controller/main.go:49-144 | for any fetch result that matches the stored HPCJob up to pull policy and status, a pass starts with the fetch, addresses existing children only by the request name, stops at its first failure, never requeues on a timer, creates nothing when there is no job of the requested name, and keeps the job's metadata and spec |
| HpcController.ReconcileWithFullCopy | cmd/controller/main.go:49-144 | the pass fed the stored HPCJob itself keeps the same shape: it starts with the fetch, uses only the request name, stops at its first failure and creates nothing without a job |
| HpcController.AgreesWhenCopyLosesNothing | api/v1/deepcopy.go:7-25 | with no HPCJob, or one with no pull policy and no status, the pass fed the stored object is the pass as written |
| HpcController.Reconcile | cmd/controller/main.go:49-144 | a pass starts by fetching the HPCJob, addresses existing children only by the request name, stops at its first failure, never requeues on a timer, creates nothing when there is no job of the requested name, and never changes the job's metadata or spec |
| HpcController.MissingJobDeletesChildren | cmd/controller/main.go:62-75 | with no HPCJob of the requested name the pass deletes the Deployment and then the Service; it succeeds if and only if both exist and neither delete fails; a missing Deployment fails the pass with NotFound and changes nothing |
| HpcController.MissingDeploymentCreatesChildren | cmd/controller/main.go:84-101 | with no Deployment under the request name the pass creates the Deployment and then the Service under the job's name and writes no status; it succeeds if and only if neither exists and neither create fails; the Deployment is built from the fetched copy, so its container pulls IfNotPresent whatever the spec requests |
| HpcController.ReplicaDriftOnlyScales | cmd/controller/main.go:107-121 | a Deployment whose replica count differs from the spec gets only that count set to int32 of the spec's, and the pass ends without a status write |
| HpcController.SettledPassCompletes | cmd/controller/main.go:123-143 | a pass that finds the Deployment settled makes exactly four calls, writing Pending and then Completed, and changes nothing but the job's status, which becomes Completed with a zero completion time whatever it was before |
| HpcController.RepeatPassStillWritesStatus | cmd/controller/main.go:123-140 | once settled, a repeat pass changes nothing yet writes Pending and then Completed again |
| HpcController.OutOfRangeReplicasNeverSettle | cmd/controller/main.go:107-121 | a replica count outside the int32 range never matches the Deployment, so every pass updates the Deployment again and the job is never completed |
| HpcController.NewJobCompletesOnSecondPass | cmd/controller/main.go:49-144 | a new job named like the request gets both children, its Deployment pulling IfNotPresent, on the first pass, and is Completed with a zero completion time on the second |
| HpcController.FullCopyCreatesRequestedPullPolicy | cmd/controller/main.go:84-101 | fed the stored HPCJob, the pass creates the Deployment from the job itself, so its container uses the requested pull policy, IfNotPresent only when none is requested |
| HpcController.FullCopySettledPassCompletes | cmd/controller/main.go:123-143 | fed the stored HPCJob, a settled pass writes the stored state (Pending if empty) and then Completed, the second write only when the job is not Completed yet; a Completed job keeps its status |
| HpcController.FullCopyRepeatPassWritesOnce | cmd/controller/main.go:123-140 | fed the stored HPCJob, a repeat pass after a settled one changes nothing and writes status once, with state Completed |
| TaskController.DeploymentFor | stateless/cmd/controller/main.go:199-242 | the Deployment is named and labelled after the spec's job name, has int32 of the spec's replicas and runs one container on port 8080 with the job's image, the requested pull policy (IfNotPresent when none is requested) and the job name and parameters in its environment |
| TaskController.ServiceFor | stateless/cmd/controller/main.go:244-259 | the Service is named after the job name, has a cluster IP, selects the job name's `app` label and maps 8080 to 8080 |
| TaskController.StatusListsTheDeploymentPods | stateless/cmd/controller/main.go:264-267 | the status step's pod selector, the Deployment's selector and the Service's selector all pick the pods of the Deployment's template |
| TaskController.DesiredChildrenIgnoreStatusAndName | stateless/cmd/controller/main.go:199-259 | the desired children depend on the spec only, never on status or on the TaskJob's own metadata |
| TaskController.SelectPodsPicksMatching | stateless/cmd/controller/main.go:265-267 | the listed pods are exactly the pods whose labels satisfy the selector, and there are never more of them than pods |
| TaskController.JobNamed | stateless/cmd/controller/main.go:65 | the fetch finds the stored TaskJob if and only if it carries the requested name |
| TaskController.CachedGet | stateless/cmd/controller/main.go:65 | the fetch through the cache finds a TaskJob exactly when one of the requested name is stored, and hands back its `DeepCopyObject`: the stored object without status |
| TaskController.ChildName | stateless/cmd/controller/main.go:58-65 | the child name is always the request name, because the job-name fallback reads the TaskJob before it is fetched |
| TaskController.RemoveChildren | stateless/cmd/controller/main.go:67-78 | the Deployment is deleted, then the Service, under the given name; the first failure ends the pass, and a missing Deployment or Service fails it with NotFound; the pass succeeds if and only if both exist and neither delete fails, and then exactly those two are gone |
| TaskController.CreateChildren | stateless/cmd/controller/main.go:88-105 | the Deployment is created, then the Service, under the job name; a failed Deployment create means no Service create; pods are untouched |
| TaskController.Scale | stateless/cmd/controller/main.go:111-125 | one update of the Deployment, which on success gets only its replica count set to int32 of the spec's; status, Services and pods are untouched, and a failed update changes nothing |
| TaskController.NextStatus | stateless/cmd/controller/main.go:309-314 | the new status has the inferred state; the completion time becomes `now` on a move to Completed and is kept otherwise |
| TaskController.UpdateJobStatus | stateless/cmd/controller/main.go:261-324 | the job's pods are listed with the job name's selector; at most one status write follows; the children, the pods and the job's metadata and spec are unchanged; a pass that gets through asks to run again |
| TaskController.ScaleOrRecord | stateless/cmd/controller/main.go:107-134 | with the Deployment present, a replica count other than the spec's leads to one Deployment update and no timed requeue; an equal count leads to the pod listing of the status step; the pods and the job's metadata and spec are unchanged |
| TaskController.Converge | stateless/cmd/controller/main.go:87-134 | the pass reads the Deployment under the child name, every later child call uses that name, and the pods are untouched |
| TaskController.ReconcileOn | stateless/cmd/controller/main.go:49-135 | for any fetch result that matches the stored TaskJob up to status, a pass starts with the fetch, uses only the request name for existing children, stops at its first failure, leaves the pods alone, creates nothing without a job, keeps metadata and spec, and requeues on a timer only with the Deployment's replica count in sync |
| TaskController.ReconcileWithFullCopy | stateless/cmd/controller/main.go:49-135 | the pass fed the stored TaskJob itself keeps the same shape and requeues on a timer only with the Deployment in sync |
| TaskController.AgreesWhenCopyLosesNothing | stateless/api/v1/deepcopy.go:7-25 | with no TaskJob, or one with no status, the pass fed the stored object is the pass as written |
| TaskController.Reconcile | stateless/cmd/controller/main.go:49-135 | a pass starts by fetching the TaskJob, addresses existing children only by the request name, stops at its first failure, leaves the pods alone, creates nothing when there is no job of the requested name, and never changes the job's metadata or spec |
| TaskController.MissingJobDeletesChildren | stateless/cmd/controller/main.go:65-78 | with no TaskJob of the requested name the pass deletes the Deployment and then the Service under the request name; it succeeds if and only if both exist and neither delete fails |
| TaskController.MissingDeploymentCreatesChildren | stateless/cmd/controller/main.go:88-105 | with no Deployment under the request name the pass creates the Deployment and then the Service under the job name without a timed requeue; it succeeds if and only if neither exists and neither create fails |
| TaskController.ReplicaDriftOnlyScales | stateless/cmd/controller/main.go:111-125 | a Deployment whose replica count differs from the spec gets only that count set, and the pass ends without a status write |
| TaskController.StatusStepFollowsPods | stateless/cmd/controller/main.go:127-134 | once the Deployment is settled the pass lists the job's pods and always writes the inferred state, since the fetched copy has none; on success the status is that state with completion time `now` on Completed and none otherwise, whatever was stored, and the pass asks to run again in ten seconds; a failed write changes nothing |
| TaskController.RepeatPassRewritesStatus | stateless/cmd/controller/main.go:308-324 | after a pass that reached the status step, a repeat pass writes status again; it keeps the state and re-stamps a Completed job with the later time |
| TaskController.FullCopyStatusStepFollowsPods | stateless/cmd/controller/main.go:127-134 | fed the stored TaskJob, a settled pass writes status exactly when the inferred state differs from the stored one, changes nothing otherwise, and stamps `now` only on a move to Completed |
| TaskController.FullCopyRepeatPassWritesNothing | stateless/cmd/controller/main.go:308-324 | fed the stored TaskJob, a repeat pass after one that reached the status step writes nothing and changes nothing, at any later time |
| TaskController.NameMismatchNeverConverges | stateless/cmd/controller/main.go:58-105 | a job name other than the request name makes the first pass create both children and every later pass fail with AlreadyExists on the Deployment create |
| PodStatus.ScanContainers | stateless/cmd/controller/main.go:281-289 | after the container loop, all-ready holds if and only if every container is ready, and the failure flag if and only if it was set before or some container waits in CrashLoopBackOff |
| PodStatus.ScanPod | stateless/cmd/controller/main.go:279-297 | one pod sets the failure flag if it failed or crash-loops while running, the ready flag if it runs with all containers ready, and the state to Completed if it succeeded |
| PodStatus.ScanPods | stateless/cmd/controller/main.go:278-298 | after the pod loop, each flag holds if and only if it held before or some pod raises it, and the state is Completed if and only if some pod succeeded |
| PodStatus.InferState | stateless/cmd/controller/main.go:273-306 | the scan as written yields the state read off the pod set: Failed if any pod signals failure, else Completed if any succeeded, else Running if any is ready, else Pending |
| PodStatus.InferStateIsKnown | stateless/cmd/controller/main.go:273-306 | the inferred state is one of Pending, Running, Completed and Failed |
| PodStatus.InactivePodsArePending | stateless/cmd/controller/main.go:273-306 | no pods, or only pending and unknown ones, give Pending |
| PodStatus.FailureWins | stateless/cmd/controller/main.go:300-303 | the state is Failed if and only if some pod failed or crash-loops while running |
| PodStatus.CompletionBeatsRunning | stateless/cmd/controller/main.go:295-305 | the state is Completed if and only if no pod signals failure and some pod succeeded, even beside ready pods |
| PodStatus.RunningNeedsReadyPod | stateless/cmd/controller/main.go:290-305 | the state is Running if and only if some pod is ready and none failed or succeeded |
| PodStatus.OrderIndependent | stateless/cmd/controller/main.go:278-306 | the inferred state depends only on the multiset of pods, not on the order in which they are listed |
| DatabaseController.DatabaseNamed | stateful/cmd/controller/main.go:52 | the fetch finds the stored Database if and only if it carries the requested name |
| DatabaseController.CachedGet | stateful/cmd/controller/main.go:52 | the fetch through the cache finds a Database exactly when one of the requested name is stored, and hands back its `DeepCopyObject`: the stored object without status |
| DatabaseController.ResourceName | stateful/cmd/controller/main.go:61-65 | the children are named after the database name, or after the Database itself when that is empty |
| DatabaseController.HeadlessServiceFor | stateful/cmd/controller/main.go:190-201 | the Service has no cluster IP, maps 5432 to 5432 and selects the name's `app` label |
| DatabaseController.ResolveStorage | stateful/cmd/controller/main.go:205-208 | the requested storage is never empty: the request if set, else 1Gi |
| DatabaseController.ResolveImage | stateful/cmd/controller/main.go:224-227 | the image is never empty: the request if set, else postgres:15-alpine |
| DatabaseController.StatefulSetFor | stateful/cmd/controller/main.go:203-271 | the StatefulSet is named after the child name and governed by the Service of that name; it has int32 of the spec's replicas, one ReadWriteOnce `data` claim of the resolved storage, and one container named `postgres` on port 5432 with the resolved image and pull policy and the password in its environment |
| DatabaseController.StatefulChildrenFitTogether | stateful/cmd/controller/main.go:190-271 | the StatefulSet names the headless Service as its governing service, both selectors pick the template's pods, and every claim template is mounted by the container |
| DatabaseController.DesiredChildrenIgnoreStatus | stateful/cmd/controller/main.go:61-65 | the child name and the desired StatefulSet depend on the name and spec only, never on status |
| DatabaseController.PhaseOf | stateful/cmd/controller/main.go:113-122 | the phase is one of Pending, Running and Ready |
| DatabaseController.PhaseClassification | stateful/cmd/controller/main.go:113-122 | with a non-negative ready count: Pending if and only if none is ready, Running if and only if some but fewer than desired are, Ready if and only if some are and at least as many as desired |
| DatabaseController.SyncStatus | stateful/cmd/controller/main.go:124-134 | status is written if and only if the phase or the ready count differs from the fetched copy's; on success the stored status holds the phase and the ready count verbatim, and the pass asks to run again in ten seconds |
| DatabaseController.EnsureStatefulSet | stateful/cmd/controller/main.go:86-111 | the StatefulSet is read, created or updated under the child name only; a missing one is created from the spec under that name and the pass asks to run again in five seconds; the status step is reached only with the StatefulSet present and its replica count in sync, and then only status changes; the Services are unchanged |
| DatabaseController.CreateServiceThenStatefulSet | stateful/cmd/controller/main.go:75-80 | a Service that was not found is created headless under the child name; a successful create does not end the pass but leads to the StatefulSet read with the new Service stored |
| DatabaseController.EnsureService | stateful/cmd/controller/main.go:72-84 | the Service is read or created under the child name only; an existing Service is followed by the StatefulSet read, a missing one by its create under the child name and, when that succeeds, by the StatefulSet read with the headless Service stored |
| DatabaseController.ReconcileOn | stateful/cmd/controller/main.go:47-135 | for any fetch result that matches the stored Database up to status, a pass starts with the fetch, uses only the child name, stops at its first failure, changes and writes nothing without a Database, keeps metadata and spec, and reaches the status step only with both children present and in sync |
| DatabaseController.ReconcileWithFullCopy | stateful/cmd/controller/main.go:47-135 | the pass fed the stored Database itself reaches the status step only with both children present and in sync, and then leaves the stored status equal to the StatefulSet's phase and ready count |
| DatabaseController.AgreesWhenCopyLosesNothing | stateful/api/v1/deepcopy.go:7-26 | with no Database, or one with no status, the pass fed the stored object is the pass as written |
| DatabaseController.Reconcile | stateful/cmd/controller/main.go:47-135 | a pass starts by fetching the Database of the requested name, addresses and creates children only under its child name, stops at its first failure, changes and writes nothing when there is no such Database, never changes its metadata or spec, and reaches the status step only with both children present and the replica count in sync |
| DatabaseController.MissingDatabaseLeavesChildren | stateful/cmd/controller/main.go:52-57 | with no Database of the requested name the pass is just the fetch: it ends successfully and deletes nothing |
| DatabaseController.FetchErrorStopsPass | stateful/cmd/controller/main.go:52-59 | a failed fetch is returned as the pass's error, with no other call made |
| DatabaseController.MissingServiceCreatedThenContinues | stateful/cmd/controller/main.go:72-87 | a missing headless Service is created and the pass goes on to read the StatefulSet |
| DatabaseController.MissingStatefulSetCreated | stateful/cmd/controller/main.go:86-97 | a missing StatefulSet is created from the spec and the pass asks to run again in five seconds, without a status write |
| DatabaseController.ReplicaSyncRequeues | stateful/cmd/controller/main.go:101-111 | a StatefulSet without a replica count, or with one other than int32 of the spec's, gets only that count set, and the pass asks to run again in five seconds |
| DatabaseController.SettledPassSyncsStatus | stateful/cmd/controller/main.go:113-134 | with both children in place and in sync, the pass makes exactly four calls, always writing status because the fetched copy has none; status becomes the phase and the ready count, nothing else changes, and the pass asks to run again in ten seconds |
| DatabaseController.RepeatPassRewritesStatus | stateful/cmd/controller/main.go:101-134 | after a pass that reached the status step, a repeat pass changes nothing but still writes status |
| DatabaseController.NewDatabaseConverges | stateful/cmd/controller/main.go:47-135 | a new Database gets its Service and StatefulSet on the first pass, phase Pending with no ready replica on the second, and a third pass changes nothing but writes Pending again |
| DatabaseController.FullCopySettledPassSyncsStatus | stateful/cmd/controller/main.go:113-134 | fed the stored Database, a settled pass sets the same status but writes it if and only if the phase or the ready count changed |
| DatabaseController.FullCopyRepeatPassWritesNothing | stateful/cmd/controller/main.go:101-134 | fed the stored Database, a repeat pass after one that reached the status step writes nothing and changes nothing |

## Findings

The three findings below assume one thing about code outside this model:
controller-runtime's cache reader answers a Get with `DeepCopyObject` of the
cached object. It does so unless deep copies are switched off, and the
manager here uses the defaults.

| source | as written | input that shows it | evidently intended | confidence | as-written member | corrected member |
|---|---|---|---|---|---|---|
| api/v1/deepcopy.go:7-25 | `DeepCopyInto` copies the spec without `ImagePullPolicy` and copies no status, so the pass sees a job with neither | an HPCJob with pull policy `Always`, or one already Completed at a known time: the Deployment pulls IfNotPresent, and every settled pass writes Pending, then Completed with a zero time | copy every property, as the doc comment says, so the Deployment uses the requested pull policy and a Completed job is left alone | not executed; rests on the cache returning `DeepCopyObject` | HpcController.SettledPassCompletes | HpcController.FullCopySettledPassCompletes |
| api/v1/deepcopy.go:10-16 | the pull policy is missing from the copied spec | an HPCJob with pull policy `Always` and no Deployment yet | the created Deployment pulls `Always` | not executed; rests on the cache returning `DeepCopyObject` | HpcController.MissingDeploymentCreatesChildren | HpcController.FullCopyCreatesRequestedPullPolicy |
| stateless/api/v1/deepcopy.go:7-25 | no status is copied, so the status step compares against an empty state | a TaskJob Completed at time t whose pods still show Completed: every pass writes status again and moves the completion time from t to the pass's time | a repeat pass with nothing changed writes nothing | not executed; rests on the cache returning `DeepCopyObject` | TaskController.RepeatPassRewritesStatus | TaskController.FullCopyRepeatPassWritesNothing |
| stateful/api/v1/deepcopy.go:7-26 | no status is copied, so the status step compares against an empty phase | a Database in phase Ready with its StatefulSet unchanged: every pass writes Ready again | a repeat pass with nothing changed writes nothing | not executed; rests on the cache returning `DeepCopyObject` | DatabaseController.RepeatPassRewritesStatus | DatabaseController.FullCopyRepeatPassWritesNothing |

## Left out

- The `main` functions, client construction, manager and controller
  registration, the scheme registration files and the mock HTTP services:
  they are wiring, with no logic of the reconcilers in them.
- Logging: it has no effect on the cluster.
- The HPC controller's five-second `time.Sleep` before completion: time
  does not pass within a pass in this model.
- The real clock. `metav1.Now()` is the parameter `now` of the stateless pass.
- The text of `fmt.Sprintf("%v", params)`: it is kept symbolic, so equal
  parameter maps give equal environment values.
- `resource.MustParse` on the storage size, and its panic on a malformed
  size: the model keeps the size as the requested text.
- Optimistic concurrency: resource versions, conflicts and stale reads
  appear only as injected failures. Overlapping passes, watches and context
  cancellation are not modelled.
- Namespaces: the model covers the request's namespace only.
- API server validation, such as the rejection of an empty object name, and
  server-side defaulting. A stored Deployment is assumed to carry a replica
  count, which the code dereferences without a nil check.
- Aliasing of the parameter and label maps between an object and its copy.
  Maps are values here, so the shallow copy of `JobParams` cannot be told
  apart from a deep one.
- Fields of the child objects that the controllers neither set nor read.
- DatabaseController.PhaseClassification: stated for non-negative ready
  counts only, the only counts a StatefulSet reports; `PhaseOf` itself
  follows the code for every int32 count.
- HpcController.Complete: records the completion time the code assigns,
  Go's zero time, as `Some(ZeroTime)`. The client library encodes a zero
  `metav1.Time` as null, so the stored HPCJob actually ends up with no
  completion time. That encoding is outside the model, which keeps the
  value written rather than the value stored. The same holds for
  `HpcController.SettledPassCompletes`, `HpcController.NewJobCompletesOnSecondPass`
  and `HpcController.FullCopySettledPassCompletes`.
- controller-runtime's cache reader is not part of this model. A read of
  the custom resource is taken to return `DeepCopyObject` of the stored
  object, never a stale one.
- The CRD manifests are not part of this model. A status write is taken to
  replace only the stored object's status, as a status subresource does; the
  metadata and spec of the written copy are ignored.
- A namespace holds at most one resource of each kind here; a request for
  any other name finds nothing.
