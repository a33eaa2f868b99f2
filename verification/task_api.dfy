/**
 The TaskJob custom resource of the stateless controller
 (stateless/api/v1/jobtypes.go) and its hand-written copy routines
 (stateless/api/v1/deepcopy.go), which copy metadata and the whole spec but
 never status.
 */
module TaskApi {
  import opened Kube

  datatype TaskJobSpec = TaskJobSpec(
    jobName: string,
    jobParams: map<string, string>,
    image: string,
    imagePullPolicy: string,
    replicas: GoInt)

  datatype TaskJobStatus = TaskJobStatus(state: string, completionTime: Option<Time>)

  datatype TaskJob = TaskJob(typeMeta: TypeMeta, meta: ObjectMeta, spec: TaskJobSpec, status: TaskJobStatus)

  /** A list; `items == None` is Go's nil slice, distinct from an empty one. */
  datatype TaskJobList = TaskJobList(typeMeta: TypeMeta, listMeta: ListMeta, items: Option<seq<TaskJob>>)

  const ZeroStatus: TaskJobStatus := TaskJobStatus("", None)

  /** `TaskJob{}`, Go's zero value. */
  const ZeroJob: TaskJob :=
    TaskJob(TypeMeta("", ""), ObjectMeta("", "", map[]), TaskJobSpec("", map[], "", "", 0), ZeroStatus)

  /** `in.DeepCopyInto(&out)`, with `orig` for `in`: the result is `out` after the call. */
  function DeepCopyInto(orig: TaskJob, out: TaskJob): (r: TaskJob)
    ensures r.typeMeta == orig.typeMeta && r.meta == orig.meta
    ensures r.spec == orig.spec
    ensures r.status == out.status
  {
    out.(typeMeta := orig.typeMeta,
         meta := orig.meta,
         spec := TaskJobSpec(orig.spec.jobName, orig.spec.jobParams, orig.spec.image,
                             orig.spec.imagePullPolicy, orig.spec.replicas))
  }

  /** `in.DeepCopyObject()`: copy into a fresh zero value. */
  function DeepCopyObject(orig: TaskJob): (r: TaskJob)
    ensures r.status.state == "" && r.status.completionTime.None?
  {
    DeepCopyInto(orig, ZeroJob)
  }

  /** A copy is the original with its status cleared, and nothing else changed. */
  lemma CopyClearsOnlyStatus(orig: TaskJob)
    ensures DeepCopyObject(orig) == orig.(status := ZeroStatus)
  {
  }

  /** Copying a copy changes nothing more. */
  lemma CopyIdempotent(orig: TaskJob)
    ensures DeepCopyObject(DeepCopyObject(orig)) == DeepCopyObject(orig)
  {
  }

  /** `in.DeepCopyObject()` on a list: metadata as is, nil stays nil, each item copied into a zero value. */
  method DeepCopyList(orig: TaskJobList) returns (out: TaskJobList)
    ensures out.typeMeta == orig.typeMeta && out.listMeta == orig.listMeta
    ensures out.items.None? <==> orig.items.None?
    ensures orig.items.Some? ==> |out.items.value| == |orig.items.value|
    ensures orig.items.Some? ==>
      forall i :: 0 <= i < |orig.items.value| ==> out.items.value[i] == DeepCopyObject(orig.items.value[i])
  {
    out := TaskJobList(orig.typeMeta, orig.listMeta, None);
    if orig.items.Some? {
      var items0 := orig.items.value;
      var items := seq(|items0|, _ => ZeroJob);
      for i := 0 to |items0|
        invariant |items| == |items0|
        invariant forall j :: 0 <= j < i ==> items[j] == DeepCopyObject(items0[j])
        invariant forall j :: i <= j < |items0| ==> items[j] == ZeroJob
      {
        items := items[i := DeepCopyInto(items0[i], items[i])];
      }
      out := out.(items := Some(items));
    }
  }
}
