/**
 The HPCJob custom resource (api/v1/jobtypes.go) and its hand-written copy
 routines (api/v1/deepcopy.go).

 The copy routines copy metadata and spec but never status, and the spec copy
 leaves out `ImagePullPolicy` although they are documented as copying every
 property. The model copies exactly what the code copies.
 */
module HpcApi {
  import opened Kube

  datatype HPCJobSpec = HPCJobSpec(
    jobName: string,
    state: string,
    jobParams: map<string, string>,
    image: string,
    imagePullPolicy: string,
    replicas: GoInt)

  datatype HPCJobStatus = HPCJobStatus(state: string, completionTime: Option<Time>)

  datatype HPCJob = HPCJob(typeMeta: TypeMeta, meta: ObjectMeta, spec: HPCJobSpec, status: HPCJobStatus)

  /** A list; `items == None` is Go's nil slice, distinct from an empty one. */
  datatype HPCJobList = HPCJobList(typeMeta: TypeMeta, listMeta: ListMeta, items: Option<seq<HPCJob>>)

  const ZeroStatus: HPCJobStatus := HPCJobStatus("", None)

  /** `HPCJob{}`, Go's zero value. */
  const ZeroJob: HPCJob :=
    HPCJob(TypeMeta("", ""), ObjectMeta("", "", map[]), HPCJobSpec("", "", map[], "", "", 0), ZeroStatus)

  /** `in.DeepCopyInto(&out)`, with `orig` for `in`: the result is `out` after the call. */
  function DeepCopyInto(orig: HPCJob, out: HPCJob): (r: HPCJob)
    ensures r.typeMeta == orig.typeMeta && r.meta == orig.meta
    ensures r.spec.jobName == orig.spec.jobName && r.spec.state == orig.spec.state
    ensures r.spec.jobParams == orig.spec.jobParams && r.spec.replicas == orig.spec.replicas
    ensures r.spec.image == orig.spec.image
    ensures r.spec.imagePullPolicy == ""
    ensures r.status == out.status
  {
    out.(typeMeta := orig.typeMeta,
         meta := orig.meta,
         spec := HPCJobSpec(orig.spec.jobName, orig.spec.state, orig.spec.jobParams, orig.spec.image, "", orig.spec.replicas))
  }

  /** `in.DeepCopyObject()`: copy into a fresh zero value. */
  function DeepCopyObject(orig: HPCJob): (r: HPCJob)
    ensures r.status == ZeroStatus
    ensures r.status.state == "" && r.status.completionTime.None?
  {
    DeepCopyInto(orig, ZeroJob)
  }

  /** A copy is the original with its pull policy and its status cleared. */
  lemma CopyClearsPullPolicyAndStatus(orig: HPCJob)
    ensures DeepCopyObject(orig) == orig.(spec := orig.spec.(imagePullPolicy := ""), status := ZeroStatus)
  {
  }

  /** A copy reproduces its original exactly when the original has no pull policy and a zero status. */
  lemma CopyFaithfulIff(orig: HPCJob)
    ensures DeepCopyObject(orig) == orig <==> orig.spec.imagePullPolicy == "" && orig.status == ZeroStatus
  {
    CopyClearsPullPolicyAndStatus(orig);
  }

  /** Copying a copy changes nothing more. */
  lemma CopyIdempotent(orig: HPCJob)
    ensures DeepCopyObject(DeepCopyObject(orig)) == DeepCopyObject(orig)
  {
  }

  /** `in.DeepCopyObject()` on a list: metadata as is, nil stays nil, each item copied into a zero value. */
  method DeepCopyList(orig: HPCJobList) returns (out: HPCJobList)
    ensures out.typeMeta == orig.typeMeta && out.listMeta == orig.listMeta
    ensures out.items.None? <==> orig.items.None?
    ensures orig.items.Some? ==> |out.items.value| == |orig.items.value|
    ensures orig.items.Some? ==>
      forall i :: 0 <= i < |orig.items.value| ==> out.items.value[i] == DeepCopyObject(orig.items.value[i])
  {
    out := HPCJobList(orig.typeMeta, orig.listMeta, None);
    if orig.items.Some? {
      var items0 := orig.items.value;
      var items := seq(|items0|, _ => ZeroJob);
      for i := 0 to |items0|
        invariant |items| == |items0|
        invariant forall j :: 0 <= j < i ==> items[j] == DeepCopyObject(items0[j])
        invariant forall j :: i <= j < |items0| ==> items[j] == ZeroJob
      {
        items := items[i := DeepCopyInto(items0[i], items[i])];
      }
      out := out.(items := Some(items));
    }
  }
}
