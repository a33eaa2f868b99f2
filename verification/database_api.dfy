/**
 The Database custom resource of the stateful controller
 (stateful/api/v1/database_types.go) and its hand-written copy routines
 (stateful/api/v1/deepcopy.go), which copy metadata and the whole spec but
 never status.
 */
module DatabaseApi {
  import opened Kube

  datatype DatabaseSpec = DatabaseSpec(
    databaseName: string,
    image: string,
    replicas: GoInt,
    storage: string,
    password: string,
    imagePullPolicy: string)

  datatype DatabaseStatus = DatabaseStatus(phase: string, readyReplicas: Int32)

  datatype Database = Database(typeMeta: TypeMeta, meta: ObjectMeta, spec: DatabaseSpec, status: DatabaseStatus)

  /** A list; `items == None` is Go's nil slice, distinct from an empty one. */
  datatype DatabaseList = DatabaseList(typeMeta: TypeMeta, listMeta: ListMeta, items: Option<seq<Database>>)

  const ZeroStatus: DatabaseStatus := DatabaseStatus("", 0)

  /** `Database{}`, Go's zero value. */
  const ZeroDatabase: Database :=
    Database(TypeMeta("", ""), ObjectMeta("", "", map[]), DatabaseSpec("", "", 0, "", "", ""), ZeroStatus)

  /** `in.DeepCopyInto(&out)`, with `orig` for `in`: the result is `out` after the call. */
  function DeepCopyInto(orig: Database, out: Database): (r: Database)
    ensures r.typeMeta == orig.typeMeta && r.meta == orig.meta
    ensures r.spec == orig.spec
    ensures r.status == out.status
  {
    out.(typeMeta := orig.typeMeta,
         meta := orig.meta,
         spec := DatabaseSpec(orig.spec.databaseName, orig.spec.image, orig.spec.replicas,
                              orig.spec.storage, orig.spec.password, orig.spec.imagePullPolicy))
  }

  /** `in.DeepCopyObject()`: copy into a fresh zero value. */
  function DeepCopyObject(orig: Database): (r: Database)
    ensures r.status.phase == "" && r.status.readyReplicas == 0
  {
    DeepCopyInto(orig, ZeroDatabase)
  }

  /** A copy is the original with its status cleared, and nothing else changed. */
  lemma CopyClearsOnlyStatus(orig: Database)
    ensures DeepCopyObject(orig) == orig.(status := ZeroStatus)
  {
  }

  /** Copying a copy changes nothing more. */
  lemma CopyIdempotent(orig: Database)
    ensures DeepCopyObject(DeepCopyObject(orig)) == DeepCopyObject(orig)
  {
  }

  /** `in.DeepCopyObject()` on a list: metadata as is, nil stays nil, each item copied into a zero value. */
  method DeepCopyList(orig: DatabaseList) returns (out: DatabaseList)
    ensures out.typeMeta == orig.typeMeta && out.listMeta == orig.listMeta
    ensures out.items.None? <==> orig.items.None?
    ensures orig.items.Some? ==> |out.items.value| == |orig.items.value|
    ensures orig.items.Some? ==>
      forall i :: 0 <= i < |orig.items.value| ==> out.items.value[i] == DeepCopyObject(orig.items.value[i])
  {
    out := DatabaseList(orig.typeMeta, orig.listMeta, None);
    if orig.items.Some? {
      var items0 := orig.items.value;
      var items := seq(|items0|, _ => ZeroDatabase);
      for i := 0 to |items0|
        invariant |items| == |items0|
        invariant forall j :: 0 <= j < i ==> items[j] == DeepCopyObject(items0[j])
        invariant forall j :: i <= j < |items0| ==> items[j] == ZeroDatabase
      {
        items := items[i := DeepCopyInto(items0[i], items[i])];
      }
      out := out.(items := Some(items));
    }
  }
}
