/**
 The API server as the reconcilers see it: name-keyed object stores in one
 namespace, the calls a reconcile pass makes against them, and what a pass
 returns to the work queue.

 Whether an object exists decides NotFound and AlreadyExists. Every other
 failure (network, conflict, validation) is injected: a pass receives the set
 of calls that fail, and such a call fails with `Unavailable` and changes
 nothing.
 */
module Gateway {
  import opened Kube

  /** `ctrl.Request`: the namespaced name of the custom resource to reconcile. */
  datatype Request = Request(namespace: string, name: string)

  datatype Cause = NotFound | AlreadyExists | Unavailable

  /** One call to the API server, with the name or selector it targets. */
  datatype Call =
    | GetCustom(name: string)
    | UpdateCustomStatus(name: string, state: string)
    | ListPods(selector: map<string, string>)
    | GetDeployment(name: string)
    | CreateDeployment(name: string)
    | UpdateDeployment(name: string)
    | DeleteDeployment(name: string)
    | GetService(name: string)
    | CreateService(name: string)
    | DeleteService(name: string)
    | GetStatefulSet(name: string)
    | CreateStatefulSet(name: string)
    | UpdateStatefulSet(name: string)
  {
    /** Calls that ask the server to change something. */
    predicate IsWrite() {
      UpdateCustomStatus? || CreateDeployment? || UpdateDeployment? || DeleteDeployment?
      || CreateService? || DeleteService? || CreateStatefulSet? || UpdateStatefulSet?
    }

    /** Calls that create a child object. */
    predicate IsCreate() {
      CreateDeployment? || CreateService? || CreateStatefulSet?
    }

    /** Calls that look up, change or remove an existing child object by name. */
    predicate AddressesExistingChild() {
      GetDeployment? || UpdateDeployment? || DeleteDeployment? || GetService? || DeleteService?
      || GetStatefulSet? || UpdateStatefulSet?
    }
  }

  datatype ApiError = ApiError(call: Call, cause: Cause)

  /** `(ctrl.Result, error)`: success, success with a timed requeue, or an error (which the queue retries). */
  datatype Outcome = Done | RequeueAfter(seconds: nat) | Failed(error: ApiError)

  /** The effect of one reconcile pass: the cluster afterwards, the outcome, and every call attempted, in order. */
  datatype Pass<C> = Pass(cluster: C, outcome: Outcome, calls: seq<Call>)

  datatype Reply<T> = Ok(value: T) | Err(cause: Cause)

  /** Prefix a pass with the call that led to it. */
  function After<C>(call: Call, p: Pass<C>): Pass<C> {
    p.(calls := [call] + p.calls)
  }

  /** A pass that stops at `call` with `cause`, leaving the cluster as it is. */
  function StopAt<C>(c: C, call: Call, cause: Cause): Pass<C> {
    Pass(c, Failed(ApiError(call, cause)), [call])
  }

  /** Reading the single custom resource the request names. */
  function Fetch<T>(stored: Option<T>, fault: bool): Reply<T> {
    if fault then Err(Unavailable)
    else if stored.None? then Err(NotFound)
    else Ok(stored.value)
  }

  function Get<T>(store: map<string, T>, name: string, fault: bool): Reply<T> {
    if fault then Err(Unavailable)
    else if name !in store then Err(NotFound)
    else Ok(store[name])
  }

  function Create<T>(store: map<string, T>, name: string, obj: T, fault: bool): Reply<map<string, T>> {
    if fault then Err(Unavailable)
    else if name in store then Err(AlreadyExists)
    else Ok(store[name := obj])
  }

  function Update<T>(store: map<string, T>, name: string, obj: T, fault: bool): Reply<map<string, T>> {
    if fault then Err(Unavailable)
    else if name !in store then Err(NotFound)
    else Ok(store[name := obj])
  }

  function Delete<T>(store: map<string, T>, name: string, fault: bool): Reply<map<string, T>> {
    if fault then Err(Unavailable)
    else if name !in store then Err(NotFound)
    else Ok(store - {name})
  }

  /** Every call of the pass that addresses an existing child names `name`. */
  predicate ChildCallsUse(calls: seq<Call>, name: string) {
    forall k :: 0 <= k < |calls| && calls[k].AddressesExistingChild() ==> calls[k].name == name
  }

  /** A call that names `name` (or addresses no child) keeps `ChildCallsUse` when it is put in front. */
  lemma ChildCallsUseAfter(call: Call, calls: seq<Call>, name: string)
    requires call.AddressesExistingChild() ==> call.name == name
    requires forall k :: 0 <= k < |calls| ==> !calls[k].AddressesExistingChild() || calls[k].name == name
    ensures ChildCallsUse([call] + calls, name)
  {
    forall k | 0 <= k < |[call] + calls| && ([call] + calls)[k].AddressesExistingChild()
      ensures ([call] + calls)[k].name == name
    {
      if k > 0 {
        assert ([call] + calls)[k] == calls[k - 1];
      }
    }
  }

  /** Every create call of the pass names `name`. */
  predicate CreatesUse(calls: seq<Call>, name: string) {
    forall k :: 0 <= k < |calls| && calls[k].IsCreate() ==> calls[k].name == name
  }

  /** A pass that stops at its failing call still does once a call is put in front. */
  lemma StopsAtFailureAfter<C>(call: Call, p: Pass<C>)
    requires StopsAtFailure(p)
    ensures StopsAtFailure(After(call, p)) && After(call, p).calls[0] == call
  {
    if p.outcome.Failed? {
      assert After(call, p).calls[|p.calls|] == p.calls[|p.calls| - 1];
    }
  }

  /**
   A call that creates nothing and names `name` (or addresses no child) keeps
   the shape of the pass it is put in front of.
   */
  lemma AfterKeepsShape<C>(call: Call, p: Pass<C>, name: string)
    requires !call.IsCreate() && (call.AddressesExistingChild() ==> call.name == name)
    requires ChildCallsUse(p.calls, name) && CreatesUse(p.calls, name) && StopsAtFailure(p)
    ensures ChildCallsUse(After(call, p).calls, name) && CreatesUse(After(call, p).calls, name)
    ensures StopsAtFailure(After(call, p))
  {
    var calls := After(call, p).calls;
    forall k | 1 <= k < |calls|
      ensures calls[k] == p.calls[k - 1]
    {
    }
    ChildCallsUseAfter(call, p.calls, name);
  }

  /** A failed pass stops at the call that failed: it is the last one attempted. */
  predicate StopsAtFailure<C>(p: Pass<C>) {
    p.outcome.Failed? ==> |p.calls| > 0 && p.outcome.error.call == p.calls[|p.calls| - 1]
  }

  /** The pass created nothing. */
  predicate NoCreates(calls: seq<Call>) {
    forall k :: 0 <= k < |calls| ==> !calls[k].IsCreate()
  }

  /** The pass asked for no change at all. */
  predicate NoWrites(calls: seq<Call>) {
    forall k :: 0 <= k < |calls| ==> !calls[k].IsWrite()
  }
}
