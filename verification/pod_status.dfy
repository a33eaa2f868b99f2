/**
 How the stateless controller turns the pods of a TaskJob into one state
 (the loop in `updateJobStatus`, stateless/cmd/controller/main.go).

 The code scans the pods once, setting three flags that are never cleared,
 and then decides. `ExpectedState` reads the same decision directly off the
 pod set; `InferState`, the scan as written, is proved to agree with it.
 */
module PodStatus {
  import opened Kube

  const Failed: string := "Failed"

  const CrashLoopBackOff: string := "CrashLoopBackOff"

  predicate CrashLooping(cs: ContainerStatus) {
    cs.waitingReason == Some(CrashLoopBackOff)
  }

  /** A pod signals failure when it failed, or when it runs with a container waiting in crash-loop backoff. */
  predicate SignalsFailure(p: Pod) {
    || p.phase == PodFailed
    || (p.phase == PodRunning && exists cs :: cs in p.containerStatuses && CrashLooping(cs))
  }

  /** A running pod whose containers are all ready (vacuously so when it has none). */
  predicate IsReady(p: Pod) {
    p.phase == PodRunning && forall cs :: cs in p.containerStatuses ==> cs.ready
  }

  predicate HasSucceeded(p: Pod) {
    p.phase == PodSucceeded
  }

  predicate AnyFailure(pods: seq<Pod>) {
    exists p :: p in pods && SignalsFailure(p)
  }

  predicate AnySuccess(pods: seq<Pod>) {
    exists p :: p in pods && HasSucceeded(p)
  }

  predicate AnyReady(pods: seq<Pod>) {
    exists p :: p in pods && IsReady(p)
  }

  /** The state the pods call for: failure wins, then completion, then a ready pod, else pending. */
  function ExpectedState(pods: seq<Pod>): string {
    if AnyFailure(pods) then Failed
    else if AnySuccess(pods) then Completed
    else if AnyReady(pods) then Running
    else Pending
  }

  /** The scan's variables: `state` (Pending until a pod succeeded), `hasReady`, `hasFailed`. */
  datatype Scan = Scan(state: string, hasReady: bool, hasFailed: bool)

  /** The inner loop over a running pod's container statuses: (allReady, hasFailed) afterwards. */
  function ScanContainers(statuses: seq<ContainerStatus>, allReady: bool, hasFailed: bool): (r: (bool, bool))
    ensures r.0 <==> allReady && forall cs :: cs in statuses ==> cs.ready
    ensures r.1 <==> hasFailed || exists cs :: cs in statuses && CrashLooping(cs)
    decreases |statuses|
  {
    if statuses == [] then (allReady, hasFailed)
    else
      var cs := statuses[0];
      assert forall x :: x in statuses <==> x == cs || x in statuses[1..];
      ScanContainers(statuses[1..], allReady && cs.ready, hasFailed || CrashLooping(cs))
  }

  /** One iteration of the outer loop: the switch on the pod's phase. */
  function ScanPod(acc: Scan, p: Pod): (r: Scan)
    ensures r.hasFailed <==> acc.hasFailed || SignalsFailure(p)
    ensures r.hasReady <==> acc.hasReady || IsReady(p)
    ensures r.state == if HasSucceeded(p) then Completed else acc.state
  {
    match p.phase
    case PodRunning =>
      var (allReady, hasFailed) := ScanContainers(p.containerStatuses, true, acc.hasFailed);
      acc.(hasReady := acc.hasReady || allReady, hasFailed := hasFailed)
    case PodFailed => acc.(hasFailed := true)
    case PodSucceeded => acc.(state := Completed)
    case _ => acc
  }

  /** The outer loop over the pods, in list order. */
  function ScanPods(pods: seq<Pod>, acc: Scan): (r: Scan)
    ensures r.hasFailed <==> acc.hasFailed || AnyFailure(pods)
    ensures r.hasReady <==> acc.hasReady || AnyReady(pods)
    ensures r.state == if AnySuccess(pods) then Completed else acc.state
    decreases |pods|
  {
    if pods == [] then acc
    else
      assert forall x :: x in pods <==> x == pods[0] || x in pods[1..];
      assert AnyFailure(pods) <==> SignalsFailure(pods[0]) || AnyFailure(pods[1..]);
      assert AnyReady(pods) <==> IsReady(pods[0]) || AnyReady(pods[1..]);
      assert AnySuccess(pods) <==> HasSucceeded(pods[0]) || AnySuccess(pods[1..]);
      ScanPods(pods[1..], ScanPod(acc, pods[0]))
  }

  /** The final switch: a failure flag wins; a ready pod gives Running unless a pod completed. */
  function Decide(s: Scan): string {
    if s.hasFailed then Failed
    else if s.hasReady && s.state != Completed then Running
    else s.state
  }

  /** The state `updateJobStatus` infers from the listed pods. */
  function InferState(pods: seq<Pod>): (state: string)
    ensures state == ExpectedState(pods)
  {
    Decide(ScanPods(pods, Scan(Pending, false, false)))
  }

  /** The inferred state is always one of the four TaskJob states. */
  lemma InferStateIsKnown(pods: seq<Pod>)
    ensures InferState(pods) in {Pending, Running, Completed, Failed}
  {
  }

  /** No pod, or only pods that are neither running, failed nor succeeded, means Pending. */
  lemma InactivePodsArePending(pods: seq<Pod>)
    requires forall p :: p in pods ==> p.phase == PodPending || p.phase == PodUnknown
    ensures InferState(pods) == Pending
  {
  }

  /** Failure wins: one failed or crash-looping pod makes the state Failed, whatever the other pods do. */
  lemma FailureWins(pods: seq<Pod>)
    ensures InferState(pods) == Failed <==> AnyFailure(pods)
  {
  }

  /** Without failure, one succeeded pod makes the state Completed, even beside running, ready pods. */
  lemma CompletionBeatsRunning(pods: seq<Pod>)
    ensures InferState(pods) == Completed <==> !AnyFailure(pods) && AnySuccess(pods)
  {
  }

  /** Running needs a ready pod and no failed or succeeded one. */
  lemma RunningNeedsReadyPod(pods: seq<Pod>)
    ensures InferState(pods) == Running <==> !AnyFailure(pods) && !AnySuccess(pods) && AnyReady(pods)
  {
  }

  /** The inferred state does not depend on the order in which the pods are listed. */
  lemma {:induction false} OrderIndependent(a: seq<Pod>, b: seq<Pod>)
    requires multiset(a) == multiset(b)
    ensures InferState(a) == InferState(b)
  {
    forall p
      ensures p in a <==> p in b
    {
      calc {
        p in a;
        p in multiset(a);
        p in multiset(b);
        p in b;
      }
    }
    assert AnyFailure(a) == AnyFailure(b);
    assert AnySuccess(a) == AnySuccess(b);
    assert AnyReady(a) == AnyReady(b);
  }
}
