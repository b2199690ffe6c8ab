/** Starting attestor containers in parallel, and clearing up when any of them fails to start. */
module AttestorSetup {
  import opened Bytes
  import opened FanIn

  datatype Container = Container(
    id: nat, endpoint: string, dockerEndpoint: string, address: string, keystorePath: string)

  /** How a goroutine ends: the container started, the start failed, or it panicked and was recovered. */
  datatype Outcome = Started(container: Container) | StartFailed(reason: string) | Panicked(reason: string)

  datatype StartError = FailedToStart(index: nat, reason: string) | RecoveredPanic(index: nat, reason: string)

  /** What a goroutine sends, whichever way it ends. */
  datatype Instance = Instance(index: nat, container: Option<Container>, err: Option<StartError>)

  function Report(outcomes: seq<Outcome>, i: nat): Instance
    requires i < |outcomes|
  {
    match outcomes[i]
    case Started(c) => Instance(i, Some(c), None)
    case StartFailed(r) => Instance(i, None, Some(FailedToStart(i, r)))
    case Panicked(r) => Instance(i, None, Some(RecoveredPanic(i, r)))
  }

  /** The errors in the order in which they arrive. */
  function ErrorsIn(outcomes: seq<Outcome>, order: seq<nat>): seq<StartError>
    requires forall k :: 0 <= k < |order| ==> order[k] < |outcomes|
  {
    if order == [] then []
    else
      var earlier, last := ErrorsIn(outcomes, order[..|order| - 1]), Report(outcomes, order[|order| - 1]);
      if last.err.Some? then earlier + [last.err.value] else earlier
  }

  /** The errors are those of the goroutines that failed or panicked, each under its own index. */
  lemma {:induction false} ErrorsMean(outcomes: seq<Outcome>, order: seq<nat>, e: StartError)
    requires forall k :: 0 <= k < |order| ==> order[k] < |outcomes|
    ensures e in ErrorsIn(outcomes, order) <==>
      && e.index in order
      && outcomes[e.index] == if e.FailedToStart? then StartFailed(e.reason) else Panicked(e.reason)
  {
    if order != [] {
      var k := |order| - 1;
      ErrorsMean(outcomes, order[..k], e);
      assert order == order[..k] + [order[k]];
    }
  }

  datatype SetupResult = SetupResult(
    containers: seq<Container>, endpoints: seq<string>, dockerEndpoints: seq<string>, addresses: seq<string>,
    keystorePaths: seq<string>)

  /** Containers that started, in index order. */
  function StartedOnes(outcomes: seq<Outcome>): seq<Container> {
    if outcomes == [] then []
    else
      var rest := StartedOnes(outcomes[..|outcomes| - 1]);
      match outcomes[|outcomes| - 1]
      case Started(c) => rest + [c]
      case _ => rest
  }

  ghost predicate AllStarted(outcomes: seq<Outcome>) {
    forall i :: 0 <= i < |outcomes| ==> outcomes[i].Started?
  }

  /** Every list is in index order, whatever the order of arrival. */
  ghost predicate InIndexOrder(outcomes: seq<Outcome>, r: SetupResult) {
    && |r.containers| == |r.endpoints| == |r.dockerEndpoints| == |r.addresses| == |r.keystorePaths| == |outcomes|
    && forall i :: 0 <= i < |outcomes| ==>
         && outcomes[i] == Started(r.containers[i])
         && r.endpoints[i] == r.containers[i].endpoint
         && r.dockerEndpoints[i] == r.containers[i].dockerEndpoint
         && r.addresses[i] == r.containers[i].address
         && r.keystorePaths[i] == r.containers[i].keystorePath
  }

  /** The slots after the first `k` results: each holds its own goroutine's container once that has arrived. */
  ghost predicate Collected(outcomes: seq<Outcome>, order: seq<nat>, k: nat, instances: seq<Option<Container>>) {
    && k <= |order| && |instances| == |outcomes|
    && forall i: nat :: i < |outcomes| ==>
         instances[i] == (if i in order[..k] && outcomes[i].Started? then Some(outcomes[i].container) else None)
  }

  lemma CollectOne(outcomes: seq<Outcome>, order: seq<nat>, k: nat, instances: seq<Option<Container>>)
    requires Collected(outcomes, order, k, instances) && k < |order| && order[k] < |outcomes|
    ensures var res := Report(outcomes, order[k]);
      Collected(outcomes, order, k + 1, if res.err.Some? then instances else instances[res.index := res.container])
  {
    assert order[..k + 1] == order[..k] + [order[k]];
  }

  method CollectResults(outcomes: seq<Outcome>, order: seq<nat>)
    returns (instances: array<Option<Container>>, errs: seq<StartError>)
    requires IsOrder(|outcomes|, order)
    ensures Collected(outcomes, order, |order|, instances[..])
    ensures (forall k :: 0 <= k < |order| ==> order[k] < |outcomes|) && errs == ErrorsIn(outcomes, order)
  {
    hide IsOrder;
    OrderIsOnto(|outcomes|, order);
    instances := new Option<Container>[|outcomes|](_ => None);
    errs := [];
    for k := 0 to |order|
      invariant instances.Length == |outcomes|
      invariant Collected(outcomes, order, k, instances[..])
      invariant errs == ErrorsIn(outcomes, order[..k])
    {
      CollectOne(outcomes, order, k, instances[..]);
      assert order[..k + 1][..k] == order[..k];
      var res := Report(outcomes, order[k]);
      if res.err.Some? {
        errs := errs + [res.err.value];
      } else {
        instances[res.index] := res.container;
      }
    }
    assert order[..|order|] == order;
  }

  /** The cleanup loop: every non-nil slot, once. */
  method CleanUp(outcomes: seq<Outcome>, instances: array<Option<Container>>) returns (cleaned: seq<Container>)
    requires instances.Length == |outcomes|
    requires forall i :: 0 <= i < |outcomes| ==>
      instances[i] == (if outcomes[i].Started? then Some(outcomes[i].container) else None)
    ensures cleaned == StartedOnes(outcomes)
  {
    cleaned := [];
    for i := 0 to instances.Length
      invariant cleaned == StartedOnes(outcomes[..i])
    {
      assert outcomes[..i + 1][..i] == outcomes[..i];
      if instances[i].Some? {
        cleaned := cleaned + [instances[i].value];
      }
    }
    assert outcomes[..|outcomes|] == outcomes;
  }

  /** `result` is `None` when the test is failed; `registered` are the containers whose cleanup is left to the test's
      end. */
  method SetupAttestors(outcomes: seq<Outcome>, order: seq<nat>)
    returns (result: Option<SetupResult>, cleaned: seq<Container>, registered: seq<Container>)
    requires IsOrder(|outcomes|, order)
    ensures result.Some? <==> AllStarted(outcomes)
    ensures result.Some? ==> InIndexOrder(outcomes, result.value)
    ensures cleaned == if result.Some? then [] else StartedOnes(outcomes)
    ensures registered == if result.Some? then StartedOnes(outcomes) else []
  {
    hide Collected, ErrorsIn, Report;
    OrderIsOnto(|outcomes|, order);
    var instances, errs := CollectResults(outcomes, order);
    assert order[..|order|] == order;
    AllReported(outcomes, order, instances[..]);
    if |errs| > 0 {
      cleaned := CleanUp(outcomes, instances);
      return None, cleaned, [];
    }
    var r := SetupResult([], [], [], [], []);
    registered := [];
    for i := 0 to instances.Length
      invariant InIndexOrder(outcomes[..i], r)
      invariant registered == StartedOnes(outcomes[..i])
    {
      assert outcomes[..i + 1][..i] == outcomes[..i];
      var c := instances[i].value;
      r := SetupResult(
        r.containers + [c], r.endpoints + [c.endpoint], r.dockerEndpoints + [c.dockerEndpoint],
        r.addresses + [c.address], r.keystorePaths + [c.keystorePath]);
      registered := registered + [c];
    }
    assert outcomes[..|outcomes|] == outcomes;
    return Some(r), [], registered;
  }

  /** No error arrives exactly if every goroutine in the order started its container. */
  lemma {:induction false} NoErrors(outcomes: seq<Outcome>, order: seq<nat>)
    requires forall k :: 0 <= k < |order| ==> order[k] < |outcomes|
    ensures ErrorsIn(outcomes, order) == [] <==> forall j :: 0 <= j < |order| ==> outcomes[order[j]].Started?
  {
    if order != [] {
      NoErrors(outcomes, order[..|order| - 1]);
    }
  }

  lemma AllReported(outcomes: seq<Outcome>, order: seq<nat>, instances: seq<Option<Container>>)
    requires IsOrder(|outcomes|, order) && Collected(outcomes, order, |order|, instances)
    requires forall k :: 0 <= k < |order| ==> order[k] < |outcomes|
    ensures ErrorsIn(outcomes, order) == [] <==> AllStarted(outcomes)
    ensures |instances| == |outcomes| && forall i :: 0 <= i < |outcomes| ==>
      instances[i] == (if outcomes[i].Started? then Some(outcomes[i].container) else None)
  {
    OrderIsOnto(|outcomes|, order);
    NoErrors(outcomes, order);
    assert order[..|order|] == order;
    if ErrorsIn(outcomes, order) == [] {
      forall i: nat | i < |outcomes| ensures outcomes[i].Started? {
        assert i in order;
        var j :| 0 <= j < |order| && order[j] == i;
      }
    }
  }

  /** `StartedOnes` has each started container as often as goroutines reported it: exactly once each. */
  lemma {:induction false} StartedOnesCount(outcomes: seq<Outcome>, c: Container)
    ensures multiset(StartedOnes(outcomes))[c] == multiset(outcomes)[Started(c)]
  {
    if outcomes != [] {
      var k := |outcomes| - 1;
      StartedOnesCount(outcomes[..k], c);
      assert outcomes == outcomes[..k] + [outcomes[k]];
    }
  }
}
