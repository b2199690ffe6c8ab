/** The e2e suite's parallel task runners. What a task's `Run` returns is fixed; only the order of arrival is not. */
module ParallelTasks {
  import opened Bytes
  import opened FanIn

  datatype Task<T> = Task(name: string, outcome: Result<T>)

  ghost predicate OrderOf<T>(tasks: seq<Task<T>>, order: seq<nat>) {
    IsOrder(|tasks|, order)
  }

  lemma Position<T>(tasks: seq<Task<T>>, order: seq<nat>, i: nat) returns (k: nat)
    requires OrderOf(tasks, order) && i < |tasks|
    ensures k < |order| && order[k] == i
  {
    OrderIsOnto(|tasks|, order);
    assert i in order;
    k :| 0 <= k < |order| && order[k] == i;
  }

  /** Position `k` of the order holds the first failing result to arrive. */
  ghost predicate FirstFailure<T>(tasks: seq<Task<T>>, order: seq<nat>, k: nat) {
    && k < |order| && order[k] < |tasks| && tasks[order[k]].outcome.Err?
    && forall j :: 0 <= j < k ==> order[j] < |tasks| && tasks[order[j]].outcome.Ok?
  }

  ghost predicate NoFailure<T>(tasks: seq<Task<T>>) {
    forall i :: 0 <= i < |tasks| ==> tasks[i].outcome.Ok?
  }

  /** Fails iff some task failed, with the first failure received. */
  method RunParallelTasks<T>(tasks: seq<Task<T>>, order: seq<nat>) returns (firstError: Option<string>)
    requires OrderOf(tasks, order)
    ensures firstError.None? <==> NoFailure(tasks)
    ensures firstError.Some? ==>
      exists k: nat ::
        && FirstFailure(tasks, order, k)
        && firstError.value == tasks[order[k]].name + " failed: " + tasks[order[k]].outcome.reason
  {
    OrderIsOnto(|tasks|, order);
    firstError := None;
    ghost var first := 0;
    for i := 0 to |tasks|
      invariant firstError.None? ==> forall j :: 0 <= j < i ==> tasks[order[j]].outcome.Ok?
      invariant firstError.Some? ==>
        && FirstFailure(tasks, order, first)
        && firstError.value == tasks[order[first]].name + " failed: " + tasks[order[first]].outcome.reason
    {
      var res := tasks[order[i]];
      if res.outcome.Err? && firstError.None? {
        firstError := Some(res.name + " failed: " + res.outcome.reason);
        first := i;
      }
    }
    if firstError.None? {
      forall t | 0 <= t < |tasks| ensures tasks[t].outcome.Ok? {
        var j := Position(tasks, order, t);
      }
    }
  }

  /** What arrives last under a name is what the map holds. */
  function Gather<T>(tasks: seq<Task<T>>, order: seq<nat>): map<string, T> {
    if order == [] then map[]
    else
      var m, i := Gather(tasks, order[..|order| - 1]), order[|order| - 1];
      if i < |tasks| && tasks[i].outcome.Ok? then m[tasks[i].name := tasks[i].outcome.value] else m
  }

  method RunParallelTasksWithResults<T>(tasks: seq<Task<T>>, order: seq<nat>) returns (r: Result<map<string, T>>)
    requires OrderOf(tasks, order)
    ensures r.Ok? <==> NoFailure(tasks)
    ensures r.Ok? ==> r.value == Gather(tasks, order)
    ensures r.Err? ==>
      exists k: nat ::
        && FirstFailure(tasks, order, k)
        && r.reason == tasks[order[k]].name + " failed: " + tasks[order[k]].outcome.reason
  {
    OrderIsOnto(|tasks|, order);
    if tasks == [] {
      return Ok(map[]);
    }
    var resultMap: map<string, T> := map[];
    var firstError: Option<string> := None;
    ghost var first := 0;
    for i := 0 to |tasks|
      invariant resultMap == Gather(tasks, order[..i])
      invariant firstError.None? ==> forall j :: 0 <= j < i ==> tasks[order[j]].outcome.Ok?
      invariant firstError.Some? ==>
        && FirstFailure(tasks, order, first)
        && firstError.value == tasks[order[first]].name + " failed: " + tasks[order[first]].outcome.reason
    {
      var res := tasks[order[i]];
      assert order[..i + 1][..i] == order[..i];
      if res.outcome.Err? && firstError.None? {
        firstError := Some(res.name + " failed: " + res.outcome.reason);
        first := i;
      } else if res.outcome.Ok? {
        resultMap := resultMap[res.name := res.outcome.value];
      }
    }
    if firstError.Some? {
      return Err(firstError.value);
    }
    forall t | 0 <= t < |tasks| ensures tasks[t].outcome.Ok? {
      var j := Position(tasks, order, t);
    }
    assert order[..|order|] == order;
    return Ok(resultMap);
  }

  /** Under each name the map holds what arrived last. */
  lemma {:induction false} LastArrivalWins<T>(tasks: seq<Task<T>>, order: seq<nat>, k: nat)
    requires k < |order| && order[k] < |tasks| && tasks[order[k]].outcome.Ok?
    requires forall j :: k < j < |order| && order[j] < |tasks| ==> tasks[order[j]].name != tasks[order[k]].name
    ensures var m := Gather(tasks, order);
      tasks[order[k]].name in m && m[tasks[order[k]].name] == tasks[order[k]].outcome.value
  {
    if k < |order| - 1 {
      LastArrivalWins(tasks, order[..|order| - 1], k);
    }
  }

  // Independence of the schedule

  /** Tasks that share a name return the same value; in particular, when all names differ. */
  ghost predicate Agree<T>(tasks: seq<Task<T>>) {
    forall i, j :: 0 <= i < |tasks| && 0 <= j < |tasks| && tasks[i].name == tasks[j].name ==>
      tasks[i].outcome == tasks[j].outcome
  }

  ghost predicate DistinctNames<T>(tasks: seq<Task<T>>) {
    forall i, j :: 0 <= i < j < |tasks| ==> tasks[i].name != tasks[j].name
  }

  lemma DistinctAgree<T>(tasks: seq<Task<T>>)
    requires DistinctNames(tasks)
    ensures Agree(tasks)
  {
    forall i, j | 0 <= i < |tasks| && 0 <= j < |tasks| && tasks[i].name == tasks[j].name ensures i == j {
      assert i < j || j < i || i == j;
    }
  }

  /** The map holds every task's value under its name, and nothing else. */
  ghost predicate Holds<T>(tasks: seq<Task<T>>, order: seq<nat>, m: map<string, T>) {
    && (forall k :: 0 <= k < |order| && order[k] < |tasks| && tasks[order[k]].outcome.Ok? ==>
          tasks[order[k]].name in m && m[tasks[order[k]].name] == tasks[order[k]].outcome.value)
    && (forall name :: name in m ==> exists k :: 0 <= k < |order| && order[k] < |tasks| && tasks[order[k]].name == name)
  }

  lemma {:induction false} AgreeingHold<T>(tasks: seq<Task<T>>, order: seq<nat>)
    requires Agree(tasks)
    ensures Holds(tasks, order, Gather(tasks, order))
  {
    if order != [] {
      var k := |order| - 1;
      AgreeingHold(tasks, order[..k]);
      forall name | name in Gather(tasks, order)
        ensures exists k :: 0 <= k < |order| && order[k] < |tasks| && tasks[order[k]].name == name
      {
        if name in Gather(tasks, order[..k]) {
          var j :| 0 <= j < k && order[..k][j] < |tasks| && tasks[order[..k][j]].name == name;
          assert order[j] == order[..k][j];
        } else {
          assert order[k] < |tasks| && tasks[order[k]].name == name;
        }
      }
    }
  }

  function Identity(n: nat): seq<nat> {
    seq(n, i => i)
  }

  /** Everyone else first, then task `i`. */
  function LastToArrive(n: nat, i: nat): seq<nat>
    requires i < n
  {
    Identity(n)[..i] + Identity(n)[i + 1..] + [i]
  }

  lemma {:induction false} IdentityIsOrder(n: nat)
    ensures IsOrder(n, Identity(n))
  {
    if n > 0 {
      var last: nat := n - 1;
      IdentityIsOrder(last);
      assert Identity(n) == Identity(last) + [last];
      assert multiset(All(n)) == multiset(All(last)) + multiset{last};
    }
  }

  lemma LastIsOrder(n: nat, i: nat)
    requires i < n
    ensures IsOrder(n, LastToArrive(n, i))
  {
    IdentityIsOrder(n);
    var all := Identity(n);
    assert all == all[..i] + [i] + all[i + 1..];
  }

  ghost predicate SameForAll<T>(tasks: seq<Task<T>>) {
    forall o, p :: OrderOf(tasks, o) && OrderOf(tasks, p) ==> Gather(tasks, o) == Gather(tasks, p)
  }

  /** When nothing fails, every schedule gives the same map exactly if tasks that share a name agree. */
  lemma SameForAllIffAgree<T>(tasks: seq<Task<T>>)
    requires NoFailure(tasks)
    ensures SameForAll(tasks) <==> Agree(tasks)
  {
    if Agree(tasks) {
      forall o, p | OrderOf(tasks, o) && OrderOf(tasks, p) ensures Gather(tasks, o) == Gather(tasks, p) {
        SameWhenAgreeing(tasks, o, p);
      }
    } else {
      var i: nat, j: nat :| i < |tasks| && j < |tasks| && tasks[i].name == tasks[j].name &&
        tasks[i].outcome != tasks[j].outcome;
      var o, p := LastToArrive(|tasks|, i), LastToArrive(|tasks|, j);
      LastIsOrder(|tasks|, i);
      LastIsOrder(|tasks|, j);
      assert OrderOf(tasks, o) && OrderOf(tasks, p);
      assert Gather(tasks, o)[tasks[i].name] == tasks[i].outcome.value;
      assert Gather(tasks, p)[tasks[i].name] == tasks[j].outcome.value;
    }
  }

  lemma SameWhenAgreeing<T>(tasks: seq<Task<T>>, o: seq<nat>, p: seq<nat>)
    requires NoFailure(tasks) && Agree(tasks) && OrderOf(tasks, o) && OrderOf(tasks, p)
    ensures Gather(tasks, o) == Gather(tasks, p)
  {
    hide Agree, OrderOf, Holds;
    AgreeingHold(tasks, o);
    AgreeingHold(tasks, p);
    SameKeys(tasks, o, p);
    SameKeys(tasks, p, o);
  }

  lemma SameKeys<T>(tasks: seq<Task<T>>, o: seq<nat>, p: seq<nat>)
    requires NoFailure(tasks) && Holds(tasks, o, Gather(tasks, o)) && Holds(tasks, p, Gather(tasks, p))
    requires OrderOf(tasks, p)
    ensures forall name :: name in Gather(tasks, o) ==>
      name in Gather(tasks, p) && Gather(tasks, p)[name] == Gather(tasks, o)[name]
  {
    hide OrderOf, Gather;
    forall name | name in Gather(tasks, o)
      ensures name in Gather(tasks, p) && Gather(tasks, p)[name] == Gather(tasks, o)[name]
    {
      var k :| 0 <= k < |o| && o[k] < |tasks| && tasks[o[k]].name == name;
      var l := Position(tasks, p, o[k]);
    }
  }

  lemma {:induction false} SomeFailureFirst<T>(tasks: seq<Task<T>>, order: seq<nat>, i: nat) returns (k: nat)
    requires i < |order| && (forall j :: 0 <= j <= i ==> order[j] < |tasks|) && tasks[order[i]].outcome.Err?
    ensures FirstFailure(tasks, order, k) && k <= i
  {
    k := i;
    if j :| 0 <= j < i && tasks[order[j]].outcome.Err? {
      k := SomeFailureFirst(tasks, order, j);
    }
  }

  /** With a failure, every schedule has a first failing result for the runner to report. */
  lemma EveryScheduleReports<T>(tasks: seq<Task<T>>, schedule: seq<Event>)
    requires !NoFailure(tasks) && Returned(|tasks|, FanIn.Run(|tasks|, schedule))
    ensures exists k: nat :: FirstFailure(tasks, FanIn.Run(|tasks|, schedule).received, k)
  {
    EverySchedule(|tasks|, schedule);
    var order := FanIn.Run(|tasks|, schedule).received;
    OrderIsOnto(|tasks|, order);
    var t: nat :| t < |tasks| && tasks[t].outcome.Err?;
    var i := Position(tasks, order, t);
    var k := SomeFailureFirst(tasks, order, i);
  }

  /** With distinct names and no failure, every schedule's map takes each name to that task's value. */
  lemma EveryScheduleGathers<T>(tasks: seq<Task<T>>, schedule: seq<Event>)
    requires DistinctNames(tasks) && NoFailure(tasks) && Returned(|tasks|, FanIn.Run(|tasks|, schedule))
    ensures var m := Gather(tasks, FanIn.Run(|tasks|, schedule).received);
      && (forall i :: 0 <= i < |tasks| ==> tasks[i].name in m && m[tasks[i].name] == tasks[i].outcome.value)
      && |m| == |tasks|
  {
    hide Gather, Holds, IsOrder, DistinctNames;
    EverySchedule(|tasks|, schedule);
    DistinctAgree(tasks);
    var order := FanIn.Run(|tasks|, schedule).received;
    AgreeingHold(tasks, order);
    HeldByName(tasks, order, Gather(tasks, order));
  }

  lemma HeldByName<T>(tasks: seq<Task<T>>, order: seq<nat>, m: map<string, T>)
    requires Holds(tasks, order, m) && NoFailure(tasks) && DistinctNames(tasks)
    requires OrderOf(tasks, order)
    ensures forall i :: 0 <= i < |tasks| ==> tasks[i].name in m && m[tasks[i].name] == tasks[i].outcome.value
    ensures |m| == |tasks|
  {
    forall i | 0 <= i < |tasks| ensures tasks[i].name in m && m[tasks[i].name] == tasks[i].outcome.value {
      var k := Position(tasks, order, i);
    }
    forall name | name in m ensures name in Names(tasks) {
      var k :| 0 <= k < |order| && order[k] < |tasks| && tasks[order[k]].name == name;
      NameIn(tasks, order[k]);
    }
    assert m.Keys == Names(tasks);
    NamesCount(tasks);
  }

  function Names<T>(tasks: seq<Task<T>>): (s: set<string>)
    ensures forall name :: name in s ==> exists i :: 0 <= i < |tasks| && tasks[i].name == name
  {
    if tasks == [] then {} else Names(tasks[..|tasks| - 1]) + {tasks[|tasks| - 1].name}
  }

  lemma {:induction false} NameIn<T>(tasks: seq<Task<T>>, i: nat)
    requires i < |tasks|
    ensures tasks[i].name in Names(tasks)
  {
    if i < |tasks| - 1 {
      NameIn(tasks[..|tasks| - 1], i);
    }
  }

  lemma {:induction false} NamesCount<T>(tasks: seq<Task<T>>)
    requires DistinctNames(tasks)
    ensures |Names(tasks)| == |tasks|
  {
    if tasks != [] {
      NamesCount(tasks[..|tasks| - 1]);
    }
  }
}
