/** Go's fan-out, fan-in: `n` goroutines each send one result on a channel of capacity `n`, and a collector receives `n`
    times. A schedule is any interleaving of these events; an event that cannot happen is skipped. */
module FanIn {
  datatype Fan = Fan(running: set<nat>, channel: seq<nat>, received: seq<nat>)

  datatype Event = Finish(task: nat) | Receive

  function All(n: nat): (s: set<nat>)
    ensures |s| == n && forall i: nat :: i in s <==> i < n
  {
    if n == 0 then {} else All(n - 1) + {n - 1}
  }

  function Start(n: nat): Fan {
    Fan(All(n), [], [])
  }

  /** Whether the channel has room for another result. */
  predicate HasRoom(n: nat, f: Fan) {
    |f.channel| < n
  }

  predicate Enabled(n: nat, f: Fan, e: Event) {
    match e
    case Finish(i) => i in f.running && HasRoom(n, f)
    case Receive => |f.received| < n && f.channel != []
  }

  function Apply(n: nat, f: Fan, e: Event): Fan {
    if !Enabled(n, f, e) then f
    else match e
      case Finish(i) => f.(running := f.running - {i}, channel := f.channel + [i])
      case Receive => f.(channel := f.channel[1..], received := f.received + [f.channel[0]])
  }

  function Run(n: nat, schedule: seq<Event>): Fan {
    if schedule == [] then Start(n) else Apply(n, Run(n, schedule[..|schedule| - 1]), schedule[|schedule| - 1])
  }

  /** The collector's loop is over. */
  predicate Returned(n: nat, f: Fan) {
    |f.received| == n
  }

  /** Every result is in exactly one place. */
  ghost predicate Accounted(n: nat, f: Fan) {
    multiset(f.running) + multiset(f.channel) + multiset(f.received) == multiset(All(n))
  }

  /** An order in which the collector may see the results: each task exactly once. */
  ghost predicate IsOrder(n: nat, order: seq<nat>) {
    multiset(order) == multiset(All(n))
  }

  function Places(f: Fan): nat {
    |f.running| + |f.channel| + |f.received|
  }

  lemma FinishAccounted(n: nat, f: Fan, i: nat)
    requires Accounted(n, f)
    ensures var f' := Apply(n, f, Finish(i)); Accounted(n, f') && Places(f') == Places(f)
  {
    if i in f.running {
      assert multiset(f.running - {i}) + multiset{i} == multiset(f.running);
    }
  }

  lemma ReceiveAccounted(n: nat, f: Fan)
    requires Accounted(n, f)
    ensures var f' := Apply(n, f, Receive); Accounted(n, f') && Places(f') == Places(f)
  {
    if f.channel != [] {
      assert f.channel == [f.channel[0]] + f.channel[1..];
    }
  }

  lemma {:induction false} RunAccounted(n: nat, schedule: seq<Event>)
    ensures Accounted(n, Run(n, schedule)) && Places(Run(n, schedule)) == n
  {
    hide Apply, Accounted, Places;
    if schedule == [] {
      StartAccounted(n);
    } else {
      var k := |schedule| - 1;
      RunAccounted(n, schedule[..k]);
      match schedule[k]
      case Finish(i) => FinishAccounted(n, Run(n, schedule[..k]), i);
      case Receive => ReceiveAccounted(n, Run(n, schedule[..k]));
    }
  }

  lemma StartAccounted(n: nat)
    ensures Accounted(n, Start(n)) && Places(Start(n)) == n
  {
  }

  /** In every reachable state: no sender is ever blocked, something can happen until the collector returns, and it
      returns only when every goroutine is done, having seen every result exactly once. */
  lemma EverySchedule(n: nat, schedule: seq<Event>)
    ensures var f := Run(n, schedule);
      && (forall i :: i in f.running ==> Enabled(n, f, Finish(i)))
      && (Returned(n, f) || exists e :: Enabled(n, f, e))
      && (Returned(n, f) <==> f.running == {} && f.channel == [])
      && (Returned(n, f) ==> IsOrder(n, f.received))
  {
    RunAccounted(n, schedule);
    var f := Run(n, schedule);
    if f.channel != [] {
      assert Enabled(n, f, Receive);
    } else if f.running != {} {
      var i :| i in f.running;
      assert Enabled(n, f, Finish(i));
    }
    if Returned(n, f) {
      assert multiset(f.running) == multiset{};
    }
  }

  function Remaining(f: Fan): nat {
    2 * |f.running| + |f.channel|
  }

  lemma EventUsesOne(n: nat, f: Fan, e: Event)
    requires Enabled(n, f, e)
    ensures Remaining(Apply(n, f, e)) == Remaining(f) - 1
  {
  }

  /** How many events of the schedule happened, the rest having been skipped. */
  function Happened(n: nat, schedule: seq<Event>): nat {
    if schedule == [] then 0
    else
      var k := |schedule| - 1;
      Happened(n, schedule[..k]) + if Enabled(n, Run(n, schedule[..k]), schedule[k]) then 1 else 0
  }

  lemma {:induction false} HappenedAndRemaining(n: nat, schedule: seq<Event>)
    ensures Happened(n, schedule) + Remaining(Run(n, schedule)) == 2 * n
  {
    hide Enabled, Apply, Remaining;
    if schedule == [] {
      AllRemains(n);
    } else {
      var k := |schedule| - 1;
      HappenedAndRemaining(n, schedule[..k]);
      var f := Run(n, schedule[..k]);
      if Enabled(n, f, schedule[k]) {
        EventUsesOne(n, f, schedule[k]);
      } else {
        Skipped(n, f, schedule[k]);
      }
    }
  }

  lemma AllRemains(n: nat)
    ensures Remaining(Start(n)) == 2 * n
  {
  }

  lemma Skipped(n: nat, f: Fan, e: Event)
    requires !Enabled(n, f, e)
    ensures Apply(n, f, e) == f
  {
  }

  /** Every schedule ends: no more than 2n events can ever happen, and the collector has returned exactly when 2n
      have. */
  lemma EventsRunOut(n: nat, schedule: seq<Event>)
    ensures Happened(n, schedule) <= 2 * n
    ensures Happened(n, schedule) == 2 * n <==> Returned(n, Run(n, schedule))
  {
    HappenedAndRemaining(n, schedule);
    EverySchedule(n, schedule);
  }

  function InOrder(order: seq<nat>): seq<Event> {
    if order == [] then [] else InOrder(order[..|order| - 1]) + [Finish(order[|order| - 1]), Receive]
  }

  lemma InOrderStep(n: nat, order: seq<nat>)
    requires order != []
    ensures var k := |order| - 1;
      Run(n, InOrder(order)) == Apply(n, Apply(n, Run(n, InOrder(order[..k])), Finish(order[k])), Receive)
  {
    var k, s := |order| - 1, InOrder(order);
    var before := InOrder(order[..k]);
    assert s == before + [Finish(order[k]), Receive];
    assert s[..|s| - 1] == before + [Finish(order[k])];
    assert s[..|s| - 1][..|before|] == before;
  }

  lemma NoTaskTwice(n: nat, order: seq<nat>, k: nat)
    requires IsOrder(n, order) && k < |order|
    ensures order[k] < n && order[k] !in order[..k] && |order| == n
  {
    var i := order[k];
    assert order == order[..k] + [i] + order[k + 1..];
    var m := multiset(order[..k]) + multiset{i} + multiset(order[k + 1..]);
    assert m == multiset(order);
    assert m[i] == multiset(All(n))[i] <= 1;
    assert i in m;
    assert |multiset(order)| == |multiset(All(n))|;
  }

  lemma FinishThenReceive(n: nat, running: set<nat>, before: seq<nat>, i: nat)
    requires i in running && |before| < n
    ensures Apply(n, Apply(n, Fan(running, [], before), Finish(i)), Receive) == Fan(running - {i}, [], before + [i])
  {
  }

  lemma {:induction false} PrefixReceived(n: nat, order: seq<nat>, k: nat)
    requires IsOrder(n, order) && k <= |order|
    ensures Run(n, InOrder(order[..k])) == Fan(All(n) - (set i | i in order[..k]), [], order[..k])
  {
    hide IsOrder, InOrder, Apply;
    if k == 0 {
      NothingInOrder();
      assert All(n) - (set i | i in order[..0]) == All(n);
    } else {
      var before, i := order[..k - 1], order[k - 1];
      assert order[..k] == before + [i];
      assert order[..k][..k - 1] == before;
      PrefixReceived(n, order, k - 1);
      NoTaskTwice(n, order, k - 1);
      InOrderStep(n, order[..k]);
      var running := All(n) - (set j | j in before);
      FinishThenReceive(n, running, before, i);
      assert running - {i} == All(n) - (set j | j in order[..k]);
    }
  }

  lemma NothingInOrder()
    ensures InOrder([]) == []
  {
  }

  /** Every order is the outcome of some schedule. */
  lemma EveryOrderHappens(n: nat, order: seq<nat>)
    requires IsOrder(n, order)
    ensures Run(n, InOrder(order)).received == order && Returned(n, Run(n, InOrder(order)))
  {
    assert order[..|order|] == order;
    PrefixReceived(n, order, |order|);
    assert |multiset(order)| == |multiset(All(n))|;
  }

  /** An order has every task in it, and nothing else. */
  lemma OrderIsOnto(n: nat, order: seq<nat>)
    requires IsOrder(n, order)
    ensures |order| == n
    ensures forall k :: 0 <= k < |order| ==> order[k] < n
    ensures forall i: nat :: i < n ==> i in order
  {
    assert |multiset(order)| == |multiset(All(n))|;
    forall k | 0 <= k < |order| ensures order[k] < n {
      assert order[k] in multiset(order);
    }
    forall i: nat | i < n ensures i in order {
      assert i in multiset(All(n));
    }
  }
}
