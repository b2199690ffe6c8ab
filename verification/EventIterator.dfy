/** The generated event iterator: logs arrive on a channel, and the subscription ends with or without an error. */
module EventIterator {
  import opened Bytes

  /** Unpacking a log fills a new event; with an error, only in part. */
  datatype Unpacking<Event> = Unpacking(event: Event, err: Option<string>)

  type Unpack<!Log, !Event> = Log -> Unpacking<Event>

  /** `incoming` has not been queued yet; `ended` is what the subscription's error channel holds: nothing yet, or its
      final error, `None` for a clean end. */
  datatype Source<Log> = Source(incoming: seq<Log>, queued: seq<Log>, ended: Option<Option<string>>)

  datatype State<Log, Event> = State(source: Source<Log>, event: Option<Event>, done: bool, fail: Option<string>)

  /** `Next` returns once its `select` has something to pick. */
  predicate Ready<Log, Event>(s: State<Log, Event>, pickEnd: bool) {
    s.fail.Some? || s.done || if pickEnd then s.source.ended.Some? else s.source.queued != []
  }

  function Take<Log, Event>(unpack: Unpack<Log, Event>, s: State<Log, Event>): (State<Log, Event>, bool)
    requires s.source.queued != []
  {
    var u := unpack(s.source.queued[0]);
    (State(s.source.(queued := s.source.queued[1..]), Some(u.event), s.done, if u.err.Some? then u.err else s.fail),
     u.err.None?)
  }

  /** When both a log and the end are ready, `pickEnd` says which one the `select` picks. */
  function Next<Log, Event>(unpack: Unpack<Log, Event>, s: State<Log, Event>, pickEnd: bool): (State<Log, Event>, bool)
    requires Ready(s, pickEnd)
    decreases !s.done
  {
    if s.fail.Some? then (s, false)
    else if s.done then if s.source.queued != [] then Take(unpack, s) else (s, false)
    else if !pickEnd then Take(unpack, s)
    else Next(unpack, s.(done := true, fail := s.source.ended.value), pickEnd)
  }

  /** How often a call of `Next` calls itself. */
  function SelfCalls<Log, Event>(s: State<Log, Event>, pickEnd: bool): (n: nat)
    requires Ready(s, pickEnd)
    ensures n <= 1
    decreases !s.done
  {
    if s.fail.Some? || s.done || !pickEnd then 0
    else 1 + SelfCalls(s.(done := true, fail := s.source.ended.value), pickEnd)
  }

  /** `Next` without its self-call: seeing the end only changes what is done next. */
  lemma NextOnce<Log, Event>(unpack: Unpack<Log, Event>, s: State<Log, Event>, pickEnd: bool)
    requires Ready(s, pickEnd)
    ensures Next(unpack, s, pickEnd) ==
      if s.fail.Some? then (s, false)
      else if !s.done && !pickEnd then Take(unpack, s)
      else
        var ended := if s.done then s else s.(done := true, fail := s.source.ended.value);
        if ended.fail.None? && s.source.queued != [] then Take(unpack, ended) else (ended, false)
  {
    if s.fail.None? && !s.done && pickEnd {
      var ended := s.(done := true, fail := s.source.ended.value);
      assert Next(unpack, s, pickEnd) == Next(unpack, ended, pickEnd);
    }
  }

  /** The iterator object; its channels are shared with the node, which may fill them between calls. */
  class Iterator<Log, Event> {
    const unpack: Unpack<Log, Event>
    var source: Source<Log>
    var event: Option<Event>
    var done: bool
    var fail: Option<string>

    constructor (unpack: Unpack<Log, Event>, source: Source<Log>)
      ensures this.unpack == unpack && Value() == State(source, None, false, None)
    {
      this.unpack, this.source, event, done, fail := unpack, source, None, false, None;
    }

    function Value(): State<Log, Event>
      reads this
    {
      State(source, event, done, fail)
    }

    method TakeLog() returns (more: bool)
      requires source.queued != []
      modifies this
      ensures (Value(), more) == Take(unpack, old(Value()))
    {
      var log := source.queued[0];
      source := source.(queued := source.queued[1..]);
      var unpacked := unpack(log);
      event := Some(unpacked.event);
      if unpacked.err.Some? {
        fail := unpacked.err;
        return false;
      }
      return true;
    }

    /** The measure shows that `Next` calls itself at most once. */
    method Advance(pickEnd: bool) returns (more: bool)
      requires Ready(Value(), pickEnd)
      modifies this
      ensures (Value(), more) == Next(unpack, old(Value()), pickEnd)
      decreases if done then 0 else 1
    {
      if fail.Some? { return false; }
      if done {
        if source.queued == [] { return false; }
        more := TakeLog();
        return;
      }
      if !pickEnd {
        more := TakeLog();
        return;
      }
      done := true;
      fail := source.ended.value;
      more := Advance(pickEnd);
    }
  }

  // Schedules

  datatype Step = Queue | End(err: Option<string>) | CallNext(pickEnd: bool)

  /** What the caller has been given so far, and whether the last call returned false. */
  datatype Session<Log, Event> = Session(state: State<Log, Event>, delivered: seq<Event>, stopped: bool)

  function Start<Log, Event>(logs: seq<Log>): Session<Log, Event> {
    Session(State(Source(logs, [], None), None, false, None), [], false)
  }

  /** The node queues logs until it ends the subscription, once. A call of `Next` that would block does not happen. */
  function Apply<Log, Event>(unpack: Unpack<Log, Event>, x: Session<Log, Event>, step: Step): Session<Log, Event> {
    var src := x.state.source;
    match step
    case Queue =>
      if src.ended.Some? || src.incoming == [] then x
      else
        var src' := src.(incoming := src.incoming[1..], queued := src.queued + [src.incoming[0]]);
        x.(state := x.state.(source := src'))
    case End(err) =>
      if src.ended.Some? then x else x.(state := x.state.(source := src.(ended := Some(err))))
    case CallNext(pickEnd) =>
      if !Ready(x.state, pickEnd) then x
      else
        var (s, more) := Next(unpack, x.state, pickEnd);
        if more && s.event.Some? then Session(s, x.delivered + [s.event.value], false)
        else Session(s, x.delivered, true)
  }

  function Run<Log, Event>(unpack: Unpack<Log, Event>, logs: seq<Log>, steps: seq<Step>): Session<Log, Event> {
    if steps == [] then Start(logs) else Apply(unpack, Run(unpack, logs, steps[..|steps| - 1]), steps[|steps| - 1])
  }

  /** The first logs unpack, to exactly these events. */
  ghost predicate Unpacked<Log, Event>(unpack: Unpack<Log, Event>, logs: seq<Log>, events: seq<Event>) {
    |events| <= |logs| && forall i :: 0 <= i < |events| ==> unpack(logs[i]) == Unpacking(events[i], None)
  }

  /** One log was consumed without being delivered: the one that did not unpack. */
  ghost predicate BadLog<Log, Event>(unpack: Unpack<Log, Event>, logs: seq<Log>, x: Session<Log, Event>) {
    && x.state.fail.Some? && |x.delivered| < |logs| && unpack(logs[|x.delivered|]).err.Some?
    && logs[|x.delivered| + 1..] == x.state.source.queued + x.state.source.incoming
  }

  ghost predicate Inv<Log, Event>(unpack: Unpack<Log, Event>, logs: seq<Log>, x: Session<Log, Event>) {
    && Unpacked(unpack, logs, x.delivered)
    && (logs[|x.delivered|..] == x.state.source.queued + x.state.source.incoming || BadLog(unpack, logs, x))
    && (x.state.done ==> x.state.source.ended.Some?)
    && (x.state.fail.Some? ==> x.stopped)
    && (x.state.fail.Some? ==> BadLog(unpack, logs, x) || (x.state.done && x.state.fail == x.state.source.ended.value))
    && (x.state.done && x.state.source.ended.value.Some? ==> x.state.fail.Some?)
    && (x.stopped ==> x.state.fail.Some? || (x.state.done && x.state.source.queued == []))
  }

  lemma TakeKeeps<Log, Event>(unpack: Unpack<Log, Event>, logs: seq<Log>, x: Session<Log, Event>, done: bool)
    requires Inv(unpack, logs, x) && x.state.fail.None? && x.state.source.queued != []
    requires done ==> x.state.source.ended == Some(None)
    ensures var (s, more) := Take(unpack, x.state.(done := done));
      && s.event.Some?
      && Inv(unpack, logs,
             if more then Session(s, x.delivered + [s.event.value], false) else Session(s, x.delivered, true))
  {
    var n, src := |x.delivered|, x.state.source;
    assert logs[n] == logs[n..][0] == src.queued[0];
    assert logs[n + 1..] == logs[n..][1..] == src.queued[1..] + src.incoming;
  }

  lemma CallKeeps<Log, Event>(unpack: Unpack<Log, Event>, logs: seq<Log>, x: Session<Log, Event>, pickEnd: bool)
    requires Inv(unpack, logs, x)
    ensures Inv(unpack, logs, Apply(unpack, x, CallNext(pickEnd)))
  {
    if Ready(x.state, pickEnd) {
      NextOnce(unpack, x.state, pickEnd);
      if x.state.fail.None? && x.state.source.queued != [] {
        if x.state.done || !pickEnd {
          TakeKeeps(unpack, logs, x, x.state.done);
        } else if x.state.source.ended == Some(None) {
          TakeKeeps(unpack, logs, x, true);
        }
      }
    }
  }

  lemma QueueKeeps<Log, Event>(unpack: Unpack<Log, Event>, logs: seq<Log>, x: Session<Log, Event>)
    requires Inv(unpack, logs, x)
    ensures Inv(unpack, logs, Apply(unpack, x, Queue))
  {
    var src := x.state.source;
    if src.incoming != [] {
      assert src.queued + src.incoming == (src.queued + [src.incoming[0]]) + src.incoming[1..];
    }
  }

  lemma {:induction false} RunKeeps<Log, Event>(unpack: Unpack<Log, Event>, logs: seq<Log>, steps: seq<Step>)
    ensures Inv(unpack, logs, Run(unpack, logs, steps))
  {
    if steps == [] {
      assert logs[0..] == [] + logs;
    } else {
      var k := |steps| - 1;
      RunKeeps(unpack, logs, steps[..k]);
      var x := Run(unpack, logs, steps[..k]);
      match steps[k]
      case Queue => QueueKeeps(unpack, logs, x);
      case End(err) =>
      case CallNext(pickEnd) => CallKeeps(unpack, logs, x, pickEnd);
    }
  }

  /** For every schedule: the caller gets an in-order prefix of the logs, none twice. It gets everything that was queued
      if it iterates to the end of a cleanly ended subscription whose logs all unpack. Stopping is for good. */
  lemma EverySchedule<Log, Event>(unpack: Unpack<Log, Event>, logs: seq<Log>, steps: seq<Step>, more: seq<Step>)
    ensures var x := Run(unpack, logs, steps);
      && Unpacked(unpack, logs, x.delivered)
      && (x.stopped && x.state.source.ended == Some(None) &&
           (forall i :: 0 <= i < |logs| ==> unpack(logs[i]).err.None?) ==>
            logs[|x.delivered|..] == x.state.source.incoming)
      && (x.stopped && x.state.fail.None? ==> x.state.source.ended == Some(None))
      && (x.stopped ==> var y := Run(unpack, logs, steps + more); y.stopped && y.delivered == x.delivered)
  {
    RunKeeps(unpack, logs, steps);
    if Run(unpack, logs, steps).stopped {
      StoppedStays(unpack, logs, steps, more);
    }
  }

  lemma {:induction false} StoppedStays<Log, Event>(
    unpack: Unpack<Log, Event>, logs: seq<Log>, steps: seq<Step>, more: seq<Step>)
    requires Run(unpack, logs, steps).stopped
    ensures Run(unpack, logs, steps + more).stopped
    ensures Run(unpack, logs, steps + more).delivered == Run(unpack, logs, steps).delivered
  {
    if more == [] {
      assert steps + more == steps;
    } else {
      var k := |more| - 1;
      StoppedStays(unpack, logs, steps, more[..k]);
      RunKeeps(unpack, logs, steps + more[..k]);
      assert (steps + more)[..|steps + more| - 1] == steps + more[..k];
    }
  }
}
