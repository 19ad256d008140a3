/**
 The scan scheduler's loop: an absolute periodic cadence, a post-update lane that never moves it,
 and a reconfiguration that starts it afresh. Other threads may reconfigure and wake at any time.
 */
module ScanScheduler {
  import opened Wrappers
  import opened Ordering
  import opened Clocks

  datatype Ran = Nothing | PostUpdateOnly | FullCycle

  /**
   One pass of the loop. The deadline it compares with is `anchor + steps * interval`; the one it
   leaves is `anchor + after * interval`.
   */
  datatype Tick = Tick(
    reconfigured: bool, wake: bool, now: int, anchor: int, interval: nat, steps: nat,
    ran: Ran, finished: int, after: nat)

  function Deadline(t: Tick): int { t.anchor + t.steps * t.interval }

  function DeadlineAfter(t: Tick): int { t.anchor + t.after * t.interval }

  /** What one pass does. */
  predicate TickOk(t: Tick)
  {
    && t.interval > 0 && t.now <= t.finished
    && (t.ran == FullCycle <==> t.now >= Deadline(t))
    && (t.ran == PostUpdateOnly <==> t.now < Deadline(t) && t.wake)
    && (t.reconfigured ==> t.anchor == t.now && t.steps == 1)
    && if t.ran == FullCycle
       then t.steps < t.after && DeadlineAfter(t) - t.interval <= t.finished < DeadlineAfter(t)
       else t.after == t.steps
  }

  /** Passes follow one another: a cadence is kept until a reconfiguration replaces it. */
  predicate Follows(t: Tick, u: Tick)
  {
    t.finished <= u.now && (!u.reconfigured ==> u.anchor == t.anchor && u.interval == t.interval && u.steps == t.after)
  }

  predicate FollowsAt(ticks: seq<Tick>, i: nat)
    requires i < |ticks|
  {
    i > 0 ==> Follows(ticks[i - 1], ticks[i])
  }

  predicate Cadence(ticks: seq<Tick>)
  {
    forall i :: 0 <= i < |ticks| ==> TickOk(ticks[i]) && FollowsAt(ticks, i)
  }

  lemma {:induction false} CadenceIsKept(ticks: seq<Tick>, i: nat, j: nat)
    requires Cadence(ticks) && i <= j < |ticks|
    requires forall k :: i < k <= j ==> !ticks[k].reconfigured
    ensures ticks[j].anchor == ticks[i].anchor && ticks[j].interval == ticks[i].interval
    ensures ticks[i].steps <= ticks[j].steps <= ticks[j].after
  {
    assert TickOk(ticks[j]);
    if i < j {
      CadenceIsKept(ticks, i, j - 1);
      assert FollowsAt(ticks, j);
    }
  }

  lemma Multiples(n: nat, m: nat, k: nat)
    requires n <= m
    ensures n * k <= m * k
  {
  }

  lemma LeastAbove(t: Tick, n: nat)
    requires TickOk(t) && t.ran == FullCycle && t.anchor + n * t.interval > t.finished
    ensures t.after <= n
  {
    if n < t.after {
      Multiples(n, t.after - 1, t.interval);
    }
  }

  /**
   Over any run without a reconfiguration, however long the cycles and however many the wakes,
   every deadline is one of the first anchor's, they never go back, and after a due cycle the
   deadline is the least of them above the clock.
   */
  lemma CadenceIsAbsolute(ticks: seq<Tick>, i: nat, j: nat)
    requires Cadence(ticks) && i <= j < |ticks|
    requires forall k :: i < k <= j ==> !ticks[k].reconfigured
    ensures Deadline(ticks[j]) == ticks[i].anchor + ticks[j].steps * ticks[i].interval >= Deadline(ticks[i])
    ensures ticks[j].ran == FullCycle ==>
              && ticks[j].finished < ticks[i].anchor + ticks[j].after * ticks[i].interval
              && forall n: nat :: ticks[i].anchor + n * ticks[i].interval > ticks[j].finished ==> ticks[j].after <= n
  {
    CadenceIsKept(ticks, i, j);
    Multiples(ticks[i].steps, ticks[j].steps, ticks[i].interval);
    var t := ticks[j];
    assert TickOk(t);
    if t.ran == FullCycle {
      forall n: nat | t.anchor + n * t.interval > t.finished ensures t.after <= n { LeastAbove(t, n); }
    }
  }

  /** However many post-update wakes and idle passes in a row leave the deadline where it was. */
  lemma {:induction false} WakesMoveNothing(ticks: seq<Tick>, i: nat, j: nat)
    requires Cadence(ticks) && i <= j < |ticks|
    requires forall k :: i <= k < j ==> ticks[k].ran != FullCycle
    requires forall k :: i < k <= j ==> !ticks[k].reconfigured
    ensures Deadline(ticks[j]) == Deadline(ticks[i])
  {
    if i < j {
      WakesMoveNothing(ticks, i, j - 1);
      assert TickOk(ticks[j - 1]) && FollowsAt(ticks, j);
    }
  }

  class Scheduler {
    const clock: Clock
    var interval: nat
    var generation: nat
    var wakePending: bool
    ghost var intervals: seq<nat>        // every interval ever configured, by generation

    ghost predicate Valid()
      reads this
    {
      generation + 1 == |intervals| && interval == intervals[generation] && interval > 0
    }

    constructor (clock: Clock, interval: nat)
      requires interval > 0
      ensures Valid() && this.clock == clock
    {
      this.clock, this.interval, generation, wakePending, intervals := clock, interval, 0, false, [interval];
    }

    method Configure(seconds: nat)
      requires Valid() && seconds > 0
      modifies this`interval, this`generation, this`intervals
      ensures Valid() && intervals == old(intervals) + [seconds]
    {
      interval, generation, intervals := seconds, generation + 1, intervals + [seconds];
    }

    /** Other threads: any number of reconfigurations and wakes. */
    method Interfere()
      requires Valid()
      modifies this`interval, this`generation, this`intervals, this`wakePending
      ensures Valid() && old(intervals) <= intervals && (old(wakePending) ==> wakePending)
    {
      var count: int, wake: bool := *, *;
      while count > 0
        invariant Valid() && old(intervals) <= intervals && wakePending == old(wakePending)
      {
        var seconds: int := *;
        if seconds > 0 { Configure(seconds); }
        count := count - 1;
      }
      wakePending := wakePending || wake;
    }

    /** A cycle, or none, takes any time; what it raises is caught. */
    method Work()
      requires Valid()
      modifies clock, this`interval, this`generation, this`intervals, this`wakePending
      ensures Valid() && old(clock.now) <= clock.now && old(intervals) <= intervals
    {
      var duration: int := *;
      if duration > 0 { clock.Sleep(duration); }
      Interfere();
    }

    /** The absolute cadence: whole intervals until the deadline is ahead of the clock. */
    method CatchUp(due: int, seconds: nat, now: int, ghost anchor: int, ghost steps: nat)
      returns (next: int, ghost after: nat)
      requires seconds > 0 && due <= now && due == anchor + steps * seconds
      ensures next == anchor + after * seconds && steps < after && next - seconds <= now < next
    {
      next, after := due, steps;
      while next <= now
        invariant next == anchor + after * seconds && steps <= after && next - seconds <= now
        invariant after == steps ==> next == due
        decreases now - next
      {
        next, after := next + seconds, after + 1;
      }
    }

    /** As many passes as happen before the stop. */
    method RunLoop(passes: nat) returns (ghost ticks: seq<Tick>)
      requires Valid()
      modifies this, clock
      ensures |ticks| == passes && Cadence(ticks)
    {
      Work();
      var current: nat, seen: nat := interval, generation;
      var next := clock.Read();
      ghost var anchor, steps := next, 1;
      next := next + current;
      ticks := [];
      var pass := 0;
      while pass < passes
        invariant Valid() && 0 <= pass == |ticks| <= passes
        invariant seen < |intervals| && current == intervals[seen] && next == anchor + steps * current
        invariant Cadence(ticks)
        invariant pass > 0 ==> var last := ticks[pass - 1];
                    last.anchor == anchor && last.interval == current && last.after == steps && last.finished <= clock.now
      {
        Work();
        var wake, configured := wakePending, generation;
        wakePending := false;
        var newInterval := interval;
        var now := clock.Read();
        var reconfigured := configured != seen;
        current := newInterval;
        if reconfigured {
          seen, next := configured, now + current;
          anchor, steps := now, 1;
        }
        var due := now >= next;
        if due || wake { Work(); }
        ghost var before := steps;
        if due {
          var after := clock.Read();
          next, steps := CatchUp(next, current, after, anchor, steps);
        }
        ghost var tick := Tick(reconfigured, wake, now, anchor, current, before,
                               if due then FullCycle else if wake then PostUpdateOnly else Nothing, clock.now, steps);
        assert TickOk(tick);
        assert pass > 0 ==> Follows(ticks[pass - 1], tick);
        CadenceOneMore(ticks, tick);
        ticks := ticks + [tick];
        pass := pass + 1;
      }
    }
  }

  lemma CadenceOneMore(ticks: seq<Tick>, t: Tick)
    requires Cadence(ticks) && TickOk(t) && (|ticks| > 0 ==> Follows(ticks[|ticks| - 1], t))
    ensures Cadence(ticks + [t])
  {
    var more := ticks + [t];
    forall i | 0 <= i < |more| ensures TickOk(more[i]) && FollowsAt(more, i) {
      if i < |ticks| { assert FollowsAt(ticks, i); }
    }
  }

  // ---------------------------------------------------------------------------
  // What one cycle scans
  // ---------------------------------------------------------------------------

  datatype Resource = Resource(id: nat, eligible: bool)

  /** The periodic lane: eligible resources that no durable request names. */
  function Periodic(requested: set<nat>): Resource -> Option<nat>
  {
    (r: Resource) => if r.eligible && r.id !in requested then Some(r.id) else None
  }

  function Requested(requests: seq<nat>): set<nat>
  {
    set r | r in requests
  }

  /** What became of one resource's scan; `Broke` was issued or not, and never left running. */
  datatype ScanOutcome = ScanOutcome(resource: nat, result: ScanResult)

  datatype ScanResult = Completed | IssueConflict | Broke(issued: bool)

  datatype Run = NotIssued | Running | Closed

  function ResourceOf(o: ScanOutcome): nat { o.resource }

  /** Issue and execute one scan. Whatever is raised is caught, and a run left running is finalised as failed. */
  method ScanOne(resource: nat) returns (o: ScanOutcome, run: Run)
    ensures o.resource == resource && run != Running
    ensures o.result == IssueConflict || o.result == Broke(false) <==> run == NotIssued
  {
    run := NotIssued;
    var conflict: bool, issueBreaks: bool, scanBreaks: bool, closedFirst: bool := *, *, *, *;
    if conflict { return ScanOutcome(resource, IssueConflict), run; }
    if issueBreaks { return ScanOutcome(resource, Broke(false)), run; }
    run := Running;
    if scanBreaks {
      if closedFirst { run := Closed; }
      if run == Running { run := Closed; }
      return ScanOutcome(resource, Broke(true)), run;
    }
    run := Closed;
    o := ScanOutcome(resource, Completed);
  }

  /**
   Every durable request first, in order; then, in a full cycle only, the other eligible resources:
   one outcome for each, whatever became of those before it.
   */
  method Scan(requests: seq<nat>, resources: seq<Resource>, includePeriodic: bool) returns (outcomes: seq<ScanOutcome>)
    ensures Map(ResourceOf, outcomes)
            == requests + if includePeriodic then Collect(Periodic(Requested(requests)), resources) else []
  {
    outcomes := [];
    var requested: set<nat> := {};
    var i := 0;
    while i < |requests|
      invariant 0 <= i <= |requests| && Map(ResourceOf, outcomes) == requests[..i] && requested == Requested(requests[..i])
    {
      assert requests[..i + 1] == requests[..i] + [requests[i]];
      requested := requested + {requests[i]};
      var o, run := ScanOne(requests[i]);
      MapSplits(ResourceOf, outcomes, [o]);
      outcomes := outcomes + [o];
      i := i + 1;
    }
    assert requests[..i] == requests;
    if !includePeriodic { return; }
    i := 0;
    while i < |resources|
      invariant 0 <= i <= |resources|
      invariant Map(ResourceOf, outcomes) == requests + Collect(Periodic(requested), resources[..i])
    {
      assert resources[..i + 1] == resources[..i] + [resources[i]];
      CollectOneMore(Periodic(requested), resources[..i], resources[i]);
      if resources[i].id !in requested && resources[i].eligible {
        var o, run := ScanOne(resources[i].id);
        MapSplits(ResourceOf, outcomes, [o]);
        outcomes := outcomes + [o];
      }
      i := i + 1;
    }
    assert resources[..i] == resources;
  }

  /** No resource is scanned by both lanes in one cycle. */
  lemma LanesAreDisjoint(requests: seq<nat>, resources: seq<Resource>, id: nat)
    requires id in Collect(Periodic(Requested(requests)), resources)
    ensures id !in requests && exists r :: r in resources && r.id == id && r.eligible
  {
    CollectedFrom(Periodic(Requested(requests)), resources, id);
    var r :| r in resources && Periodic(Requested(requests))(r) == Some(id);
  }
}
