/**
 The proof-carrying poll loop the rollback and the snapshot stage share. While the detached
 runner holds the guest's lease a read of the host says only "busy"; the loop keeps looking
 through such reads as long as it carries proof that the operation was submitted.
 */
module PollLoop {
  import opened Wrappers
  import opened Clocks

  datatype Outcome = Completed | Failed | NotSubmitted | Uncertain

  datatype Phase = Absent | Intent | SealedNotSubmitted | Submitted | TaskKnown | Terminal

  datatype Task = Task(terminal: bool, succeeded: bool)

  /** One validated host answer; `busy` is the helper's exact "lease held" classification. */
  datatype Read = Read(
    outcome: Outcome, phase: Option<Phase>, busy: bool,
    upid: Option<nat>, task: Option<Task>, listing: Option<nat>)

  function ProvenInFlight(candidate: Read, previous: Option<Phase>): Option<Phase>
  {
    if candidate.phase == Some(TaskKnown) then Some(TaskKnown)
    else if candidate.phase == Some(Submitted) then
      if previous == Some(TaskKnown) then previous else Some(Submitted)
    else if candidate.busy then previous
    else None
  }

  predicate Pending(candidate: Read, proven: Option<Phase>)
  {
    if candidate.outcome != Uncertain then false
    else if candidate.busy then proven.Some?
    else if candidate.phase == Some(Submitted) then true
    else candidate.phase == Some(TaskKnown) && !(candidate.task.Some? && candidate.task.value.terminal)
  }

  /** The only proof taken from the durable job is a recorded task identity. */
  function DurableProof(upid: Option<nat>): Option<Phase>
  {
    if upid.Some? then Some(TaskKnown) else None
  }

  /** The proof after a sequence of reads, as the loop computes it. */
  function Carried(seed: Option<Phase>, history: seq<Read>): Option<Phase>
  {
    if history == [] then seed else ProvenInFlight(history[|history| - 1], Carried(seed, history[..|history| - 1]))
  }

  // ---------------------------------------------------------------------------
  // What the carried proof means
  // ---------------------------------------------------------------------------

  predicate Says(read: Read, phase: Phase)
  {
    read.phase == Some(phase)
  }

  /** A read that contradicts nothing. */
  predicate Consistent(read: Read)
  {
    Says(read, TaskKnown) || Says(read, Submitted) || read.busy
  }

  predicate ConsistentFrom(history: seq<Read>, i: nat)
  {
    forall j :: i <= j < |history| ==> Consistent(history[j])
  }

  /** Some read named the phase and every later one is consistent with it. */
  predicate LastSaid(history: seq<Read>, phase: Phase)
  {
    exists i :: 0 <= i < |history| && Says(history[i], phase) && ConsistentFrom(history, i)
  }

  /** What the history proves, whatever order the loop looks at it in. */
  function ProvenBy(upid: Option<nat>, history: seq<Read>): Option<Phase>
  {
    if LastSaid(history, TaskKnown) || (upid.Some? && ConsistentFrom(history, 0)) then Some(TaskKnown)
    else if LastSaid(history, Submitted) then Some(Submitted)
    else None
  }

  lemma OneMoreConsistent(history: seq<Read>, i: nat)
    requires |history| > 0 && i < |history|
    ensures ConsistentFrom(history, i) <==> ConsistentFrom(history[..|history| - 1], i) && Consistent(history[|history| - 1])
  {
    var earlier := history[..|history| - 1];
    if ConsistentFrom(history, i) {
      forall j | i <= j < |earlier| ensures Consistent(earlier[j]) { assert Consistent(history[j]); }
    }
    if ConsistentFrom(earlier, i) && Consistent(history[|history| - 1]) {
      forall j | i <= j < |history| ensures Consistent(history[j]) { if j < |earlier| { assert Consistent(earlier[j]); } }
    }
  }

  lemma OneMoreSaid(history: seq<Read>, phase: Phase)
    requires |history| > 0 && (phase == TaskKnown || phase == Submitted)
    ensures LastSaid(history, phase) <==>
            Says(history[|history| - 1], phase)
            || (LastSaid(history[..|history| - 1], phase) && Consistent(history[|history| - 1]))
  {
    var earlier, last := history[..|history| - 1], |history| - 1;
    if Says(history[last], phase) {
      assert ConsistentFrom(history, last);
    }
    if LastSaid(earlier, phase) && Consistent(history[last]) {
      var i :| 0 <= i < |earlier| && Says(earlier[i], phase) && ConsistentFrom(earlier, i);
      OneMoreConsistent(history, i);
      assert Says(history[i], phase);
    }
    if LastSaid(history, phase) && !Says(history[last], phase) {
      var i :| 0 <= i < |history| && Says(history[i], phase) && ConsistentFrom(history, i);
      OneMoreConsistent(history, i);
      assert Says(earlier[i], phase);
    }
  }

  /** The proof the loop carries is exactly the proof its history gives. */
  lemma {:induction false} CarriedIsProven(upid: Option<nat>, history: seq<Read>)
    ensures Carried(DurableProof(upid), history) == ProvenBy(upid, history)
  {
    if history != [] {
      CarriedIsProven(upid, history[..|history| - 1]);
      OneMoreSaid(history, TaskKnown);
      OneMoreSaid(history, Submitted);
      OneMoreConsistent(history, 0);
    }
  }

  /** Any number of busy reads alone proves nothing, and so does the write-ahead checkpoint. */
  lemma BusyProvesNothing(history: seq<Read>)
    requires forall i :: 0 <= i < |history| ==> history[i].busy && !Says(history[i], Submitted) && !Says(history[i], TaskKnown)
    ensures Carried(DurableProof(None), history) == None
    ensures |history| > 0 ==> !Pending(history[|history| - 1], Carried(DurableProof(None), history))
  {
    CarriedIsProven(None, history);
  }

  /** The history that keeps the loop going: every read so far was pending under the proof it left. */
  predicate AllPending(upid: Option<nat>, history: seq<Read>)
  {
    forall i :: 0 <= i < |history| ==> PendingAt(upid, history, i)
  }

  predicate PendingAt(upid: Option<nat>, history: seq<Read>, i: nat)
    requires i < |history|
  {
    Pending(history[i], ProvenBy(upid, history[..i + 1]))
  }

  lemma ProofAfter(upid: Option<nat>, history: seq<Read>, read: Read)
    ensures ProvenInFlight(read, ProvenBy(upid, history)) == ProvenBy(upid, history + [read])
  {
    CarriedIsProven(upid, history);
    CarriedIsProven(upid, history + [read]);
    assert (history + [read])[..|history|] == history;
  }

  lemma OneMorePending(upid: Option<nat>, history: seq<Read>, read: Read)
    requires AllPending(upid, history) && Pending(read, ProvenBy(upid, history + [read]))
    ensures AllPending(upid, history + [read])
  {
    var longer := history + [read];
    forall i | 0 <= i < |longer| ensures PendingAt(upid, longer, i) {
      if i < |history| {
        assert PendingAt(upid, history, i) && longer[..i + 1] == history[..i + 1];
      } else {
        assert longer[..i + 1] == longer;
      }
    }
  }

  lemma Intervals(n: nat, interval: nat)
    ensures n * interval == (n - 1) * interval + interval && (n - 1) * interval == (n - 2) * interval + interval
  {
  }

  class Poller {
    const clock: Clock
    const timeout: nat
    const interval: nat
    ghost var inspections: nat

    constructor (clock: Clock, timeout: nat, interval: nat)
      requires interval > 0
      ensures this.clock == clock && this.timeout == timeout && this.interval == interval && inspections == 0
    {
      this.clock, this.timeout, this.interval, inspections := clock, timeout, interval, 0;
    }

    /** One bounded read-only look; the host may answer anything. */
    method Inspect() returns (read: Read)
      modifies this
      ensures inspections == old(inspections) + 1
    {
      inspections := inspections + 1;
      read := *;
    }

    /**
     Looks again exactly as long as the history proves the operation in flight and the budget
     lasts. `upid` is the job's recorded task identity, `history` everything that was seen.
     */
    method PollUntilResolved(upid: Option<nat>, first: Read) returns (r: Read, ghost history: seq<Read>)
      requires interval > 0
      modifies this, clock
      ensures |history| > 0 && history[0] == first && history[|history| - 1] == r
      ensures AllPending(upid, history[..|history| - 1])
      ensures !Pending(r, ProvenBy(upid, history)) || (|history| > 1 && clock.now >= old(clock.now) + timeout)
      ensures inspections == old(inspections) + |history| - 1
      ensures |history| > 2 ==> (|history| - 3) * interval < timeout
    {
      r, history := first, [first];
      ProofAfter(upid, [], first);
      assert [] + [first] == history;
      var proven := ProvenInFlight(first, DurableProof(upid));
      assert ProvenBy(upid, []) == DurableProof(upid);
      if !Pending(r, proven) { return; }
      OneMorePending(upid, [], first);
      var deadline := clock.Read();
      deadline := deadline + timeout;
      ghost var slept := 0;
      while true
        invariant |history| > 0 && history[0] == first && history[|history| - 1] == r
        invariant proven == ProvenBy(upid, history) && AllPending(upid, history) && slept == (|history| - 1) * interval
        invariant inspections == old(inspections) + |history| - 1
        invariant deadline >= old(clock.now) + timeout
        invariant clock.now >= deadline - timeout + slept
        invariant |history| > 1 ==> slept - interval < timeout
        decreases deadline - clock.now
      {
        r := Inspect();
        ProofAfter(upid, history, r);
        proven := ProvenInFlight(r, proven);
        ghost var before := history;
        history := history + [r];
        assert history[..|history| - 1] == before;
        Intervals(|before|, interval);
        if !Pending(r, proven) { return; }
        OneMorePending(upid, before, r);
        var now := clock.Read();
        if now >= deadline { return; }
        clock.Sleep(interval);
        slept := slept + interval;
      }
    }
  }
}
