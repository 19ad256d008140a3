/**
 One invocation of the package-mutation stage among any number of concurrent ones.

 Every authority transaction is one atomic step, a `Move` of one invocation, and before each of
 them other invocations may take any number of their own. The host is nondeterministic: any call
 may raise, and may answer anything at all.
 */
module MutationOrchestrator {
  import opened Wrappers
  import opened Clocks

  // ---------------------------------------------------------------------------
  // The durable job and its transactions
  // ---------------------------------------------------------------------------

  const SNAPSHOT_CONFIRMED: nat := 4
  const MUTATION_MAY_HAVE_STARTED: nat := 5
  const MUTATION_COMPLETED: nat := 6
  const ROLLBACK_COMPLETED: nat := 10

  datatype Status = Active | Blocked | Finished

  /** `accepted`: the prepared-evidence digest the arming transaction committed. */
  datatype Job = Job(status: Status, checkpoint: nat, accepted: Option<nat>)

  /** `proved`: some invocation was given a proved seal. Who armed and who executed is known to nobody but the log. */
  datatype State = State(job: Job, proved: bool)

  datatype Move =
    | Arm(digest: nat)
    | BlockUnarmed
    | Execute(digest: nat)
    | Seal(proved: bool, committed: bool)
    | Complete
    | Advance(checkpoint: nat, status: Status)   // the stages before and after this one

  predicate InMutation(job: Job)
  {
    job.status.Active? && job.checkpoint == MUTATION_MAY_HAVE_STARTED
  }

  predicate AwaitsGate(job: Job)
  {
    job.status.Active? && job.checkpoint == SNAPSHOT_CONFIRMED
  }

  /** What the authority checks. It knows the job and the offered digest, not the invocation that offers it. */
  predicate Enabled(s: State, move: Move)
  {
    match move
    case Arm(_) => AwaitsGate(s.job)
    case BlockUnarmed => AwaitsGate(s.job)
    case Execute(d) => InMutation(s.job) && s.job.accepted == Some(d)
    case Seal(proved, committed) => InMutation(s.job) && (committed ==> proved)
    case Complete => InMutation(s.job)
    case Advance(checkpoint, status) =>
      && s.job.status.Active? && s.job.checkpoint <= checkpoint <= ROLLBACK_COMPLETED
      && (s.job.checkpoint < MUTATION_MAY_HAVE_STARTED ==> checkpoint < MUTATION_MAY_HAVE_STARTED)
      && (checkpoint == MUTATION_MAY_HAVE_STARTED ==> status.Active?)
  }

  function Step(s: State, move: Move): State
  {
    match move
    case Arm(d) => s.(job := s.job.(checkpoint := MUTATION_MAY_HAVE_STARTED, accepted := Some(d)))
    case BlockUnarmed => s.(job := s.job.(status := Blocked))
    case Execute(_) => s
    case Seal(proved, committed) =>
      s.(job := if committed then s.job.(status := Blocked) else s.job, proved := s.proved || proved)
    case Complete => s.(job := s.job.(checkpoint := MUTATION_COMPLETED))
    case Advance(checkpoint, status) => s.(job := s.job.(checkpoint := checkpoint, status := status))
  }

  type Log = seq<(nat, Move)>

  predicate Fresh(s: State)
  {
    s.job.checkpoint <= SNAPSHOT_CONFIRMED && s.job.accepted == None && !s.proved
  }

  function Replay(start: State, log: Log): State
  {
    if log == [] then start else Step(Replay(start, log[..|log| - 1]), log[|log| - 1].1)
  }

  predicate Allowed(start: State, log: Log)
  {
    log == [] || (Allowed(start, log[..|log| - 1]) && Enabled(Replay(start, log[..|log| - 1]), log[|log| - 1].1))
  }

  /** The moves of invocation `k`, in order. */
  function Mine(log: Log, k: nat): seq<Move>
  {
    if log == [] then [] else
    Mine(log[..|log| - 1], k) + if log[|log| - 1].0 == k then [log[|log| - 1].1] else []
  }

  /** Every call of the host's execute, by any invocation. */
  function Executions(log: Log): seq<(nat, nat)>
  {
    if log == [] then [] else
    Executions(log[..|log| - 1])
    + if log[|log| - 1].1.Execute? then [(log[|log| - 1].0, log[|log| - 1].1.digest)] else []
  }

  /** Every arming, by any invocation. */
  function Armings(log: Log): seq<(nat, nat)>
  {
    if log == [] then [] else
    Armings(log[..|log| - 1]) + if log[|log| - 1].1.Arm? then [(log[|log| - 1].0, log[|log| - 1].1.digest)] else []
  }

  // ---------------------------------------------------------------------------
  // What the authority alone guarantees, whatever the invocations are
  // ---------------------------------------------------------------------------

  ghost predicate Sound(s: State, log: Log)
  {
    && (s.job.accepted == None ==> Armings(log) == [] && s.job.checkpoint < MUTATION_MAY_HAVE_STARTED)
    && (s.job.accepted.Some? ==> s.job.checkpoint >= MUTATION_MAY_HAVE_STARTED
                                 && |Armings(log)| == 1 && Armings(log)[0].1 == s.job.accepted.value)
    && (forall e :: e in Executions(log) ==> s.job.accepted == Some(e.1))
    && (s.job.status.Blocked? && s.job.checkpoint == MUTATION_MAY_HAVE_STARTED ==> s.proved)
  }

  /** In every interleaving: one arming at most, every execute call carries its digest, release needs a proved seal. */
  lemma {:induction false} AllowedIsSound(start: State, log: Log)
    requires Fresh(start) && Allowed(start, log)
    ensures Sound(Replay(start, log), log)
  {
    if log != [] {
      AllowedIsSound(start, log[..|log| - 1]);
    }
  }

  /** The authority alone does not bound the calls of execute: whoever holds the accepted digest gets through. */
  lemma AuthorityAloneAllowsTwo(start: State, k: nat, other: nat, digest: nat) returns (log: Log)
    requires Fresh(start) && AwaitsGate(start.job)
    ensures Allowed(start, log) && |Executions(log)| == 2
  {
    var one := [(k, Arm(digest))];
    var two := one + [(k, Execute(digest))];
    log := two + [(other, Execute(digest))];
    assert one[..|one| - 1] == [] && two[..|two| - 1] == one && log[..|log| - 1] == two;
    assert Allowed(start, []) && Replay(start, []) == start && Executions([]) == [];
    assert Allowed(start, one) && Replay(start, one) == Step(start, Arm(digest)) && Executions(one) == [];
    assert Allowed(start, two) && Replay(start, two) == Replay(start, one) && Executions(two) == [(k, digest)];
    assert Executions(log) == [(k, digest), (other, digest)];
  }

  // ---------------------------------------------------------------------------
  // What it guarantees over invocations that keep to their course
  // ---------------------------------------------------------------------------

  /** What one invocation did: the moves it made, none of them twice. */
  datatype Trace = Trace(blocked: bool, arm: Option<nat>, executed: bool, seal: Option<(bool, bool)>, completed: bool)

  const NOTHING := Trace(false, None, false, None, false)

  function Moves(t: Trace): seq<Move>
  {
    (if t.blocked then [BlockUnarmed] else [])
    + (if t.arm.Some? then [Arm(t.arm.value)] + (if t.executed then [Execute(t.arm.value)] else []) else [])
    + (if t.seal.Some? then [Seal(t.seal.value.0, t.seal.value.1)] else [])
    + (if t.completed then [Complete] else [])
  }

  /**
   The course of one invocation, up to any point of it. The entry points `Orchestrator.ExecuteJob`
   and `Orchestrator.Recover` end with `Moves` of some trace, and a log only grows; the other
   stages' own moves are no part of it.
   */
  ghost predicate InCourse(moves: seq<Move>)
  {
    exists t: Trace :: moves <= Moves(t)
  }

  ghost predicate Disciplined(log: Log)
  {
    forall k :: OnCourse(log, k)
  }

  ghost predicate OnCourse(log: Log, k: nat)
  {
    InCourse(Own(Mine(log, k)))
  }

  /** An invocation's moves without those of the stages before and after this one. */
  function Own(moves: seq<Move>): seq<Move>
  {
    if moves == [] then [] else
    Own(moves[..|moves| - 1]) + if moves[|moves| - 1].Advance? then [] else [moves[|moves| - 1]]
  }

  lemma MineStep(log: Log, k: nat)
    requires log != []
    ensures var last := log[|log| - 1];
            Own(Mine(log, k)) == Own(Mine(log[..|log| - 1], k))
                                 + if last.0 == k && !last.1.Advance? then [last.1] else []
  {
    var earlier, last := Mine(log[..|log| - 1], k), log[|log| - 1];
    var mine := Mine(log, k);
    if last.0 == k {
      assert mine == earlier + [last.1] && mine[..|mine| - 1] == earlier;
    } else {
      assert mine == earlier;
    }
  }

  lemma EarlierIsDisciplined(log: Log)
    requires log != [] && Disciplined(log)
    ensures Disciplined(log[..|log| - 1])
  {
    var earlier := log[..|log| - 1];
    forall k ensures OnCourse(earlier, k) {
      MineStep(log, k);
      assert OnCourse(log, k);
      var t: Trace :| Own(Mine(log, k)) <= Moves(t);
      assert Own(Mine(log[..|log| - 1], k)) <= Moves(t);
    }
  }

  lemma {:induction false} MineGrows(earlier: Log, log: Log, k: nat)
    requires earlier <= log
    ensures Mine(earlier, k) <= Mine(log, k)
  {
    if earlier != log { MineGrows(earlier, log[..|log| - 1], k); }
  }

  lemma {:induction false} OwnIsAll(moves: seq<Move>)
    requires forall m <- moves :: !m.Advance?
    ensures Own(moves) == moves
  {
    if moves != [] { OwnIsAll(moves[..|moves| - 1]); }
  }

  /** An invocation that ends with the moves of a trace was on its course at every moment before. */
  lemma EndedOnCourse(earlier: Log, log: Log, k: nat, t: Trace)
    requires earlier <= log && Mine(log, k) == Moves(t)
    ensures OnCourse(earlier, k)
  {
    MineGrows(earlier, log, k);
    OwnIsAll(Mine(earlier, k));
  }

  /** On its course an invocation executes once, after its own arming and with that digest. */
  lemma ExecutesAfterArming(moves: seq<Move>, digest: nat)
    requires InCourse(moves + [Execute(digest)])
    ensures Arm(digest) in moves && forall d: nat :: Execute(d) !in moves
  {
    var t: Trace :| moves + [Execute(digest)] <= Moves(t);
    var n := |moves|;
    assert Moves(t)[n] == (moves + [Execute(digest)])[n] == Execute(digest);
    assert moves == Moves(t)[..n];
    assert n == (if t.blocked then 1 else 0) + 1 && Moves(t)[n - 1] == Arm(digest) == moves[n - 1];
  }

  lemma {:induction false} ArmingIsLogged(log: Log, k: nat, digest: nat)
    requires Arm(digest) in Own(Mine(log, k))
    ensures (k, digest) in Armings(log)
  {
    var last := log[|log| - 1];
    MineStep(log, k);
    if last != (k, Arm(digest)) {
      ArmingIsLogged(log[..|log| - 1], k, digest);
    }
  }

  lemma {:induction false} ExecutionIsOwn(log: Log, e: (nat, nat))
    requires e in Executions(log)
    ensures Execute(e.1) in Own(Mine(log, e.0))
  {
    var last := log[|log| - 1];
    MineStep(log, e.0);
    if last != (e.0, Execute(e.1)) {
      ExecutionIsOwn(log[..|log| - 1], e);
    }
  }

  /**
   Over all invocations together the host is asked to execute at most once, by the invocation
   that got ARMED_NOW, with the digest its arming transaction accepted: the authority lets one
   arming through, and every invocation executes only after its own.
   */
  lemma {:induction false} OneExecutionEver(start: State, log: Log)
    requires Fresh(start) && Allowed(start, log) && Disciplined(log)
    ensures |Executions(log)| <= 1
    ensures forall e :: e in Executions(log) ==> Armings(log) == [e] && Replay(start, log).job.accepted == Some(e.1)
  {
    if log != [] {
      var earlier, last := log[..|log| - 1], log[|log| - 1];
      EarlierIsDisciplined(log);
      OneExecutionEver(start, earlier);
      AllowedIsSound(start, log);
      AllowedIsSound(start, earlier);
      if last.1.Execute? {
        assert OnCourse(log, last.0) && log == earlier + [(last.0, Execute(last.1.digest))];
        FirstExecution(start, earlier, last.0, last.1.digest);
      }
    }
  }

  lemma FirstExecution(start: State, log: Log, k: nat, digest: nat)
    requires Fresh(start) && Allowed(start, log) && InCourse(Own(Mine(log + [(k, Execute(digest))], k)))
    requires |Executions(log)| <= 1 && forall e :: e in Executions(log) ==> Armings(log) == [e]
    ensures Executions(log) == [] && Armings(log) == [(k, digest)]
  {
    var longer := log + [(k, Execute(digest))];
    assert longer[..|longer| - 1] == log;
    MineStep(longer, k);
    ExecutesAfterArming(Own(Mine(log, k)), digest);
    ArmingIsLogged(log, k, digest);
    AllowedIsSound(start, log);
    if Executions(log) != [] {
      var e := Executions(log)[0];
      assert e in Executions(log);
      ExecutionIsOwn(log, e);
    }
  }

  /** A job is released from inside the mutation only on a durable seal some invocation was given. */
  lemma {:induction false} ReleaseNeedsSeal(start: State, log: Log)
    requires Fresh(start) && Allowed(start, log)
    requires Replay(start, log).job.status.Blocked? && Replay(start, log).job.checkpoint == MUTATION_MAY_HAVE_STARTED
    ensures exists e :: e in log && e.1.Seal? && e.1.proved
  {
    AllowedIsSound(start, log);
    ProvedBySeal(start, log);
  }

  lemma {:induction false} ProvedBySeal(start: State, log: Log)
    requires Fresh(start) && Replay(start, log).proved
    ensures exists e :: e in log && e.1.Seal? && e.1.proved
  {
    var last := log[|log| - 1];
    if last.1.Seal? && last.1.proved {
      assert last in log;
    } else {
      ProvedBySeal(start, log[..|log| - 1]);
      var e :| e in log[..|log| - 1] && e.1.Seal? && e.1.proved;
      assert e in log;
    }
  }

  /** What the moves of others cannot take away. */
  predicate Kept(s: State, t: State)
  {
    && s.job.checkpoint <= t.job.checkpoint
    && (!s.job.status.Active? ==> t.job == s.job)
    && (s.job.accepted.Some? ==> t.job.accepted == s.job.accepted)
    && (s.proved ==> t.proved)
  }

  // ---------------------------------------------------------------------------
  // The host
  // ---------------------------------------------------------------------------

  datatype HostState = HostAbsent | HostIntent | HostSealed | HostSubmitted | HostFailed | HostSucceeded

  /** `Parsed(proves)`: well-formed post-state, and whether it proves the job's frozen rows. */
  datatype Evidence = NoEvidence | Malformed | Parsed(proves: bool)

  /** `prepared`: all parts of the preparation are present; `plan`: what the simulation parses to. */
  datatype HostResult = HostResult(
    operation: nat, state: HostState, running: bool,
    prepared: bool, digest: Option<nat>, plan: Option<nat>, evidence: Evidence)

  /** The helper's own answer for anything that proves nothing: submitted, no live runner. */
  function Unknown(operation: nat): HostResult
  {
    HostResult(operation, HostSubmitted, false, false, None, None, NoEvidence)
  }

  function Validated(answer: Option<HostResult>, operation: nat): (r: HostResult)
    ensures r.operation == operation
    ensures r.state == HostSealed ==> answer == Some(r)
  {
    if answer.Some? && answer.value.operation == operation then answer.value else Unknown(operation)
  }

  datatype StageStatus =
    | Completed | Running | NotSubmitted | TerminalFailure | Uncertain
    | Mismatched | AuthorityStale | TemporarilyUnavailable | JobNotReady | HostFailure

  datatype ArmOutcome = ArmedNow | AlreadyArmed | Mismatch | Stale | Unavailable | Conflict

  datatype Submission = Answered(result: Option<HostResult>) | Refused | NotAccepted | NotArmed

  lemma MovesAfterArm(rest: Trace, digest: nat, executed: bool)
    requires !rest.blocked && rest.arm == None
    ensures Moves(rest.(arm := Some(digest), executed := executed))
            == [Arm(digest)] + (if executed then [Execute(digest)] else []) + Moves(rest)
  {
  }

  lemma MovesAfterSeal(rest: Trace, seal: Option<(bool, bool)>)
    requires !rest.blocked && rest.arm == None && rest.seal == None
    ensures Moves(NOTHING) == []
    ensures Moves(rest.(seal := seal)) == (if seal.Some? then [Seal(seal.value.0, seal.value.1)] else []) + Moves(rest)
  {
  }

  class Orchestrator {
    const me: nat
    const operation: nat
    const material: nat           // the job's frozen approved rows
    const pollTimeout: nat
    const pollInterval: nat
    const clock: Clock
    ghost const start: State
    var state: State
    ghost var log: Log
    ghost var heard: Option<HostResult>   // the host's latest validated answer; none if the call raised

    ghost predicate Valid()
      reads this
    {
      Fresh(start) && Allowed(start, log) && state == Replay(start, log) && pollInterval > 0
    }

    constructor (me: nat, operation: nat, material: nat, pollTimeout: nat, pollInterval: nat, clock: Clock, start: State)
      requires Fresh(start) && pollInterval > 0
      ensures Valid() && log == [] && state == start && this.me == me && this.clock == clock
    {
      this.me, this.operation, this.material := me, operation, material;
      this.pollTimeout, this.pollInterval, this.clock := pollTimeout, pollInterval, clock;
      this.start := start;
      state, log, heard := start, [], None;
    }

    method Do(k: nat, move: Move)
      requires Valid() && Enabled(state, move)
      modifies this`state, this`log
      ensures Valid() && log == old(log) + [(k, move)] && state == Step(old(state), move)
      ensures Mine(log, me) == Mine(old(log), me) + if k == me then [move] else []
      ensures Kept(old(state), state)
    {
      state := Step(state, move);
      log := log + [(k, move)];
      assert log[..|log| - 1] == old(log);
      AllowedIsSound(start, old(log));
    }

    /** Any number of steps of other invocations. */
    method Interfere()
      requires Valid()
      modifies this`state, this`log
      ensures Valid() && Mine(log, me) == Mine(old(log), me) && Kept(old(state), state)
    {
      var steps: int := *;
      while steps > 0
        invariant Valid() && Mine(log, me) == Mine(old(log), me) && Kept(old(state), state)
      {
        var k: nat, move: Move := *, *;
        if k != me && Enabled(state, move) { Do(k, move); }
        steps := steps - 1;
      }
    }

    // -------------------------------------------------------------------------
    // Transactions
    // -------------------------------------------------------------------------

    method ArmTransaction(plan: nat, digest: nat) returns (r: ArmOutcome)
      requires Valid()
      modifies this`state, this`log
      ensures Valid()
      ensures state == match r
                       case ArmedNow => Step(old(state), Arm(digest))
                       case Mismatch => Step(old(state), BlockUnarmed)
                       case Stale => Step(old(state), BlockUnarmed)
                       case _ => old(state)
      ensures Mine(log, me) == Mine(old(log), me) + match r
                                                    case ArmedNow => [Arm(digest)]
                                                    case Mismatch => [BlockUnarmed]
                                                    case Stale => [BlockUnarmed]
                                                    case _ => []
      ensures r == ArmedNow ==> AwaitsGate(old(state).job) && plan == material
      ensures r == AlreadyArmed <==> InMutation(old(state).job)
      ensures r in {Mismatch, Stale} ==> AwaitsGate(old(state).job)
      ensures r == Conflict ==> !InMutation(old(state).job) && !AwaitsGate(old(state).job)
    {
      var stale: bool, scanRunning: bool := *, *;
      if !state.job.status.Active? { return Conflict; }
      if state.job.checkpoint == MUTATION_MAY_HAVE_STARTED { return AlreadyArmed; }
      if state.job.checkpoint != SNAPSHOT_CONFIRMED { return Conflict; }
      if scanRunning { return Unavailable; }
      if stale {
        Do(me, BlockUnarmed);
        return Stale;
      }
      if plan == material {
        Do(me, Arm(digest));
        return ArmedNow;
      }
      Do(me, BlockUnarmed);
      return Mismatch;
    }

    /** The submission critical section: the only place that calls the host's execute. */
    method SubmitTransaction(digest: nat) returns (r: Submission)
      requires Valid()
      modifies this
      ensures Valid()
      ensures state == if r.Answered? then Step(old(state), Execute(digest)) else old(state)
      ensures Mine(log, me) == Mine(old(log), me) + if r.Answered? then [Execute(digest)] else []
      ensures r.Answered? || r.Refused? ==> InMutation(old(state).job) && old(state).job.accepted == Some(digest)
      ensures r == NotAccepted ==> old(state).job.accepted != Some(digest)
      ensures heard == if !r.Answered? then old(heard) else if r.result == None then None else Some(Validated(r.result, operation))
    {
      var current: bool := *;
      if !InMutation(state.job) { return NotArmed; }
      if state.job.accepted != Some(digest) { return NotAccepted; }
      if !current { return Refused; }
      Do(me, Execute(digest));
      var answer: Option<HostResult> := *;
      heard := if answer == None then None else Some(Validated(answer, operation));
      r := Answered(answer);
    }

    /** The seal is asked for, and applied, inside one transaction; the commit itself may fail. */
    method SealTransaction() returns (raised: bool, blocked: bool, taken: HostResult, ghost called: bool)
      requires Valid()
      modifies this
      ensures Valid()
      ensures taken.operation == operation
      ensures called ==> InMutation(old(state).job) && state == Step(old(state), Seal(taken.state == HostSealed, blocked))
      ensures called ==> Mine(log, me) == Mine(old(log), me) + [Seal(taken.state == HostSealed, blocked)]
      ensures !called ==> raised && state == old(state) && Mine(log, me) == Mine(old(log), me)
      ensures blocked ==> called && !raised && taken.state == HostSealed
      ensures !raised && taken.state == HostSealed ==> blocked
      ensures heard == if called then Some(taken) else old(heard)
    {
      blocked, called, taken := false, false, Unknown(operation);
      if !InMutation(state.job) { return true, blocked, taken, called; }
      var answer: Option<HostResult>, commitFails: bool := *, *;
      taken := Validated(answer, operation);
      called, heard := true, Some(taken);
      raised := commitFails;
      blocked := taken.state == HostSealed && !commitFails;
      Do(me, Seal(taken.state == HostSealed, blocked));
    }

    method CompleteTransaction(proves: bool) returns (conflict: bool, ghost moved: bool)
      requires Valid()
      modifies this`state, this`log
      ensures Valid() && state == if moved then Step(old(state), Complete) else old(state)
      ensures Mine(log, me) == Mine(old(log), me) + if moved then [Complete] else []
      ensures moved ==> InMutation(old(state).job) && proves
      ensures !conflict <==> proves && old(state).job.status.Active?
                             && MUTATION_MAY_HAVE_STARTED <= old(state).job.checkpoint <= MUTATION_COMPLETED
      ensures !conflict ==> state.job.checkpoint == MUTATION_COMPLETED
    {
      moved := false;
      if !state.job.status.Active? { return true, moved; }
      if !(MUTATION_MAY_HAVE_STARTED <= state.job.checkpoint <= MUTATION_COMPLETED) { return true, moved; }
      if !proves { return true, moved; }
      if state.job.checkpoint == MUTATION_MAY_HAVE_STARTED {
        moved := true;
        Do(me, Complete);
      }
      conflict := false;
    }

    // -------------------------------------------------------------------------
    // Evidence resolution
    // -------------------------------------------------------------------------

    method Inspect() returns (r: HostResult)
      requires Valid()
      modifies this
      ensures Valid() && Mine(log, me) == Mine(old(log), me) && Kept(old(state), state)
      ensures r.operation == operation && heard == Some(r)
    {
      Interfere();
      var answer: Option<HostResult> := *;
      r := Validated(answer, operation);
      heard := Some(r);
    }

    /** Recording uncertainty: the conflict is never re-raised, because an armed job cannot re-enter the mutation. */
    method RecordUncertain() returns (r: StageStatus)
      requires Valid() && state.job.checkpoint >= MUTATION_MAY_HAVE_STARTED
      modifies this`state, this`log
      ensures Valid() && Mine(log, me) == Mine(old(log), me) && Kept(old(state), state)
      ensures r == Uncertain
    {
      Interfere();
      if !InMutation(state.job) {
        ghost var conflicted := state;
        Interfere();
        assert !InMutation(state.job);
      }
      r := Uncertain;
    }

    method PollUntilTerminal(first: HostResult) returns (r: HostResult)
      requires Valid() && first.operation == operation && heard == Some(first)
      modifies this, clock
      ensures Valid() && Mine(log, me) == Mine(old(log), me) && Kept(old(state), state)
      ensures r.operation == operation && heard == Some(r)
      ensures r.state != HostSubmitted || !r.running || clock.now >= old(clock.now) + pollTimeout
    {
      r := first;
      if r.state != HostSubmitted || !r.running { return; }
      var deadline := clock.Read();
      deadline := deadline + pollTimeout;
      while true
        invariant Valid() && Mine(log, me) == Mine(old(log), me) && Kept(old(state), state)
        invariant r.operation == operation && r.state == HostSubmitted && r.running && heard == Some(r)
        invariant deadline >= old(clock.now) + pollTimeout
        decreases deadline - clock.now
      {
        var now := clock.Read();
        if now >= deadline { return; }
        clock.Sleep(pollInterval);
        r := Inspect();
        if r.state != HostSubmitted || !r.running { return; }
      }
    }

    /** `sealable` says that this path may still ask for a seal; afterwards it may not. */
    method Resolve(result: HostResult, sealable: bool) returns (r: StageStatus, ghost t: Trace)
      requires Valid() && state.job.checkpoint >= MUTATION_MAY_HAVE_STARTED
      requires result.operation == operation && heard == Some(result)
      modifies this, clock
      ensures Valid() && Kept(old(state), state)
      ensures Mine(log, me) == Mine(old(log), me) + Moves(t)
      ensures !t.blocked && t.arm == None && (t.seal.Some? ==> sealable)
      ensures Outcome(r, t, state) && Settled(r) && Explains(r, t, heard, state.job)
      decreases if sealable then 2 else 0
    {
      t := NOTHING;
      if result.state == HostAbsent || result.state == HostIntent || result.state == HostSealed {
        if sealable {
          r, t := ResolvePreMutationBlock();
          return;
        }
        r := RecordUncertain();
        return;
      }
      var latest := result;
      if latest.state == HostSubmitted {
        latest := PollUntilTerminal(latest);
      }
      if latest.state == HostSubmitted {
        if latest.running { return Running, t; }
        r := RecordUncertain();
        return;
      }
      if latest.state == HostFailed {
        Interfere();
        return TerminalFailure, t;
      }
      if latest.state == HostSucceeded {
        r, t := CompleteStage(latest.evidence);
        return;
      }
      r := RecordUncertain();
    }

    method CompleteStage(evidence: Evidence) returns (r: StageStatus, ghost t: Trace)
      requires Valid() && state.job.checkpoint >= MUTATION_MAY_HAVE_STARTED
      requires heard.Some? && heard.value.state == HostSucceeded && heard.value.evidence == evidence
      modifies this, clock
      ensures Valid() && Kept(old(state), state)
      ensures Mine(log, me) == Mine(old(log), me) + Moves(t)
      ensures !t.blocked && t.arm == None && t.seal == None
      ensures Outcome(r, t, state) && Settled(r) && Explains(r, t, heard, state.job)
    {
      t := NOTHING;
      if !evidence.Parsed? {
        r := RecordUncertain();
        return;
      }
      Interfere();
      var conflict;
      ghost var moved;
      conflict, moved := CompleteTransaction(evidence.proves);
      t := t.(completed := moved);
      if conflict {
        r := RecordUncertain();
        return;
      }
      r := Completed;
    }

    method ResolvePreMutationBlock() returns (r: StageStatus, ghost t: Trace)
      requires Valid() && state.job.checkpoint >= MUTATION_MAY_HAVE_STARTED
      requires heard.Some? && heard.value.state in {HostAbsent, HostIntent, HostSealed}
      modifies this, clock
      ensures Valid() && Kept(old(state), state)
      ensures Mine(log, me) == Mine(old(log), me) + Moves(t)
      ensures !t.blocked && t.arm == None
      ensures Outcome(r, t, state) && Settled(r) && Explains(r, t, heard, state.job)
      decreases 1
    {
      var raised, blocked, taken;
      ghost var seal;
      raised, blocked, taken, seal := AskForSeal();
      t := NOTHING.(seal := seal);
      if raised {
        r := RecordUncertain();
      } else if blocked {
        r := NotSubmitted;
      } else {
        ghost var rest;
        r, rest := Resolve(taken, false);
        t := rest.(seal := seal);
        MovesAfterSeal(rest, seal);
      }
    }

    /** The seal is taken fresh, whatever was observed before. */
    method AskForSeal() returns (raised: bool, blocked: bool, taken: HostResult, ghost seal: Option<(bool, bool)>)
      requires Valid()
      modifies this
      ensures Valid() && Kept(old(state), state) && taken.operation == operation
      ensures Mine(log, me) == Mine(old(log), me) + Moves(NOTHING.(seal := seal))
      ensures seal == None ==> raised && heard == old(heard)
      ensures seal.Some? ==> seal == Some((taken.state == HostSealed, blocked)) && heard == Some(taken)
      ensures blocked ==> !raised && taken.state == HostSealed && state.job.status.Blocked?
                          && state.job.checkpoint == MUTATION_MAY_HAVE_STARTED
      ensures !raised && taken.state == HostSealed ==> blocked
    {
      Interfere();
      ghost var called;
      raised, blocked, taken, called := SealTransaction();
      seal := if called then Some((taken.state == HostSealed, blocked)) else None;
      MovesAfterSeal(NOTHING, seal);
    }

    // -------------------------------------------------------------------------
    // The two entry points
    // -------------------------------------------------------------------------

    /** Never arms, never submits. */
    method Recover() returns (r: StageStatus, ghost t: Trace)
      requires Valid()
      modifies this, clock
      ensures Valid() && Mine(log, me) == Mine(old(log), me) + Moves(t)
      ensures !t.blocked && t.arm == None
      ensures Outcome(r, t, state) && (Settled(r) || (r == JobNotReady && t == NOTHING))
      ensures Settled(r) && r != Completed ==> Explains(r, t, heard, state.job)
      ensures Kept(old(state), state) && (r == JobNotReady ==> !InMutation(state.job))
    {
      t := NOTHING;
      Interfere();
      if !state.job.status.Active? { return JobNotReady, t; }
      if state.job.checkpoint == MUTATION_COMPLETED { return Completed, t; }
      if state.job.checkpoint != MUTATION_MAY_HAVE_STARTED { return JobNotReady, t; }
      var result := Inspect();
      r, t := Resolve(result, true);
    }

    /** At most one execute, only after this invocation's own ARMED_NOW and with its digest. */
    method ExecuteJob() returns (r: StageStatus, ghost t: Trace)
      requires Valid() && Mine(log, me) == []
      modifies this, clock
      ensures Valid() && Mine(log, me) == Moves(t)
      ensures t.blocked ==> t == NOTHING.(blocked := true)
      ensures Outcome(r, t, state)
      ensures t.blocked <==> r == Mismatched || r == AuthorityStale
      ensures r in {JobNotReady, HostFailure, TemporarilyUnavailable} ==> t == NOTHING
      ensures r == JobNotReady ==> !InMutation(state.job) && !AwaitsGate(state.job)
      ensures Settled(r) && r != Completed ==> Explains(r, t, heard, state.job)
      ensures r == HostFailure ==> !Preparable(heard)
    {
      t := NOTHING;
      Interfere();
      if !state.job.status.Active? { return JobNotReady, t; }
      if state.job.checkpoint > MUTATION_COMPLETED { return JobNotReady, t; }
      if state.job.checkpoint == MUTATION_COMPLETED { return Completed, t; }
      if state.job.checkpoint == MUTATION_MAY_HAVE_STARTED {
        r, t := Recover();
        return;
      }
      if state.job.checkpoint != SNAPSHOT_CONFIRMED { return JobNotReady, t; }
      r, t := ProveArmAndSubmit();
    }

    /** Read-only preparation: a plan and the digest of the evidence it was parsed from. */
    method Prepare() returns (r: Option<(nat, nat)>)
      modifies this`heard
      ensures r.Some? <==> Preparable(heard)
      ensures r.Some? ==> Some(r.value.0) == heard.value.plan && Some(r.value.1) == heard.value.digest
    {
      var answer: Option<HostResult> := *;
      heard := None;
      if answer == None { return None; }
      var prepared := Validated(answer, operation);
      heard := Some(prepared);
      if prepared.state != HostAbsent || !prepared.prepared || prepared.digest == None { return None; }
      if prepared.plan == None { return None; }
      r := Some((prepared.plan.value, prepared.digest.value));
    }

    method ProveArmAndSubmit() returns (r: StageStatus, ghost t: Trace)
      requires Valid() && Mine(log, me) == []
      modifies this, clock
      ensures Valid() && Mine(log, me) == Moves(t)
      ensures t.blocked ==> t == NOTHING.(blocked := true)
      ensures Outcome(r, t, state)
      ensures t.blocked <==> r == Mismatched || r == AuthorityStale
      ensures r in {JobNotReady, HostFailure, TemporarilyUnavailable} ==> t == NOTHING
      ensures r == JobNotReady ==> !InMutation(state.job) && !AwaitsGate(state.job)
      ensures Settled(r) && r != Completed ==> Explains(r, t, heard, state.job)
      ensures r == HostFailure ==> !Preparable(heard)
    {
      var prepared := Prepare();
      if prepared == None { return HostFailure, NOTHING; }
      r, t := ArmAndSubmit(prepared.value.0, prepared.value.1);
    }

    method ArmAndSubmit(plan: nat, digest: nat) returns (r: StageStatus, ghost t: Trace)
      requires Valid() && Mine(log, me) == [] && Preparable(heard)
      modifies this, clock
      ensures Valid() && Mine(log, me) == Moves(t)
      ensures t.blocked ==> t == NOTHING.(blocked := true)
      ensures Outcome(r, t, state)
      ensures t.blocked <==> r == Mismatched || r == AuthorityStale
      ensures r in {JobNotReady, HostFailure, TemporarilyUnavailable} ==> t == NOTHING
      ensures r == JobNotReady ==> !InMutation(state.job) && !AwaitsGate(state.job)
      ensures Settled(r) && r != Completed ==> Explains(r, t, heard, state.job)
      ensures r == HostFailure ==> !Preparable(heard)
    {
      t := NOTHING;
      Interfere();
      AllowedIsSound(start, log);
      var outcome := ArmTransaction(plan, digest);
      if outcome == ArmedNow {
        r, t := SubmitArmed(digest);
      } else if outcome == AlreadyArmed {
        r, t := Recover();
      } else if outcome == Mismatch {
        r, t := Mismatched, t.(blocked := true);
      } else if outcome == Stale {
        r, t := AuthorityStale, t.(blocked := true);
      } else {
        r := if outcome == Unavailable then TemporarilyUnavailable else JobNotReady;
      }
    }

    method SubmitArmed(digest: nat) returns (r: StageStatus, ghost t: Trace)
      requires Valid() && state.job.accepted == Some(digest)
      requires state.job.checkpoint == MUTATION_MAY_HAVE_STARTED && Mine(log, me) == [Arm(digest)]
      requires Preparable(heard)
      modifies this, clock
      ensures Valid() && Mine(log, me) == Moves(t)
      ensures !t.blocked && t.arm == Some(digest) && Outcome(r, t, state) && Settled(r) && Explains(r, t, heard, state.job)
    {
      ghost var rest;
      var executed;
      r, rest, executed := Submit(digest);
      t := rest.(arm := Some(digest), executed := executed);
      MovesAfterArm(rest, digest, executed);
    }

    method Submit(digest: nat) returns (r: StageStatus, ghost t: Trace, executed: bool)
      requires Valid() && state.job.accepted == Some(digest)
      requires state.job.checkpoint == MUTATION_MAY_HAVE_STARTED && Preparable(heard)
      modifies this, clock
      ensures Valid()
      ensures Mine(log, me) == Mine(old(log), me) + (if executed then [Execute(digest)] else []) + Moves(t)
      ensures !t.blocked && t.arm == None
      ensures Outcome(r, t, state) && Settled(r) && Explains(r, t, heard, state.job)
    {
      t, executed := NOTHING, false;
      Interfere();
      var submission := SubmitTransaction(digest);
      if submission.Refused? {
        r, t := ResolvePreMutationBlock();
        return;
      }
      executed := submission.Answered?;
      if !submission.Answered? || submission.result == None {
        r := RecordUncertain();
        return;
      }
      Interfere();
      r, t := Resolve(Validated(submission.result, operation), true);
    }
  }

  /** An answer that preparation can go on with. */
  predicate Preparable(heard: Option<HostResult>)
  {
    && heard.Some? && heard.value.state == HostAbsent && heard.value.prepared
    && heard.value.digest.Some? && heard.value.plan.Some?
  }

  /** What the host said last explains the status, in both directions unless a seal intervened. */
  ghost predicate Explains(r: StageStatus, t: Trace, heard: Option<HostResult>, job: Job)
  {
    && (r == TerminalFailure ==> heard.Some? && heard.value.state == HostFailed)
    && (r == Running ==> heard.Some? && heard.value.state == HostSubmitted && heard.value.running)
    && (r == Completed ==> heard.Some? && heard.value.state == HostSucceeded && heard.value.evidence == Parsed(true))
    && (r == Uncertain && t.seal == None && heard.Some? ==>
          && heard.value.state != HostFailed && !(heard.value.state == HostSubmitted && heard.value.running)
          && (heard.value.state == HostSucceeded && heard.value.evidence == Parsed(true) ==>
                !job.status.Active? || job.checkpoint > MUTATION_COMPLETED))
  }

  predicate Settled(r: StageStatus)
  {
    r in {Completed, Running, NotSubmitted, TerminalFailure, Uncertain}
  }

  /** What the returned status says about the invocation's own moves and the durable job. */
  ghost predicate Outcome(r: StageStatus, t: Trace, s: State)
  {
    && (r == NotSubmitted <==> t.seal == Some((true, true)))
    && (r == NotSubmitted ==> s.job.status.Blocked? && s.job.checkpoint == MUTATION_MAY_HAVE_STARTED && !t.completed)
    && (t.completed ==> r == Completed)
    && (r == Completed ==> s.job.checkpoint >= MUTATION_COMPLETED)
    && (r in {Mismatched, AuthorityStale} ==> s.job.status.Blocked? && s.job.checkpoint == SNAPSHOT_CONFIRMED)
  }
}
