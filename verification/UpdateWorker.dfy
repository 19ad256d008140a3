/**
 One cycle of the update worker: it composes the stages for the one active job until it stops
 advancing. The authority answers every read with whatever is durable at that moment.
 */
module UpdateWorker {
  import opened Wrappers

  const CHECKPOINTS: nat := 10
  const SNAPSHOT_MAY_HAVE_STARTED: nat := 3
  const SNAPSHOT_CONFIRMED: nat := 4
  const MUTATION_MAY_HAVE_STARTED: nat := 5
  const HEALTH_STARTED: nat := 7
  const HEALTH_COMPLETED: nat := 8
  const ROLLBACK_MAY_HAVE_STARTED: nat := 9

  datatype Stage = Snapshot | GateThenMutation | MutationRecovery | Health | HealthFailed | Rollback | NoContinuation

  function StageFor(rank: nat): Stage
  {
    if rank <= SNAPSHOT_MAY_HAVE_STARTED then Snapshot
    else if rank == SNAPSHOT_CONFIRMED then GateThenMutation
    else if rank == MUTATION_MAY_HAVE_STARTED then MutationRecovery
    else if rank <= HEALTH_STARTED then Health
    else if rank == HEALTH_COMPLETED then HealthFailed
    else if rank == ROLLBACK_MAY_HAVE_STARTED then Rollback
    else NoContinuation
  }

  /** A stage that may put a destructive command on the host. */
  predicate Destructive(stage: Stage)
  {
    stage == GateThenMutation || stage == Rollback
  }

  datatype Reread = NotFound | NotActive | ActiveAt(rank: nat)

  // what the stages report
  datatype HostOutcome = Completed | Failed | Uncertain | NotSubmitted
  datatype GateStatus = Matched | GateMismatched | GateStale | GateUnavailable | GateHostFailure | GateNotReady
  datatype MutationStatus =
    | MutationCompleted | MutationRunning | MutationFailed | MutationUncertain | MutationNotSubmitted
    | MutationMismatched | MutationStale | MutationUnavailable | MutationHostFailure | MutationNotReady
  datatype HealthStatus = HealthPassed | HealthWasFailed | HealthUnknown

  /** One stage's report; a gate that did not match ends the stage before the mutation is entered. */
  datatype Report =
    | SnapshotReport(snapshot: HostOutcome)
    | GateReport(gate: GateStatus)
    | MutationReport(mutation: MutationStatus)
    | HealthReport(health: HealthStatus)
    | RollbackReport(rollback: HostOutcome)
    | NoReport

  datatype Cycle = Busy | Idle | Terminal | Stopped | StoppedUnadvanced | PreconditionChanged | Error

  /** What a stage did: reported an advanced checkpoint, ended the cycle, lost a race, or raised. */
  datatype StepResult = Advanced | Ended(cycle: Cycle) | Refused | Raised

  datatype Attempt = Attempt(rank: nat, stage: Stage, report: Report, result: StepResult)

  /** The reports a stage can give, and `NoReport` when it raised or there is nothing to run. */
  predicate Belongs(stage: Stage, report: Report)
  {
    match stage
    case Snapshot => report.SnapshotReport? || report.NoReport?
    case GateThenMutation => (report.GateReport? && report.gate != Matched) || report.MutationReport? || report.NoReport?
    case MutationRecovery => report.MutationReport? || report.NoReport?
    case Health => report.HealthReport? || report.NoReport?
    case Rollback => report.RollbackReport? || report.NoReport?
    case _ => report.NoReport?
  }

  /** The one report of each stage that lets the cycle go on. A completed rollback ends it instead. */
  predicate Advances(report: Report)
  {
    || report == SnapshotReport(Completed) || report == MutationReport(MutationCompleted) || report == HealthReport(HealthPassed)
  }

  predicate Decided(report: Report, result: StepResult)
  {
    && (result == Advanced <==> Advances(report))
    && (result == Ended(Terminal) <==> report == RollbackReport(Completed))
    && (result.Refused? || result.Raised? ==> report.NoReport?)
    && (result.Ended? ==> result.cycle in {Stopped, Terminal})
  }

  /** Ranks rise, so no checkpoint is tried twice, and only the last attempt did not advance. */
  predicate Disciplined(attempts: seq<Attempt>)
  {
    && (forall i, j :: 0 <= i < j < |attempts| ==> attempts[i].rank < attempts[j].rank)
    && (forall i :: 0 <= i < |attempts| ==> 1 <= attempts[i].rank <= CHECKPOINTS && attempts[i].stage == StageFor(attempts[i].rank))
    && (forall i :: 0 <= i < |attempts| - 1 ==> attempts[i].result == Advanced)
    && (forall a <- attempts :: Belongs(a.stage, a.report) && Decided(a.report, a.result))
  }

  lemma DisciplinedOneMore(attempts: seq<Attempt>, a: Attempt)
    requires Disciplined(attempts) && 1 <= a.rank <= CHECKPOINTS && a.stage == StageFor(a.rank)
    requires Belongs(a.stage, a.report) && Decided(a.report, a.result)
    requires attempts != [] ==> attempts[|attempts| - 1].rank < a.rank && attempts[|attempts| - 1].result == Advanced
    ensures Disciplined(attempts + [a])
  {
    var more := attempts + [a];
    forall i, j | 0 <= i < j < |more| ensures more[i].rank < more[j].rank {
      if i < |attempts| - 1 { assert attempts[i].rank < attempts[|attempts| - 1].rank; }
    }
  }

  class Worker {
    var cycleRunning: bool

    constructor ()
      ensures !cycleRunning
    {
      cycleRunning := false;
    }

    method ReadJob() returns (r: Reread)
      ensures r.ActiveAt? ==> 1 <= r.rank <= CHECKPOINTS
    {
      r := *;
      if r.ActiveAt? && !(1 <= r.rank <= CHECKPOINTS) { r := NotFound; }
    }

    /** The execution gate first; the mutation is entered only on its match. */
    method GateThenMutate() returns (report: Report)
      ensures Belongs(GateThenMutation, report) && report != NoReport
    {
      var gate: GateStatus := *;
      if gate != Matched { return GateReport(gate); }
      var status: MutationStatus := *;
      report := MutationReport(status);
    }

    /** The one stage this checkpoint calls for; its report alone decides how the cycle goes on. */
    method Step(rank: nat) returns (r: StepResult, report: Report)
      ensures Belongs(StageFor(rank), report) && Decided(report, r)
      ensures report.NoReport? && !r.Refused? && !r.Raised? <==> StageFor(rank) in {HealthFailed, NoContinuation}
    {
      var refused: bool, raised: bool := *, *;
      var outcome: HostOutcome, mutation: MutationStatus, health: HealthStatus := *, *, *;
      report := NoReport;
      match StageFor(rank) {
        case HealthFailed => return Ended(Stopped), report;
        case NoContinuation => return Ended(Stopped), report;
        case _ =>
      }
      if refused { return Refused, report; }
      if raised { return Raised, report; }
      match StageFor(rank) {
        case Snapshot => report := SnapshotReport(outcome);
        case GateThenMutation => report := GateThenMutate();
        case MutationRecovery => report := MutationReport(mutation);
        case Health => report := HealthReport(health);
        case _ => report := RollbackReport(outcome);
      }
      if report == RollbackReport(Completed) { return Ended(Terminal), report; }
      r := if Advances(report) then Advanced else Ended(Stopped);
    }

    method Drive() returns (r: Cycle, attempts: seq<Attempt>)
      ensures Disciplined(attempts) && |attempts| <= CHECKPOINTS
      ensures attempts == [] ==> r in {Idle, Terminal}
      ensures attempts != [] && attempts[|attempts| - 1].result.Ended? ==> r == attempts[|attempts| - 1].result.cycle
      ensures attempts != [] && attempts[|attempts| - 1].result == Refused ==> r == PreconditionChanged
      ensures attempts != [] && attempts[|attempts| - 1].result == Raised ==> r == Error
      ensures attempts != [] && attempts[|attempts| - 1].result == Advanced ==> r in {Idle, Terminal, StoppedUnadvanced}
    {
      attempts := [];
      var previousRank: Option<nat> := None;
      var turn := 0;
      while turn < CHECKPOINTS
        invariant 0 <= turn <= CHECKPOINTS && |attempts| == turn && Disciplined(attempts)
        invariant previousRank == if attempts == [] then None else Some(attempts[turn - 1].rank)
        invariant forall i :: 0 <= i < turn ==> attempts[i].result == Advanced
      {
        var job := ReadJob();
        if job.NotFound? { return Idle, attempts; }
        if job.NotActive? { return Terminal, attempts; }
        if previousRank.Some? && job.rank <= previousRank.value { return StoppedUnadvanced, attempts; }
        previousRank := Some(job.rank);
        var outcome, report := Step(job.rank);
        var attempt := Attempt(job.rank, StageFor(job.rank), report, outcome);
        DisciplinedOneMore(attempts, attempt);
        attempts := attempts + [attempt];
        match outcome {
          case Refused => return PreconditionChanged, attempts;
          case Raised => return Error, attempts;
          case Ended(cycle) => return cycle, attempts;
          case Advanced =>
        }
        turn := turn + 1;
      }
      r := StoppedUnadvanced;
    }

    /** One cycle at a time: a second caller leaves at once. */
    method RunOnce() returns (r: Cycle, attempts: seq<Attempt>)
      modifies this
      ensures Disciplined(attempts) && cycleRunning == old(cycleRunning)
      ensures old(cycleRunning) ==> r == Busy && attempts == []
    {
      attempts := [];
      if cycleRunning { return Busy, attempts; }
      cycleRunning := true;
      var active: bool := *;
      r := Idle;
      if active { r, attempts := Drive(); }
      cycleRunning := false;
    }
  }

  /**
   In one cycle each destructive stage is entered at most once: the mutation only at a confirmed
   snapshot, the rollback only at its own durable write-ahead checkpoint, after whatever came before.
   A stage that follows the mutation finds it completed: nothing runs after a gate that did not match
   or a mutation that is not known to have completed.
   */
  lemma DestructiveOnce(attempts: seq<Attempt>, i: nat, j: nat)
    requires Disciplined(attempts) && i < |attempts| && j < |attempts| && Destructive(attempts[i].stage)
    ensures attempts[i].stage == attempts[j].stage ==> i == j
    ensures attempts[i].stage == GateThenMutation ==> attempts[i].rank == SNAPSHOT_CONFIRMED
    ensures attempts[i].stage == Rollback ==> attempts[i].rank == ROLLBACK_MAY_HAVE_STARTED && i == |attempts| - 1
    ensures attempts[i].stage == GateThenMutation && i < j ==> attempts[i].report == MutationReport(MutationCompleted)
  {
    var a := attempts[i];
    assert a in attempts && Belongs(a.stage, a.report) && Decided(a.report, a.result);
    if a.stage == Rollback { RollbackAdvancesNothing(a); }
  }

  lemma RollbackAdvancesNothing(a: Attempt)
    requires a.stage == Rollback && Belongs(a.stage, a.report) && Decided(a.report, a.result)
    ensures a.result != Advanced
  {
  }
}
