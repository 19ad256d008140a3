/**
 One invocation of the same-job rollback stage. Other invocations may take any of their own
 atomic steps before each of its transactions; the host may answer anything to any call.
 */
module RollbackOrchestrator {
  import opened Wrappers
  import opened Clocks
  import opened PollLoop

  datatype Status = Active | Blocked | RolledBack

  /** `armed`: at the write-ahead checkpoint; `upid`: the recorded task; `proved`: some seal was proved. */
  datatype Job = Job(status: Status, eligible: bool, armed: bool, upid: Option<nat>, proved: bool)

  datatype Move = Arm | Record(upid: nat) | Seal(proved: bool, committed: bool) | Complete

  predicate InRollback(job: Job)
  {
    job.status.Active? && job.armed
  }

  predicate Enabled(job: Job, move: Move)
  {
    match move
    case Arm => job.status.Active? && job.eligible
    case Record(u) => InRollback(job) && (job.upid == None || job.upid == Some(u))
    case Seal(proved, committed) => InRollback(job) && job.upid == None && (committed ==> proved)
    case Complete => InRollback(job) && job.upid.Some?
  }

  function Step(job: Job, move: Move): Job
  {
    match move
    case Arm => job.(armed := true)
    case Record(u) => job.(upid := Some(u))
    case Seal(proved, committed) =>
      job.(proved := job.proved || proved, status := if committed then Blocked else job.status)
    case Complete => job.(status := RolledBack)
  }

  predicate Unstarted(job: Job)
  {
    job.status.Active? && !job.armed && job.upid == None && !job.proved
  }

  function Replay(start: Job, log: seq<Move>): Job
  {
    if log == [] then start else Step(Replay(start, log[..|log| - 1]), log[|log| - 1])
  }

  predicate Allowed(start: Job, log: seq<Move>)
  {
    log == [] || (Allowed(start, log[..|log| - 1]) && Enabled(Replay(start, log[..|log| - 1]), log[|log| - 1]))
  }

  /**
   Over every interleaving of invocations: a job is released only on a proved seal and only while
   no task identity is recorded; it is finished as rolled back only with one.
   */
  lemma {:induction false} ReleasedHasNoTask(start: Job, log: seq<Move>)
    requires Unstarted(start) && Allowed(start, log)
    ensures var job := Replay(start, log);
            && (job.status.Blocked? ==> job.proved && job.upid == None)
            && (job.status.RolledBack? ==> job.upid.Some?)
            && (job.upid.Some? || job.proved ==> job.armed)
  {
    if log != [] { ReleasedHasNoTask(start, log[..|log| - 1]); }
  }

  /** A recorded task identity is never replaced and a finished job never changes. */
  lemma {:induction false} RecordedOnce(start: Job, earlier: seq<Move>, later: seq<Move>)
    requires Allowed(start, later) && earlier <= later
    ensures Later(Replay(start, earlier), Replay(start, later))
  {
    if earlier != later {
      RecordedOnce(start, earlier, later[..|later| - 1]);
    }
  }

  predicate Later(job: Job, job': Job)
  {
    && (job.armed ==> job'.armed)
    && (job.upid.Some? ==> job'.upid == job.upid)
    && (!job.status.Active? ==> job' == job)
    && (job.eligible == job'.eligible)
  }

  lemma {:induction false} AllowedFromStart(start: Job, earlier: seq<Move>, later: seq<Move>)
    requires Allowed(start, later) && earlier <= later
    ensures Allowed(start, earlier)
  {
    if earlier != later { AllowedFromStart(start, earlier, later[..|later| - 1]); }
  }

  /** A job that records a task at any moment is released as never submitted at no moment, earlier or later. */
  lemma ReleaseExcludesTask(start: Job, log: seq<Move>, i: nat, j: nat)
    requires Unstarted(start) && Allowed(start, log) && i <= |log| && j <= |log|
    requires Replay(start, log[..i]).upid.Some?
    ensures !Replay(start, log[..j]).status.Blocked?
  {
    AllowedFromStart(start, log[..i], log);
    AllowedFromStart(start, log[..j], log);
    ReleasedHasNoTask(start, log[..i]);
    ReleasedHasNoTask(start, log[..j]);
    if i <= j {
      assert log[..i] <= log[..j];
      RecordedOnce(start, log[..i], log[..j]);
    } else {
      assert log[..j] <= log[..i];
      RecordedOnce(start, log[..j], log[..i]);
    }
  }

  datatype StageError = TerminalJob | IneligibleJob | Conflict

  datatype Submission = Answered(read: Option<Read>) | Refused | NotArmed

  /** What the host may not have answered is uncertain, and so is an answer about another operation. */
  function Validated(read: Option<Read>): Read
  {
    if read.Some? then read.value else Read(Uncertain, None, false, None, None, None)
  }

  predicate PermitsSubmission(read: Read)
  {
    read.phase == Some(Absent) || read.phase == Some(Intent)
  }

  /** A completed operation's own proof: a succeeded terminal task and a canonical listing. */
  predicate Succeeded(read: Read)
  {
    read.task.Some? && read.task.value.succeeded && read.listing.Some?
  }

  /** The read names a task that the job cannot record. */
  predicate Conflicts(read: Read, job: Job)
  {
    read.upid.Some? && (job.upid != read.upid || !InRollback(job))
  }

  class Orchestrator {
    const poller: Poller
    ghost const start: Job
    var job: Job
    ghost var log: seq<Move>
    ghost var submits: nat
    ghost var seals: nat
    ghost var lastRead: Option<Read>    // what the last inspection said

    ghost predicate Valid()
      reads this
    {
      Unstarted(start) && Allowed(start, log) && job == Replay(start, log) && poller.interval > 0
    }

    constructor (poller: Poller, start: Job)
      requires Unstarted(start) && poller.interval > 0
      ensures Valid() && submits == 0 && seals == 0 && this.poller == poller && job == start
    {
      this.poller, this.start := poller, start;
      job, log, submits, seals, lastRead := start, [], 0, 0, None;
    }

    method Do(move: Move)
      requires Valid() && Enabled(job, move)
      modifies this`job, this`log
      ensures Valid() && job == Step(old(job), move) && Later(old(job), job)
    {
      job := Step(job, move);
      log := log + [move];
      assert log[..|log| - 1] == old(log);
    }

    method Interfere()
      requires Valid()
      modifies this`job, this`log
      ensures Valid() && Later(old(job), job)
    {
      var steps: int := *;
      while steps > 0
        invariant Valid() && Later(old(job), job)
      {
        var move: Move := *;
        if Enabled(job, move) { Do(move); }
        steps := steps - 1;
      }
    }

    // -------------------------------------------------------------------------
    // Transactions. The counters make two calls of the host in one invocation, and a submission
    // that no read permitted, a failed precondition.
    // -------------------------------------------------------------------------

    method SubmitTransaction() returns (r: Submission)
      requires Valid() && submits == 0 && seals == 0
      requires lastRead.Some? && PermitsSubmission(lastRead.value)
      modifies this`submits
      ensures Valid() && seals == 0
      ensures submits == if r.Answered? then 1 else 0
      ensures r.Answered? ==> InRollback(job)
    {
      var current: bool := *;
      if !InRollback(job) { return NotArmed; }
      if !current { return Refused; }
      submits := 1;
      var answer: Option<Read> := *;
      r := Answered(answer);
    }

    method SealTransaction() returns (raised: bool, blocked: bool, taken: Read)
      requires Valid() && seals == 0
      modifies this`job, this`log, this`seals
      ensures Valid() && seals <= 1 && Later(old(job), job)
      ensures blocked <==> job.status.Blocked? && InRollback(old(job))
      ensures blocked ==> !raised && taken.phase == Some(SealedNotSubmitted) && old(job).upid == None
      ensures !raised && taken.phase == Some(SealedNotSubmitted) ==> blocked
    {
      raised, blocked, taken := true, false, Validated(None);
      if !InRollback(job) || job.upid.Some? { return; }
      seals := 1;
      var answer: Option<Read>, commitFails: bool := *, *;
      taken := Validated(answer);
      raised := commitFails;
      blocked := taken.phase == Some(SealedNotSubmitted) && !commitFails;
      Do(Seal(taken.phase == Some(SealedNotSubmitted), blocked));
    }

    /** Write-once; a different recorded identity, or a job that moved on, is a conflict. */
    method RecordTask(upid: nat) returns (conflict: bool)
      requires Valid()
      modifies this`job, this`log
      ensures Valid() && Later(old(job), job)
      ensures conflict <==> !(InRollback(old(job)) && old(job).upid in {None, Some(upid)})
      ensures !conflict ==> job.upid == Some(upid)
    {
      conflict := !(InRollback(job) && (job.upid == None || job.upid == Some(upid)));
      if !conflict { Do(Record(upid)); }
    }

    /** Only a completed operation with a succeeded task and a canonical listing may be offered. */
    method CompleteTransaction(read: Read) returns (raised: bool)
      requires Valid()
      requires read.outcome == Completed && Succeeded(read)
      modifies this`job, this`log
      ensures Valid() && Later(old(job), job)
      ensures !raised ==> job.status.RolledBack? && job.upid.Some?
    {
      if job.status.RolledBack? {
        ReleasedHasNoTask(start, log);
        return false;
      }
      var listingProves: bool := *;
      raised := !(listingProves && InRollback(job) && job.upid.Some?);
      if !raised { Do(Complete); }
    }

    /** The write-ahead boundary; the job may have moved on, or its context may be stale. */
    method ArmTransaction() returns (r: Result<bool, StageError>)
      requires Valid()
      modifies this`job, this`log
      ensures Valid() && Later(old(job), job)
      ensures r == Ok(true) ==> InRollback(job)
      ensures r != Ok(true) ==> job == old(job)
    {
      var provable: bool, stale: bool := *, *;
      if !job.status.Active? { return Err(Conflict); }
      if job.armed { return Ok(true); }
      if !job.eligible { return Err(Conflict); }
      if stale { return Ok(false); }
      if !provable { return Err(Conflict); }
      Do(Arm);
      r := Ok(true);
    }

    method Inspect() returns (read: Read)
      requires Valid()
      modifies this`job, this`log, this`lastRead
      ensures Valid() && Later(old(job), job) && lastRead == Some(read)
    {
      Interfere();
      var answer: Option<Read> := *;
      read := Validated(answer);
      lastRead := Some(read);
    }

    // -------------------------------------------------------------------------
    // Resolution. `sealable`: this path has not asked for a seal yet.
    // -------------------------------------------------------------------------

    /** A known task identity is durable before the first poll. `known`: what the job said at the start. */
    method Finish(known: Option<nat>, read: Read, sealable: bool) returns (r: Result<Outcome, StageError>)
      requires Valid() && job.armed && (sealable ==> seals == 0) && (known.Some? ==> job.upid == known)
      modifies this`job, this`log, this`seals, poller, poller.clock
      ensures Valid() && Later(old(job), job)
      ensures Justified(r, job)
      ensures if sealable then seals <= 1 else seals == old(seals)
      decreases if sealable then 3 else 1
    {
      if read.upid.Some? {
        Interfere();
        var conflict := RecordTask(read.upid.value);
        if conflict { return Ok(Uncertain); }
      }
      Interfere();
      assert read.upid.Some? ==> job.upid == read.upid;
      ghost var history;
      var last;
      last, history := poller.PollUntilResolved(known, read);
      r := ApplyHostResult(known, last, sealable);
    }

    method ApplyHostResult(known: Option<nat>, read: Read, sealable: bool) returns (r: Result<Outcome, StageError>)
      requires Valid() && job.armed && (sealable ==> seals == 0) && (known.Some? ==> job.upid == known)
      modifies this`job, this`log, this`seals, poller, poller.clock
      ensures Valid() && Later(old(job), job)
      ensures Justified(r, job)
      ensures r == Ok(Failed) ==> read.outcome in {Failed, NotSubmitted}
      ensures r == Ok(Completed) ==> read.outcome == NotSubmitted || (read.outcome == Completed && Succeeded(read))
      ensures read.outcome == Failed && r == Ok(Uncertain) ==> Conflicts(read, job)
      ensures if sealable then seals <= 1 else seals == old(seals)
      decreases if sealable then 3 else 1, 0
    {
      Interfere();
      if read.upid.Some? {
        var conflict := RecordTask(read.upid.value);
        if conflict { return Ok(Uncertain); }
      }
      match read.outcome {
        case NotSubmitted =>
          if !sealable { return Ok(Uncertain); }
          r := ResolvePreRollbackBlock(known);
        case Uncertain =>
          r := Ok(Uncertain);
        case Failed =>
          Interfere();
          r := if InRollback(job) then Ok(Failed) else Err(Conflict);
        case Completed =>
          if !Succeeded(read) { return Ok(Uncertain); }
          Interfere();
          var raised := CompleteTransaction(read);
          r := Ok(if raised then Uncertain else Completed);
      }
    }

    method ResolvePreRollbackBlock(known: Option<nat>) returns (r: Result<Outcome, StageError>)
      requires Valid() && job.armed && seals == 0 && (known.Some? ==> job.upid == known)
      modifies this`job, this`log, this`seals, poller, poller.clock
      ensures Valid() && Later(old(job), job)
      ensures Justified(r, job)
      ensures seals <= 1
      decreases 2
    {
      Interfere();
      var raised, blocked, taken := SealTransaction();
      if raised { return Ok(Uncertain); }
      if blocked {
        ReleasedHasNoTask(start, log);
        return Ok(NotSubmitted);
      }
      r := Finish(known, taken, false);
    }

    /** The entry point: at most one submission, only after a read that permits it, and at most one seal. */
    method RollBack() returns (r: Result<Outcome, StageError>)
      requires Valid() && submits == 0 && seals == 0
      modifies this, poller, poller.clock
      ensures Valid() && Later(old(job), job) && submits <= 1 && seals <= 1
      ensures submits == 1 ==> lastRead.Some? && PermitsSubmission(lastRead.value)
      ensures Justified(r, job) || (r == Ok(NotSubmitted) && submits == 0 && seals == 0)
    {
      Interfere();
      if !job.status.Active? { return Err(TerminalJob); }
      if !job.armed && !job.eligible { return Err(IneligibleJob); }
      if !job.armed {
        Interfere();
        var armed := ArmTransaction();
        if armed.Err? { return Err(armed.error); }
        if !armed.value { return Ok(NotSubmitted); }
      }
      var known := job.upid;
      var read := Inspect();
      if read.phase == Some(SealedNotSubmitted) || read.outcome == NotSubmitted {
        r := ResolvePreRollbackBlock(known);
        return;
      }
      if PermitsSubmission(read) {
        Interfere();
        var submission := SubmitTransaction();
        match submission {
          case Refused =>
            r := ResolvePreRollbackBlock(known);
            return;
          case NotArmed => return Ok(Uncertain);
          case Answered(answer) =>
            if answer == None { return Ok(Uncertain); }
            read := answer.value;
        }
      }
      r := Finish(known, read, true);
    }
  }

  /** Released only with a proved seal and no task; completed only with its recorded task. */
  ghost predicate Justified(r: Result<Outcome, StageError>, job: Job)
  {
    && (r == Ok(NotSubmitted) ==> job.status.Blocked? && job.proved && job.upid == None)
    && (r == Ok(Completed) ==> job.status.RolledBack? && job.upid.Some?)
  }
}
