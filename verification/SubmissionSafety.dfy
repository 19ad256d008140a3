/**
 What the submission protocol guarantees, over every run: one launch at most, only with the accepted
 digest, never for an operation whose seal was forced to disk. Two promises are false as coded -- that
 a launch finds `submitted` itself on disk, and that a seal answer is final -- and are characterised
 exactly.
 */
module SubmissionSafety {
  import opened Wrappers
  import opened SubmissionProtocol
  import opened SubmissionInvariant
  import opened SubmissionRuns

  lemma RunInv(run: seq<State>, i: nat)
    requires IsRun(run) && i < |run|
    ensures Inv(run[i])
  {
    PathInv(run, i);
  }

  lemma LaunchesGrow(s: State, s': State)
    requires Next(s, s')
    ensures s.launches <= s'.launches
    ensures s.launches == s'.launches ==> s.task == s'.task
    ensures s.launches < s'.launches ==> exists h, u :: Launch(s, s', h, u)
    ensures s.sealAnswered ==> s'.sealAnswered
    ensures !s.sealAnswered && s'.sealAnswered ==> exists h :: AnswerSeal(s, s', h)
  {
    if BackendStep(s, s') {
      BackendShape(s, s');
    } else if h :| HelperStep(s, s', h) {
      HelperIsOwn(s, s', h);
    } else if h :| RunnerStep(s, s', h) {
      RunnerShape(s, s', h);
    } else {
      EnvironmentShape(s, s');
    }
  }

  lemma PathStepGrows(run: seq<State>, i: nat)
    requires IsPath(run) && i + 1 < |run|
    ensures run[i].launches <= run[i + 1].launches
    ensures run[i].launches == run[i + 1].launches ==> run[i].task == run[i + 1].task
    ensures run[i].sealAnswered ==> run[i + 1].sealAnswered
  {
    PathStep(run, i);
    LaunchesGrow(run[i], run[i + 1]);
  }

  lemma {:induction false} PathLaunchesGrow(run: seq<State>, i: nat, j: nat)
    requires IsPath(run) && i <= j < |run|
    ensures run[i].launches <= run[j].launches
    ensures run[i].sealAnswered ==> run[j].sealAnswered
  {
    if i < j {
      PathLaunchesGrow(run, i, j - 1);
      PathStepGrows(run, j - 1);
    }
  }

  /** At most one physical command per operation, over every interleaving, crash and power loss. */
  lemma AtMostOneLaunch(run: seq<State>, i: nat)
    requires IsRun(run) && i < |run|
    ensures run[i].launches <= 1
  {
    RunInv(run, i);
  }

  /**
   The step that launches is the first to launch and carries the digest the arming transaction
   accepted. On disk it finds `submitted`, or a record that sharers of the temporary file tore.
   */
  lemma LaunchFollowsSubmission(run: seq<State>, i: nat)
    requires IsRun(run) && i + 1 < |run| && run[i].launches < run[i + 1].launches
    ensures run[i].launches == 0 && JustSubmitted(run[i].durable)
    ensures run[i + 1].launchDigest.Some? && DigestOf(run[i].job) == run[i + 1].launchDigest
  {
    RunInv(run, i);
    PathStep(run, i);
    LaunchesGrow(run[i], run[i + 1]);
    var h, u :| Launch(run[i], run[i + 1], h, u);
    assert RunnerOk(run[i], h) && HelperOk(run[i], h);
  }

  // ---------------------------------------------------------------------------
  // Exactly when the launch finds `submitted` itself
  // ---------------------------------------------------------------------------

  /** A helper that is at a journal write without its lease descriptor. */
  predicate OrphanWriter(s: State, k: nat)
  {
    InTemporaryFile(s, k) && !s.helpers[k].fd
  }

  /** Two processes meet in the temporary file only if one of them writes without its lease. */
  lemma SharingNeedsOrphan(s: State, s': State, a: nat, b: nat)
    requires Inv(s) && (Overlap(s, s', a, b) || OverlapRunner(s, s', a, b))
    ensures OrphanWriter(s, a) || (OrphanWriter(s, b) && Overlap(s, s', a, b))
  {
    assert HelperOk(s, a);
    if Overlap(s, s', a, b) { assert HelperOk(s, b); } else { assert RunnerOk(s, b); }
  }

  /** The runner of `h` can launch nothing any more, or its attempt has the temporary file to itself. */
  predicate Undisturbed(s: State, h: nat)
  {
    && h in s.runners && h in s.helpers
    && (s.runners[h].cut || s.runners[h].pc != Blocked || AloneInFile(s, h))
  }

  predicate AloneInFile(s: State, h: nat)
    requires h in s.runners && h in s.helpers
  {
    var pc := s.helpers[h].pc;
    && (forall k :: k in s.helpers && k != h ==> !s.helpers[k].pc.Write?)
    && !s.helpers[h].mixed
    && (!s.runners[h].go ==> pc in {Write(Submitted, ThenGo), Sync(Submitted, ThenGo), Go})
    && (s.runners[h].go || pc.Go? || pc.Sync? ==> s.visible == Submitted)
    && (s.runners[h].go || pc.Go? ==> s.durable == Submitted)
    && (s.runners[h].go ==> !pc.Write?)
  }

  /** While the attempt of `h` owns the lease and nothing was launched, nobody else begins a journal write. */
  lemma OtherStaysOut(s: State, s': State, h: nat, k: nat)
    requires Inv(s) && HelperStep(s, s', k) && k != h
    requires s.lock == Some(h) && s.launches == 0 && !InTemporaryFile(s, k)
    ensures !InTemporaryFile(s', k)
  {
    if k in s.helpers { assert HelperOk(s, k); }
    if LeaseStep(s, s', k) { OtherTakesNoLease(s, s', h, k); }
    else if AttemptStep(s, s', k) { }
    else if WriteStep(s, s', k) { OtherOnlySyncs(s, s', k); }
    else if TaskStep(s, s', k) { OtherHasNoTask(s, s', h, k); }
    else { EndIsOwn(s, s', k); }
  }

  lemma OtherTakesNoLease(s: State, s': State, h: nat, k: nat)
    requires LeaseStep(s, s', k) && k != h && s.lock == Some(h) && (k in s.helpers ==> HelperOk(s, k))
    ensures !InTemporaryFile(s', k)
  {
    if req :| Deliver(s, s', k, req) { }
  }

  lemma OtherOnlySyncs(s: State, s': State, k: nat)
    requires WriteStep(s, s', k)
    ensures !InTemporaryFile(s', k)
  {
    if SyncDirectory(s, s', k) { LeaveIsOwn(Fsynced(s), k); }
  }

  lemma OtherHasNoTask(s: State, s': State, h: nat, k: nat)
    requires Inv(s) && TaskStep(s, s', k) && k != h && s.lock == Some(h) && s.launches == 0
    ensures !InTemporaryFile(s', k)
  {
    assert HelperOk(s, k);
  }

  lemma OtherHelperKeepsUndisturbed(s: State, s': State, h: nat, k: nat)
    requires Inv(s) && Undisturbed(s, h) && HelperStep(s, s', k) && k != h
    ensures Undisturbed(s', h)
  {
    HelperIsOwn(s, s', k);
    if !s.runners[h].cut && s.runners[h].pc == Blocked {
      assert RunnerOk(s, h) && HelperOk(s, h);
      OtherStaysOut(s, s', h, k);
    }
  }

  lemma OwnStepKeepsUndisturbed(s: State, s': State, h: nat)
    requires Inv(s) && Undisturbed(s, h) && HelperStep(s, s', h)
    ensures Undisturbed(s', h)
  {
    HelperIsOwn(s, s', h);
    if !s.runners[h].cut && s.runners[h].pc == Blocked {
      if s.runners[h].go { ReleasedStaysAlone(s, s', h); } else { AttemptStaysAlone(s, s', h); }
    }
  }

  lemma ReleasedStaysAlone(s: State, s': State, h: nat)
    requires Inv(s) && HelperStep(s, s', h) && h in s.runners && h in s.helpers && AloneInFile(s, h)
    requires s.runners[h].go && s.runners[h].pc == Blocked && !s.runners[h].cut
    ensures Undisturbed(s', h)
  {
    HelperIsOwn(s, s', h);
    ReleasedMovesQuietly(s, s', h);
  }

  /** The submitter of a released runner no longer touches it, and writes nothing while nothing was launched. */
  lemma ReleasedMovesQuietly(s: State, s': State, h: nat)
    requires Inv(s) && HelperStep(s, s', h) && h in s.runners && h in s.helpers && AloneInFile(s, h)
    requires s.runners[h].go && s.runners[h].pc == Blocked && !s.runners[h].cut
    ensures !InTemporaryFile(s', h) && h in s'.runners && s'.runners[h] == s.runners[h] && !s'.helpers[h].mixed
  {
    assert RunnerOk(s, h) && HelperOk(s, h);
    if LeaseStep(s, s', h) { NoLeaseStep(s, s', h); }
    else if AttemptStep(s, s', h) { }
    else if WriteStep(s, s', h) { OtherOnlySyncs(s, s', h); ReleasedSyncs(s, s', h); }
    else if TaskStep(s, s', h) { ReleasedHasNoTask(s, s', h); }
    else { EndIsOwn(s, s', h); ReleasedEnds(s, s', h); }
  }

  lemma ReleasedSyncs(s: State, s': State, h: nat)
    requires WriteStep(s, s', h) && h in s.runners && s.runners[h].go && h in s.helpers && !s.helpers[h].pc.Write?
    ensures h in s'.runners && s'.runners[h] == s.runners[h] && !s'.helpers[h].mixed
  {
  }

  lemma ReleasedEnds(s: State, s': State, h: nat)
    requires EndStep(s, s', h) && h in s.runners && s.runners[h].go
    ensures s'.runners[h] == s.runners[h] && !s'.helpers[h].mixed
  {
  }

  lemma ReleasedHasNoTask(s: State, s': State, h: nat)
    requires Inv(s) && TaskStep(s, s', h) && h in s.runners && s.runners[h].go && s.runners[h].pc == Blocked
    ensures !InTemporaryFile(s', h) && h in s'.runners && s'.runners[h] == s.runners[h] && !s'.helpers[h].mixed
  {
    assert RunnerOk(s, h) && HelperOk(s, h);
  }

  lemma AttemptStaysAlone(s: State, s': State, h: nat)
    requires Inv(s) && HelperStep(s, s', h) && h in s.runners && h in s.helpers && AloneInFile(s, h)
    requires !s.runners[h].go && s.runners[h].pc == Blocked && !s.runners[h].cut
    ensures Undisturbed(s', h)
  {
    HelperIsOwn(s, s', h);
    if AttemptStep(s, s', h) { AttemptReleases(s, s', h); }
    else if WriteStep(s, s', h) { AttemptWrites(s, s', h); }
    else if EndStep(s, s', h) { EndIsOwn(s, s', h); }
    else if LeaseStep(s, s', h) { NoLeaseStep(s, s', h); }
  }

  lemma NoLeaseStep(s: State, s': State, h: nat)
    requires LeaseStep(s, s', h) && h in s.helpers
    ensures s.helpers[h].pc.Waiting? || s.helpers[h].pc.Holding?
  {
    if req :| Deliver(s, s', h, req) { }
  }

  lemma AttemptReleases(s: State, s': State, h: nat)
    requires AttemptStep(s, s', h) && h in s.runners && h in s.helpers && AloneInFile(s, h)
    requires !s.runners[h].go && s.runners[h].pc == Blocked && !s.runners[h].cut
    ensures Undisturbed(s', h)
  {
  }

  lemma AttemptWrites(s: State, s': State, h: nat)
    requires WriteStep(s, s', h) && h in s.runners && h in s.helpers && AloneInFile(s, h) && !s.runners[h].go
    ensures h in s'.runners && s'.runners[h] == s.runners[h] && AloneInFile(s', h)
  {
  }

  lemma RunnerKeepsUndisturbed(s: State, s': State, h: nat, k: nat)
    requires Inv(s) && Undisturbed(s, h) && RunnerStep(s, s', k) && h in s'.runners
    ensures Undisturbed(s', h)
  {
    assert RunnerOk(s, h) && RunnerOk(s, k);
    RunnerShape(s, s', k);
    RunnerIsOwn(s, s', k);
  }

  lemma RunnerIsOwn(s: State, s': State, k: nat)
    requires RunnerStep(s, s', k)
    ensures forall h :: h in s'.runners ==> h in s.runners && s'.runners[h].cut == s.runners[h].cut && s'.runners[h].go == s.runners[h].go
    ensures forall h :: h in s'.runners && (h != k || s.runners[h].pc != Blocked) ==>
              s'.runners[h].pc == s.runners[h].pc || s'.runners[h].pc != Blocked
    ensures k in s'.runners && s.runners[k].pc == Blocked && s'.runners[k].pc == Blocked ==> s' == Fsynced(s)
    ensures s'.visible == s.visible || (k in s.runners && s.runners[k].pc == Ran)
    ensures s'.durable == s.durable || s'.durable == s.visible
  {
    if RunnerGone(s, s', k) {
    } else if u :| Launch(s, s', k, u) {
    } else if RefuseLaunch(s, s', k) {
    } else if ok :| RunnerPlace(s, s', k, ok) {
      PlacingIsOwn(s, s', k, ok);
    } else {
    }
  }

  lemma PlacingIsOwn(s: State, s': State, k: nat, ok: bool)
    requires RunnerPlace(s, s', k, ok)
    ensures s'.runners == s.runners[k := s.runners[k].(pc := Placed, mixed := false)]
    ensures s'.durable == s.durable && s.runners[k].pc == Ran
  {
  }

  /** Nobody shares the file with an attempt that is alone in it, and nobody is there to damage its record. */
  lemma NobodyMixes(s: State, h: nat)
    requires Inv(s) && h in s.runners && h in s.helpers && AloneInFile(s, h)
    requires !s.runners[h].cut && s.runners[h].pc == Blocked
    ensures forall k :: k in s.helpers ==> !s.helpers[k].mixed
    ensures forall k :: !RunnerInTemporaryFile(s, k)
    ensures forall k :: InTemporaryFile(s, k) ==> k == h
  {
    forall k | k in s.helpers ensures !s.helpers[k].mixed { assert HelperOk(s, k); }
    forall k ensures !RunnerInTemporaryFile(s, k) { assert k in s.runners ==> RunnerOk(s, k); }
  }

  lemma EnvironmentKeepsUndisturbed(s: State, s': State, h: nat)
    requires Inv(s) && Undisturbed(s, h) && EnvironmentStep(s, s') && h in s'.runners
    ensures Undisturbed(s', h)
  {
    if s.runners[h].cut || s.runners[h].pc != Blocked {
      EnvironmentKeepsPipes(s, s', h);
    } else {
      NobodyMixes(s, h);
      assert s' == s || Writeback(s, s') || PowerLoss(s, s') by { NothingMixes(s, s'); }
    }
  }

  lemma NothingMixes(s: State, s': State)
    requires EnvironmentStep(s, s') && (forall k :: k in s.helpers ==> !s.helpers[k].mixed)
    requires (forall k :: !RunnerInTemporaryFile(s, k))
    requires forall k, h :: InTemporaryFile(s, k) && InTemporaryFile(s, h) ==> k == h
    ensures Writeback(s, s') || PowerLoss(s, s')
  {
  }

  lemma EnvironmentKeepsPipes(s: State, s': State, h: nat)
    requires EnvironmentStep(s, s') && h in s.runners && h in s.helpers && h in s'.runners
    ensures h in s'.helpers && s'.runners[h].pc == s.runners[h].pc && s'.runners[h].cut == s.runners[h].cut
  {
    if a, b :| Overlap(s, s', a, b) || OverlapRunner(s, s', a, b) {
    } else if k :| Smear(s, s', k) || SmearRunner(s, s', k) {
    }
  }

  lemma NextKeepsUndisturbed(s: State, s': State, h: nat)
    requires Inv(s) && Undisturbed(s, h) && Next(s, s') && h in s'.runners
    ensures Undisturbed(s', h)
  {
    if BackendStep(s, s') { BackendShape(s, s'); }
    else if k :| HelperStep(s, s', k) {
      if k == h { OwnStepKeepsUndisturbed(s, s', h); } else { OtherHelperKeepsUndisturbed(s, s', h, k); }
    }
    else if k :| RunnerStep(s, s', k) { RunnerKeepsUndisturbed(s, s', h, k); }
    else { EnvironmentKeepsUndisturbed(s, s', h); }
  }

  lemma {:induction false} StaysUndisturbed(later: seq<State>, h: nat, i: nat)
    requires IsPath(later) && Inv(later[0]) && Undisturbed(later[0], h) && i < |later|
    requires forall j :: 0 <= j <= i ==> h in later[j].runners
    ensures Undisturbed(later[i], h)
  {
    if i > 0 {
      StaysUndisturbed(later, h, i - 1);
      UndisturbedStep(later, h, i - 1);
    }
  }

  lemma UndisturbedStep(later: seq<State>, h: nat, i: nat)
    requires IsPath(later) && Inv(later[0]) && i + 1 < |later| && Undisturbed(later[i], h) && h in later[i + 1].runners
    ensures Undisturbed(later[i + 1], h)
  {
    PathInv(later, i);
    PathStep(later, i);
    NextKeepsUndisturbed(later[i], later[i + 1], h);
  }

  /**
   Exactly when the launch is sure to find `submitted` itself on disk. When READY arrives and the
   write of `submitted` begins, every launch of this runner follows a durable `submitted` if and
   only if no other helper is at a journal write without its lease descriptor at that moment.
   */
  lemma LaunchFollowsDurableSubmission(run: seq<State>, i: nat, h: nat)
    requires IsRun(run) && i + 1 < |run| && Ready(run[i], run[i + 1], h) && h in run[i].runners
    ensures NoOtherOrphanWriter(run[i + 1], h)
            <==> forall later: seq<State> :: IsPath(later) && later[0] == run[i + 1] && LaunchesBy(later, h) ==>
                   later[|later| - 2].durable == Submitted
  {
    RunInv(run, i);
    RunInv(run, i + 1);
    var s := run[i + 1];
    ReadyRunner(run[i], s, h);
    if NoOtherOrphanWriter(s, h) {
      ReadyIsUndisturbed(run[i], s, h);
      forall later: seq<State> | IsPath(later) && later[0] == s && LaunchesBy(later, h)
        ensures later[|later| - 2].durable == Submitted
      {
        UndisturbedLaunch(later, h);
      }
    } else {
      var k: nat :| k in s.helpers && k != h && OrphanWriter(s, k);
      OrphanTears(s, h, k);
    }
  }

  lemma OrphanTears(s: State, h: nat, k: nat)
    requires h in s.helpers && s.helpers[h].pc == Write(Submitted, ThenGo) && s.helpers[h].req.Execute?
    requires h in s.runners && s.runners[h] == Runner(Blocked, false, false, false)
    requires k != h && OrphanWriter(s, k)
    ensures exists later: seq<State> ::
              IsPath(later) && later[0] == s && LaunchesBy(later, h) && later[|later| - 2].durable != Submitted
  {
    SharersTearSubmission(s, h, k);
  }

  predicate NoOtherOrphanWriter(s: State, h: nat)
  {
    forall k :: k in s.helpers && k != h ==> !OrphanWriter(s, k)
  }

  lemma ReadyRunner(s: State, s': State, h: nat)
    requires Inv(s) && Inv(s') && Ready(s, s', h) && h in s.runners
    ensures s'.runners[h] == Runner(Blocked, false, false, false) && s'.lock == Some(h)
    ensures s'.helpers[h].pc == Write(Submitted, ThenGo) && s'.helpers[h].req.Execute?
  {
    assert HelperOk(s, h) && RunnerOk(s, h) && RunnerOk(s', h);
  }

  lemma ReadyIsUndisturbed(s: State, s': State, h: nat)
    requires Inv(s) && Inv(s') && Ready(s, s', h) && h in s.runners && NoOtherOrphanWriter(s', h)
    ensures Undisturbed(s', h)
  {
    ReadyRunner(s, s', h);
    forall k | k in s'.helpers && k != h ensures !s'.helpers[k].pc.Write? {
      assert HelperOk(s', k) && !OrphanWriter(s', k);
    }
  }

  lemma UndisturbedLaunch(later: seq<State>, h: nat)
    requires IsPath(later) && Inv(later[0]) && Undisturbed(later[0], h) && LaunchesBy(later, h)
    ensures later[|later| - 2].durable == Submitted
  {
    var last := |later| - 2;
    StaysUndisturbed(later, h, last);
    PathInv(later, last);
    LaunchFindsSubmitted(later[last], later[last + 1], h);
  }

  lemma LaunchFindsSubmitted(s: State, s': State, h: nat)
    requires Inv(s) && Undisturbed(s, h) && LaunchOf(s, s', h)
    ensures s.durable == Submitted
  {
    assert RunnerOk(s, h);
  }

  /** A record that permits submission, or forbids it for ever, means nothing was launched. */
  lemma UnlaunchedRecords(run: seq<State>, i: nat)
    requires IsRun(run) && i < |run|
    requires Permissive(run[i].visible) || run[i].visible.Sealed?
    ensures run[i].launches == 0
    ensures forall k :: 0 <= k <= i ==> run[k].launches == 0
  {
    RunInv(run, i);
    forall k | 0 <= k <= i ensures run[k].launches == 0 {
      PathLaunchesGrow(run, k, i);
    }
  }

  /** Once a command was launched no seal is ever answered again. */
  lemma LaunchedNeverSealed(run: seq<State>, i: nat, j: nat, h: nat)
    requires IsRun(run) && i <= j && j + 1 < |run| && run[i].launches > 0
    ensures !AnswerSeal(run[j], run[j + 1], h)
  {
    PathLaunchesGrow(run, i, j);
    RunInv(run, j);
    NoAnswerAfterLaunch(run[j], run[j + 1], h);
  }

  lemma NoAnswerAfterLaunch(s: State, s': State, h: nat)
    requires Inv(s) && s.launches > 0
    ensures !AnswerSeal(s, s', h)
  {
    assert h in s.helpers ==> HelperOk(s, h);
  }

  // ---------------------------------------------------------------------------
  // The seal
  // ---------------------------------------------------------------------------

  /** No launch happened, and no process, record or disk content can lead to one. */
  ghost predicate Fenced(s: State)
  {
    && s.launches == 0
    && !Permissive(s.visible) && !Permissive(s.durable)
    && (forall h :: h in s.helpers && s.lock == Some(h) ==> !Attempting(s.helpers[h].pc))
    && (forall h :: h in s.runners ==> s.runners[h].cut)
  }

  lemma LeaveKeepsFenced(s: State, h: nat)
    requires Fenced(s) && h in s.helpers
    ensures Fenced(Leave(s, h)) && Fenced(Die(s, h))
  {
  }

  lemma MoveKeepsFenced(s: State, h: nat, pc: Pc)
    requires Fenced(s) && h in s.helpers && (s.lock == Some(h) ==> !Attempting(pc))
    ensures Fenced(SetPc(s, h, pc))
  {
  }

  lemma LeaseStepKeepsFenced(s: State, s': State, h: nat)
    requires Inv(s) && Fenced(s) && LeaseStep(s, s', h)
    ensures Fenced(s')
  {
    if req :| Deliver(s, s', h, req) {
    } else if Acquire(s, s', h) {
    } else {
      ReadKeepsFenced(s, s', h);
    }
  }

  lemma ReadKeepsFenced(s: State, s': State, h: nat)
    requires Fenced(s) && ReadJournal(s, s', h)
    ensures Fenced(s')
  {
    match AfterRead(s.kind, s.helpers[h].req, s.visible)
    case None => LeaveKeepsFenced(s, h);
    case Some(pc) =>
      assert !Attempting(pc);
      MoveKeepsFenced(s, h, pc);
  }

  lemma AttemptStepKeepsFenced(s: State, s': State, h: nat)
    requires Inv(s) && Fenced(s) && AttemptStep(s, s', h)
    ensures Fenced(s')
  {
    assert h in s.helpers ==> HelperOk(s, h);
    assert h in s.runners ==> RunnerOk(s, h);
  }

  lemma PlaceKeepsFenced(s: State, s': State, h: nat)
    requires Inv(s) && Fenced(s) && Place(s, s', h)
    ensures Fenced(s')
  {
    assert HelperOk(s, h);
    PublishedIsOk(s, h, s'.visible);
    var pc := s.helpers[h].pc;
    MoveKeepsFenced(s, h, Sync(pc.rec, pc.andThen));
  }

  lemma SyncKeepsFenced(s: State, s': State, h: nat)
    requires Inv(s) && Fenced(s) && SyncDirectory(s, s', h)
    ensures Fenced(s')
  {
    assert HelperOk(s, h);
    assert Fenced(Fsynced(s));
    match AfterWrite(s.helpers[h].pc.andThen)
    case Some(pc) => MoveKeepsFenced(Fsynced(s), h, pc);
    case None => LeaveKeepsFenced(Fsynced(s), h);
  }

  lemma WriteStepKeepsFenced(s: State, s': State, h: nat)
    requires Inv(s) && Fenced(s) && WriteStep(s, s', h)
    ensures Fenced(s')
  {
    if Place(s, s', h) { PlaceKeepsFenced(s, s', h); } else { SyncKeepsFenced(s, s', h); }
  }

  lemma TaskStepKeepsFenced(s: State, s': State, h: nat)
    requires Inv(s) && Fenced(s) && TaskStep(s, s', h)
    ensures Fenced(s')
  {
    assert h in s.helpers ==> HelperOk(s, h);
  }

  lemma EndStepKeepsFenced(s: State, s': State, h: nat)
    requires Inv(s) && Fenced(s) && EndStep(s, s', h)
    ensures Fenced(s')
  {
    LeaveKeepsFenced(s, h);
    if AnswerSeal(s, s', h) { assert Fenced(s'); }
  }

  lemma HelperKeepsFenced(s: State, s': State, h: nat)
    requires Inv(s) && Fenced(s) && HelperStep(s, s', h)
    ensures Fenced(s')
  {
    if LeaseStep(s, s', h) { LeaseStepKeepsFenced(s, s', h); }
    else if AttemptStep(s, s', h) { AttemptStepKeepsFenced(s, s', h); }
    else if WriteStep(s, s', h) { WriteStepKeepsFenced(s, s', h); }
    else if TaskStep(s, s', h) { TaskStepKeepsFenced(s, s', h); }
    else { EndStepKeepsFenced(s, s', h); }
  }

  lemma RunnerKeepsFenced(s: State, s': State, h: nat)
    requires Inv(s) && Fenced(s) && RunnerStep(s, s', h)
    ensures Fenced(s')
  {
    assert h in s.runners ==> RunnerOk(s, h);
  }

  lemma BackendKeepsFenced(s: State, s': State)
    requires Fenced(s) && BackendStep(s, s')
    ensures Fenced(s')
  {
    BackendShape(s, s');
  }

  lemma EnvironmentKeepsFenced(s: State, s': State)
    requires Inv(s) && Fenced(s) && EnvironmentStep(s, s')
    ensures Fenced(s')
  {
    if a, b :| Overlap(s, s', a, b) || OverlapRunner(s, s', a, b) {
      SharingKeepsFenced(s, s', a, b);
    } else if h :| Smear(s, s', h) || SmearRunner(s, s', h) {
      SmearKeepsFenced(s, s', h);
    }
  }

  lemma SharingKeepsFenced(s: State, s': State, a: nat, b: nat)
    requires Fenced(s) && (Overlap(s, s', a, b) || OverlapRunner(s, s', a, b))
    ensures Fenced(s')
  {
  }

  lemma SmearKeepsFenced(s: State, s': State, h: nat)
    requires Inv(s) && Fenced(s) && (Smear(s, s', h) || SmearRunner(s, s', h))
    ensures Fenced(s')
  {
    if Smear(s, s', h) { WrittenIsOk(s, h); }
  }

  lemma NextKeepsFenced(s: State, s': State)
    requires Inv(s) && Fenced(s) && Next(s, s')
    ensures Fenced(s')
  {
    if BackendStep(s, s') { BackendKeepsFenced(s, s'); }
    else if h :| HelperStep(s, s', h) { HelperKeepsFenced(s, s', h); }
    else if h :| RunnerStep(s, s', h) { RunnerKeepsFenced(s, s', h); }
    else { EnvironmentKeepsFenced(s, s'); }
  }

  lemma {:induction false} FencedForEver(run: seq<State>, i: nat)
    requires IsPath(run) && Inv(run[0]) && Fenced(run[0]) && i < |run|
    ensures Fenced(run[i])
  {
    if i > 0 {
      FencedForEver(run, i - 1);
      PathInv(run, i - 1);
      PathStep(run, i - 1);
      NextKeepsFenced(run[i - 1], run[i]);
    }
  }

  /** The answering helper owns the lease, so there is no attempt left to launch anything. */
  lemma ForcedSealFences(s: State, s': State, h: nat)
    requires Inv(s) && AnswerSeal(s, s', h) && !Permissive(s.durable)
    ensures Fenced(s')
  {
    assert HelperOk(s, h);
    forall k | k in s'.runners ensures s'.runners[k].cut { assert RunnerOk(s, k); }
  }

  /** Losing power after a seal that never reached the disk brings the permissive record back. */
  lemma UnforcedSealCanLaunch(s: State, s': State, h: nat, d: nat)
    requires Inv(s) && AnswerSeal(s, s', h) && Execute(d) in s.sent && Permissive(s.durable)
    ensures LaunchesLater(s')
  {
    Nothing(s');
    var off := s'.(helpers := map[], runners := map[], lock := None,
                   visible := s'.durable, capture := s'.durableCapture, left := {});
    assert PowerLoss(s', off) && EnvironmentStep(s', off);
    OneMore(s', s', off);
    assert IdlePermissive(off, d);
    IdleLaunches(off, d);
    LaunchesLaterVia(s', off);
  }

  /**
   Exactly when a returned seal keeps its promise. For an operation whose execute request was
   sent, nothing is ever launched after a seal answer if and only if the record on disk, at the
   moment of the answer, no longer permits submission. The answer is given without a write, and
   so without a directory fsync, when the record that was read is already the seal.
   */
  lemma SealAnswerIsFinal(run: seq<State>, i: nat, h: nat, d: nat)
    requires IsRun(run) && i + 1 < |run| && AnswerSeal(run[i], run[i + 1], h) && Execute(d) in run[i].sent
    ensures !LaunchesLater(run[i + 1]) <==> !Permissive(run[i].durable)
  {
    RunInv(run, i);
    if Permissive(run[i].durable) {
      UnforcedSealCanLaunch(run[i], run[i + 1], h, d);
    } else {
      ForcedSealFences(run[i], run[i + 1], h);
      RunInv(run, i + 1);
      FencedNeverLaunches(run[i + 1]);
    }
  }

  /** An answer is unforced only on the branch that read an existing seal and wrote nothing. */
  lemma OwnSealIsFinal(run: seq<State>, i: nat, h: nat)
    requires IsRun(run) && i + 1 < |run| && AnswerSeal(run[i], run[i + 1], h)
    requires run[i].helpers[h].pc == Answer(true)
    ensures !LaunchesLater(run[i + 1])
  {
    RunInv(run, i);
    assert HelperOk(run[i], h);
    ForcedSealFences(run[i], run[i + 1], h);
    RunInv(run, i + 1);
    FencedNeverLaunches(run[i + 1]);
  }

  lemma FencedNeverLaunches(s: State)
    requires Inv(s) && Fenced(s)
    ensures !LaunchesLater(s)
  {
    forall later: seq<State> | IsPath(later) && later[0] == s ensures later[|later| - 1].launches == 0 {
      FencedForEver(later, |later| - 1);
    }
  }

  /** The seal is answered over a durable record that forbids submission. */
  ghost predicate ForcedAnswer(s: State, s': State)
  {
    !Permissive(s.durable) && Answers(s, s')
  }

  ghost predicate Answers(s: State, s': State)
  {
    exists h :: AnswerSeal(s, s', h)
  }

  ghost predicate AnswersAt(run: seq<State>, j: nat)
    requires j + 1 < |run|
  {
    Answers(run[j], run[j + 1])
  }

  ghost predicate ForcedAt(run: seq<State>, j: nat)
    requires j + 1 < |run|
  {
    ForcedAnswer(run[j], run[j + 1])
  }

  /** One forced seal is enough: nothing was launched before it and nothing ever is after it, job released or not. */
  lemma ReleasedNeverLaunched(run: seq<State>, j: nat, i: nat)
    requires IsRun(run) && j < i < |run| && ForcedAt(run, j)
    ensures Fenced(run[i]) && !LaunchesLater(run[i])
  {
    RunInv(run, j);
    RunInv(run, j + 1);
    var h :| AnswerSeal(run[j], run[j + 1], h);
    ForcedSealFences(run[j], run[j + 1], h);
    FencedFrom(run, j + 1, i);
    RunInv(run, i);
    FencedNeverLaunches(run[i]);
  }

  lemma FencedFrom(run: seq<State>, j: nat, i: nat)
    requires IsPath(run) && j <= i < |run| && Inv(run[j]) && Fenced(run[j])
    ensures Fenced(run[i])
  {
    var rest := run[j..i + 1];
    RunTail(run, j, i + 1);
    FencedForEver(rest, |rest| - 1);
  }

  /** The backend releases a job only after some seal was answered. */
  lemma {:induction false} ReleaseFollowsSeal(run: seq<State>, i: nat) returns (j: nat)
    requires IsRun(run) && i < |run| && (run[i].job.Released? || run[i].sealAnswered)
    ensures j < i && AnswersAt(run, j)
  {
    var before := run[i - 1];
    if before.sealAnswered || before.job.Released? {
      j := ReleaseFollowsSeal(run, i - 1);
    } else {
      PathStep(run, i - 1);
      JobReleasedBy(before, run[i]);
      LaunchesGrow(before, run[i]);
      j := i - 1;
    }
  }

  lemma JobReleasedBy(s: State, s': State)
    requires Next(s, s')
    ensures s'.job.Released? ==> s.job.Released? || s.sealAnswered
  {
    if BackendStep(s, s') { BackendReleases(s, s'); }
    else if h :| HelperStep(s, s', h) { HelperIsOwn(s, s', h); }
    else if h :| RunnerStep(s, s', h) { RunnerShape(s, s', h); }
    else { EnvironmentShape(s, s'); }
  }

  lemma BackendReleases(s: State, s': State)
    requires BackendStep(s, s')
    ensures s'.job.Released? ==> s.job.Released? || s.sealAnswered
  {
  }
}
