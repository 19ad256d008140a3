/**
 The inductive invariant of the submission protocol.

 Its core is about lease intervals: a helper that read a permissive record keeps the lease, by
 itself or through its runner, until that runner is dead, so two attempts never overlap; and a
 helper that lost the lease can still write, but only records that no submitter starts from.
 */
module SubmissionInvariant {
  import opened Wrappers
  import opened SubmissionProtocol

  /** Records a submitter may start from. */
  predicate Permissive(rec: Record) { rec.Absent? || rec.Intent? }

  /** Records that can only exist once an attempt crossed, or may have crossed, submission. */
  predicate Crossed(rec: Record) { rec.Submitted? || rec.TaskKnown? || rec.Terminal? || rec.Torn? }

  predicate JustSubmitted(rec: Record) { rec.Submitted? || rec.Torn? }

  function TaskOf(rec: Record): Option<nat>
  {
    match rec
    case TaskKnown(u) => Some(u)
    case Terminal(_, task) => task
    case _ => None
  }

  function DigestOf(job: Job): Option<nat>
  {
    match job
    case Unarmed => None
    case Armed(d) => Some(d)
    case Released(d) => Some(d)
  }

  /** Between reading a permissive record and handing GO to the runner. */
  predicate Attempting(pc: Pc)
  {
    || pc.Preflight? || pc.Forking? || pc.Forked? || pc.Go?
    || (pc.Write? && (pc.andThen.ThenPreflight? || pc.andThen.ThenFork? || pc.andThen.ThenGo?))
    || (pc.Sync? && (pc.andThen.ThenPreflight? || pc.andThen.ThenFork? || pc.andThen.ThenGo?))
  }

  /** Where a helper no longer, or not yet, has a lease descriptor of its own. */
  predicate WithoutDescriptor(pc: Pc)
  {
    match pc
    case Write(rec, andThen) => WriteWithoutDescriptor(rec, andThen)
    case Sync(rec, andThen) => WriteWithoutDescriptor(rec, andThen)
    case Promote(own) => own
    case Cleanup(_, own) => own
    case _ => pc.Go? || pc.Waiting? || pc.Gone?
  }

  predicate WriteWithoutDescriptor(rec: Record, andThen: Then)
  {
    || andThen.ThenGo?
    || (andThen.ThenCleanup? && andThen.own)
    || (andThen.ThenExit? && rec.TaskKnown?)
  }

  predicate WriteMatches(rec: Record, andThen: Then)
  {
    match andThen
    case ThenPreflight => rec.Intent?
    case ThenFork => rec.Intent?
    case ThenGo => rec == Submitted
    case ThenAnswer => rec == Sealed
    case ThenCleanup(u, _) => rec == TaskKnown(u)
    case ThenExit => TaskOf(rec).Some?
  }

  /** `u` can only be the identity the one launch reported. */
  predicate OwnTask(s: State, u: nat) { s.launches == 1 && s.task == Some(Some(u)) }

  predicate RecordOk(s: State, rec: Record)
  {
    && (s.launches > 0 ==> Crossed(rec))
    && (TaskOf(rec).Some? ==> OwnTask(s, TaskOf(rec).value))
    && (rec.Intent? ==> DigestOf(s.job) == Some(rec.digest))
    && (s.kind == Mutation ==> TaskOf(rec) == None)
  }

  /** Where a helper can be while the journal is still empty. */
  predicate Early(pc: Pc)
  {
    || pc.Waiting? || pc.Holding? || pc.Gone? || pc == Preflight(true)
    || (pc.Write? && (pc.rec.Intent? || pc.rec.Sealed?))
  }

  /** About to journal the first record. */
  predicate First(pc: Pc)
  {
    pc == Preflight(true) || (pc.Write? && pc.rec.Intent?)
  }

  predicate PcOk(s: State, pc: Pc)
  {
    && (pc.Write? ==> WriteMatches(pc.rec, pc.andThen))
    && (pc.Sync? ==> WriteMatches(pc.rec, pc.andThen))
    && (pc.Write? ==> pc.rec.Intent? ==> DigestOf(s.job) == Some(pc.rec.digest))
    && (pc.Write? && TaskOf(pc.rec).Some? ==> s.kind == Rollback && OwnTask(s, TaskOf(pc.rec).value))
    && (pc.Sync? && TaskOf(pc.rec).Some? ==> s.kind == Rollback && OwnTask(s, TaskOf(pc.rec).value))
    && (pc.Cleanup? || pc.Classify? ==> s.kind == Rollback && OwnTask(s, pc.upid))
    && (pc.Promote? ==> s.kind == Rollback)
  }

  predicate HelperOk(s: State, h: nat)
    requires h in s.helpers
  {
    var p := s.helpers[h];
    && (p.fd ==> s.lock == Some(h))
    && (p.fd <==> !WithoutDescriptor(p.pc))
    && PcOk(s, p.pc)
    && (p.req.Execute? ==> DigestOf(s.job) == Some(p.req.digest))
    && (Attempting(p.pc) ==> p.req.Execute?)
    && (p.pc.Waiting? || (p.fd && !p.pc.Forked?) ==> h !in s.runners)
    // an attempt that owns the lease is the only one, and nothing was launched before it
    && (s.lock == Some(h) && Attempting(p.pc) ==> s.launches == 0)
    && (s.lock == Some(h) && p.pc.Sync? && p.pc.andThen.ThenGo? ==> JustSubmitted(s.visible))
    && (s.lock == Some(h) && p.pc.Go? ==> JustSubmitted(s.visible) && JustSubmitted(s.durable))
    // a seal is only taken, and only answered, when nothing was launched
    && (p.pc.Answer? || (p.pc.Write? && p.pc.rec.Sealed?) || (p.pc.Sync? && p.pc.rec.Sealed?) ==>
          p.fd && s.launches == 0)
    && (p.pc.Answer? || (p.pc.Sync? && p.pc.rec.Sealed?) ==> !Permissive(s.visible))
    && (p.pc == Answer(true) ==> !Permissive(s.durable))
    // an empty journal is written by the lease holder alone, so no first record is ever mixed with another
    && (s.visible.Absent? ==> Early(p.pc))
    && (First(p.pc) ==> s.visible.Absent?)
    && (p.mixed ==> p.pc.Write? && !s.visible.Absent?)
    && (s.lock == Some(h) && (p.pc.Go? || (p.pc.Sync? && p.pc.andThen.ThenGo?)) ==> s.left == {})
  }

  predicate RunnerOk(s: State, h: nat)
    requires h in s.runners
  {
    var r := s.runners[h];
    && h in s.helpers && s.helpers[h].req.Execute?
    && (r.go ==> !r.cut)
    && (!r.cut ==> s.lock == Some(h))
    && (r.pc != Blocked ==> r.go)
    && (!r.go && !r.cut ==>
          var pc := s.helpers[h].pc;
          pc.Forked? || pc.Go? || (pc.Write? && pc.andThen.ThenGo?) || (pc.Sync? && pc.andThen.ThenGo?))
    && (r.go ==> !Attempting(s.helpers[h].pc) && !s.helpers[h].fd)
    && (r.cut ==> !Attempting(s.helpers[h].pc))
    && (r.go && r.pc == Blocked ==>
          s.launches == 0 && JustSubmitted(s.visible) && JustSubmitted(s.durable))
    && (r.pc != Blocked ==> Crossed(s.visible) && Crossed(s.durable))
    && (r.pc != Blocked && s.kind == Rollback ==> s.task.Some?)
    && (r.go ==> s.left == {})
    && (r.mixed ==> r.pc == Ran && s.kind == Mutation)
  }

  /** The lock lives as long as some process has the helper's lease descriptor. */
  predicate LeaseHeld(s: State, h: nat)
  {
    (h in s.helpers && s.helpers[h].fd) || h in s.runners
  }

  /** The records, what was left behind, the launch and its capture. */
  ghost predicate WorldOk(s: State)
  {
    && RecordOk(s, s.visible) && RecordOk(s, s.durable)
    && (forall rec :: rec in s.left ==> RecordOk(s, rec) && !Permissive(rec))
    && (s.lock.Some? ==> LeaseHeld(s, s.lock.value))
    && (forall d: nat :: Execute(d) in s.sent ==> DigestOf(s.job) == Some(d))
    && s.launches <= 1
    && (s.launches == 0 <==> s.task == None)
    && (s.launches == 1 ==> s.launchDigest.Some? && s.launchDigest == DigestOf(s.job))
    && (s.capture.Some? ==> s.capture == s.task)
    && (s.durableCapture.Some? ==> s.durableCapture == s.task)
  }

  ghost predicate Inv(s: State)
  {
    && (forall h :: h in s.helpers ==> HelperOk(s, h))
    && (forall h :: h in s.runners ==> RunnerOk(s, h))
    && WorldOk(s)
  }

  // ---------------------------------------------------------------------------
  // What each kind of step leaves alone
  // ---------------------------------------------------------------------------

  predicate SameWorld(s: State, s': State)
  {
    s'.kind == s.kind && s'.launches == s.launches && s'.task == s.task && s'.launchDigest == s.launchDigest
  }

  predicate SameJob(s: State, s': State)
  {
    s'.job == s.job && s'.sent == s.sent && s'.armedNow == s.armedNow
  }

  predicate OnlyHost(s: State, s': State)
  {
    SameWorld(s, s') && SameJob(s, s')
  }

  /** A helper's step leaves every other helper alone, and of the runners touches only its own one's pipe. */
  predicate OwnOnly(s: State, s': State, k: nat)
  {
    && k in s'.helpers && s'.helpers == s.helpers[k := s'.helpers[k]]
    && (forall h :: h in s.runners ==> h in s'.runners && (h != k ==> s'.runners[h] == s.runners[h]))
    && (k in s.runners ==> s'.runners[k].pc == s.runners[k].pc && (s.runners[k].cut ==> s'.runners[k].cut))
    && (s'.durable == s.durable || s'.durable == s.visible) && OnlyHost(s, s')
  }

  lemma LeaveIsOwn(s: State, k: nat)
    requires k in s.helpers
    ensures OwnOnly(s, Leave(s, k), k) && OwnOnly(s, Die(s, k), k)
  {
  }

  lemma LeaseIsOwn(s: State, s': State, k: nat)
    requires LeaseStep(s, s', k)
    ensures OwnOnly(s, s', k) && s'.visible == s.visible && s'.sealAnswered == s.sealAnswered
  {
    if req :| Deliver(s, s', k, req) {
    } else if Acquire(s, s', k) {
    } else {
      LeaveIsOwn(s, k);
    }
  }

  lemma AttemptIsOwn(s: State, s': State, k: nat)
    requires AttemptStep(s, s', k)
    ensures OwnOnly(s, s', k) && s'.visible == s.visible && s'.durable == s.durable && s'.sealAnswered == s.sealAnswered
  {
  }

  lemma WriteIsOwn(s: State, s': State, k: nat)
    requires WriteStep(s, s', k)
    ensures OwnOnly(s, s', k) && (s'.visible == s.visible || Place(s, s', k)) && s'.sealAnswered == s.sealAnswered
  {
    LeaveIsOwn(Fsynced(s), k);
  }

  lemma TaskIsOwn(s: State, s': State, k: nat)
    requires TaskStep(s, s', k)
    ensures OwnOnly(s, s', k) && s'.visible == s.visible && s'.sealAnswered == s.sealAnswered
  {
    LeaveIsOwn(s, k);
  }

  lemma EndIsOwn(s: State, s': State, k: nat)
    requires EndStep(s, s', k)
    ensures OwnOnly(s, s', k) && s'.visible == s.visible && s'.durable == s.durable
    ensures s'.helpers[k].pc.Gone? && (k in s.runners && !s.runners[k].go ==> s'.runners[k].cut)
    ensures s'.sealAnswered == s.sealAnswered || (AnswerSeal(s, s', k) && s'.sealAnswered)
  {
  }

  lemma HelperIsOwn(s: State, s': State, k: nat)
    requires HelperStep(s, s', k)
    ensures OwnOnly(s, s', k) && (s'.visible == s.visible || Place(s, s', k))
    ensures s'.sealAnswered == s.sealAnswered || (AnswerSeal(s, s', k) && s'.sealAnswered)
  {
    if LeaseStep(s, s', k) { LeaseIsOwn(s, s', k); }
    else if AttemptStep(s, s', k) { AttemptIsOwn(s, s', k); }
    else if WriteStep(s, s', k) { WriteIsOwn(s, s', k); }
    else if TaskStep(s, s', k) { TaskIsOwn(s, s', k); }
    else { EndIsOwn(s, s', k); }
  }

  lemma RunnerShape(s: State, s': State, h: nat)
    requires RunnerStep(s, s', h)
    ensures SameJob(s, s') && s'.kind == s.kind && s'.helpers == s.helpers
    ensures s'.sealAnswered == s.sealAnswered
    ensures SameWorld(s, s') || exists u :: Launch(s, s', h, u)
  {
    if RunnerGone(s, s', h) {
    } else if u :| Launch(s, s', h, u) {
    } else if RefuseLaunch(s, s', h) {
    } else if ok :| RunnerPlace(s, s', h, ok) {
    } else {
    }
  }

  lemma EnvironmentShape(s: State, s': State)
    requires EnvironmentStep(s, s')
    ensures SameWorld(s, s') && SameJob(s, s') && s'.sealAnswered == s.sealAnswered
  {
    if a, b :| Overlap(s, s', a, b) || OverlapRunner(s, s', a, b) {
      SharingShape(s, s', a, b);
    } else if h :| Smear(s, s', h) || SmearRunner(s, s', h) {
      SmearShape(s, s', h);
    }
  }

  lemma SharingShape(s: State, s': State, a: nat, b: nat)
    requires Overlap(s, s', a, b) || OverlapRunner(s, s', a, b)
    ensures SameWorld(s, s') && SameJob(s, s') && s'.sealAnswered == s.sealAnswered
  {
  }

  lemma SmearShape(s: State, s': State, h: nat)
    requires Smear(s, s', h) || SmearRunner(s, s', h)
    ensures SameWorld(s, s') && SameJob(s, s') && s'.sealAnswered == s.sealAnswered
  {
  }

  /** Backend steps touch only the job, the sent requests and the arming token. */
  lemma BackendShape(s: State, s': State)
    requires BackendStep(s, s')
    ensures s' == s.(job := s'.job, armedNow := s'.armedNow, sent := s'.sent)
    ensures DigestOf(s.job).Some? ==> DigestOf(s'.job) == DigestOf(s.job)
    ensures forall d: nat :: Execute(d) in s'.sent ==> Execute(d) in s.sent || DigestOf(s'.job) == Some(d)
  {
    if d :| Arm(s, s', d) {
    } else if SendExecute(s, s') {
    } else if SendSeal(s, s') {
    } else if SendInspect(s, s') {
    } else if SendOtherWork(s, s') {
    } else if ReleaseJob(s, s') {
    } else {
    }
  }

  lemma BackendKeepsInv(s: State, s': State)
    requires Inv(s) && BackendStep(s, s')
    ensures Inv(s')
  {
    BackendShape(s, s');
    JobKeepsInv(s, s');
  }

  lemma JobKeepsInv(s: State, s': State)
    requires Inv(s)
    requires s' == s.(job := s'.job, armedNow := s'.armedNow, sent := s'.sent)
    requires DigestOf(s.job).Some? ==> DigestOf(s'.job) == DigestOf(s.job)
    requires forall d: nat :: Execute(d) in s'.sent ==> Execute(d) in s.sent || DigestOf(s'.job) == Some(d)
    ensures Inv(s')
  {
    forall h | h in s'.helpers ensures HelperOk(s', h) { assert HelperOk(s, h); }
    forall h | h in s'.runners ensures RunnerOk(s', h) { assert RunnerOk(s, h); }
  }

  lemma DeliverKeepsInv(s: State, s': State, h: nat, req: Request)
    requires Inv(s) && Deliver(s, s', h, req)
    ensures Inv(s')
  {
    forall k | k in s'.helpers ensures HelperOk(s', k) {
      if k == h { DeliveredIsOk(s, s', h, req); } else { assert HelperOk(s, k); }
    }
    forall k | k in s'.runners ensures RunnerOk(s', k) { assert RunnerOk(s, k); }
  }

  lemma DeliveredIsOk(s: State, s': State, h: nat, req: Request)
    requires Deliver(s, s', h, req) && (forall d: nat :: Execute(d) in s.sent ==> DigestOf(s.job) == Some(d))
    ensures HelperOk(s', h)
  {
  }

  lemma AcquireKeepsInv(s: State, s': State, h: nat)
    requires Inv(s) && Acquire(s, s', h)
    ensures Inv(s')
  {
    assert HelperOk(s, h);
    forall k | k in s'.helpers ensures HelperOk(s', k) { assert HelperOk(s, k); }
    forall k | k in s'.runners ensures RunnerOk(s', k) {
      assert RunnerOk(s, k);
      FreeLeaseRunner(s, s', h, k);
    }
  }

  lemma FreeLeaseRunner(s: State, s': State, h: nat, k: nat)
    requires k in s.runners && RunnerOk(s, k) && Acquire(s, s', h) && HelperOk(s, h)
    ensures RunnerOk(s', k)
  {
  }

  lemma LeaveKeepsInv(s: State, h: nat)
    requires Inv(s) && h in s.helpers && !s.helpers[h].pc.Go?
    ensures Inv(Leave(s, h))
  {
    var s' := Leave(s, h);
    assert HelperOk(s, h);
    forall k | k in s'.helpers ensures HelperOk(s', k) { assert HelperOk(s, k); }
    forall k | k in s'.runners ensures RunnerOk(s', k) { LeavingRunnerIsOk(s, h, k); }
  }

  lemma LeavingRunnerIsOk(s: State, h: nat, k: nat)
    requires h in s.helpers && HelperOk(s, h) && k in s.runners && RunnerOk(s, k) && !s.helpers[h].pc.Go?
    ensures RunnerOk(Leave(s, h), k)
  {
  }

  lemma DieKeepsInv(s: State, h: nat)
    requires Inv(s) && h in s.helpers
    ensures Inv(Die(s, h))
  {
    var s' := Die(s, h);
    assert HelperOk(s, h);
    LeftoverIsOk(s, h);
    forall k | k in s'.helpers ensures HelperOk(s', k) { DyingHelperIsOk(s, h, k); }
    forall k | k in s'.runners ensures RunnerOk(s', k) { DyingRunnerIsOk(s, h, k); }
  }

  lemma LeftoverIsOk(s: State, h: nat)
    requires Inv(s) && h in s.helpers
    ensures forall rec :: rec in Leftover(s.helpers[h]) ==> RecordOk(s, rec) && !Permissive(rec)
    ensures Leftover(s.helpers[h]) != {} ==> s.lock == Some(h) && h !in s.runners
  {
    if s.helpers[h].pc.Write? { WrittenIsOk(s, h); }
    assert HelperOk(s, h);
  }

  lemma DyingHelperIsOk(s: State, h: nat, k: nat)
    requires h in s.helpers && HelperOk(s, h) && k in s.helpers && HelperOk(s, k)
    ensures HelperOk(Die(s, h), k)
  {
  }

  lemma DyingRunnerIsOk(s: State, h: nat, k: nat)
    requires h in s.helpers && HelperOk(s, h) && k in s.runners && RunnerOk(s, k)
    requires Leftover(s.helpers[h]) != {} ==> s.lock == Some(h) && h !in s.runners
    ensures RunnerOk(Die(s, h), k)
  {
  }

  lemma ReadKeepsInv(s: State, s': State, h: nat)
    requires Inv(s) && ReadJournal(s, s', h)
    ensures Inv(s')
  {
    var pc := AfterRead(s.kind, s.helpers[h].req, s.visible);
    if pc == None {
      LeaveKeepsInv(s, h);
    } else {
      ReaderIsOk(s, h, pc.value);
      MoveKeepsInv(s, h, pc.value);
    }
  }

  lemma ReaderIsOk(s: State, h: nat, pc: Pc)
    requires Inv(s) && At(s, h, Holding)
    requires AfterRead(s.kind, s.helpers[h].req, s.visible) == Some(pc)
    ensures HelperOk(SetPc(s, h, pc), h) && h !in s.runners
  {
    assert HelperOk(s, h);
    if s.helpers[h].req.Execute? { SubmitterIsOk(s, h, pc); } else { OtherReaderIsOk(s, h, pc); }
  }

  lemma SubmitterIsOk(s: State, h: nat, pc: Pc)
    requires h in s.helpers && HelperOk(s, h) && RecordOk(s, s.visible) && At(s, h, Holding) && s.helpers[h].req.Execute?
    requires AfterRead(s.kind, s.helpers[h].req, s.visible) == Some(pc)
    ensures HelperOk(SetPc(s, h, pc), h)
  {
  }

  lemma OtherReaderIsOk(s: State, h: nat, pc: Pc)
    requires h in s.helpers && HelperOk(s, h) && RecordOk(s, s.visible) && At(s, h, Holding) && !s.helpers[h].req.Execute?
    requires AfterRead(s.kind, s.helpers[h].req, s.visible) == Some(pc)
    ensures HelperOk(SetPc(s, h, pc), h)
  {
  }

  /** Only helper `h` moved, and nothing else: every other process is as it was. */
  lemma MoveKeepsInv(s: State, h: nat, pc: Pc)
    requires Inv(s) && h in s.helpers
    requires HelperOk(SetPc(s, h, pc), h)
    requires h in s.runners ==> RunnerOk(SetPc(s, h, pc), h)
    ensures Inv(SetPc(s, h, pc))
  {
    var s' := SetPc(s, h, pc);
    forall k | k in s'.helpers ensures HelperOk(s', k) { assert HelperOk(s, k); }
    forall k | k in s'.runners ensures RunnerOk(s', k) { assert RunnerOk(s, k); }
  }

  lemma PassPreflightKeepsInv(s: State, s': State, h: nat)
    requires Inv(s) && PassPreflight(s, s', h)
    ensures Inv(s')
  {
    assert HelperOk(s, h);
    MoveKeepsInv(s, h, s'.helpers[h].pc);
  }

  lemma ForkKeepsInv(s: State, s': State, h: nat)
    requires Inv(s) && Fork(s, s', h)
    ensures Inv(s')
  {
    assert HelperOk(s, h);
    forall k | k in s'.helpers ensures HelperOk(s', k) { assert HelperOk(s, k); }
    forall k | k in s'.runners ensures RunnerOk(s', k) { assert k != h ==> RunnerOk(s, k); }
  }

  lemma ReadyKeepsInv(s: State, s': State, h: nat)
    requires Inv(s) && Ready(s, s', h)
    ensures Inv(s')
  {
    assert HelperOk(s, h);
    forall k | k in s'.helpers ensures HelperOk(s', k) {
      assert HelperOk(s, k);
      ReadyHelperIsOk(s, s', h, k);
    }
    forall k | k in s'.runners ensures RunnerOk(s', k) {
      assert RunnerOk(s, k);
      ReadyRunnerIsOk(s, s', h, k);
    }
  }

  lemma ReadyHelperIsOk(s: State, s': State, h: nat, k: nat)
    requires Ready(s, s', h) && HelperOk(s, h) && k in s.helpers && HelperOk(s, k)
    ensures HelperOk(s', k)
  {
  }

  lemma ReadyRunnerIsOk(s: State, s': State, h: nat, k: nat)
    requires Ready(s, s', h) && HelperOk(s, h) && k in s.runners && RunnerOk(s, k)
    ensures RunnerOk(s', k)
  {
  }

  /** While an attempt owns the lease, whoever else is in the temporary file writes `submitted`. */
  lemma OthersSubmit(s: State, e: nat, k: nat)
    requires Inv(s) && s.lock == Some(e) && k != e && InTemporaryFile(s, k) && s.launches == 0
    ensures s.helpers[k].pc.rec == Submitted
  {
    assert HelperOk(s, k);
  }

  /** A record that a shared temporary file may turn into. */
  lemma MixedIsOk(s: State, h: nat, rec: Record)
    requires Inv(s) && MixedContent(s, h, rec)
    ensures RecordOk(s, rec) && !Permissive(rec)
  {
    if k :| InTemporaryFile(s, k) && s.helpers[k].mixed && s.helpers[k].pc.rec == rec {
      WrittenIsOk(s, k);
    }
  }

  lemma WrittenIsOk(s: State, k: nat)
    requires Inv(s) && InTemporaryFile(s, k)
    ensures RecordOk(s, s.helpers[k].pc.rec)
    ensures Permissive(s.helpers[k].pc.rec) ==> s.visible.Absent? && !s.helpers[k].mixed && s.lock == Some(k)
  {
    assert HelperOk(s, k);
  }

  lemma PublishedIsOk(s: State, h: nat, rec: Record)
    requires Inv(s) && InTemporaryFile(s, h) && Publishes(s, h, rec)
    ensures RecordOk(s, rec) && !rec.Absent?
    ensures rec.Intent? ==> s.visible.Absent? && s.lock == Some(h)
  {
    if rec == s.helpers[h].pc.rec {
      WrittenIsOk(s, h);
      assert HelperOk(s, h);
    } else {
      MixedIsOk(s, h, rec);
    }
  }

  lemma PublishedSubmits(s: State, h: nat, rec: Record, e: nat)
    requires Inv(s) && InTemporaryFile(s, h) && Publishes(s, h, rec) && s.launches == 0
    requires s.lock == Some(e) && (h == e ==> s.helpers[e].pc.rec == Submitted) && (h != e ==> s.left == {})
    requires e in s.helpers && (s.helpers[e].pc.Write? ==> s.helpers[e].pc.rec == Submitted)
    requires e in s.runners ==> s.runners[e].pc == Blocked
    ensures JustSubmitted(rec)
  {
    if h != e { OthersSubmit(s, e, h); }
    if s.helpers[h].mixed && MixedContent(s, h, rec) {
      if k :| InTemporaryFile(s, k) && s.helpers[k].mixed && s.helpers[k].pc.rec == rec {
        if k != e { OthersSubmit(s, e, k); }
      }
    }
  }

  lemma PlacedHelperIsOk(s: State, s': State, h: nat, k: nat)
    requires Inv(s) && Place(s, s', h) && k in s'.helpers
    ensures HelperOk(s', k)
  {
    assert HelperOk(s, k) && HelperOk(s, h);
    PublishedIsOk(s, h, s'.visible);
    var pc := s.helpers[k].pc;
    if s.lock == Some(k) && (pc.Go? || (pc.Sync? && pc.andThen.ThenGo?) || (k == h && pc.andThen.ThenGo?)) {
      if k in s.runners { assert RunnerOk(s, k); }
      PublishedSubmits(s, h, s'.visible, k);
    }
    if k == h { PlacerIsOk(s, s', h); } else { BesidePlacerIsOk(s, s', h, k); }
  }

  lemma PlacerIsOk(s: State, s': State, h: nat)
    requires Place(s, s', h) && HelperOk(s, h) && RecordOk(s, s'.visible) && !s'.visible.Absent?
    requires s'.visible.Intent? ==> s.visible.Absent?
    requires s.lock == Some(h) && s.helpers[h].pc.andThen.ThenGo? ==> JustSubmitted(s'.visible)
    ensures HelperOk(s', h)
  {
  }

  lemma BesidePlacerIsOk(s: State, s': State, h: nat, k: nat)
    requires Place(s, s', h) && HelperOk(s, h) && k in s.helpers && k != h && HelperOk(s, k)
    requires !s'.visible.Absent? && (s'.visible.Intent? ==> s.visible.Absent? && s.lock == Some(h))
    requires var pc := s.helpers[k].pc;
             s.lock == Some(k) && (pc.Go? || (pc.Sync? && pc.andThen.ThenGo?)) ==> JustSubmitted(s'.visible)
    ensures HelperOk(s', k)
  {
  }

  lemma PlacedRunnerIsOk(s: State, s': State, h: nat, k: nat)
    requires Inv(s) && Place(s, s', h) && k in s'.runners
    ensures RunnerOk(s', k)
  {
    assert RunnerOk(s, k) && HelperOk(s, k) && HelperOk(s, h);
    if s.runners[k].go && s.runners[k].pc == Blocked {
      PublishedSubmits(s, h, s'.visible, k);
    } else if s.runners[k].pc != Blocked {
      PublishedCrossed(s, h, s'.visible, k);
    }
  }

  lemma PublishedCrossed(s: State, h: nat, rec: Record, r: nat)
    requires Inv(s) && InTemporaryFile(s, h) && Publishes(s, h, rec) && r in s.runners && s.runners[r].pc != Blocked
    ensures Crossed(rec)
  {
    assert RunnerOk(s, r);
    WriterCrosses(s, h, r);
    if s.helpers[h].mixed && MixedContent(s, h, rec) {
      if k :| InTemporaryFile(s, k) && s.helpers[k].mixed && s.helpers[k].pc.rec == rec {
        WriterCrosses(s, k, r);
      }
    }
  }

  lemma WriterCrosses(s: State, k: nat, r: nat)
    requires Inv(s) && InTemporaryFile(s, k) && r in s.runners && s.runners[r].pc != Blocked
    ensures Crossed(s.helpers[k].pc.rec)
  {
    assert RunnerOk(s, r) && HelperOk(s, k);
  }

  lemma PlaceKeepsInv(s: State, s': State, h: nat)
    requires Inv(s) && Place(s, s', h)
    ensures Inv(s')
  {
    PublishedIsOk(s, h, s'.visible);
    forall k | k in s'.helpers ensures HelperOk(s', k) { PlacedHelperIsOk(s, s', h, k); }
    forall k | k in s'.runners ensures RunnerOk(s', k) { PlacedRunnerIsOk(s, s', h, k); }
  }

  lemma SyncKeepsInv(s: State, s': State, h: nat)
    requires Inv(s) && SyncDirectory(s, s', h)
    ensures Inv(s')
  {
    FsyncKeepsInv(s);
    match AfterWrite(s.helpers[h].pc.andThen)
    case None => LeaveKeepsInv(Fsynced(s), h);
    case Some(pc) =>
      SyncedHelperIsOk(Fsynced(s), h, pc);
      if h in s.runners { SyncedRunnerIsOk(Fsynced(s), h, pc); }
      MoveKeepsInv(Fsynced(s), h, pc);
  }

  lemma SyncedHelperIsOk(t: State, h: nat, pc: Pc)
    requires Inv(t) && t.durable == t.visible && h in t.helpers && t.helpers[h].pc.Sync?
    requires AfterWrite(t.helpers[h].pc.andThen) == Some(pc)
    ensures HelperOk(SetPc(t, h, pc), h)
  {
    assert HelperOk(t, h);
  }

  lemma SyncedRunnerIsOk(t: State, h: nat, pc: Pc)
    requires Inv(t) && t.durable == t.visible && h in t.helpers && t.helpers[h].pc.Sync? && h in t.runners
    requires AfterWrite(t.helpers[h].pc.andThen) == Some(pc)
    ensures RunnerOk(SetPc(t, h, pc), h)
  {
    assert HelperOk(t, h) && RunnerOk(t, h);
  }

  lemma FsyncKeepsInv(s: State)
    requires Inv(s)
    ensures Inv(Fsynced(s))
  {
    var t := Fsynced(s);
    forall h | h in t.helpers ensures HelperOk(t, h) { assert HelperOk(s, h); }
    forall h | h in t.runners ensures RunnerOk(t, h) { assert RunnerOk(s, h); }
  }

  lemma ReleaseKeepsInv(s: State, s': State, h: nat)
    requires Inv(s) && ReleaseRunner(s, s', h)
    ensures Inv(s')
  {
    assert HelperOk(s, h);
    forall k | k in s'.helpers ensures HelperOk(s', k) {
      assert HelperOk(s, k);
      ReleasedHelperIsOk(s, s', h, k);
    }
    forall k | k in s'.runners ensures RunnerOk(s', k) {
      assert RunnerOk(s, k);
      ReleasedRunnerIsOk(s, s', h, k);
    }
  }

  lemma ReleasedHelperIsOk(s: State, s': State, h: nat, k: nat)
    requires ReleaseRunner(s, s', h) && HelperOk(s, h) && k in s.helpers && HelperOk(s, k)
    ensures HelperOk(s', k)
  {
  }

  lemma ReleasedRunnerIsOk(s: State, s': State, h: nat, k: nat)
    requires ReleaseRunner(s, s', h) && HelperOk(s, h) && k in s.runners && RunnerOk(s, k)
    ensures RunnerOk(s', k)
  {
  }

  lemma ReadCaptureKeepsInv(s: State, s': State, h: nat)
    requires Inv(s) && ReadCapture(s, s', h)
    ensures Inv(s')
  {
    if s.capture.Some? && s.capture.value.Some? {
      MoveKeepsInv(s, h, s'.helpers[h].pc);
    } else {
      LeaveKeepsInv(s, h);
    }
  }

  lemma CleanupKeepsInv(s: State, s': State, h: nat)
    requires Inv(s) && CleanupCapture(s, s', h)
    ensures Inv(s')
  {
    var t := SetPc(s, h, AfterCleanup(s.helpers[h].pc));
    CleanerMoves(s, h);
    NoCaptureKeepsInv(t);
    FsyncKeepsInv(t.(capture := None));
  }

  function AfterCleanup(pc: Pc): Pc
    requires pc.Cleanup?
  {
    if pc.own then Write(TaskKnown(pc.upid), ThenExit) else Classify(pc.upid)
  }

  lemma CleanerMoves(s: State, h: nat)
    requires Inv(s) && h in s.helpers && s.helpers[h].pc.Cleanup?
    ensures Inv(SetPc(s, h, AfterCleanup(s.helpers[h].pc)))
  {
    var pc := AfterCleanup(s.helpers[h].pc);
    assert HelperOk(s, h);
    CleanerIsOk(s, h);
    if h in s.runners { assert RunnerOk(s, h); }
    MoveKeepsInv(s, h, pc);
  }

  lemma CleanerIsOk(s: State, h: nat)
    requires h in s.helpers && s.helpers[h].pc.Cleanup? && HelperOk(s, h)
    ensures HelperOk(SetPc(s, h, AfterCleanup(s.helpers[h].pc)), h)
  {
  }

  lemma NoCaptureKeepsInv(t: State)
    requires Inv(t)
    ensures Inv(t.(capture := None))
  {
    var u := t.(capture := None);
    forall k | k in u.helpers ensures HelperOk(u, k) { assert HelperOk(t, k); }
    forall k | k in u.runners ensures RunnerOk(u, k) { assert RunnerOk(t, k); }
  }

  lemma ClassifyKeepsInv(s: State, s': State, h: nat, ok: bool)
    requires Inv(s) && ClassifyTask(s, s', h, ok)
    ensures Inv(s')
  {
    MoveKeepsInv(s, h, s'.helpers[h].pc);
  }

  lemma HelperKeepsInv(s: State, s': State, h: nat)
    requires Inv(s) && HelperStep(s, s', h)
    ensures Inv(s')
  {
    if LeaseStep(s, s', h) { LeaseStepKeepsInv(s, s', h); }
    else if AttemptStep(s, s', h) { AttemptStepKeepsInv(s, s', h); }
    else if WriteStep(s, s', h) { WriteStepKeepsInv(s, s', h); }
    else if TaskStep(s, s', h) { TaskStepKeepsInv(s, s', h); }
    else { EndStepKeepsInv(s, s', h); }
  }

  lemma LeaseStepKeepsInv(s: State, s': State, h: nat)
    requires Inv(s) && LeaseStep(s, s', h)
    ensures Inv(s')
  {
    if req :| Deliver(s, s', h, req) { DeliverKeepsInv(s, s', h, req); }
    else if Acquire(s, s', h) { AcquireKeepsInv(s, s', h); }
    else { ReadKeepsInv(s, s', h); }
  }

  lemma AttemptStepKeepsInv(s: State, s': State, h: nat)
    requires Inv(s) && AttemptStep(s, s', h)
    ensures Inv(s')
  {
    if PassPreflight(s, s', h) { PassPreflightKeepsInv(s, s', h); }
    else if Fork(s, s', h) { ForkKeepsInv(s, s', h); }
    else if Ready(s, s', h) { ReadyKeepsInv(s, s', h); }
    else { ReleaseKeepsInv(s, s', h); }
  }

  lemma WriteStepKeepsInv(s: State, s': State, h: nat)
    requires Inv(s) && WriteStep(s, s', h)
    ensures Inv(s')
  {
    if Place(s, s', h) { PlaceKeepsInv(s, s', h); }
    else { SyncKeepsInv(s, s', h); }
  }

  lemma TaskStepKeepsInv(s: State, s': State, h: nat)
    requires Inv(s) && TaskStep(s, s', h)
    ensures Inv(s')
  {
    if ReadCapture(s, s', h) { ReadCaptureKeepsInv(s, s', h); }
    else if CleanupCapture(s, s', h) { CleanupKeepsInv(s, s', h); }
    else { var ok :| ClassifyTask(s, s', h, ok); ClassifyKeepsInv(s, s', h, ok); }
  }

  lemma EndStepKeepsInv(s: State, s': State, h: nat)
    requires Inv(s) && EndStep(s, s', h)
    ensures Inv(s')
  {
    if AnswerSeal(s, s', h) { LeaveKeepsInv(s, h); }
    else if GiveUp(s, s', h) { LeaveKeepsInv(s, h); }
    else { DieKeepsInv(s, h); }
  }

  lemma RunnerGoneKeepsInv(s: State, s': State, h: nat)
    requires Inv(s) && RunnerGone(s, s', h)
    ensures Inv(s')
  {
    assert RunnerOk(s, h);
    forall k | k in s'.helpers ensures HelperOk(s', k) {
      assert HelperOk(s, k);
      AfterRunnerHelperIsOk(s, s', h, k);
    }
    forall k | k in s'.runners ensures RunnerOk(s', k) {
      assert RunnerOk(s, k);
      AfterRunnerRunnerIsOk(s, s', h, k);
    }
    AfterRunnerWorldIsOk(s, s', h);
  }

  lemma AfterRunnerWorldIsOk(s: State, s': State, h: nat)
    requires WorldOk(s) && RunnerGone(s, s', h) && RunnerOk(s, h)
    ensures WorldOk(s')
  {
  }

  lemma AfterRunnerHelperIsOk(s: State, s': State, h: nat, k: nat)
    requires RunnerGone(s, s', h) && RunnerOk(s, h) && k in s.helpers && HelperOk(s, k)
    ensures HelperOk(s', k)
  {
  }

  lemma AfterRunnerRunnerIsOk(s: State, s': State, h: nat, k: nat)
    requires RunnerGone(s, s', h) && RunnerOk(s, h) && k in s'.runners && RunnerOk(s, k)
    ensures RunnerOk(s', k)
  {
  }

  lemma LaunchKeepsInv(s: State, s': State, h: nat, reported: Option<nat>)
    requires Inv(s) && Launch(s, s', h, reported)
    ensures Inv(s')
  {
    assert RunnerOk(s, h);
    forall k | k in s'.helpers ensures HelperOk(s', k) { assert HelperOk(s, k); }
    forall k | k in s'.runners ensures RunnerOk(s', k) { assert RunnerOk(s, k); }
  }

  lemma RefuseKeepsInv(s: State, s': State, h: nat)
    requires Inv(s) && RefuseLaunch(s, s', h)
    ensures Inv(s')
  {
    assert RunnerOk(s, h);
    forall k | k in s'.helpers ensures HelperOk(s', k) { assert HelperOk(s, k); }
    forall k | k in s'.runners ensures RunnerOk(s', k) { assert RunnerOk(s, k); }
  }

  lemma RunnerMoveKeepsInv(s: State, h: nat)
    requires Inv(s) && h in s.runners && s.runners[h].pc == Ran
    ensures Inv(s.(runners := s.runners[h := s.runners[h].(pc := Placed, mixed := false)]))
  {
    var t := s.(runners := s.runners[h := s.runners[h].(pc := Placed, mixed := false)]);
    forall k | k in t.helpers ensures HelperOk(t, k) { assert HelperOk(s, k); }
    forall k | k in t.runners ensures RunnerOk(t, k) { assert RunnerOk(s, k); }
  }

  lemma ResultKeepsInv(t: State, h: nat, rec: Record)
    requires Inv(t) && h in t.runners && t.runners[h].pc == Placed && t.kind == Mutation
    requires RecordOk(t, rec) && Crossed(rec)
    ensures Inv(t.(visible := rec, left := {}))
  {
    var u := t.(visible := rec, left := {});
    assert RunnerOk(t, h);
    forall k | k in u.helpers ensures HelperOk(u, k) { assert HelperOk(t, k); }
    forall k | k in u.runners ensures RunnerOk(u, k) { assert RunnerOk(t, k); }
  }

  lemma CaptureKeepsInv(t: State, h: nat)
    requires Inv(t) && h in t.runners && t.runners[h].pc == Placed && t.kind == Rollback
    ensures Inv(t.(capture := t.task))
  {
    var u := t.(capture := t.task);
    assert RunnerOk(t, h);
    forall k | k in u.helpers ensures HelperOk(u, k) { assert HelperOk(t, k); }
    forall k | k in u.runners ensures RunnerOk(u, k) { assert RunnerOk(t, k); }
  }

  lemma ResultIsOk(s: State, s': State, h: nat, ok: bool)
    requires Inv(s) && RunnerPlace(s, s', h, ok) && s.kind == Mutation
    ensures RecordOk(s, s'.visible) && Crossed(s'.visible)
  {
    assert RunnerOk(s, h);
    if s'.visible != Terminal(ok, None) {
      MixedIsOk(s, h, s'.visible);
      if k :| InTemporaryFile(s, k) && s.helpers[k].mixed && s.helpers[k].pc.rec == s'.visible {
        WriterCrosses(s, k, h);
      }
    }
  }

  lemma RunnerPlaceKeepsInv(s: State, s': State, h: nat, ok: bool)
    requires Inv(s) && RunnerPlace(s, s', h, ok)
    ensures Inv(s')
  {
    RunnerMoveKeepsInv(s, h);
    var t := s.(runners := s.runners[h := s.runners[h].(pc := Placed, mixed := false)]);
    if s.kind == Mutation {
      ResultIsOk(s, s', h, ok);
      ResultKeepsInv(t, h, s'.visible);
    } else {
      CaptureKeepsInv(t, h);
    }
  }

  lemma RunnerKeepsInv(s: State, s': State, h: nat)
    requires Inv(s) && RunnerStep(s, s', h)
    ensures Inv(s')
  {
    if RunnerGone(s, s', h) { RunnerGoneKeepsInv(s, s', h); }
    else if u :| Launch(s, s', h, u) { LaunchKeepsInv(s, s', h, u); }
    else if RefuseLaunch(s, s', h) { RefuseKeepsInv(s, s', h); }
    else if ok :| RunnerPlace(s, s', h, ok) { RunnerPlaceKeepsInv(s, s', h, ok); }
    else { FsyncKeepsInv(s); }
  }

  /** Two writers share the file only over a journal that is not empty any more. */
  lemma SharedIsNotFirst(s: State, a: nat, b: nat)
    requires Inv(s) && InTemporaryFile(s, a)
    requires (a != b && InTemporaryFile(s, b)) || RunnerInTemporaryFile(s, b)
    ensures !s.visible.Absent?
  {
    assert HelperOk(s, a);
    if InTemporaryFile(s, b) { assert HelperOk(s, b); }
    if RunnerInTemporaryFile(s, b) { assert RunnerOk(s, b); }
  }

  lemma OverlapKeepsInv(s: State, s': State, a: nat, b: nat)
    requires Inv(s) && Overlap(s, s', a, b)
    ensures Inv(s')
  {
    SharedIsNotFirst(s, a, b);
    forall k | k in s'.helpers ensures HelperOk(s', k) {
      assert HelperOk(s, k);
      OverlappedHelperIsOk(s, s', a, b, k);
    }
    forall k | k in s'.runners ensures RunnerOk(s', k) {
      assert RunnerOk(s, k);
      OverlappedRunnerIsOk(s, s', a, b, k);
    }
  }

  lemma OverlappedHelperIsOk(s: State, s': State, a: nat, b: nat, k: nat)
    requires Overlap(s, s', a, b) && !s.visible.Absent? && k in s.helpers && HelperOk(s, k)
    ensures HelperOk(s', k)
  {
  }

  lemma OverlappedRunnerIsOk(s: State, s': State, a: nat, b: nat, k: nat)
    requires Overlap(s, s', a, b) && k in s.runners && RunnerOk(s, k)
    ensures RunnerOk(s', k)
  {
  }

  lemma OverlapRunnerKeepsInv(s: State, s': State, a: nat, b: nat)
    requires Inv(s) && OverlapRunner(s, s', a, b)
    ensures Inv(s')
  {
    SharedIsNotFirst(s, a, b);
    forall k | k in s'.helpers ensures HelperOk(s', k) { assert HelperOk(s, k); }
    forall k | k in s'.runners ensures RunnerOk(s', k) { assert RunnerOk(s, k); }
  }

  lemma SmearedHelperIsOk(s: State, s': State, h: nat, k: nat)
    requires Inv(s) && Smear(s, s', h) && k in s.helpers
    ensures HelperOk(s', k)
  {
    assert HelperOk(s, k) && HelperOk(s, h);
    WrittenIsOk(s, h);
    var pc := s.helpers[k].pc;
    if s.lock == Some(k) && k != h && (pc.Go? || (pc.Sync? && pc.andThen.ThenGo?)) {
      OthersSubmit(s, k, h);
    }
  }

  lemma SmearedRunnerIsOk(s: State, s': State, h: nat, k: nat)
    requires Inv(s) && Smear(s, s', h) && k in s.runners
    ensures RunnerOk(s', k)
  {
    assert RunnerOk(s, k) && HelperOk(s, k) && HelperOk(s, h);
    if s.runners[k].pc != Blocked {
      WriterCrosses(s, h, k);
    } else if s.runners[k].go {
      if k != h { OthersSubmit(s, k, h); }
    }
  }

  lemma SmearKeepsInv(s: State, s': State, h: nat)
    requires Inv(s) && Smear(s, s', h)
    ensures Inv(s')
  {
    SmearedTo(s, s', h);
    forall k | k in s.helpers ensures HelperOk(s', k) { SmearedHelperIsOk(s, s', h, k); }
    forall k | k in s.runners ensures RunnerOk(s', k) { SmearedRunnerIsOk(s, s', h, k); }
  }

  lemma SmearedTo(s: State, s': State, h: nat)
    requires Inv(s) && Smear(s, s', h)
    ensures RecordOk(s, s'.visible) && s' == s.(visible := s'.visible)
  {
    WrittenIsOk(s, h);
  }

  lemma SmearRunnerKeepsInv(s: State, s': State, h: nat)
    requires Inv(s) && SmearRunner(s, s', h)
    ensures Inv(s')
  {
    SmearedRecordIsOk(s, s', h);
    CrossedKeepsInv(s, s', h);
  }

  lemma SmearedRecordIsOk(s: State, s': State, h: nat)
    requires SmearRunner(s, s', h)
    ensures Crossed(s'.visible) && RecordOk(s, s'.visible) && s' == s.(visible := s'.visible)
  {
  }

  /** Once the command may have run, any record past submission may take the place of another. */
  lemma CrossedKeepsInv(s: State, s': State, h: nat)
    requires Inv(s) && h in s.runners && s.runners[h].pc == Ran && s' == s.(visible := s'.visible)
    requires Crossed(s'.visible) && RecordOk(s, s'.visible)
    ensures Inv(s')
  {
    assert RunnerOk(s, h);
    forall k | k in s'.helpers ensures HelperOk(s', k) {
      assert HelperOk(s, k);
      BesideRunnerHelperIsOk(s, s', h, k);
    }
    forall k | k in s'.runners ensures RunnerOk(s', k) { assert RunnerOk(s, k); }
  }

  lemma BesideRunnerHelperIsOk(s: State, s': State, h: nat, k: nat)
    requires h in s.runners && RunnerOk(s, h) && s.runners[h].pc == Ran && s' == s.(visible := s'.visible)
    requires Crossed(s'.visible) && k in s.helpers && HelperOk(s, k)
    ensures HelperOk(s', k)
  {
  }

  lemma WritebackKeepsInv(s: State, s': State)
    requires Inv(s) && Writeback(s, s')
    ensures Inv(s')
  {
    WrittenBackWorldIsOk(s, s');
    forall k | k in s'.helpers ensures HelperOk(s', k) {
      assert HelperOk(s, k);
      WrittenBackHelperIsOk(s, s', k);
    }
    forall k | k in s'.runners ensures RunnerOk(s', k) {
      assert RunnerOk(s, k);
      WrittenBackRunnerIsOk(s, s', k);
    }
  }

  lemma WrittenBackWorldIsOk(s: State, s': State)
    requires WorldOk(s) && Writeback(s, s')
    ensures WorldOk(s')
  {
  }

  lemma WrittenBackHelperIsOk(s: State, s': State, k: nat)
    requires Writeback(s, s') && k in s.helpers && HelperOk(s, k)
    ensures HelperOk(s', k)
  {
  }

  lemma WrittenBackRunnerIsOk(s: State, s': State, k: nat)
    requires Writeback(s, s') && k in s.runners && RunnerOk(s, k)
    ensures RunnerOk(s', k)
  {
  }

  lemma PowerLossKeepsInv(s: State, s': State)
    requires Inv(s) && PowerLoss(s, s')
    ensures Inv(s')
  {
  }

  lemma EnvironmentKeepsInv(s: State, s': State)
    requires Inv(s) && EnvironmentStep(s, s')
    ensures Inv(s')
  {
    if a, b :| Overlap(s, s', a, b) { OverlapKeepsInv(s, s', a, b); }
    else if a, b :| OverlapRunner(s, s', a, b) { OverlapRunnerKeepsInv(s, s', a, b); }
    else if h :| Smear(s, s', h) { SmearKeepsInv(s, s', h); }
    else if h :| SmearRunner(s, s', h) { SmearRunnerKeepsInv(s, s', h); }
    else if Writeback(s, s') { WritebackKeepsInv(s, s'); }
    else { PowerLossKeepsInv(s, s'); }
  }

  lemma NextKeepsInv(s: State, s': State)
    requires Inv(s) && Next(s, s')
    ensures Inv(s')
  {
    if BackendStep(s, s') { BackendKeepsInv(s, s'); }
    else if h :| HelperStep(s, s', h) { HelperKeepsInv(s, s', h); }
    else if h :| RunnerStep(s, s', h) { RunnerKeepsInv(s, s', h); }
    else { EnvironmentKeepsInv(s, s'); }
  }

  /** Every state of every run satisfies the invariant. */
  lemma {:induction false} PathInv(run: seq<State>, i: nat)
    requires IsPath(run) && Inv(run[0]) && i < |run|
    ensures Inv(run[i])
  {
    if i > 0 {
      PathInv(run, i - 1);
      assert StepAt(run, i - 1);
      NextKeepsInv(run[i - 1], run[i]);
    }
  }
}
