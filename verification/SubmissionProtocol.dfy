/**
 The at-most-once destructive operation protocol, as a transition system over the one journal
 record of one operation identity.

 The package-mutation helper and the rollback helper run the same barrier -- take the per-VMID
 lease, read the journal, fork a runner that waits for a GO byte, journal `submitted`, release
 the runner -- so one transition system carries a `Kind` and the steps that only one of them has
 are guarded by it.

 A helper is one forced-command invocation. Requests are never consumed: a sent request may
 start a helper any number of times, however late, and before or after a host power loss.
 A journal write is two steps, the rename (`Place`) and the directory fsync (`SyncDirectory`);
 in between the visible and the durable record differ. What happens inside one write is the
 subject of module Journal, and what happens when two writers have the record's one temporary
 file open together (`Overlap`) the subject of module SharedTemporary: a rename may then publish
 the other writer's record or a torn one, and a writer that is still in the file may damage what
 the other one published.
 */
module SubmissionProtocol {
  import opened Wrappers

  datatype Kind = Mutation | Rollback

  /** The journal record of this operation; `Torn` is a record no reader accepts. */
  datatype Record =
    | Absent
    | Intent(digest: nat)
    | Sealed
    | Submitted
    | TaskKnown(upid: nat)
    | Terminal(succeeded: bool, task: Option<nat>)
    | Torn

  datatype Request = Execute(digest: nat) | Seal | Inspect | OtherWork

  /** The backend's durable job: unarmed, armed with one accepted digest, or released as blocked. */
  datatype Job = Unarmed | Armed(digest: nat) | Released(digest: nat)

  /** What a helper does once the write it is making is durable. */
  datatype Then =
    | ThenPreflight
    | ThenFork
    | ThenGo
    | ThenAnswer
    | ThenCleanup(upid: nat, own: bool)
    | ThenExit

  datatype Pc =
    | Waiting                               // started, lease not taken yet
    | Holding                               // lease taken, journal not read yet
    | Preflight(unrecorded: bool)           // unrecorded: no record existed when it was read
    | Forking
    | Forked                                // runner forked, READY not received yet
    | Write(rec: Record, andThen: Then)     // temporary file open, not renamed
    | Sync(rec: Record, andThen: Then)      // renamed, directory not fsynced
    | Go                                    // `submitted` is durable, GO is the next action
    | Promote(own: bool)                    // about to read the completed capture
    | Cleanup(upid: nat, own: bool)         // task identity journaled, capture still there
    | Classify(upid: nat)                   // about to read the task's status
    | Answer(wrote: bool)                   // about to return the seal, written by this helper or not
    | Gone

  /** `fd`: this process still has its own lease descriptor open. `mixed`: it shared the file it is writing. */
  datatype Helper = Helper(req: Request, pc: Pc, fd: bool, mixed: bool)

  datatype RunnerPc = Blocked | Ran | Placed

  /** `go`: the GO byte is in its pipe. `cut`: the pipe was closed without GO. Only live runners exist. */
  datatype Runner = Runner(pc: RunnerPc, go: bool, cut: bool, mixed: bool)

  datatype State = State(
    kind: Kind,
    // backend
    job: Job,
    armedNow: bool,                          // the invocation that got ARMED_NOW has not submitted yet
    sent: set<Request>,
    sealAnswered: bool,                      // some helper returned `sealed_not_submitted` from a seal
    // host
    helpers: map<nat, Helper>,
    runners: map<nat, Runner>,               // runner h was forked by helper h
    lock: Option<nat>,                       // the helper whose open file description holds the lease
    visible: Record,
    durable: Record,
    capture: Option<Option<nat>>,            // completed capture: the task identity it yields, if any
    durableCapture: Option<Option<nat>>,
    left: set<Record>,                       // what lease holders that died in a shared temporary file left in it
    // the physical world
    launches: nat,
    launchDigest: Option<nat>,
    task: Option<Option<nat>>)               // the task identity the launched command reported, if any

  predicate Init(s: State)
  {
    && s.job == Unarmed && !s.armedNow && s.sent == {} && !s.sealAnswered
    && s.helpers == map[] && s.runners == map[] && s.lock == None
    && s.visible == Absent && s.durable == Absent
    && s.capture == None && s.durableCapture == None && s.left == {}
    && s.launches == 0 && s.launchDigest == None && s.task == None
  }

  // ---------------------------------------------------------------------------
  // Backend steps
  // ---------------------------------------------------------------------------

  /** The arming transaction: once, and only from an unarmed job. */
  predicate Arm(s: State, s': State, d: nat)
  {
    s.job == Unarmed && s' == s.(job := Armed(d), armedNow := true)
  }

  /** A mutation is submitted only by the invocation that armed; a rollback by any invocation. */
  predicate SendExecute(s: State, s': State)
  {
    && s.job.Armed?
    && (s.kind == Mutation ==> s.armedNow)
    && s' == s.(armedNow := false, sent := s.sent + {Execute(s.job.digest)})
  }

  predicate SendSeal(s: State, s': State)
  {
    s.job.Armed? && s' == s.(sent := s.sent + {Seal})
  }

  predicate SendInspect(s: State, s': State)
  {
    s' == s.(sent := s.sent + {Inspect})
  }

  /** Prepare, a lease probe, or any other operation of the same guest: it only takes the lease. */
  predicate SendOtherWork(s: State, s': State)
  {
    s' == s.(sent := s.sent + {OtherWork})
  }

  predicate ReleaseJob(s: State, s': State)
  {
    s.job.Armed? && s.sealAnswered && s' == s.(job := Released(s.job.digest), armedNow := false)
  }

  predicate BackendCrash(s: State, s': State)
  {
    s' == s.(armedNow := false)
  }

  // ---------------------------------------------------------------------------
  // Lease ownership. The lock belongs to an open file description shared by a helper and the
  // runner it forked: an orderly exit unlocks it for both, a closed descriptor does not.
  // ---------------------------------------------------------------------------

  function LockAfterUnlock(s: State, h: nat): Option<nat>
  {
    if s.lock == Some(h) then None else s.lock
  }

  function LockAfterClose(s: State, h: nat): Option<nat>
  {
    if s.lock == Some(h) && h !in s.runners then None else s.lock
  }

  function LockAfterRunner(s: State, h: nat): Option<nat>
  {
    if s.lock == Some(h) && !(h in s.helpers && s.helpers[h].fd) then None else s.lock
  }

  /** The helper's end of the release pipe is closed; a runner without GO will read end-of-file. */
  function CutRunners(s: State, h: nat): map<nat, Runner>
  {
    if h in s.runners && !s.runners[h].go then s.runners[h := s.runners[h].(cut := true)] else s.runners
  }

  /** A write that is begun starts with a file of its own. */
  function SetPc(s: State, h: nat, pc: Pc): State
    requires h in s.helpers
  {
    s.(helpers := s.helpers[h := s.helpers[h].(pc := pc, mixed := false)])
  }

  /** Orderly exit: `with lease` unlocks when the descriptor was not handed over. */
  function Leave(s: State, h: nat): State
    requires h in s.helpers
  {
    s.(helpers := s.helpers[h := s.helpers[h].(pc := Gone, fd := false, mixed := false)],
       lock := if s.helpers[h].fd then LockAfterUnlock(s, h) else s.lock,
       runners := CutRunners(s, h))
  }

  /** Death at any instruction: descriptors close, nothing unlocks explicitly. */
  function Die(s: State, h: nat): State
    requires h in s.helpers
  {
    s.(helpers := s.helpers[h := s.helpers[h].(pc := Gone, fd := false, mixed := false)],
       lock := if s.helpers[h].fd then LockAfterClose(s, h) else s.lock,
       runners := CutRunners(s, h),
       left := s.left + Leftover(s.helpers[h]))
  }

  /** Without a lease a writer may as well live on, so only a lease holder's whole file is kept apart. */
  function Leftover(p: Helper): set<Record>
  {
    if p.mixed && p.fd && p.pc.Write? then {p.pc.rec} else {}
  }

  /** One directory holds the journal and the captures, so one fsync makes both durable. */
  function Fsynced(s: State): State
  {
    s.(durable := s.visible, durableCapture := s.capture)
  }

  // ---------------------------------------------------------------------------
  // Helper steps
  // ---------------------------------------------------------------------------

  predicate At(s: State, h: nat, pc: Pc)
  {
    h in s.helpers && s.helpers[h].pc == pc
  }

  predicate Deliver(s: State, s': State, h: nat, req: Request)
  {
    && req in s.sent && h !in s.helpers && h !in s.runners
    && s' == s.(helpers := s.helpers[h := Helper(req, Waiting, false, false)])
  }

  predicate Acquire(s: State, s': State, h: nat)
  {
    && At(s, h, Waiting) && s.lock == None
    && s' == s.(lock := Some(h), helpers := s.helpers[h := s.helpers[h].(pc := Holding, fd := true)])
  }

  /** Where an execute (mutation) or submit (rollback) goes from the record it read. */
  function AfterReadExecute(kind: Kind, rec: Record, d: nat): Option<Pc>
  {
    match kind
    case Mutation => (
      match rec
      case Absent => Some(Write(Intent(d), ThenPreflight))
      case Intent(d0) => if d0 == d then Some(Preflight(false)) else None
      case _ => None)
    case Rollback => (
      match rec
      case Absent => Some(Preflight(true))
      case Intent(d0) => if d0 == d then Some(Preflight(false)) else None
      case _ => AfterReadInspect(kind, rec))
  }

  function AfterReadSeal(rec: Record): Option<Pc>
  {
    match rec
    case Absent => Some(Write(Sealed, ThenAnswer))
    case Intent(_) => Some(Write(Sealed, ThenAnswer))
    case Sealed => Some(Answer(false))
    case _ => None
  }

  /** A rollback inspection resolves a record past submission; nothing else changes anything. */
  function AfterReadInspect(kind: Kind, rec: Record): Option<Pc>
  {
    match rec
    case Submitted => if kind == Rollback then Some(Promote(false)) else None
    case TaskKnown(u) => if kind == Rollback then Some(Classify(u)) else None
    case _ => None
  }

  function AfterRead(kind: Kind, req: Request, rec: Record): Option<Pc>
  {
    match req
    case Execute(d) => AfterReadExecute(kind, rec, d)
    case Seal => AfterReadSeal(rec)
    case Inspect => AfterReadInspect(kind, rec)
    case OtherWork => None
  }

  predicate ReadJournal(s: State, s': State, h: nat)
  {
    && At(s, h, Holding)
    && match AfterRead(s.kind, s.helpers[h].req, s.visible)
       case Some(pc) => s' == SetPc(s, h, pc)
       case None => s' == Leave(s, h)
  }

  predicate PassPreflight(s: State, s': State, h: nat)
  {
    && h in s.helpers && s.helpers[h].pc.Preflight? && s.helpers[h].req.Execute?
    && s' == SetPc(s, h,
                   if s.helpers[h].pc.unrecorded then Write(Intent(s.helpers[h].req.digest), ThenFork) else Forking)
  }

  predicate Fork(s: State, s': State, h: nat)
  {
    && At(s, h, Forking) && h !in s.runners
    && s' == SetPc(s, h, Forked).(runners := s.runners[h := Runner(Blocked, false, false, false)])
  }

  /** READY arrived. The runner may already be dead again, and then the close frees the lease. */
  predicate Ready(s: State, s': State, h: nat)
  {
    && At(s, h, Forked)
    && s' == s.(helpers := s.helpers[h := s.helpers[h].(pc := Write(Submitted, ThenGo), fd := false, mixed := false)],
                lock := LockAfterClose(s, h))
  }

  predicate InTemporaryFile(s: State, h: nat)
  {
    h in s.helpers && s.helpers[h].pc.Write?
  }

  predicate RunnerInTemporaryFile(s: State, h: nat)
  {
    s.kind == Mutation && h in s.runners && s.runners[h].pc == Ran
  }

  /** Some process that shared the temporary file is writing this record. */
  ghost predicate Shares(s: State, rec: Record)
  {
    || (exists k :: InTemporaryFile(s, k) && s.helpers[k].mixed && s.helpers[k].pc.rec == rec)
    || (exists k, ok :: RunnerInTemporaryFile(s, k) && s.runners[k].mixed && rec == Terminal(ok, None))
  }

  /**
   What the rename of a file that was shared may publish. The lease holder opened the file after
   every earlier holder's death, so it never publishes what those left in it.
   */
  ghost predicate MixedContent(s: State, h: nat, rec: Record)
  {
    rec == Torn || Shares(s, rec) || (rec in s.left && s.lock != Some(h))
  }

  ghost predicate Publishes(s: State, h: nat, rec: Record)
    requires InTemporaryFile(s, h)
  {
    rec == s.helpers[h].pc.rec || (s.helpers[h].mixed && MixedContent(s, h, rec))
  }

  /** The rename: the temporary file is gone, and with it what others left in it. */
  ghost predicate Place(s: State, s': State, h: nat)
  {
    && InTemporaryFile(s, h) && Publishes(s, h, s'.visible)
    && s' == SetPc(s, h, Sync(s.helpers[h].pc.rec, s.helpers[h].pc.andThen)).(visible := s'.visible, left := {})
  }

  function AfterWrite(andThen: Then): Option<Pc>
  {
    match andThen
    case ThenPreflight => Some(Preflight(false))
    case ThenFork => Some(Forking)
    case ThenGo => Some(Go)
    case ThenAnswer => Some(Answer(true))
    case ThenCleanup(u, own) => Some(Cleanup(u, own))
    case ThenExit => None
  }

  predicate SyncDirectory(s: State, s': State, h: nat)
  {
    && h in s.helpers && s.helpers[h].pc.Sync?
    && match AfterWrite(s.helpers[h].pc.andThen)
       case Some(pc) => s' == SetPc(Fsynced(s), h, pc)
       case None => s' == Leave(Fsynced(s), h)
  }

  /** The GO byte. A dead runner never reads it; the error is swallowed. */
  predicate ReleaseRunner(s: State, s': State, h: nat)
  {
    && At(s, h, Go)
    && s' == SetPc(s, h, if s.kind == Mutation then Gone else Promote(true)).(
             runners := if h in s.runners && !s.runners[h].cut
                        then s.runners[h := s.runners[h].(go := true)] else s.runners)
  }

  /** Rollback only. A capture that yields an identity is journaled, by whoever reads it. */
  predicate ReadCapture(s: State, s': State, h: nat)
  {
    && h in s.helpers && s.helpers[h].pc.Promote?
    && match s.capture
       case Some(Some(u)) => s' == SetPc(s, h, Write(TaskKnown(u), ThenCleanup(u, s.helpers[h].pc.own)))
       case _ => s' == Leave(s, h)
  }

  /** The submitter journals the identity a second time; a lease holder goes on to the task's status. */
  predicate CleanupCapture(s: State, s': State, h: nat)
  {
    && h in s.helpers && s.helpers[h].pc.Cleanup?
    && var pc := s.helpers[h].pc;
       s' == Fsynced(SetPc(s, h, if pc.own then Write(TaskKnown(pc.upid), ThenExit) else Classify(pc.upid)).(
                     capture := None))
  }

  predicate ClassifyTask(s: State, s': State, h: nat, succeeded: bool)
  {
    && h in s.helpers && s.helpers[h].pc.Classify?
    && s' == SetPc(s, h, Write(Terminal(succeeded, Some(s.helpers[h].pc.upid)), ThenExit))
  }

  /** The seal response is returned. */
  predicate AnswerSeal(s: State, s': State, h: nat)
  {
    && h in s.helpers && s.helpers[h].pc.Answer?
    && s' == Leave(s, h).(sealAnswered := true)
  }

  /** Any refusal or failure that the helper itself reports: busy lease, preflight, fork, write. */
  predicate GiveUp(s: State, s': State, h: nat)
  {
    && h in s.helpers && !s.helpers[h].pc.Go? && !s.helpers[h].pc.Gone?
    && s' == Leave(s, h)
  }

  predicate HelperCrash(s: State, s': State, h: nat)
  {
    && h in s.helpers && !s.helpers[h].pc.Gone?
    && s' == Die(s, h)
  }

  // ---------------------------------------------------------------------------
  // Runner steps
  // ---------------------------------------------------------------------------

  /** The runner is gone: killed at any point, or it read end-of-file instead of GO. */
  predicate RunnerGone(s: State, s': State, h: nat)
  {
    && h in s.runners
    && s' == s.(runners := s.runners - {h}, lock := LockAfterRunner(s, h),
                left := s.left + if s.runners[h].mixed then {Terminal(false, None), Terminal(true, None)} else {})
  }

  /** The one physical command. `reported` is the task identity its output will yield, if any. */
  predicate Launch(s: State, s': State, h: nat, reported: Option<nat>)
  {
    && h in s.runners && s.runners[h].pc == Blocked && s.runners[h].go
    && h in s.helpers && s.helpers[h].req.Execute?
    && (s.kind == Mutation ==> reported == None)
    && s' == s.(runners := s.runners[h := s.runners[h].(pc := Ran)],
                launches := s.launches + 1,
                launchDigest := Some(s.helpers[h].req.digest),
                task := Some(reported))
  }

  /** A mutation runner whose last target check fails launches nothing and journals a failure. */
  predicate RefuseLaunch(s: State, s': State, h: nat)
  {
    && s.kind == Mutation
    && h in s.runners && s.runners[h].pc == Blocked && s.runners[h].go
    && s' == s.(runners := s.runners[h := s.runners[h].(pc := Ran)])
  }

  /** The result record of a mutation, or the completed capture of a rollback. */
  ghost predicate RunnerPlace(s: State, s': State, h: nat, succeeded: bool)
  {
    && h in s.runners && s.runners[h].pc == Ran
    && var runners := s.runners[h := s.runners[h].(pc := Placed, mixed := false)];
       if s.kind == Mutation then
         && (s'.visible == Terminal(succeeded, None) || (s.runners[h].mixed && MixedContent(s, h, s'.visible)))
         && s' == s.(runners := runners, visible := s'.visible, left := {})
       else s' == s.(runners := runners, capture := s.task)
  }

  predicate RunnerSync(s: State, s': State, h: nat)
  {
    && h in s.runners && s.runners[h].pc == Placed
    && s' == Fsynced(s)
  }

  // ---------------------------------------------------------------------------
  // The environment
  // ---------------------------------------------------------------------------

  /** Two processes have `op-<id>.json.tmp` open at once. */
  predicate Overlap(s: State, s': State, a: nat, b: nat)
  {
    && InTemporaryFile(s, a) && a != b && InTemporaryFile(s, b)
    && s' == s.(helpers := s.helpers[a := s.helpers[a].(mixed := true)][b := s.helpers[b].(mixed := true)])
  }

  predicate OverlapRunner(s: State, s': State, a: nat, b: nat)
  {
    && InTemporaryFile(s, a) && RunnerInTemporaryFile(s, b)
    && s' == s.(helpers := s.helpers[a := s.helpers[a].(mixed := true)],
                runners := s.runners[b := s.runners[b].(mixed := true)])
  }

  /** A writer still in a shared file writes into the record another one made of it. */
  predicate Smear(s: State, s': State, h: nat)
  {
    && InTemporaryFile(s, h) && s.helpers[h].mixed
    && (s' == s.(visible := Torn) || s' == s.(visible := s.helpers[h].pc.rec))
  }

  predicate SmearRunner(s: State, s': State, h: nat)
  {
    && RunnerInTemporaryFile(s, h) && s.runners[h].mixed
    && (s' == s.(visible := Torn) || s' == s.(visible := Terminal(false, None)) || s' == s.(visible := Terminal(true, None)))
  }

  predicate Writeback(s: State, s': State)
  {
    s' == s.(durable := s.visible) || s' == s.(durableCapture := s.capture)
  }

  predicate PowerLoss(s: State, s': State)
  {
    s' == s.(helpers := map[], runners := map[], lock := None,
             visible := s.durable, capture := s.durableCapture, left := {})
  }

  // ---------------------------------------------------------------------------
  // The transition relation and its runs
  // ---------------------------------------------------------------------------

  ghost predicate BackendStep(s: State, s': State)
  {
    || (exists d :: Arm(s, s', d))
    || SendExecute(s, s') || SendSeal(s, s') || SendInspect(s, s') || SendOtherWork(s, s')
    || ReleaseJob(s, s') || BackendCrash(s, s')
  }

  ghost predicate LeaseStep(s: State, s': State, h: nat)
  {
    || (exists req :: Deliver(s, s', h, req))
    || Acquire(s, s', h) || ReadJournal(s, s', h)
  }

  predicate AttemptStep(s: State, s': State, h: nat)
  {
    PassPreflight(s, s', h) || Fork(s, s', h) || Ready(s, s', h) || ReleaseRunner(s, s', h)
  }

  ghost predicate WriteStep(s: State, s': State, h: nat)
  {
    Place(s, s', h) || SyncDirectory(s, s', h)
  }

  ghost predicate TaskStep(s: State, s': State, h: nat)
  {
    || ReadCapture(s, s', h) || CleanupCapture(s, s', h)
    || (exists ok :: ClassifyTask(s, s', h, ok))
  }

  predicate EndStep(s: State, s': State, h: nat)
  {
    AnswerSeal(s, s', h) || GiveUp(s, s', h) || HelperCrash(s, s', h)
  }

  ghost predicate HelperStep(s: State, s': State, h: nat)
  {
    LeaseStep(s, s', h) || AttemptStep(s, s', h) || WriteStep(s, s', h) || TaskStep(s, s', h) || EndStep(s, s', h)
  }

  ghost predicate RunnerStep(s: State, s': State, h: nat)
  {
    || RunnerGone(s, s', h)
    || (exists u :: Launch(s, s', h, u))
    || RefuseLaunch(s, s', h)
    || (exists ok :: RunnerPlace(s, s', h, ok))
    || RunnerSync(s, s', h)
  }

  ghost predicate EnvironmentStep(s: State, s': State)
  {
    || (exists a, b :: Overlap(s, s', a, b) || OverlapRunner(s, s', a, b))
    || (exists h :: Smear(s, s', h) || SmearRunner(s, s', h))
    || Writeback(s, s') || PowerLoss(s, s')
  }

  ghost predicate Next(s: State, s': State)
  {
    || BackendStep(s, s')
    || (exists h :: HelperStep(s, s', h))
    || (exists h :: RunnerStep(s, s', h))
    || EnvironmentStep(s, s')
  }

  /** A continuation of `run[0]`: any number of steps, each of them allowed. */
  ghost predicate IsPath(run: seq<State>)
  {
    && |run| > 0
    && forall i: nat :: i + 1 < |run| ==> StepAt(run, i)
  }

  ghost predicate StepAt(run: seq<State>, i: nat)
    requires i + 1 < |run|
  {
    Next(run[i], run[i + 1])
  }

  ghost predicate IsRun(run: seq<State>)
  {
    IsPath(run) && Init(run[0])
  }
}
