/**
 The task identity a rollback journals: it is always the one launch's own, and exactly when it is
 there to stay.
 */
module SubmissionIdentity {
  import opened Wrappers
  import opened SubmissionProtocol
  import opened SubmissionInvariant
  import opened SubmissionRuns
  import opened SubmissionSafety

  /** Every identity in any record of any two moments of a run is the one the launch reported. */
  lemma OneTaskIdentity(run: seq<State>, i: nat, j: nat, u: nat, v: nat)
    requires IsRun(run) && i < |run| && j < |run|
    requires TaskOf(run[i].visible) == Some(u) || TaskOf(run[i].durable) == Some(u)
    requires TaskOf(run[j].visible) == Some(v) || TaskOf(run[j].durable) == Some(v)
    ensures u == v && run[i].task == Some(Some(u))
  {
    RunInv(run, i);
    RunInv(run, j);
    if i <= j { TaskIsFixed(run, i, j); } else { TaskIsFixed(run, j, i); }
  }

  lemma {:induction false} TaskIsFixed(run: seq<State>, i: nat, j: nat)
    requires IsRun(run) && i <= j < |run| && run[i].launches == 1
    ensures run[j].task == run[i].task && run[j].launches == 1
  {
    if i < j {
      TaskIsFixed(run, i, j - 1);
      RunInv(run, j - 1);
      RunInv(run, j);
      PathStep(run, j - 1);
      LaunchesGrow(run[j - 1], run[j]);
    }
  }

  // ---------------------------------------------------------------------------
  // What endangers a recorded identity
  // ---------------------------------------------------------------------------

  predicate Recorded(s: State, u: nat)
  {
    TaskOf(s.visible) == Some(u) && TaskOf(s.durable) == Some(u)
  }

  /** A completed capture that yields the identity is there, or the runner is still about to publish it. */
  predicate CaptureMayCome(s: State)
  {
    (s.capture.Some? && s.capture.value.Some?) || exists r :: r in s.runners && s.runners[r].pc == Ran
  }

  /** How many journal writes a helper can still begin or finish from here. */
  function WritesLeft(s: State, h: nat): nat
    requires h in s.helpers
  {
    match s.helpers[h].pc
    case Write(_, andThen) => if andThen.ThenCleanup? then 2 else 1
    case Sync(_, andThen) =>
      if andThen.ThenCleanup? then 1 else if andThen.ThenGo? && CaptureMayCome(s) then 2 else 0
    case Go => if CaptureMayCome(s) then 2 else 0
    case Promote(_) => if CaptureMayCome(s) then 2 else 0
    case Cleanup(_, _) => 1
    case Classify(_) => 1
    case _ => 0
  }

  /** A helper without its lease descriptor that can still write. */
  predicate Loose(s: State, h: nat)
  {
    h in s.helpers && !s.helpers[h].fd && WritesLeft(s, h) > 0
  }

  predicate OwesSubmitted(s: State, h: nat)
  {
    h in s.helpers && s.helpers[h].pc == Write(Submitted, ThenGo)
  }

  /**
   No helper owes a `submitted` write or is in a shared temporary file; and nobody can write
   without its lease -- or, over a terminal record, from which no new writer starts, one can at
   most finish one last write, alone.
   */
  ghost predicate Secure(s: State)
  {
    && (forall h :: h in s.helpers ==> !OwesSubmitted(s, h) && !s.helpers[h].mixed)
    && (forall h :: Loose(s, h) ==> s.visible.Terminal? && LastWriter(s, h))
  }

  predicate LastWriter(s: State, h: nat)
    requires h in s.helpers
  {
    WritesLeft(s, h) <= 1 && forall k :: k in s.helpers && k != h ==> WritesLeft(s, k) == 0
  }

  // ---------------------------------------------------------------------------
  // A secure identity stays
  // ---------------------------------------------------------------------------

  /** What a recorded identity says about the state. */
  lemma RecordedMeans(s: State, u: nat)
    requires Inv(s) && Recorded(s, u)
    ensures s.kind == Rollback && s.launches == 1 && s.task == Some(Some(u))
  {
  }

  lemma AfterLaunch(s: State, u: nat, h: nat)
    requires Inv(s) && Recorded(s, u) && h in s.helpers
    ensures !First(s.helpers[h].pc) && !s.helpers[h].pc.Forking? && !s.helpers[h].pc.Forked? && !s.helpers[h].pc.Preflight?
    ensures InTemporaryFile(s, h) && !OwesSubmitted(s, h) ==> TaskOf(s.helpers[h].pc.rec) == Some(u)
  {
    assert HelperOk(s, h);
  }

  lemma OthersWriteNoMore(s: State, s': State, h: nat, k: nat)
    requires OwnOnly(s, s', h) && (CaptureMayCome(s') ==> CaptureMayCome(s)) && k in s.helpers && k != h
    ensures k in s'.helpers && s'.helpers[k] == s.helpers[k] && WritesLeft(s', k) <= WritesLeft(s, k)
  {
  }

  /** A move that adds no loose writer and leaves the record's kind is harmless. */
  lemma QuietKeepsSecure(s: State, s': State, h: nat)
    requires Secure(s) && OwnOnly(s, s', h) && (CaptureMayCome(s') ==> CaptureMayCome(s))
    requires !s'.helpers[h].mixed && !OwesSubmitted(s', h) && s'.visible.Terminal? == s.visible.Terminal?
    requires if h in s.helpers then WritesLeft(s', h) <= WritesLeft(s, h) else WritesLeft(s', h) == 0
    requires Loose(s', h) ==> Loose(s, h)
    ensures Secure(s')
  {
    forall k | k in s'.helpers ensures !OwesSubmitted(s', k) && !s'.helpers[k].mixed {
      if k != h { assert k in s.helpers && !OwesSubmitted(s, k) && !s.helpers[k].mixed; }
    }
    forall k | Loose(s', k) ensures s'.visible.Terminal? && LastWriter(s', k) {
      if k != h { OthersWriteNoMore(s, s', h, k); }
      assert Loose(s, k);
      forall j | j in s'.helpers && j != k ensures WritesLeft(s', j) == 0 {
        if j != h { OthersWriteNoMore(s, s', h, j); }
      }
    }
  }

  /** Over a record that new writers start from nobody is loose, so who has the lease may do what it likes. */
  lemma HolderKeepsSecure(s: State, s': State, h: nat)
    requires Secure(s) && OwnOnly(s, s', h) && (CaptureMayCome(s') ==> CaptureMayCome(s))
    requires !s'.helpers[h].mixed && !OwesSubmitted(s', h) && !Loose(s', h) && forall k :: k != h ==> !Loose(s, k)
    ensures Secure(s')
  {
    forall k | k in s'.helpers ensures !OwesSubmitted(s', k) && !s'.helpers[k].mixed {
      if k != h { assert k in s.helpers && !OwesSubmitted(s, k) && !s.helpers[k].mixed; }
    }
    forall k | Loose(s', k) ensures k == h {
      if k != h {
        OthersWriteNoMore(s, s', h, k);
        assert Loose(s, k);
      }
    }
  }

  lemma LeaseKeepsSecure(s: State, s': State, h: nat, u: nat)
    requires Inv(s) && Recorded(s, u) && Secure(s) && LeaseStep(s, s', h)
    ensures Recorded(s', u) && Secure(s')
  {
    LeaseIsOwn(s, s', h);
    LeaseBringsNoCapture(s, s', h);
    if s.visible.Terminal? {
      LeaseStaysQuiet(s, s', h);
      QuietKeepsSecure(s, s', h);
    } else {
      LeaseIsHolders(s, s', h, u);
      HolderKeepsSecure(s, s', h);
    }
  }

  lemma LeaseBringsNoCapture(s: State, s': State, h: nat)
    requires LeaseStep(s, s', h)
    ensures s'.durable == s.durable && s'.capture == s.capture
    ensures CaptureMayCome(s') ==> CaptureMayCome(s)
  {
    if req :| Deliver(s, s', h, req) { }
  }

  /** Over a terminal record a reader has nothing to write. */
  lemma LeaseStaysQuiet(s: State, s': State, h: nat)
    requires LeaseStep(s, s', h) && s.visible.Terminal? && (h in s.helpers ==> HelperOk(s, h))
    ensures h in s'.helpers && WritesLeft(s', h) == 0 && !s'.helpers[h].mixed && !OwesSubmitted(s', h)
  {
    if req :| Deliver(s, s', h, req) { }
  }

  lemma LeaseIsHolders(s: State, s': State, h: nat, u: nat)
    requires LeaseStep(s, s', h) && s.visible == TaskKnown(u) && (h in s.helpers ==> HelperOk(s, h))
    ensures h in s'.helpers && !s'.helpers[h].mixed && !OwesSubmitted(s', h) && !Loose(s', h)
  {
    if req :| Deliver(s, s', h, req) { }
  }

  lemma AttemptKeepsSecure(s: State, s': State, h: nat, u: nat)
    requires Inv(s) && Recorded(s, u) && Secure(s) && AttemptStep(s, s', h)
    ensures Recorded(s', u) && Secure(s')
  {
    AttemptIsOwn(s, s', h);
    AfterLaunch(s, u, h);
    ReleaseStaysQuiet(s, s', h);
    QuietKeepsSecure(s, s', h);
  }

  lemma ReleaseStaysQuiet(s: State, s': State, h: nat)
    requires AttemptStep(s, s', h) && s.kind == Rollback
    requires !s.helpers[h].pc.Preflight? && !s.helpers[h].pc.Forking? && !s.helpers[h].pc.Forked?
    ensures h in s'.helpers && !s'.helpers[h].mixed && !OwesSubmitted(s', h) && s'.helpers[h].fd == s.helpers[h].fd
    ensures (CaptureMayCome(s') ==> CaptureMayCome(s)) && WritesLeft(s', h) <= WritesLeft(s, h)
  {
  }

  /** Nobody but the writer itself can be loose beside a writer, and its rename leaves it nothing more to write. */
  lemma PlaceKeepsSecure(s: State, s': State, h: nat, u: nat)
    requires Inv(s) && Recorded(s, u) && Secure(s) && Place(s, s', h)
    ensures Recorded(s', u) && Secure(s')
  {
    assert !OwesSubmitted(s, h) && !s.helpers[h].mixed;
    AfterLaunch(s, u, h);
    assert HelperOk(s, h);
    PlacedWritesLeft(s, s', h);
    forall k | k in s'.helpers ensures !OwesSubmitted(s', k) && !s'.helpers[k].mixed {
      assert k != h ==> !OwesSubmitted(s, k) && !s.helpers[k].mixed;
    }
    forall k | Loose(s', k) ensures false {
      assert Loose(s, k);
    }
  }

  lemma PlacedWritesLeft(s: State, s': State, h: nat)
    requires Place(s, s', h) && !OwesSubmitted(s, h) && HelperOk(s, h)
    ensures WritesLeft(s, h) > 0 && WritesLeft(s', h) == WritesLeft(s, h) - 1 && s'.helpers[h].fd == s.helpers[h].fd
    ensures forall k :: k in s.helpers && k != h ==> s'.helpers[k] == s.helpers[k] && WritesLeft(s', k) == WritesLeft(s, k)
  {
  }

  lemma SyncKeepsSecure(s: State, s': State, h: nat, u: nat)
    requires Inv(s) && Recorded(s, u) && Secure(s) && SyncDirectory(s, s', h)
    ensures Recorded(s', u) && Secure(s')
  {
    WriteIsOwn(s, s', h);
    assert HelperOk(s, h);
    SyncStaysQuiet(s, s', h);
    QuietKeepsSecure(s, s', h);
  }

  lemma SyncStaysQuiet(s: State, s': State, h: nat)
    requires SyncDirectory(s, s', h) && s.launches == 1 && s.kind == Rollback && HelperOk(s, h)
    ensures h in s'.helpers && !s'.helpers[h].mixed && !OwesSubmitted(s', h) && (Loose(s', h) ==> Loose(s, h))
    ensures (CaptureMayCome(s') ==> CaptureMayCome(s)) && WritesLeft(s', h) <= WritesLeft(s, h)
    ensures s'.visible == s.visible
  {
  }

  lemma TaskKeepsSecure(s: State, s': State, h: nat, u: nat)
    requires Inv(s) && Recorded(s, u) && Secure(s) && TaskStep(s, s', h)
    ensures Recorded(s', u) && Secure(s')
  {
    TaskIsOwn(s, s', h);
    TaskStaysQuiet(s, s', h);
    QuietKeepsSecure(s, s', h);
  }

  lemma TaskStaysQuiet(s: State, s': State, h: nat)
    requires TaskStep(s, s', h)
    ensures h in s.helpers && h in s'.helpers && !s'.helpers[h].mixed && !OwesSubmitted(s', h) && (Loose(s', h) ==> Loose(s, h))
    ensures (CaptureMayCome(s') ==> CaptureMayCome(s)) && WritesLeft(s', h) <= WritesLeft(s, h)
  {
    if ReadCapture(s, s', h) { ReaderStaysQuiet(s, s', h); }
    else if CleanupCapture(s, s', h) { CleanerStaysQuiet(s, s', h); }
  }

  lemma ReaderStaysQuiet(s: State, s': State, h: nat)
    requires ReadCapture(s, s', h)
    ensures h in s'.helpers && !s'.helpers[h].mixed && !OwesSubmitted(s', h) && (Loose(s', h) ==> Loose(s, h))
    ensures (CaptureMayCome(s') ==> CaptureMayCome(s)) && WritesLeft(s', h) <= WritesLeft(s, h)
  {
  }

  lemma CleanerStaysQuiet(s: State, s': State, h: nat)
    requires CleanupCapture(s, s', h)
    ensures h in s'.helpers && !s'.helpers[h].mixed && !OwesSubmitted(s', h) && (Loose(s', h) ==> Loose(s, h))
    ensures (CaptureMayCome(s') ==> CaptureMayCome(s)) && WritesLeft(s', h) <= WritesLeft(s, h)
  {
  }

  lemma EndKeepsSecure(s: State, s': State, h: nat, u: nat)
    requires Inv(s) && Recorded(s, u) && Secure(s) && EndStep(s, s', h)
    ensures Recorded(s', u) && Secure(s')
  {
    EndIsOwn(s, s', h);
    EndBringsNoCapture(s, s', h);
    QuietKeepsSecure(s, s', h);
  }

  lemma EndBringsNoCapture(s: State, s': State, h: nat)
    requires EndStep(s, s', h)
    ensures (CaptureMayCome(s') ==> CaptureMayCome(s)) && !s'.helpers[h].mixed && h in s.helpers
  {
  }

  lemma HelperKeepsSecure(s: State, s': State, h: nat, u: nat)
    requires Inv(s) && Recorded(s, u) && Secure(s) && HelperStep(s, s', h)
    ensures Recorded(s', u) && Secure(s')
  {
    if LeaseStep(s, s', h) { LeaseKeepsSecure(s, s', h, u); }
    else if AttemptStep(s, s', h) { AttemptKeepsSecure(s, s', h, u); }
    else if Place(s, s', h) { PlaceKeepsSecure(s, s', h, u); }
    else if SyncDirectory(s, s', h) { SyncKeepsSecure(s, s', h, u); }
    else if TaskStep(s, s', h) { TaskKeepsSecure(s, s', h, u); }
    else { EndKeepsSecure(s, s', h, u); }
  }

  /** The same helpers, and no capture brought nearer. */
  lemma SameHelpersKeepSecure(s: State, s': State)
    requires Secure(s) && s'.helpers == s.helpers && s'.visible == s.visible && (CaptureMayCome(s') ==> CaptureMayCome(s))
    ensures Secure(s')
  {
    forall k | k in s'.helpers ensures !OwesSubmitted(s', k) && !s'.helpers[k].mixed {
      assert !OwesSubmitted(s, k) && !s.helpers[k].mixed;
    }
    forall k | Loose(s', k) ensures s'.visible.Terminal? && LastWriter(s', k) {
      assert Loose(s, k);
    }
  }

  lemma RunnerKeepsSecure(s: State, s': State, h: nat, u: nat)
    requires Inv(s) && Recorded(s, u) && Secure(s) && RunnerStep(s, s', h)
    ensures Recorded(s', u) && Secure(s')
  {
    RecordedMeans(s, u);
    assert RunnerOk(s, h);
    RunnerBringsNoCapture(s, s', h);
    SameHelpersKeepSecure(s, s');
  }

  lemma RunnerBringsNoCapture(s: State, s': State, h: nat)
    requires RunnerStep(s, s', h) && s.kind == Rollback && RunnerOk(s, h) && s.launches == 1
    ensures s'.helpers == s.helpers && s'.visible == s.visible && (s'.durable == s.durable || s'.durable == s.visible)
    ensures CaptureMayCome(s') ==> CaptureMayCome(s)
  {
    if RunnerGone(s, s', h) {
    } else if v :| Launch(s, s', h, v) {
    } else if RefuseLaunch(s, s', h) {
    } else if ok :| RunnerPlace(s, s', h, ok) {
    } else {
    }
  }

  lemma EnvironmentKeepsSecure(s: State, s': State, u: nat)
    requires Inv(s) && Recorded(s, u) && Secure(s) && EnvironmentStep(s, s')
    ensures Recorded(s', u) && Secure(s')
  {
    NobodyShares(s, s', u);
    if Writeback(s, s') {
      SameHelpersKeepSecure(s, s');
    }
  }

  /** Two writers at once would be a loose one beside another. */
  lemma NobodyShares(s: State, s': State, u: nat)
    requires Inv(s) && Recorded(s, u) && Secure(s) && EnvironmentStep(s, s')
    ensures Writeback(s, s') || PowerLoss(s, s')
  {
    RecordedMeans(s, u);
    assert forall h :: h in s.helpers ==> !s.helpers[h].mixed;
    if a, b :| Overlap(s, s', a, b) { SharerIsLoose(s, s', a, b); }
  }

  lemma SharerIsLoose(s: State, s': State, a: nat, b: nat)
    requires Inv(s) && Overlap(s, s', a, b)
    ensures (Loose(s, a) || Loose(s, b)) && WritesLeft(s, a) > 0 && WritesLeft(s, b) > 0
  {
    SharingNeedsOrphan(s, s', a, b);
  }

  lemma NextKeepsSecure(s: State, s': State, u: nat)
    requires Inv(s) && Recorded(s, u) && Secure(s) && Next(s, s')
    ensures Recorded(s', u) && Secure(s')
  {
    if BackendStep(s, s') {
      BackendShape(s, s');
      SameHelpersKeepSecure(s, s');
    }
    else if h :| HelperStep(s, s', h) { HelperKeepsSecure(s, s', h, u); }
    else if h :| RunnerStep(s, s', h) { RunnerKeepsSecure(s, s', h, u); }
    else { EnvironmentKeepsSecure(s, s', u); }
  }

  lemma {:induction false} SecureForEver(run: seq<State>, i: nat, u: nat)
    requires IsPath(run) && Inv(run[0]) && Recorded(run[0], u) && Secure(run[0]) && i < |run|
    ensures Recorded(run[i], u) && Secure(run[i])
  {
    if i > 0 {
      SecureForEver(run, i - 1, u);
      SecureStep(run, i - 1, u);
    }
  }

  lemma SecureStep(run: seq<State>, i: nat, u: nat)
    requires IsPath(run) && Inv(run[0]) && i + 1 < |run| && Recorded(run[i], u) && Secure(run[i])
    ensures Recorded(run[i + 1], u) && Secure(run[i + 1])
  {
    PathInv(run, i);
    PathStep(run, i);
    NextKeepsSecure(run[i], run[i + 1], u);
  }

  // ---------------------------------------------------------------------------
  // An identity that is not secure can be lost
  // ---------------------------------------------------------------------------

  ghost predicate CanLose(s: State, u: nat)
  {
    exists t :: LeadsTo(s, t) && !Recorded(t, u)
  }

  lemma LosesVia(s: State, t: State, u: nat)
    requires LeadsTo(s, t) && CanLose(t, u)
    ensures CanLose(s, u)
  {
    var v :| LeadsTo(t, v) && !Recorded(v, u);
    Joined(s, t, v);
  }

  lemma InvAlong(s: State, t: State)
    requires Inv(s) && LeadsTo(s, t)
    ensures Inv(t)
  {
    var run: seq<State> :| IsPath(run) && run[0] == s && run[|run| - 1] == t;
    PathInv(run, |run| - 1);
  }

  lemma OwedWriteLoses(s: State, h: nat, u: nat)
    requires OwesSubmitted(s, h)
    ensures CanLose(s, u)
  {
    Nothing(s);
    var t := RecordPlaced(s, s, h);
    assert !Recorded(t, u);
  }

  lemma SharerLoses(s: State, h: nat, u: nat)
    requires InTemporaryFile(s, h) && s.helpers[h].mixed
    ensures CanLose(s, u)
  {
    Nothing(s);
    var t := s.(visible := Torn);
    assert Smear(s, t, h) && EnvironmentStep(s, t);
    OneMore(s, s, t);
    assert !Recorded(t, u);
  }

  /** Two writers can meet in the temporary file. */
  lemma MeetingLoses(s: State, a: nat, b: nat, u: nat)
    requires InTemporaryFile(s, a) && InTemporaryFile(s, b) && a != b
    ensures CanLose(s, u)
  {
    Nothing(s);
    var t := s.(helpers := s.helpers[a := s.helpers[a].(mixed := true)][b := s.helpers[b].(mixed := true)]);
    assert Overlap(s, t, a, b) && EnvironmentStep(s, t);
    OneMore(s, s, t);
    SharerLoses(t, a, u);
    LosesVia(s, t, u);
  }

  /** Going on with one helper: the others, the lease and what is in view stay as they are. */
  predicate OnlyMoved(s: State, t: State, h: nat)
  {
    && h in s.helpers && h in t.helpers && t.helpers == s.helpers[h := t.helpers[h]] && t.helpers[h].fd == s.helpers[h].fd
    && t.visible == s.visible && t.lock == s.lock && t.kind == s.kind && t.sent == s.sent
  }

  lemma CleanupReachesWrite(s0: State, s: State, h: nat) returns (t: State)
    requires LeadsTo(s0, s) && h in s.helpers && s.helpers[h].pc.Cleanup?
    ensures LeadsTo(s0, t) && OnlyMoved(s, t, h) && t.helpers[h].pc.Write?
  {
    var pc := AfterCleanup(s.helpers[h].pc);
    t := Fsynced(SetPc(s, h, pc).(capture := None));
    assert CleanupCapture(s, t, h);
    OneMoreHelper(s0, s, t, h);
    if pc.Classify? { t := ClassifyReachesWrite(s0, t, h); }
  }

  lemma ClassifyReachesWrite(s0: State, s: State, h: nat) returns (t: State)
    requires LeadsTo(s0, s) && h in s.helpers && s.helpers[h].pc.Classify?
    ensures LeadsTo(s0, t) && OnlyMoved(s, t, h) && t.helpers[h].pc.Write?
  {
    t := SetPc(s, h, Write(Terminal(true, Some(s.helpers[h].pc.upid)), ThenExit));
    assert ClassifyTask(s, t, h, true);
    OneMoreHelper(s0, s, t, h);
  }

  /** A capture that may come does come. */
  lemma CaptureComes(s0: State, s: State, u: nat) returns (t: State)
    requires LeadsTo(s0, s) && CaptureMayCome(s) && s.kind == Rollback && s.task == Some(Some(u))
    requires s.capture.Some? ==> s.capture == s.task
    ensures LeadsTo(s0, t) && t.capture == Some(Some(u))
    ensures t == s.(runners := t.runners, capture := t.capture)
  {
    t := s;
    if s.capture == None {
      var r :| r in s.runners && s.runners[r].pc == Ran;
      t := s.(runners := s.runners[r := s.runners[r].(pc := Placed, mixed := false)], capture := s.task);
      assert RunnerPlace(s, t, r, true);
      OneMoreRunner(s0, s, t, r);
    }
  }

  lemma PromoteReachesWrite(s0: State, s: State, h: nat, u: nat) returns (t: State)
    requires LeadsTo(s0, s) && h in s.helpers && s.helpers[h].pc.Promote?
    requires CaptureMayCome(s) && s.kind == Rollback && s.task == Some(Some(u)) && (s.capture.Some? ==> s.capture == s.task)
    ensures LeadsTo(s0, t) && OnlyMoved(s, t, h) && t.helpers[h].pc.Write? && t.helpers[h].pc.andThen.ThenCleanup?
  {
    var captured := CaptureComes(s0, s, u);
    t := SetPc(captured, h, Write(TaskKnown(u), ThenCleanup(u, s.helpers[h].pc.own)));
    assert ReadCapture(captured, t, h);
    OneMoreHelper(s0, captured, t, h);
  }

  lemma GoReachesWrite(s0: State, s: State, h: nat, u: nat) returns (t: State)
    requires LeadsTo(s0, s) && h in s.helpers && s.helpers[h].pc.Go?
    requires CaptureMayCome(s) && s.kind == Rollback && s.task == Some(Some(u)) && (s.capture.Some? ==> s.capture == s.task)
    ensures LeadsTo(s0, t) && OnlyMoved(s, t, h) && t.helpers[h].pc.Write? && t.helpers[h].pc.andThen.ThenCleanup?
  {
    t := SetPc(s, h, Promote(true)).(
      runners := if h in s.runners && !s.runners[h].cut then s.runners[h := s.runners[h].(go := true)] else s.runners);
    assert ReleaseRunner(s, t, h);
    OneMoreHelper(s0, s, t, h);
    assert CaptureMayCome(t) by {
      if s.capture == None {
        var r :| r in s.runners && s.runners[r].pc == Ran;
        assert r in t.runners && t.runners[r].pc == Ran;
      }
    }
    t := PromoteReachesWrite(s0, t, h, u);
  }

  lemma SyncReachesWrite(s0: State, s: State, h: nat, u: nat) returns (t: State)
    requires LeadsTo(s0, s) && h in s.helpers && s.helpers[h].pc.Sync? && WritesLeft(s, h) > 0
    requires s.kind == Rollback && s.task == Some(Some(u)) && (s.capture.Some? ==> s.capture == s.task)
    ensures LeadsTo(s0, t) && OnlyMoved(s, t, h) && t.helpers[h].pc.Write?
    ensures WritesLeft(s, h) == 2 ==> t.helpers[h].pc.andThen.ThenCleanup?
  {
    t := RecordSynced(s0, s, h);
    if t.helpers[h].pc.Go? {
      t := GoReachesWrite(s0, t, h, u);
    } else {
      t := CleanupReachesWrite(s0, t, h);
    }
  }

  /** A helper that can still write gets to its next write. */
  lemma ReachesWrite(s0: State, s: State, h: nat, u: nat) returns (t: State)
    requires Inv(s) && Recorded(s, u) && LeadsTo(s0, s) && h in s.helpers && WritesLeft(s, h) > 0
    ensures LeadsTo(s0, t) && OnlyMoved(s, t, h) && t.helpers[h].pc.Write?
    ensures WritesLeft(s, h) == 2 ==> t.helpers[h].pc.andThen.ThenCleanup?
  {
    RecordedMeans(s, u);
    var pc := s.helpers[h].pc;
    if pc.Write? { t := s; }
    else if pc.Sync? { t := SyncReachesWrite(s0, s, h, u); }
    else if pc.Go? { t := GoReachesWrite(s0, s, h, u); }
    else if pc.Promote? { t := PromoteReachesWrite(s0, s, h, u); }
    else if pc.Cleanup? { t := CleanupReachesWrite(s0, s, h); }
    else { t := ClassifyReachesWrite(s0, s, h); }
  }

  /** Whoever has the lease can lose it; a loose helper is none of them. */
  lemma LeaseComesFree(s0: State, s: State, h: nat, u: nat) returns (t: State)
    requires Inv(s) && Recorded(s, u) && LeadsTo(s0, s) && h in s.helpers && !s.helpers[h].fd
    ensures LeadsTo(s0, t) && t.lock == None && h in t.helpers && t.helpers[h] == s.helpers[h]
    ensures t.visible == s.visible && t.kind == s.kind
  {
    t := s;
    if s.lock.Some? {
      var j := s.lock.value;
      assert LeaseHeld(s, j);
      if j in s.helpers && s.helpers[j].fd {
        AfterLaunch(s, u, j);
        assert HelperOk(s, j);
        t := Die(s, j);
        assert HelperCrash(s, t, j);
        OneMoreHelper(s0, s, t, j);
      } else {
        RunnerIsPlain(s, u, j);
        t := Killed(s0, s, j);
      }
    }
  }

  lemma RunnerIsPlain(s: State, u: nat, j: nat)
    requires Inv(s) && Recorded(s, u) && j in s.runners
    ensures !s.runners[j].mixed
  {
    assert RunnerOk(s, j);
  }

  /** An inspection that starts now reads the identity and comes to write the task's result. */
  lemma InspectorReachesWrite(s0: State, s: State, u: nat) returns (t: State, n: nat)
    requires LeadsTo(s0, s) && s.lock == None && s.visible == TaskKnown(u) && s.kind == Rollback
    ensures n !in s.helpers && LeadsTo(s0, t) && InTemporaryFile(t, n) && t.helpers == s.helpers[n := t.helpers[n]]
  {
    n := FreshHelper(s);
    t := s.(sent := s.sent + {Inspect});
    assert SendInspect(s, t) && BackendStep(s, t);
    OneMore(s0, s, t);
    t := RequestReads(s0, t, n, Inspect);
    t := ClassifyReachesWrite(s0, t, n);
  }

  lemma LooseWriterLoses(s: State, h: nat, u: nat)
    requires Inv(s) && Recorded(s, u) && Loose(s, h) && s.visible.TaskKnown?
    ensures CanLose(s, u)
  {
    Nothing(s);
    var t := ReachesWrite(s, s, h, u);
    if Recorded(t, u) {
      InvAlong(s, t);
      t := LeaseComesFree(s, t, h, u);
      RecordedMeans(s, u);
      var n;
      t, n := InspectorReachesWrite(s, t, u);
      MeetingLoses(t, h, n, u);
      LosesVia(s, t, u);
    }
  }

  /** Two writes left: the first one brings back a record that new writers start from. */
  lemma TwoWritesLose(s: State, h: nat, u: nat)
    requires Inv(s) && Recorded(s, u) && Loose(s, h) && WritesLeft(s, h) == 2
    ensures CanLose(s, u)
  {
    Nothing(s);
    var w := ReachesWrite(s, s, h, u);
    InvAlong(s, w);
    assert HelperOk(w, h);
    var t := RecordPlaced(s, w, h);
    InvAlong(s, t);
    if Recorded(t, u) {
      LooseWriterLoses(t, h, u);
      LosesVia(s, t, u);
    }
  }

  lemma TwoWritersLose(s: State, h: nat, k: nat, u: nat)
    requires Inv(s) && Recorded(s, u) && h != k && h in s.helpers && k in s.helpers
    requires WritesLeft(s, h) == 1 && WritesLeft(s, k) > 0
    ensures CanLose(s, u)
  {
    Nothing(s);
    var t := ReachesWrite(s, s, k, u);
    if Recorded(t, u) {
      InvAlong(s, t);
      assert t.helpers[h] == s.helpers[h] && WritesLeft(t, h) == 1;
      var v := ReachesWrite(s, t, h, u);
      MeetingLoses(v, h, k, u);
      LosesVia(s, v, u);
    }
  }

  lemma InsecureLoses(s: State, u: nat)
    requires Inv(s) && Recorded(s, u) && !Secure(s)
    ensures CanLose(s, u)
  {
    if h :| h in s.helpers && (OwesSubmitted(s, h) || s.helpers[h].mixed) {
      if OwesSubmitted(s, h) { OwedWriteLoses(s, h, u); } else { MixedLoses(s, h, u); }
    } else {
      var h :| Loose(s, h) && !(s.visible.Terminal? && LastWriter(s, h));
      LooseLoses(s, h, u);
    }
  }

  lemma MixedLoses(s: State, h: nat, u: nat)
    requires Inv(s) && h in s.helpers && s.helpers[h].mixed
    ensures CanLose(s, u)
  {
    assert HelperOk(s, h);
    SharerLoses(s, h, u);
  }

  lemma LooseLoses(s: State, h: nat, u: nat)
    requires Inv(s) && Recorded(s, u) && Loose(s, h) && !(s.visible.Terminal? && LastWriter(s, h))
    ensures CanLose(s, u)
  {
    if s.visible.TaskKnown? {
      LooseWriterLoses(s, h, u);
    } else if WritesLeft(s, h) == 2 {
      TwoWritesLose(s, h, u);
    } else {
      var k :| k in s.helpers && k != h && WritesLeft(s, k) != 0;
      TwoWritersLose(s, h, k, u);
    }
  }

  /**
   Exactly when a recorded task identity is there to stay, over every continuation: crashes, power
   losses, racing promotions, cleanups and writers that meet in the temporary file. What takes it
   away is a helper without its lease: one that performs a late `submitted` write, or one that can
   still journal the identity itself while another writer may be at work.
   */
  lemma IdentityIsKept(run: seq<State>, i: nat, u: nat)
    requires IsRun(run) && i < |run| && Recorded(run[i], u)
    ensures Secure(run[i]) <==>
            forall later: seq<State> :: IsPath(later) && later[0] == run[i] ==> Recorded(later[|later| - 1], u)
  {
    RunInv(run, i);
    if Secure(run[i]) {
      forall later: seq<State> | IsPath(later) && later[0] == run[i] ensures Recorded(later[|later| - 1], u) {
        SecureForEver(later, |later| - 1, u);
      }
    } else {
      InsecureLoses(run[i], u);
      var t :| LeadsTo(run[i], t) && !Recorded(t, u);
      var later: seq<State> :| IsPath(later) && later[0] == run[i] && later[|later| - 1] == t;
      assert !Recorded(later[|later| - 1], u);
    }
  }

  /** Both failures exist: a late `submitted` write over a recorded identity, and, in an undisturbed run, a loose submitter. */
  lemma IdentityCanBeLost(d: nat, u: nat) returns (owed: State, loose: State)
    ensures LeadsTo(Initial(Rollback), owed) && Recorded(owed, u) && OwesSubmitted(owed, 0) && !Secure(owed)
    ensures LeadsTo(Initial(Rollback), loose) && Recorded(loose, u) && Loose(loose, 0) && !Secure(loose)
    ensures forall h :: h in loose.helpers ==> !OwesSubmitted(loose, h)
  {
    owed := OwedWriteIsReachable(d, u);
    loose := PromotingSubmitterIsReachable(d, u);
    assert Loose(loose, 0);
  }
}
