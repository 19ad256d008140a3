/**
 Runs of the submission protocol put together step by step: how a late request reaches a launch,
 and that the runs in which a promise fails do exist.
 */
module SubmissionRuns {
  import opened Wrappers
  import opened SubmissionProtocol

  lemma PathStep(run: seq<State>, i: nat)
    requires IsPath(run) && i + 1 < |run|
    ensures Next(run[i], run[i + 1])
  {
    assert StepAt(run, i);
  }

  lemma RunTail(run: seq<State>, i: nat, j: nat)
    requires IsPath(run) && i < j <= |run|
    ensures IsPath(run[i..j])
  {
    forall k: nat | k + 1 < |run[i..j]| ensures StepAt(run[i..j], k) { PathStep(run, i + k); }
  }

  ghost predicate LeadsTo(s: State, t: State)
  {
    exists run: seq<State> :: IsPath(run) && run[0] == s && run[|run| - 1] == t
  }

  ghost predicate LaunchesLater(s: State)
  {
    exists run: seq<State> :: IsPath(run) && run[0] == s && run[|run| - 1].launches > 0
  }

  /** The runner `h` is there all along. */
  predicate Stays(path: seq<State>, h: nat)
  {
    forall i :: 0 <= i < |path| ==> h in path[i].runners
  }

  /** The path ends with the launch of the runner `h` that was there all along. */
  ghost predicate LaunchesBy(path: seq<State>, h: nat)
  {
    |path| >= 2 && Stays(path, h) && LaunchOf(path[|path| - 2], path[|path| - 1], h)
  }

  ghost predicate LaunchOf(s: State, s': State, h: nat)
  {
    exists reported :: Launch(s, s', h, reported)
  }

  lemma Nothing(s: State)
    ensures LeadsTo(s, s)
  {
    assert IsPath([s]);
  }

  lemma OneMore(s: State, t: State, u: State)
    requires LeadsTo(s, t) && Next(t, u)
    ensures LeadsTo(s, u)
  {
    var run: seq<State> :| IsPath(run) && run[0] == s && run[|run| - 1] == t;
    Longer(run, u);
    assert (run + [u])[0] == s && (run + [u])[|run + [u]| - 1] == u;
  }

  lemma Longer(run: seq<State>, u: State)
    requires IsPath(run) && Next(run[|run| - 1], u)
    ensures IsPath(run + [u])
  {
    var longer := run + [u];
    forall i: nat | i + 1 < |longer| ensures StepAt(longer, i) {
      if i < |run| - 1 { PathStep(run, i); }
    }
  }

  lemma OneMoreHelper(s: State, t: State, u: State, h: nat)
    requires LeadsTo(s, t) && HelperStep(t, u, h)
    ensures LeadsTo(s, u)
  {
    OneMore(s, t, u);
  }

  lemma OneMoreRunner(s: State, t: State, u: State, h: nat)
    requires LeadsTo(s, t) && RunnerStep(t, u, h)
    ensures LeadsTo(s, u)
  {
    OneMore(s, t, u);
  }

  lemma Joined(s: State, t: State, u: State)
    requires LeadsTo(s, t) && LeadsTo(t, u)
    ensures LeadsTo(s, u)
  {
    var first: seq<State> :| IsPath(first) && first[0] == s && first[|first| - 1] == t;
    var second: seq<State> :| IsPath(second) && second[0] == t && second[|second| - 1] == u;
    var run := first + second[1..];
    forall i: nat | i + 1 < |run| ensures StepAt(run, i) {
      if i < |first| - 1 {
        PathStep(first, i);
      } else {
        var k := i - (|first| - 1);
        PathStep(second, k);
        assert run[i] == second[k] && run[i + 1] == second[k + 1];
      }
    }
    assert IsPath(run) && run[0] == s && run[|run| - 1] == u;
  }

  lemma LaunchesLaterVia(s: State, t: State)
    requires LeadsTo(s, t) && LaunchesLater(t)
    ensures LaunchesLater(s)
  {
    var run: seq<State> :| IsPath(run) && run[0] == t && run[|run| - 1].launches > 0;
    Joined(s, t, run[|run| - 1]);
  }

  // ---------------------------------------------------------------------------
  // One helper among others that stand still
  // ---------------------------------------------------------------------------

  /** A process number nobody uses. */
  lemma FreshHelper(s: State) returns (h: nat)
    ensures h !in s.helpers && h !in s.runners
  {
    h := Beyond(s.helpers.Keys + s.runners.Keys);
  }

  lemma {:induction false} Beyond(taken: set<nat>) returns (n: nat)
    ensures forall x :: x in taken ==> x < n
    decreases taken
  {
    if taken == {} {
      n := 0;
    } else {
      var x :| x in taken;
      n := Beyond(taken - {x});
      if n <= x { n := x + 1; }
      assert taken == (taken - {x}) + {x};
    }
  }

  function With(s: State, h: nat, p: Helper): State
  {
    s.(helpers := s.helpers[h := p])
  }

  /** A sent request starts a helper, which takes the free lease and reads the journal. */
  lemma RequestReads(s0: State, s: State, h: nat, req: Request) returns (t: State)
    requires LeadsTo(s0, s) && req in s.sent && s.lock == None && h !in s.helpers && h !in s.runners
    requires AfterRead(s.kind, req, s.visible).Some?
    ensures LeadsTo(s0, t)
    ensures t == With(s, h, Helper(req, AfterRead(s.kind, req, s.visible).value, true, false)).(lock := Some(h))
  {
    var s1 := With(s, h, Helper(req, Waiting, false, false));
    assert Deliver(s, s1, h, req);
    OneMoreHelper(s0, s, s1, h);
    var s2 := With(s, h, Helper(req, Holding, true, false)).(lock := Some(h));
    assert s2.helpers == s1.helpers[h := s1.helpers[h].(pc := Holding, fd := true)];
    assert Acquire(s1, s2, h);
    OneMoreHelper(s0, s1, s2, h);
    t := With(s, h, Helper(req, AfterRead(s.kind, req, s.visible).value, true, false)).(lock := Some(h));
    assert t.helpers == s2.helpers[h := t.helpers[h]];
    assert ReadJournal(s2, t, h);
    OneMoreHelper(s0, s2, t, h);
  }

  /** A writer that is alone in the temporary file publishes its record. */
  lemma RecordPlaced(s0: State, s: State, h: nat) returns (t: State)
    requires LeadsTo(s0, s) && InTemporaryFile(s, h)
    ensures LeadsTo(s0, t)
    ensures var p := s.helpers[h];
            t == With(s, h, p.(pc := Sync(p.pc.rec, p.pc.andThen), mixed := false)).(visible := p.pc.rec, left := {})
  {
    var p := s.helpers[h];
    t := With(s, h, p.(pc := Sync(p.pc.rec, p.pc.andThen), mixed := false)).(visible := p.pc.rec, left := {});
    assert Place(s, t, h);
    OneMoreHelper(s0, s, t, h);
  }

  lemma RecordSynced(s0: State, s: State, h: nat) returns (t: State)
    requires LeadsTo(s0, s) && h in s.helpers && s.helpers[h].pc.Sync? && AfterWrite(s.helpers[h].pc.andThen).Some?
    ensures LeadsTo(s0, t)
    ensures t == Fsynced(With(s, h, s.helpers[h].(pc := AfterWrite(s.helpers[h].pc.andThen).value, mixed := false)))
  {
    t := Fsynced(With(s, h, s.helpers[h].(pc := AfterWrite(s.helpers[h].pc.andThen).value, mixed := false)));
    assert SyncDirectory(s, t, h);
    OneMoreHelper(s0, s, t, h);
  }

  /** What changed: helper `h` and the record, nothing else. */
  ghost predicate OnlyHelper(s: State, t: State, h: nat)
  {
    && h in t.helpers
    && t == With(s, h, t.helpers[h]).(
              visible := t.visible, durable := t.durable, durableCapture := t.durableCapture, left := t.left)
  }

  /** An execute that read a permissive record gets to its fork. */
  lemma ReachesFork(s0: State, s: State, h: nat, d: nat) returns (t: State)
    requires LeadsTo(s0, s) && (s.visible == Absent || s.visible == Intent(d))
    requires h in s.helpers && s.helpers[h] == Helper(Execute(d), AfterReadExecute(s.kind, s.visible, d).value, true, false)
    ensures LeadsTo(s0, t) && OnlyHelper(s, t, h)
    ensures t.helpers[h] == Helper(Execute(d), Forking, true, false) && t.visible == Intent(d)
  {
    t := s;
    if s.kind == Mutation && s.visible == Absent {
      t := IntentWritten(s0, t, h, d, ThenPreflight);
    }
    var unrecorded := t.helpers[h].pc.unrecorded;
    var u := SetPc(t, h, if unrecorded then Write(Intent(d), ThenFork) else Forking);
    assert PassPreflight(t, u, h);
    OneMoreHelper(s0, t, u, h);
    t := u;
    if unrecorded {
      t := IntentWritten(s0, t, h, d, ThenFork);
    }
  }

  lemma IntentWritten(s0: State, s: State, h: nat, d: nat, andThen: Then) returns (t: State)
    requires LeadsTo(s0, s) && (andThen == ThenPreflight || andThen == ThenFork)
    requires h in s.helpers && s.helpers[h] == Helper(Execute(d), Write(Intent(d), andThen), true, false)
    ensures LeadsTo(s0, t) && OnlyHelper(s, t, h) && t.visible == Intent(d) && t.durable == Intent(d)
    ensures t.helpers[h] == Helper(Execute(d), if andThen == ThenPreflight then Preflight(false) else Forking, true, false)
  {
    t := RecordPlaced(s0, s, h);
    t := RecordSynced(s0, t, h);
  }

  /** The fork, and READY. */
  lemma ReachesReady(s0: State, s: State, h: nat, d: nat) returns (t: State, ready: State)
    requires LeadsTo(s0, s) && h !in s.runners && s.lock == Some(h)
    requires h in s.helpers && s.helpers[h] == Helper(Execute(d), Forking, true, false)
    ensures LeadsTo(s0, t) && Ready(t, ready, h) && h in t.runners && LeadsTo(s0, ready)
    ensures ready == With(s, h, Helper(Execute(d), Write(Submitted, ThenGo), false, false)).(
                       runners := s.runners[h := Runner(Blocked, false, false, false)])
  {
    t := SetPc(s, h, Forked).(runners := s.runners[h := Runner(Blocked, false, false, false)]);
    assert Fork(s, t, h);
    OneMoreHelper(s0, s, t, h);
    ready := With(s, h, Helper(Execute(d), Write(Submitted, ThenGo), false, false)).(
      runners := s.runners[h := Runner(Blocked, false, false, false)]);
    assert ready.helpers == t.helpers[h := t.helpers[h].(pc := Write(Submitted, ThenGo), fd := false, mixed := false)];
    assert Ready(t, ready, h);
    OneMoreHelper(s0, t, ready, h);
  }

  /** From READY on nothing has to go wrong: `submitted` is forced to disk and the runner released. */
  lemma ReachesRelease(s0: State, s: State, h: nat, d: nat) returns (t: State)
    requires LeadsTo(s0, s) && h in s.helpers && s.helpers[h] == Helper(Execute(d), Write(Submitted, ThenGo), false, false)
    requires h in s.runners && s.runners[h] == Runner(Blocked, false, false, false)
    ensures LeadsTo(s0, t)
    ensures t == Fsynced(With(s, h, Helper(Execute(d), if s.kind == Mutation then Gone else Promote(true), false, false)).(
                           visible := Submitted, left := {})).(
                   runners := s.runners[h := Runner(Blocked, true, false, false)])
  {
    var u := RecordPlaced(s0, s, h);
    u := RecordSynced(s0, u, h);
    t := SetPc(u, h, if s.kind == Mutation then Gone else Promote(true)).(
      runners := u.runners[h := Runner(Blocked, true, false, false)]);
    assert ReleaseRunner(u, t, h);
    OneMoreHelper(s0, u, t, h);
  }

  lemma Launched(s0: State, s: State, h: nat, reported: Option<nat>) returns (t: State)
    requires LeadsTo(s0, s) && h in s.runners && s.runners[h] == Runner(Blocked, true, false, false)
    requires h in s.helpers && s.helpers[h].req.Execute? && (s.kind == Mutation ==> reported == None)
    ensures LeadsTo(s0, t)
    ensures t == s.(runners := s.runners[h := Runner(Ran, true, false, false)], launches := s.launches + 1,
                    launchDigest := Some(s.helpers[h].req.digest), task := Some(reported))
  {
    t := s.(runners := s.runners[h := Runner(Ran, true, false, false)], launches := s.launches + 1,
            launchDigest := Some(s.helpers[h].req.digest), task := Some(reported));
    assert Launch(s, t, h, reported);
    OneMoreRunner(s0, s, t, h);
  }

  lemma Killed(s0: State, s: State, h: nat) returns (t: State)
    requires LeadsTo(s0, s) && h in s.runners && !s.runners[h].mixed
    ensures LeadsTo(s0, t) && t == s.(runners := s.runners - {h}, lock := LockAfterRunner(s, h))
  {
    t := s.(runners := s.runners - {h}, lock := LockAfterRunner(s, h));
    assert RunnerGone(s, t, h);
    OneMoreRunner(s0, s, t, h);
  }

  // ---------------------------------------------------------------------------
  // Launches
  // ---------------------------------------------------------------------------

  /** The host is up, idle, and its record still permits submission. */
  predicate IdlePermissive(s: State, d: nat)
  {
    && s.helpers == map[] && s.runners == map[] && s.lock == None
    && Execute(d) in s.sent
    && (s.visible == Absent || s.visible == Intent(d))
  }

  lemma IdleLaunches(s: State, d: nat)
    requires IdlePermissive(s, d)
    ensures LaunchesLater(s)
  {
    Nothing(s);
    var t := RequestReads(s, s, 0, Execute(d));
    t := ReachesFork(s, t, 0, d);
    var forked;
    forked, t := ReachesReady(s, t, 0, d);
    t := ReachesRelease(s, t, 0, d);
    t := Launched(s, t, 0, None);
  }

  function Initial(kind: Kind): (s: State)
    ensures Init(s) && s.kind == kind
  {
    State(kind, Unarmed, false, {}, false, map[], map[], None, Absent, Absent, None, None, {}, 0, None, None)
  }

  /** An operation that is armed and whose execute request was sent; any other request may be sent as well. */
  lemma ArmedAndSent(kind: Kind, d: nat) returns (t: State)
    ensures LeadsTo(Initial(kind), t)
    ensures t == Initial(kind).(job := Armed(d), sent := {Execute(d), Seal, Inspect})
  {
    var s := Initial(kind);
    Nothing(s);
    var armed := s.(job := Armed(d), armedNow := true);
    assert Arm(s, armed, d) && BackendStep(s, armed);
    OneMore(s, s, armed);
    var executed := armed.(armedNow := false, sent := armed.sent + {Execute(d)});
    assert SendExecute(armed, executed) && BackendStep(armed, executed);
    OneMore(s, armed, executed);
    var sealing := executed.(sent := executed.sent + {Seal});
    assert SendSeal(executed, sealing) && BackendStep(executed, sealing);
    OneMore(s, executed, sealing);
    t := sealing.(sent := sealing.sent + {Inspect});
    assert SendInspect(sealing, t) && BackendStep(sealing, t);
    OneMore(s, sealing, t);
    assert t.sent == {Execute(d), Seal, Inspect};
  }

  /** The guarantees are not empty: an armed and submitted operation can reach its launch. */
  lemma LaunchIsReachable(kind: Kind, d: nat)
    ensures LaunchesLater(Initial(kind))
  {
    var sent := ArmedAndSent(kind, d);
    IdleLaunches(sent, d);
    LaunchesLaterVia(Initial(kind), sent);
  }

  /** An attempt whose runner was killed at READY: its helper still owes the `submitted` write, and the lease is free. */
  lemma OrphanedAttempt(kind: Kind, d: nat) returns (t: State)
    ensures LeadsTo(Initial(kind), t)
    ensures t.helpers == map[0 := Helper(Execute(d), Write(Submitted, ThenGo), false, false)]
    ensures t.runners == map[] && t.lock == None && t.visible == Intent(d) && t.launches == 0 && t.kind == kind
    ensures t.sent == {Execute(d), Seal, Inspect} && t.capture == None
  {
    var s := Initial(kind);
    t := ArmedAndSent(kind, d);
    t := RequestReads(s, t, 0, Execute(d));
    t := ReachesFork(s, t, 0, d);
    var forked;
    forked, t := ReachesReady(s, t, 0, d);
    t := Killed(s, t, 0);
    assert t.helpers.Keys == {0} && t.runners.Keys == {};
  }

  /** The attempt that follows it, up to its own READY. */
  lemma SecondAttempt(s0: State, s: State, d: nat) returns (t: State, ready: State)
    requires LeadsTo(s0, s) && s.helpers == map[0 := Helper(Execute(d), Write(Submitted, ThenGo), false, false)]
    requires s.runners == map[] && s.lock == None && s.visible == Intent(d) && Execute(d) in s.sent
    ensures LeadsTo(s0, t) && Ready(t, ready, 1) && 1 in t.runners && LeadsTo(s0, ready)
    ensures ready.helpers == map[0 := Helper(Execute(d), Write(Submitted, ThenGo), false, false),
                                 1 := Helper(Execute(d), Write(Submitted, ThenGo), false, false)]
    ensures ready.runners == map[1 := Runner(Blocked, false, false, false)] && ready.lock == Some(1)
    ensures ready.kind == s.kind && ready.visible == Intent(d) && ready.launches == s.launches
    ensures ready.sent == s.sent
  {
    t := RequestReads(s0, s, 1, Execute(d));
    t := ReachesFork(s0, t, 1, d);
    t, ready := ReachesReady(s0, t, 1, d);
  }

  /** `t` is reached while the runner `h` is there all along. */
  ghost predicate LeadsWith(s: State, t: State, h: nat)
  {
    exists run: seq<State> :: IsPath(run) && Stays(run, h) && run[0] == s && run[|run| - 1] == t
  }

  lemma OneMoreWith(s: State, t: State, u: State, h: nat)
    requires LeadsWith(s, t, h) && Next(t, u) && h in u.runners
    ensures LeadsWith(s, u, h)
  {
    var run: seq<State> :| IsPath(run) && Stays(run, h) && run[0] == s && run[|run| - 1] == t;
    Longer(run, u);
    assert Stays(run + [u], h) && (run + [u])[0] == s && (run + [u])[|run + [u]| - 1] == u;
  }

  lemma LaunchedWith(s: State, t: State, u: State, h: nat)
    requires LeadsWith(s, t, h) && LaunchOf(t, u, h)
    ensures exists later: seq<State> ::
              IsPath(later) && later[0] == s && LaunchesBy(later, h) && later[|later| - 2] == t && later[|later| - 1] == u
  {
    var run: seq<State> :| IsPath(run) && Stays(run, h) && run[0] == s && run[|run| - 1] == t;
    assert RunnerStep(t, u, h);
    Longer(run, u);
    var later := run + [u];
    assert later[|later| - 2] == t && later[|later| - 1] == u && later[0] == s;
  }

  /** A sharer of the temporary file makes the launch follow a torn record. */
  lemma SharersTearSubmission(s: State, h: nat, k: nat)
    requires h in s.helpers && s.helpers[h].pc == Write(Submitted, ThenGo) && s.helpers[h].req.Execute?
    requires h in s.runners && s.runners[h] == Runner(Blocked, false, false, false)
    requires k != h && InTemporaryFile(s, k)
    ensures exists later: seq<State> ::
              IsPath(later) && later[0] == s && LaunchesBy(later, h) && later[|later| - 2].durable == Torn
  {
    var t := SharedPlacesTorn(s, h, k);
    var u, v := TornIsForced(s, t, h);
    LaunchedWith(s, u, v, h);
  }

  lemma SharedPlacesTorn(s: State, h: nat, k: nat) returns (t: State)
    requires h in s.helpers && s.helpers[h].pc == Write(Submitted, ThenGo) && s.helpers[h].req.Execute?
    requires h in s.runners && k != h && InTemporaryFile(s, k)
    ensures LeadsWith(s, t, h) && t.runners == s.runners && t.visible == Torn
    ensures h in t.helpers && t.helpers[h].pc == Sync(Submitted, ThenGo) && t.helpers[h].req.Execute?
  {
    assert IsPath([s]) && Stays([s], h);
    var shared := s.(helpers := s.helpers[h := s.helpers[h].(mixed := true)][k := s.helpers[k].(mixed := true)]);
    assert Overlap(s, shared, h, k) && EnvironmentStep(s, shared);
    OneMoreWith(s, s, shared, h);
    t := SetPc(shared, h, Sync(Submitted, ThenGo)).(visible := Torn, left := {});
    assert Publishes(shared, h, Torn) && Place(shared, t, h) && HelperStep(shared, t, h);
    OneMoreWith(s, shared, t, h);
  }

  lemma TornIsForced(s0: State, s: State, h: nat) returns (t: State, t': State)
    requires LeadsWith(s0, s, h)
    requires h in s.helpers && s.helpers[h].pc == Sync(Submitted, ThenGo) && s.helpers[h].req.Execute?
    requires h in s.runners && s.runners[h] == Runner(Blocked, false, false, false) && s.visible == Torn
    ensures LeadsWith(s0, t, h) && LaunchOf(t, t', h) && t.durable == Torn
  {
    var go := SetPc(Fsynced(s), h, Go);
    assert SyncDirectory(s, go, h) && HelperStep(s, go, h);
    OneMoreWith(s0, s, go, h);
    t := SetPc(go, h, if s.kind == Mutation then Gone else Promote(true)).(
      runners := go.runners[h := Runner(Blocked, true, false, false)]);
    assert ReleaseRunner(go, t, h) && HelperStep(go, t, h);
    OneMoreWith(s0, go, t, h);
    t' := t.(runners := t.runners[h := Runner(Ran, true, false, false)], launches := t.launches + 1,
             launchDigest := Some(t.helpers[h].req.digest), task := Some(None));
    assert Launch(t, t', h, None);
  }

  /** A launch over a torn durable record can be reached, from the start, by both kinds of helper. */
  lemma TornLaunchIsReachable(kind: Kind, d: nat) returns (t: State, t': State)
    ensures LeadsTo(Initial(kind), t) && LaunchOf(t, t', 1) && t.durable == Torn
  {
    var s := Initial(kind);
    t := OrphanedAttempt(kind, d);
    var before, ready := SecondAttempt(s, t, d);
    SharersTearSubmission(ready, 1, 0);
    var later: seq<State> :|
      IsPath(later) && later[0] == ready && LaunchesBy(later, 1) && later[|later| - 2].durable == Torn;
    t, t' := later[|later| - 2], later[|later| - 1];
    var rest := later[0..|later| - 1];
    RunTail(later, 0, |later| - 1);
    assert rest[0] == ready && rest[|rest| - 1] == t;
    Joined(s, ready, t);
  }

  // ---------------------------------------------------------------------------
  // Seals and identities
  // ---------------------------------------------------------------------------

  /**
   A seal answer over a durable record that still permits submission can be reached: the helper
   that wrote the seal dies between the rename and the directory fsync, and the next one reads it.
   */
  lemma UnforcedSealIsReachable(kind: Kind, d: nat) returns (t: State, t': State)
    ensures LeadsTo(Initial(kind), t) && AnswerSeal(t, t', 1) && LeadsTo(Initial(kind), t')
    ensures Execute(d) in t.sent && t.durable == Absent && LaunchesLater(t')
  {
    var s := Initial(kind);
    t := ArmedAndSent(kind, d);
    t := RequestReads(s, t, 0, Seal);
    t := RecordPlaced(s, t, 0);
    var died := Die(t, 0);
    assert HelperCrash(t, died, 0);
    OneMoreHelper(s, t, died, 0);
    t := RequestReads(s, died, 1, Seal);
    t' := Leave(t, 1).(sealAnswered := true);
    assert AnswerSeal(t, t', 1);
    OneMoreHelper(s, t, t', 1);
    var off := t'.(helpers := map[], runners := map[], lock := None,
                   visible := t'.durable, capture := t'.durableCapture, left := {});
    assert PowerLoss(t', off) && EnvironmentStep(t', off);
    Nothing(t');
    OneMore(t', t', off);
    IdleLaunches(off, d);
    LaunchesLaterVia(t', off);
  }

  /** A rollback attempt launches, is captured, and its submitter journals the identity. */
  lemma PromotedBy(s0: State, s: State, h: nat, d: nat, u: nat) returns (t: State)
    requires LeadsTo(s0, s) && s.kind == Rollback
    requires h in s.helpers && s.helpers[h] == Helper(Execute(d), Write(Submitted, ThenGo), false, false)
    requires h in s.runners && s.runners[h] == Runner(Blocked, false, false, false)
    ensures LeadsTo(s0, t) && t.helpers == s.helpers[h := Helper(Execute(d), Cleanup(u, true), false, false)]
    ensures t.visible == TaskKnown(u) && t.durable == TaskKnown(u)
  {
    t := ReachesRelease(s0, s, h, d);
    t := Launched(s0, t, h, Some(u));
    var captured := t.(runners := t.runners[h := t.runners[h].(pc := Placed, mixed := false)], capture := t.task);
    assert RunnerPlace(t, captured, h, true);
    OneMoreRunner(s0, t, captured, h);
    t := SetPc(captured, h, Write(TaskKnown(u), ThenCleanup(u, true)));
    assert ReadCapture(captured, t, h);
    OneMoreHelper(s0, captured, t, h);
    t := RecordPlaced(s0, t, h);
    t := RecordSynced(s0, t, h);
  }

  /** A durable task identity with a late `submitted` write still to come can be reached. */
  lemma OwedWriteIsReachable(d: nat, u: nat) returns (t: State)
    ensures LeadsTo(Initial(Rollback), t) && t.visible == TaskKnown(u) && t.durable == TaskKnown(u)
    ensures 0 in t.helpers && t.helpers[0].pc == Write(Submitted, ThenGo)
  {
    var s := Initial(Rollback);
    t := OrphanedAttempt(Rollback, d);
    var before;
    before, t := SecondAttempt(s, t, d);
    t := PromotedBy(s, t, 1, d, u);
  }

  /** So can one whose submitter, without its lease, has one journal write left: this is an undisturbed run. */
  lemma PromotingSubmitterIsReachable(d: nat, u: nat) returns (t: State)
    ensures LeadsTo(Initial(Rollback), t) && t.visible == TaskKnown(u) && t.durable == TaskKnown(u)
    ensures t.helpers == map[0 := Helper(Execute(d), Cleanup(u, true), false, false)]
  {
    var s := Initial(Rollback);
    t := ArmedAndSent(Rollback, d);
    t := RequestReads(s, t, 0, Execute(d));
    t := ReachesFork(s, t, 0, d);
    var forked;
    forked, t := ReachesReady(s, t, 0, d);
    t := PromotedBy(s, t, 0, d, u);
  }
}
