/**
 The backend's side of a health evaluation: what it believes of a host answer, and when it makes
 it durable. The authority and the host answer nondeterministically.
 */
module HealthVerdict {
  import opened Wrappers
  import opened Ordering
  import opened SystemdBatch
  import opened HealthSettling

  datatype Contract = Contract(revision: nat, fingerprint: string, probes: seq<Probe>, probeCount: nat)

  /** A typed host answer; nothing about it is trusted. */
  datatype HostResult = HostResult(revision: nat, fingerprint: string, decisive: bool, probes: seq<ProbeAnswer>)

  /** One false conjunct fails the contract, checked before an unknown one; all must pass. */
  function Aggregate(observations: seq<Observation>): (o: Outcome)
    ensures o == Failed <==> exists x <- observations :: x.outcome == Failed
    ensures o == Passed <==> forall x <- observations :: x.outcome == Passed
  {
    if exists x <- observations :: x.outcome == Failed then Failed
    else if forall x <- observations :: x.outcome == Passed then Passed
    else Unknown
  }

  function IndexOfAnswer(a: ProbeAnswer): nat { a.index }

  predicate Described(probe: Probe, observation: Observation, answers: seq<ProbeAnswer>)
  {
    ProbeAnswer(probe.index, probe.kind, probe.target, observation) in answers && Coherent(probe.kind, observation)
  }

  /** The answer is about exactly this contract: same generation, one coherent result for each frozen probe. */
  ghost predicate Believes(contract: Contract, result: HostResult, observations: seq<Observation>)
  {
    && result.revision == contract.revision && result.fingerprint == contract.fingerprint
    && |contract.probes| == contract.probeCount == |result.probes| == |observations|
    && Distinct(Map(IndexOfAnswer, result.probes))
    && (forall i :: 0 <= i < |observations| ==> Described(contract.probes[i], observations[i], result.probes))
    && (result.decisive ==> forall x <- observations :: x.outcome != Unknown)
  }

  method ValidateHostHealthResult(contract: Contract, result: HostResult) returns (r: Option<seq<Observation>>)
    ensures r.Some? ==> Believes(contract, result, r.value)
    ensures r == None ==> forall observations :: !Believes(contract, result, observations)
  {
    if result.revision != contract.revision || result.fingerprint != contract.fingerprint { return None; }
    if |contract.probes| != contract.probeCount || |result.probes| != |contract.probes| { return None; }
    var byIndex: map<nat, ProbeAnswer> := map[];
    var i := 0;
    while i < |result.probes|
      invariant 0 <= i <= |result.probes| && Distinct(Map(IndexOfAnswer, result.probes[..i]))
      invariant Indexes(byIndex, result.probes[..i])
    {
      var answer := result.probes[i];
      assert result.probes[..i + 1] == result.probes[..i] + [answer];
      OneMoreAnswer(byIndex, result.probes[..i], answer);
      if answer.index in byIndex {
        RepeatedIndex(result.probes, i);
        return None;
      }
      byIndex := byIndex[answer.index := answer];
      i := i + 1;
    }
    assert result.probes[..i] == result.probes;
    r := Observations(contract, result, byIndex);
  }

  /** The second loop: one coherent observation for each frozen probe. */
  method Observations(contract: Contract, result: HostResult, byIndex: map<nat, ProbeAnswer>)
    returns (r: Option<seq<Observation>>)
    requires result.revision == contract.revision && result.fingerprint == contract.fingerprint
    requires |contract.probes| == contract.probeCount == |result.probes|
    requires Distinct(Map(IndexOfAnswer, result.probes)) && Indexes(byIndex, result.probes)
    ensures r.Some? ==> Believes(contract, result, r.value)
    ensures r == None ==> forall observations :: !Believes(contract, result, observations)
  {
    var observations: seq<Observation> := [];
    var i := 0;
    while i < |contract.probes|
      invariant 0 <= i <= |contract.probes| && |observations| == i
      invariant forall k :: 0 <= k < i ==> Described(contract.probes[k], observations[k], result.probes)
    {
      var probe := contract.probes[i];
      if probe.index !in byIndex {
        forall all ensures !Believes(contract, result, all) {
          assert Believes(contract, result, all) ==> Described(probe, all[i], result.probes);
        }
        return None;
      }
      var answer := byIndex[probe.index];
      if answer.kind != probe.kind || answer.target != probe.target || !Coherent(probe.kind, answer.observation) {
        forall all | Believes(contract, result, all) ensures false {
          assert Described(probe, all[i], result.probes);
          OneAnswer(byIndex, result.probes, ProbeAnswer(probe.index, probe.kind, probe.target, all[i]));
        }
        return None;
      }
      observations := observations + [answer.observation];
      i := i + 1;
    }
    if result.decisive && exists x <- observations :: x.outcome == Unknown {
      forall all | Believes(contract, result, all) ensures false {
        SameObservations(contract, result, byIndex, observations, all);
      }
      return None;
    }
    r := Some(observations);
  }

  predicate Indexes(byIndex: map<nat, ProbeAnswer>, answers: seq<ProbeAnswer>)
  {
    && (forall a <- answers :: a.index in byIndex)
    && (forall k <- byIndex :: byIndex[k].index == k && byIndex[k] in answers)
  }

  lemma OneMoreAnswer(byIndex: map<nat, ProbeAnswer>, answers: seq<ProbeAnswer>, a: ProbeAnswer)
    requires Indexes(byIndex, answers) && Distinct(Map(IndexOfAnswer, answers))
    ensures a.index !in byIndex ==> Indexes(byIndex[a.index := a], answers + [a]) && Distinct(Map(IndexOfAnswer, answers + [a]))
    ensures a.index in byIndex ==> !Distinct(Map(IndexOfAnswer, answers + [a]))
  {
    MapSplits(IndexOfAnswer, answers, [a]);
    assert Map(IndexOfAnswer, [a]) == [a.index];
    DistinctOneMore(Map(IndexOfAnswer, answers), a.index);
    if a.index in byIndex {
      var i :| 0 <= i < |answers| && answers[i] == byIndex[a.index];
      assert Map(IndexOfAnswer, answers)[i] == a.index;
    }
    forall i | 0 <= i < |answers| ensures answers[i].index in byIndex { assert answers[i] in answers; }
  }

  lemma RepeatedIndex(answers: seq<ProbeAnswer>, i: nat)
    requires i < |answers| && !Distinct(Map(IndexOfAnswer, answers[..i + 1]))
    ensures !Distinct(Map(IndexOfAnswer, answers))
  {
    var all := Map(IndexOfAnswer, answers);
    assert Map(IndexOfAnswer, answers[..i + 1]) == all[..i + 1];
  }

  lemma OneAnswer(byIndex: map<nat, ProbeAnswer>, answers: seq<ProbeAnswer>, a: ProbeAnswer)
    requires Indexes(byIndex, answers) && Distinct(Map(IndexOfAnswer, answers)) && a in answers
    ensures byIndex[a.index] == a
  {
    var i :| 0 <= i < |answers| && answers[i] == a;
    var j :| 0 <= j < |answers| && answers[j] == byIndex[a.index];
    assert Map(IndexOfAnswer, answers)[i] == Map(IndexOfAnswer, answers)[j];
  }

  /** A believed answer can be read in one way only. */
  lemma SameObservations(contract: Contract, result: HostResult, byIndex: map<nat, ProbeAnswer>,
                         a: seq<Observation>, b: seq<Observation>)
    requires Indexes(byIndex, result.probes) && Distinct(Map(IndexOfAnswer, result.probes))
    requires |a| == |b| == |contract.probes|
    requires forall i :: 0 <= i < |a| ==> Described(contract.probes[i], a[i], result.probes)
    requires forall i :: 0 <= i < |b| ==> Described(contract.probes[i], b[i], result.probes)
    ensures a == b
  {
    forall i | 0 <= i < |a| ensures a[i] == b[i] {
      var p := contract.probes[i];
      assert Described(p, a[i], result.probes) && Described(p, b[i], result.probes);
      OneAnswer(byIndex, result.probes, ProbeAnswer(p.index, p.kind, p.target, a[i]));
      OneAnswer(byIndex, result.probes, ProbeAnswer(p.index, p.kind, p.target, b[i]));
    }
  }

  // ---------------------------------------------------------------------------
  // The evaluation
  // ---------------------------------------------------------------------------

  datatype Checkpoint = Earlier | MutationCompleted | HealthStarted | HealthCompleted | Later

  /** `verdict`: the durable health outcome. */
  datatype Job = Job(active: bool, checkpoint: Checkpoint, verdict: Option<Outcome>)

  datatype StageError = TerminalJob | NotReady | AuthorityRefused

  function Rank(c: Checkpoint): nat
  {
    match c
    case Earlier => 0
    case MutationCompleted => 1
    case HealthStarted => 2
    case HealthCompleted => 3
    case Later => 4
  }

  /** A verdict comes with the checkpoint of its commit, and a passed one ends the job. */
  predicate Consistent(job: Job)
  {
    && (job.verdict.Some? ==> Rank(job.checkpoint) >= 3 && job.verdict != Some(Unknown))
    && (job.verdict == Some(Passed) ==> !job.active)
  }

  /** What any steps of any invocations and stages do to a job: forwards only, one verdict, nothing once it ended. */
  predicate MovedOn(job: Job, job': Job)
  {
    && Rank(job.checkpoint) <= Rank(job'.checkpoint)
    && (!job.active ==> job' == job)
    && (job.verdict.Some? ==> job'.verdict == job.verdict)
  }

  class Orchestrator {
    const contract: Contract
    var job: Job
    ghost var answer: Option<HostResult>    // the host's answer in this evaluation
    ghost var commits: seq<Outcome>         // the verdicts this invocation made durable

    ghost predicate Valid()
      reads this
    {
      Consistent(job)
    }

    constructor (contract: Contract, job: Job)
      requires Consistent(job)
      ensures Valid() && this.contract == contract && this.job == job && answer == None && commits == []
    {
      this.contract, this.job := contract, job;
      answer, commits := None, [];
    }

    /** Other invocations, and other stages, may move the job on. */
    method Interfere()
      requires Valid()
      modifies this`job
      ensures Valid() && MovedOn(old(job), job)
    {
      var next: Job := *;
      if Consistent(next) && MovedOn(job, next) { job := next; }
    }

    /** The start is idempotent; it refuses a job that moved on since it was read. */
    method Start() returns (ok: bool)
      requires Valid()
      modifies this`job
      ensures Valid() && MovedOn(old(job), job)
      ensures ok ==> job == old(job).(checkpoint := HealthStarted) && job.active
      ensures ok ==> old(job).checkpoint in {MutationCompleted, HealthStarted}
      ensures !ok ==> job == old(job)
    {
      var coherent: bool := *;
      ok := job.active && (job.checkpoint == MutationCompleted || job.checkpoint == HealthStarted) && coherent;
      if ok { job := job.(checkpoint := HealthStarted); }
    }

    /**
     The commit, with the second proof of the resource context in its own transaction. `Ok(false)`:
     the context changed. It is refused once the job ended or has a verdict.
     */
    method Complete(observations: seq<Observation>, outcome: Outcome) returns (r: Result<bool, StageError>)
      requires Valid() && outcome == Aggregate(observations) && outcome != Unknown
      modifies this`job, this`commits
      ensures Valid() && MovedOn(old(job), job)
      ensures r == Ok(true) ==> old(job).active && old(job).checkpoint == HealthStarted && old(job).verdict == None
      ensures r == Ok(true) ==> job == Job(outcome == Failed, HealthCompleted, Some(outcome))
      ensures r == Ok(true) ==> commits == old(commits) + [outcome]
      ensures r != Ok(true) ==> job == old(job) && commits == old(commits)
      ensures r == Err(AuthorityRefused) <==> !(old(job).active && old(job).checkpoint == HealthStarted)
      ensures r.Err? ==> r.error == AuthorityRefused
    {
      var contextHolds: bool := *;
      if !job.active || job.checkpoint != HealthStarted { return Err(AuthorityRefused); }
      if !contextHolds { return Ok(false); }
      job := Job(outcome == Failed, HealthCompleted, Some(outcome));
      commits := commits + [outcome];
      r := Ok(true);
    }

    /** Recording an unknown outcome appends an event at most: the job is as others left it. */
    method RecordUnknown() returns (r: Result<Outcome, StageError>)
      requires Valid()
      modifies this`job
      ensures Valid() && MovedOn(old(job), job) && r == Ok(Unknown)
    {
      Interfere();
      r := Ok(Unknown);
    }

    /** At most one verdict is committed, on a decisive believed answer, over a job that had none. */
    method EvaluateJobHealth() returns (r: Result<Outcome, StageError>, ghost observations: seq<Observation>)
      requires Valid() && |contract.probes| > 0
      modifies this
      ensures Valid() && MovedOn(old(job), job)
      // a verdict of this invocation is the all-of of the decisive answer it believed, and is the job's
      ensures r.Ok? && r.value != Unknown ==>
                && answer.Some? && answer.value.decisive && Believes(contract, answer.value, observations)
                && r.value == Aggregate(observations) && old(job).verdict == None
                && job == Job(r.value == Failed, HealthCompleted, Some(r.value))
      // and nothing else it returns committed anything
      ensures commits == old(commits) + if r.Ok? && r.value != Unknown then [r.value] else []
      // it reports a finished or unready job only if others left it that way
      ensures r == Err(TerminalJob) ==> !job.active
      ensures r == Err(NotReady) ==> job.checkpoint !in {MutationCompleted, HealthStarted}
    {
      observations, answer := [], None;
      Interfere();
      if !job.active { return Err(TerminalJob), []; }
      if job.checkpoint != MutationCompleted && job.checkpoint != HealthStarted { return Err(NotReady), []; }
      Interfere();
      var started := Start();
      if !started { return Err(AuthorityRefused), []; }
      Interfere();
      var contextHolds: bool := *;
      if !contextHolds || !job.active {
        r := RecordUnknown();
        return;
      }
      var host: Option<HostResult> := *;
      if host == None {
        r := RecordUnknown();
        return;
      }
      answer := host;
      var believed := ValidateHostHealthResult(contract, host.value);
      if believed == None {
        r := RecordUnknown();
        return;
      }
      observations := believed.value;
      Interfere();
      contextHolds := *;
      if !contextHolds || !job.active || !host.value.decisive {
        r := RecordUnknown();
        return;
      }
      var outcome := Aggregate(believed.value);
      assert observations[0] in observations;
      Interfere();
      var committed := Complete(believed.value, outcome);
      if committed.Err? { return Err(committed.error), observations; }
      if !committed.value {
        r := RecordUnknown();
        return;
      }
      r := Ok(outcome);
    }
  }

  // ---------------------------------------------------------------------------
  // From the guest to the verdict
  // ---------------------------------------------------------------------------

  function ObservationOf(a: ProbeAnswer): Observation { a.observation }

  function ToHostResult(r: Response): HostResult
    requires r.Answer?
  {
    HostResult(r.revision, r.fingerprint, r.decisive, r.probes)
  }

  /** What an honest helper answers about the job's own contract is never rejected. */
  lemma HonestIsBelieved(contract: Contract, request: Request, r: Response, rounds: seq<Round>)
    requires ValidContract(contract.probes) && contract.probeCount == |contract.probes|
    requires request.probes == contract.probes && request.revision == contract.revision && request.fingerprint == contract.fingerprint
    requires r.Answer? && Honest(request, r, rounds)
    ensures Believes(contract, ToHostResult(r), Map(ObservationOf, r.probes))
  {
    var observations := Map(ObservationOf, r.probes);
    forall i | 0 <= i < |observations| ensures Described(contract.probes[i], observations[i], r.probes) {
      assert AnswersProbe(r.probes[i], request.probes[i]);
      assert r.probes[i] in r.probes;
    }
    forall i | 0 <= i < |r.probes| ensures Map(IndexOfAnswer, r.probes)[i] == i {
      assert AnswersProbe(r.probes[i], request.probes[i]);
    }
    if r.decisive && request.probes[0].kind != GuestOperational {
      var last := rounds[|rounds| - 1];
      forall i | 0 <= i < |observations| ensures observations[i].outcome != Unknown {
        assert Reported(r.probes[i], last.results) && AnswersProbe(r.probes[i], request.probes[i]);
      }
    }
  }

  /** In this round probe `i` was observed with this outcome. */
  predicate Saw(round: Round, i: nat, outcome: Outcome)
  {
    i in round.results && round.results[i].outcome == outcome
  }

  /** The all-of of this round over exactly these probes, none of them unknown. */
  predicate SaysOf(probes: seq<Probe>, round: Round, verdict: Outcome)
  {
    && (forall p <- probes :: Saw(round, p.index, Passed) || Saw(round, p.index, Failed))
    && (verdict == Passed <==> forall p <- probes :: Saw(round, p.index, Passed))
    && (verdict == Failed <==> exists p <- probes :: Saw(round, p.index, Failed))
  }

  predicate Shows(round: Round, p: Probe, o: Observation)
  {
    o.outcome != Unknown && Saw(round, p.index, o.outcome)
  }

  lemma AggregateSays(probes: seq<Probe>, round: Round, observations: seq<Observation>)
    requires |observations| == |probes|
    requires forall i :: 0 <= i < |probes| ==> Shows(round, probes[i], observations[i])
    ensures SaysOf(probes, round, Aggregate(observations))
  {
    var verdict := Aggregate(observations);
    forall p | p in probes
      ensures Saw(round, p.index, Passed) || Saw(round, p.index, Failed)
      ensures verdict == Passed ==> Saw(round, p.index, Passed)
      ensures Saw(round, p.index, Failed) ==> verdict == Failed
    {
      var i :| 0 <= i < |probes| && probes[i] == p;
      assert Shows(round, p, observations[i]) && observations[i] in observations;
    }
    forall o | o in observations
      ensures (forall p <- probes :: Saw(round, p.index, Passed)) ==> o.outcome == Passed
      ensures o.outcome == Failed ==> exists p <- probes :: Saw(round, p.index, Failed)
    {
      var i :| 0 <= i < |observations| && observations[i] == o;
      assert Shows(round, probes[i], o) && probes[i] in probes;
    }
  }

  /**
   A durable verdict on an honest helper's answer is one single round's: for a systemd contract at
   least the second, at most 15 s long, with every frozen unit resolved in it, passed exactly when
   all of them passed. The baseline never fails.
   */
  lemma VerdictIsOneRound(contract: Contract, request: Request, r: Response, rounds: seq<Round>,
                          observations: seq<Observation>, verdict: Outcome)
    requires ValidContract(contract.probes) && contract.probeCount == |contract.probes|
    requires request.probes == contract.probes && request.revision == contract.revision && request.fingerprint == contract.fingerprint
    requires r.Answer? && Honest(request, r, rounds)
    // what EvaluateJobHealth ensures of a verdict on this answer
    requires r.decisive && Believes(contract, ToHostResult(r), observations) && verdict == Aggregate(observations)
    ensures contract.probes[0].kind == GuestOperational ==> verdict == Passed
    ensures contract.probes[0].kind == SystemdUnitActive ==>
              && |rounds| >= MIN_DECISIVE_ROUND && IsDecisive(|rounds|, rounds[|rounds| - 1])
              && SaysOf(contract.probes, rounds[|rounds| - 1], verdict)
              && FromGuest(rounds[|rounds| - 1], contract.probes)
  {
    HonestIsBelieved(contract, request, r, rounds);
    ReadOneWay(contract, ToHostResult(r), observations, Map(ObservationOf, r.probes));
    if contract.probes[0].kind == GuestOperational {
      assert observations[0] == r.probes[0].observation && |observations| == 1;
      assert verdict == Passed;
    } else {
      var last := rounds[|rounds| - 1];
      forall i | 0 <= i < |contract.probes|
        ensures Shows(last, contract.probes[i], observations[i])
      {
        assert Reported(r.probes[i], last.results) && AnswersProbe(r.probes[i], request.probes[i]);
      }
      AggregateSays(contract.probes, last, observations);
    }
  }

  lemma ReadOneWay(contract: Contract, result: HostResult, a: seq<Observation>, b: seq<Observation>)
    requires Believes(contract, result, a) && Believes(contract, result, b)
    ensures a == b
  {
    var byIndex := map k | k in result.probes :: k.index := k;
    forall x, y | x in result.probes && y in result.probes && x.index == y.index ensures x == y {
      var i :| 0 <= i < |result.probes| && result.probes[i] == x;
      var j :| 0 <= j < |result.probes| && result.probes[j] == y;
      assert Map(IndexOfAnswer, result.probes)[i] == Map(IndexOfAnswer, result.probes)[j];
    }
    SameObservations(contract, result, byIndex, a, b);
  }

  /** And what such a round means in the guest: a unit counts as passed exactly if systemd printed it active. */
  lemma PassedIsActive(probes: seq<Probe>, round: Round, reports: seq<Report>, k: nat)
    requires ValidSystemd(probes) && FromGuest(round, probes) && |reports| == |probes| && k < |probes|
    requires (forall r <- reports :: WellFormed(r)) && round.guest == Ran(false, false, 0, Some(Render(reports)))
    ensures Saw(round, probes[k].index, Passed) <==> Value(reports[k], "ActiveState") == "active"
  {
    var targets := Map(TargetOf, probes);
    forall i, j | 0 <= i < j < |probes| ensures targets[i] != targets[j] {
      assert probes[i] in probes && probes[j] in probes;
    }
    BatchReadsBack(targets, reports, k);
    assert probes[k] in probes && targets[k] == TargetOf(probes[k]);
  }
}
