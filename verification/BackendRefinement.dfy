/**
 The backend of the submission protocol is what the invocations of the mutation stage do to their
 one job: every move of theirs is a run of the protocol's backend steps, or none.
 */
module BackendRefinement {
  import opened Wrappers
  import M = MutationOrchestrator
  import P = SubmissionProtocol
  import R = SubmissionRuns

  /** The protocol's view of the durable job. */
  function JobView(job: M.Job): P.Job
  {
    if job.accepted == None then P.Unarmed
    else if job.status.Blocked? && job.checkpoint == M.MUTATION_MAY_HAVE_STARTED then P.Released(job.accepted.value)
    else P.Armed(job.accepted.value)
  }

  /** `armedNow` is the armed invocation's one permission to submit, until it is used or the job is released. */
  predicate Views(s: M.State, log: M.Log, p: P.State)
  {
    && p.kind == P.Mutation && p.job == JobView(s.job)
    && (p.job.Armed? && M.Executions(log) == [] ==> p.armedNow)
  }

  /** Only the backend moved. */
  predicate BackendOnly(p: P.State, p': P.State)
  {
    p' == p.(job := p'.job, armedNow := p'.armedNow, sent := p'.sent)
  }

  lemma OneBackendStep(p: P.State, p': P.State)
    requires P.BackendStep(p, p')
    ensures R.LeadsTo(p, p')
  {
    R.Nothing(p);
    R.OneMore(p, p, p');
  }

  /**
   Whatever allowed move an invocation on its course makes next, the protocol's backend follows; a
   seal counts as proved only if some helper answered one.
   */
  lemma MovesRefine(start: M.State, log: M.Log, k: nat, move: M.Move, p: P.State) returns (p': P.State)
    requires M.Fresh(start) && M.Allowed(start, log + [(k, move)]) && M.Disciplined(log + [(k, move)])
    requires Views(M.Replay(start, log), log, p) && (move.Seal? && move.proved ==> p.sealAnswered)
    ensures R.LeadsTo(p, p') && BackendOnly(p, p')
    ensures Views(M.Replay(start, log + [(k, move)]), log + [(k, move)], p')
    // what a move asks the host for is sent
    ensures move.Execute? ==> P.Execute(move.digest) in p'.sent
    ensures move.Seal? ==> P.Seal in p'.sent
  {
    var longer := log + [(k, move)];
    assert longer[..|longer| - 1] == log;
    M.AllowedIsSound(start, log);
    M.AllowedIsSound(start, longer);
    var s := M.Replay(start, log);
    R.Nothing(p);
    match move {
      case Arm(d) =>
        p' := p.(job := P.Armed(d), armedNow := true);
        assert P.Arm(p, p', d);
        OneBackendStep(p, p');
      case Execute(d) =>
        M.OneExecutionEver(start, longer);
        p' := p.(armedNow := false, sent := p.sent + {P.Execute(d)});
        assert P.SendExecute(p, p');
        OneBackendStep(p, p');
      case Seal(proved, committed) =>
        p' := p.(sent := p.sent + {P.Seal});
        assert P.SendSeal(p, p');
        OneBackendStep(p, p');
        if committed {
          var released := p'.(job := P.Released(p'.job.digest), armedNow := false);
          assert P.ReleaseJob(p', released) && P.BackendStep(p', released);
          R.OneMore(p, p', released);
          p' := released;
        }
      case _ =>
        p' := p;
    }
  }
}
