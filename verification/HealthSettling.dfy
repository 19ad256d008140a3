/**
 The bounded settling window of the health helper: one absolute deadline, spent by every command
 and every sleep; full rounds until one of them is decisive or the window is exhausted.

 Time passes in commands, at most for the timeout they were granted, and in sleeps.
 */
module HealthSettling {
  import opened Wrappers
  import opened Ordering
  import opened SystemdBatch

  const COMMAND_TIMEOUT: real := 60.0
  const TRANSPORT_RETURN_MARGIN: real := 2.0
  const MIN_COMMAND_TIMEOUT: real := 0.05
  const MIN_SETTLING_DEADLINE: real := 30.0
  const MAX_SETTLING_DEADLINE: real := 200.0
  const MIN_OBSERVATION_INTERVAL: real := 1.0
  const MAX_OBSERVATION_INTERVAL: real := 30.0
  const MAX_ROUND_SPAN: real := 15.0
  const MIN_DECISIVE_ROUND: nat := 2
  const MAX_SETTLING_ROUNDS: nat := 40
  const MAX_GUEST_COMMANDS: nat := 160

  datatype Kind = SystemdUnitActive | GuestOperational

  datatype Probe = Probe(index: nat, kind: Kind, target: Option<string>)

  function Min(a: real, b: real): real { if a <= b then a else b }

  function Clamp(value: real, low: real, high: real): (r: real)
    requires low <= high
    ensures low <= r <= high && (low <= value <= high ==> r == value)
  {
    var capped := Min(high, value);
    if low >= capped then low else capped
  }

  /** The largest timeout of at most a minute that leaves the margin before the deadline, if it is worth starting. */
  function NextCommandTimeout(deadline: real, now: real): (r: Option<real>)
    ensures r.Some? <==> deadline - now - TRANSPORT_RETURN_MARGIN >= MIN_COMMAND_TIMEOUT
    ensures r.Some? ==> MIN_COMMAND_TIMEOUT <= r.value <= COMMAND_TIMEOUT && now + r.value <= deadline - TRANSPORT_RETURN_MARGIN
    ensures r.Some? ==> r.value == COMMAND_TIMEOUT || now + r.value == deadline - TRANSPORT_RETURN_MARGIN
  {
    var usable := deadline - now - TRANSPORT_RETURN_MARGIN;
    if usable < MIN_COMMAND_TIMEOUT then None else Some(Min(COMMAND_TIMEOUT, usable))
  }

  const SUFFIXES: seq<string> := [".service", ".socket", ".target", ".timer", ".mount", ".automount", ".path", ".slice", ".scope", ".device", ".swap"]

  predicate EndsWith(s: string, suffix: string)
  {
    |suffix| <= |s| && s[|s| - |suffix|..] == suffix
  }

  /** One exact unit name with an explicit type: no pattern, no path, nothing a shell reads. */
  predicate Exact(target: string)
  {
    && 1 <= |target| <= 200
    && ('A' <= target[0] <= 'Z' || 'a' <= target[0] <= 'z' || '0' <= target[0] <= '9')
    && (forall c <- target :: 'A' <= c <= 'Z' || 'a' <= c <= 'z' || '0' <= c <= '9' || c in ":_.@-")
    && exists suffix <- SUFFIXES :: EndsWith(target, suffix)
  }

  predicate Structural(p: Probe)
  {
    p.target == None || !Exact(p.target.value)
  }

  /** The contract a request may carry: indexed from 0, no target twice, one baseline probe or systemd probes only. */
  predicate ValidContract(probes: seq<Probe>)
  {
    && |probes| > 0 && (forall i :: 0 <= i < |probes| ==> probes[i].index == i)
    && ((|probes| == 1 && probes[0].kind == GuestOperational && probes[0].target == None) || ValidSystemd(probes))
  }

  predicate ValidSystemd(probes: seq<Probe>)
  {
    && (forall p <- probes :: p.kind == SystemdUnitActive && p.target.Some?)
    && forall i, j :: 0 <= i < j < |probes| ==> probes[i].target != probes[j].target
  }

  /** The reasons that can go with an outcome, for one kind of probe. */
  predicate Coherent(kind: Kind, o: Observation)
  {
    match o.reason
    case UnitActive => o.outcome == Passed && kind == SystemdUnitActive
    case GuestOperationalConfirmed => o.outcome == Passed && kind == GuestOperational
    case UnitNotActive => o.outcome == Failed && kind == SystemdUnitActive
    case UnitActivating => o.outcome == Unknown && kind == SystemdUnitActive
    case UnitDeactivating => o.outcome == Unknown && kind == SystemdUnitActive
    case UnitReloading => o.outcome == Unknown && kind == SystemdUnitActive
    case UnitJobPending => o.outcome == Unknown && kind == SystemdUnitActive
    case ProbeTargetNotExact => o.outcome == Unknown && kind == SystemdUnitActive
    case ProbeTargetAmbiguous => o.outcome == Unknown && kind == SystemdUnitActive
    case _ => o.outcome == Unknown
  }

  // ---------------------------------------------------------------------------
  // Rounds
  // ---------------------------------------------------------------------------

  /** What one guest command came to; `stdout` is none if it was not UTF-8. */
  datatype GuestResult = Unevaluable(reason: Reason) | Ran(timedOut: bool, exceeded: bool, code: int, stdout: Option<string>)

  /** What one batched command says of its targets. */
  function RoundAnswers(targets: seq<string>, guest: GuestResult): map<string, Observation>
  {
    match guest
    case Unevaluable(reason) => Everywhere(targets, Observation(Unknown, reason))
    case Ran(timedOut, exceeded, code, stdout) =>
      if timedOut then Everywhere(targets, Observation(Unknown, CommandTimedOut))
      else if exceeded then Everywhere(targets, Observation(Unknown, MalformedOutput))
      else if code != 0 then Everywhere(targets, Observation(Unknown, CommandFailed))
      else if stdout == None then Everywhere(targets, Observation(Unknown, MalformedOutput))
      else Answers(targets, stdout.value)
  }

  /** What the one baseline command says of the guest. */
  function BaselineOf(guest: GuestResult): (o: Observation)
    ensures o.outcome == Passed <==> guest.Ran? && !guest.timedOut && !guest.exceeded && guest.code == 0
    ensures o.outcome != Failed
  {
    match guest
    case Unevaluable(reason) => Observation(Unknown, reason)
    case Ran(timedOut, exceeded, code, _) =>
      if timedOut then Observation(Unknown, CommandTimedOut)
      else if exceeded then Observation(Unknown, MalformedOutput)
      else if code == 0 then Observation(Passed, GuestOperationalConfirmed)
      else Observation(Unknown, CommandFailed)
  }

  type Results = map<nat, Observation>

  datatype Round = Round(span: real, results: Results, guest: GuestResult)

  /** Every result of the round is what its one command said of the probe's target. */
  predicate FromGuest(round: Round, probes: seq<Probe>)
  {
    var answers := RoundAnswers(Map(TargetOf, probes), round.guest);
    forall p <- probes :: p.index in round.results && TargetOf(p) in answers && round.results[p.index] == answers[TargetOf(p)]
  }

  function TargetOf(p: Probe): string
  {
    if p.target.Some? then p.target.value else ""
  }

  predicate Resolved(results: Results)
  {
    forall i <- results :: results[i].outcome != Unknown
  }

  /** `k` counts from 1. */
  predicate IsDecisive(k: nat, round: Round)
  {
    round.span <= MAX_ROUND_SPAN && k >= MIN_DECISIVE_ROUND && Resolved(round.results)
  }

  datatype Settled = Settled(probes: Results, rounds: nat, lastSpan: real, decisive: bool)

  predicate Observes(results: Results, probes: seq<Probe>)
  {
    && results.Keys == (set p <- probes :: p.index)
    && forall p <- probes :: Coherent(p.kind, results[p.index])
  }

  predicate Undecided(rounds: seq<Round>)
  {
    forall k :: 0 <= k < |rounds| ==> !IsDecisive(k + 1, rounds[k])
  }

  lemma UndecidedFewer(rounds: seq<Round>)
    requires Undecided(rounds) && |rounds| > 0
    ensures Undecided(rounds[..|rounds| - 1])
  {
  }

  /** How a settling window over `probes` may end. */
  ghost predicate Ends(s: Settled, rounds: seq<Round>, probes: seq<Probe>, exhausted: bool)
  {
    && s.rounds == |rounds| <= MAX_SETTLING_ROUNDS && Observes(s.probes, probes)
    && if exists p <- probes :: Structural(p)
       then !s.decisive && |rounds| <= 1
       else
         && |rounds| > 0 && s.probes == rounds[|rounds| - 1].results && s.lastSpan == rounds[|rounds| - 1].span
         && FromGuest(rounds[|rounds| - 1], probes)
         && s.decisive == IsDecisive(|rounds|, rounds[|rounds| - 1])
         && Undecided(rounds[..|rounds| - 1])
         && (!s.decisive ==> |rounds| == MAX_SETTLING_ROUNDS || exhausted)
  }

  datatype Request = Request(probes: seq<Probe>, deadline: real, interval: real, revision: nat, fingerprint: string)

  datatype ProbeAnswer = ProbeAnswer(index: nat, kind: Kind, target: Option<string>, observation: Observation)

  datatype Response =
    | Refused
    | Answer(revision: nat, fingerprint: string, decisive: bool, probes: seq<ProbeAnswer>, rounds: nat)

  datatype Grant = Grant(start: real, timeout: real)

  class Helper {
    var now: real
    var deadline: real
    var used: nat                   // guest commands of this settling window
    ghost var grants: seq<Grant>    // every command of this request: when it started, what it was granted

    constructor (start: real)
      ensures now == start
    {
      now, deadline, used, grants := start, start, 0, [];
    }

    /** Every command was granted a timeout that ends the margin before the deadline. */
    ghost predicate InBudget()
      reads this
    {
      && now <= deadline
      && forall g <- grants :: MIN_COMMAND_TIMEOUT <= g.timeout <= COMMAND_TIMEOUT
                               && g.start + g.timeout <= deadline - TRANSPORT_RETURN_MARGIN
    }

    /** A runner that honours its timeout. */
    method Run(timeout: real)
      requires InBudget() && NextCommandTimeout(deadline, now) == Some(timeout)
      modifies this`now, this`grants
      ensures InBudget() && grants == old(grants) + [Grant(old(now), timeout)]
      ensures old(now) <= now <= old(now) + timeout
    {
      grants := grants + [Grant(now, timeout)];
      var took: real := *;
      if 0.0 <= took <= timeout { now := now + took; }
    }

    method Sleep(seconds: real)
      requires InBudget() && 0.0 <= seconds <= deadline - now
      modifies this`now
      ensures InBudget() && now == old(now) + seconds
    {
      now := now + seconds;
    }

    /** One command if the budget still allows it; `started` says whether it did. */
    method Bounded() returns (started: bool)
      requires InBudget()
      modifies this`now, this`grants
      ensures InBudget() && old(now) <= now
    {
      var timeout := NextCommandTimeout(deadline, now);
      started := timeout.Some?;
      if started { Run(timeout.value); }
    }

    /** Revalidation of the live target, then the guest command, each with a timeout of its own. */
    method GuestCommand(targeted: bool) returns (r: GuestResult)
      requires InBudget()
      modifies this`now, this`grants
      ensures InBudget() && old(now) <= now
      ensures r.Unevaluable? ==> r.reason in {SettlingBudgetExhausted, GuestUnavailable, CommandFailed}
                                 || (targeted && r.reason == ProbeTargetNotExact)
    {
      var started := Bounded();
      if !started { return Unevaluable(SettlingBudgetExhausted); }
      var stale: bool, gone: bool := *, *;
      if stale { return Unevaluable(if gone then GuestUnavailable else CommandFailed); }
      var timeout := NextCommandTimeout(deadline, now);
      if timeout == None { return Unevaluable(SettlingBudgetExhausted); }
      var notInert: bool := *;
      if targeted && notInert { return Unevaluable(ProbeTargetNotExact); }
      Run(timeout.value);
      var code: int, timedOut: bool, exceeded: bool, stdout: Option<string> := *, *, *, *;
      if code == 255 { return Unevaluable(GuestUnavailable); }
      r := Ran(timedOut, exceeded, code, stdout);
    }

    /** One batched command, whatever the number of targets. */
    method SystemdRound(targets: seq<string>) returns (answers: map<string, Observation>, guest: GuestResult)
      requires InBudget() && |targets| > 0 && Distinct(targets)
      modifies this`now, this`grants, this`used
      ensures InBudget() && old(now) <= now && used == old(used) + 1
      ensures answers == RoundAnswers(targets, guest)
      ensures answers.Keys == (set t <- targets) && forall t <- answers :: Coherent(SystemdUnitActive, answers[t])
    {
      used := used + 1;
      guest := GuestCommand(true);
      if guest.Ran? && !guest.timedOut && !guest.exceeded && guest.code == 0 && guest.stdout.Some? {
        answers := ReadAnswers(targets, guest.stdout.value);
        AnswersAreCoherent(targets, guest.stdout.value);
        return;
      }
      var reason := if guest.Unevaluable? then guest.reason
                    else if guest.timedOut then CommandTimedOut
                    else if guest.exceeded then MalformedOutput
                    else if guest.code != 0 then CommandFailed
                    else MalformedOutput;
      answers := Everywhere(targets, Observation(Unknown, reason));
    }

    method Observe(probes: seq<Probe>) returns (round: Round)
      requires InBudget() && |probes| > 0 && ValidSystemd(probes)
      requires forall i, j :: 0 <= i < j < |probes| ==> probes[i].index != probes[j].index
      modifies this`now, this`grants, this`used
      ensures InBudget() && old(now) <= now && used == old(used) + 1
      ensures round.span == now - old(now) && Observes(round.results, probes) && FromGuest(round, probes)
    {
      var began := now;
      var targets := Map(TargetOf, probes);
      assert forall i :: 0 <= i < |probes| ==> probes[i] in probes;
      var answers, guest := SystemdRound(targets);
      TargetsAnswered(probes, answers);
      round := Round(now - began, ByIndex(probes, answers), guest);
      ByIndexAnswers(probes, answers);
    }

    method Settle(probes: seq<Probe>, interval: real) returns (s: Settled, ghost rounds: seq<Round>)
      requires InBudget() && used == 0 && |probes| > 0 && ValidSystemd(probes) && interval > 0.0
      requires forall i :: 0 <= i < |probes| ==> probes[i].index == i
      modifies this`now, this`grants, this`used
      ensures InBudget() && used == |rounds| < MAX_GUEST_COMMANDS
      ensures Ends(s, rounds, probes, now >= deadline)
    {
      var broken, live := Partition(probes);
      rounds := [];
      if live == [] {
        assert probes[0] in probes && probes[0] in broken;
        s := Settled(StructuralResults(broken), 0, 0.0, false);
      } else if broken != [] {
        assert broken[0] in probes;
        var round := Observe(live);
        rounds := [round];
        MergeObserves(probes, broken, live, round.results);
        s := Settled(StructuralResults(broken) + round.results, 1, round.span, false);
      } else {
        s, rounds := SettleLive(live, interval);
      }
    }

    method SettleLive(probes: seq<Probe>, interval: real) returns (s: Settled, ghost rounds: seq<Round>)
      requires InBudget() && used == 0 && |probes| > 0 && ValidSystemd(probes) && interval > 0.0
      requires forall p <- probes :: !Structural(p)
      requires forall i, j :: 0 <= i < j < |probes| ==> probes[i].index != probes[j].index
      modifies this`now, this`grants, this`used
      ensures InBudget() && used == |rounds| < MAX_GUEST_COMMANDS
      ensures Ends(s, rounds, probes, now >= deadline)
    {
      rounds := [];
      var index, decisive, round := 0, false, Round(0.0, map[], Unevaluable(SettlingBudgetExhausted));
      while true
        invariant InBudget() && used == index == |rounds| < MAX_SETTLING_ROUNDS && !decisive
        invariant index > 0 ==> round == rounds[index - 1] && Observes(round.results, probes) && FromGuest(round, probes)
        invariant Undecided(rounds)
        decreases MAX_SETTLING_ROUNDS - index
      {
        if index > 0 && now >= deadline {
          UndecidedFewer(rounds);
          break;
        }
        index := index + 1;
        round := Observe(probes);
        assert (rounds + [round])[..|rounds|] == rounds;
        rounds := rounds + [round];
        decisive := round.span <= MAX_ROUND_SPAN && index >= MIN_DECISIVE_ROUND && Resolved(round.results);
        if decisive || index >= MAX_SETTLING_ROUNDS || used >= MAX_GUEST_COMMANDS { break; }
        var again := Pause(interval);
        if !again { break; }
      }
      s := Settled(round.results, index, round.span, decisive);
    }

    /** The interval, or what is left of the window if that is less; none if nothing is left. */
    method Pause(interval: real) returns (again: bool)
      requires InBudget() && interval > 0.0
      modifies this`now
      ensures InBudget() && old(now) <= now && (!again ==> now >= deadline)
    {
      var remaining := deadline - now;
      again := remaining > 0.0;
      if again { Sleep(Min(interval, remaining)); }
    }

    /** The built-in baseline: one command, no settling; it can pass or be unknown. */
    method GuestOperationalOnce() returns (o: Observation, guest: GuestResult)
      requires InBudget()
      modifies this`now, this`grants
      ensures InBudget() && old(now) <= now && o == BaselineOf(guest) && Coherent(GuestOperational, o)
    {
      guest := GuestCommand(false);
      match guest {
        case Unevaluable(reason) => o := Observation(Unknown, reason);
        case Ran(timedOut, exceeded, code, _) =>
          o := if timedOut then Observation(Unknown, CommandTimedOut)
          else if exceeded then Observation(Unknown, MalformedOutput)
          else if code == 0 then Observation(Passed, GuestOperationalConfirmed)
          else Observation(Unknown, CommandFailed);
      }
    }

    /** Prologue, evaluation and answer inside one window that starts at the call. */
    method HandleRequest(request: Request) returns (r: Response, ghost rounds: seq<Round>)
      requires ValidContract(request.probes) && request.deadline > 0.0 && request.interval > 0.0
      modifies this
      ensures InBudget() && deadline == old(now) + Clamp(request.deadline, MIN_SETTLING_DEADLINE, MAX_SETTLING_DEADLINE)
      ensures r.Answer? ==> Honest(request, r, rounds)
    {
      deadline := now + Clamp(request.deadline, MIN_SETTLING_DEADLINE, MAX_SETTLING_DEADLINE);
      var interval := Clamp(request.interval, MIN_OBSERVATION_INTERVAL, MAX_OBSERVATION_INTERVAL);
      used, grants, rounds := 0, [], [];
      var read := Bounded();
      var failed: bool := *;
      if !read || failed { return Refused, rounds; }
      var valid := Bounded();
      failed := *;
      if !valid || failed { return Refused, rounds; }
      if request.probes[0].kind == GuestOperational {
        var o, guest := GuestOperationalOnce();
        rounds := [Round(0.0, map[0 := o], guest)];
        r := Answer(request.revision, request.fingerprint, o.outcome == Passed, [ProbeAnswer(0, GuestOperational, None, o)], 1);
        return;
      }
      var settled;
      settled, rounds := Settle(request.probes, interval);
      ObservesIndices(request.probes, settled.probes);
      AnswersAreHonest(request.probes, settled.probes);
      r := Answer(request.revision, request.fingerprint, settled.decisive,
                  AnswersOf(request.probes, settled.probes), settled.rounds);
    }
  }

  /**
   What the answer's receiver may rely on: it echoes the contract, its probe results are one
   round's (for the baseline, the one attempt's), and `decisive` is that round's property.
   */
  ghost predicate Honest(request: Request, r: Response, rounds: seq<Round>)
    requires r.Answer?
  {
    && r.revision == request.revision && r.fingerprint == request.fingerprint
    && |r.probes| == |request.probes|
    && (forall i :: 0 <= i < |r.probes| ==> AnswersProbe(r.probes[i], request.probes[i]))
    && if |request.probes| > 0 && request.probes[0].kind == GuestOperational
       then |rounds| == 1 && r.probes[0].observation == BaselineOf(rounds[0].guest)
            && r.decisive == (r.probes[0].observation.outcome == Passed)
       else r.decisive ==>
              && |rounds| == r.rounds && |rounds| >= MIN_DECISIVE_ROUND
              && IsDecisive(|rounds|, rounds[|rounds| - 1]) && Reports(r.probes, rounds[|rounds| - 1].results)
              && FromGuest(rounds[|rounds| - 1], request.probes)
  }

  /** The answers are these results, probe by probe. */
  predicate Reports(answers: seq<ProbeAnswer>, results: Results)
  {
    forall i :: 0 <= i < |answers| ==> Reported(answers[i], results)
  }

  predicate Reported(a: ProbeAnswer, results: Results)
  {
    a.index in results && a.observation == results[a.index]
  }

  lemma AnswersAreHonest(probes: seq<Probe>, results: Results)
    requires Observes(results, probes)
    requires forall i :: 0 <= i < |probes| ==> probes[i].index in results
    ensures Reports(AnswersOf(probes, results), results)
    ensures forall i :: 0 <= i < |probes| ==> AnswersProbe(AnswersOf(probes, results)[i], probes[i])
  {
    forall i | 0 <= i < |probes| ensures AnswersProbe(AnswersOf(probes, results)[i], probes[i]) {
      assert probes[i] in probes;
    }
  }

  predicate AnswersProbe(a: ProbeAnswer, p: Probe)
  {
    a.index == p.index && a.kind == p.kind && a.target == p.target && Coherent(a.kind, a.observation)
  }

  // ---------------------------------------------------------------------------
  // Helpers of the evaluation
  // ---------------------------------------------------------------------------

  lemma {:induction false} ByPositionIsCoherent(targets: seq<string>, blocks: seq<string>)
    requires |targets| == |blocks|
    ensures ByPosition(targets, blocks).Keys == (set t <- targets)
    ensures forall t <- ByPosition(targets, blocks) :: Coherent(SystemdUnitActive, ByPosition(targets, blocks)[t])
  {
    KeysAreTargets(targets, blocks);
    if targets != [] {
      ByPositionIsCoherent(targets[..|targets| - 1], blocks[..|blocks| - 1]);
    }
  }

  lemma AnswersAreCoherent(targets: seq<string>, stdout: string)
    ensures Answers(targets, stdout).Keys == (set t <- targets)
    ensures forall t <- Answers(targets, stdout) :: Coherent(SystemdUnitActive, Answers(targets, stdout)[t])
  {
    if |Blocks(stdout)| == |targets| { ByPositionIsCoherent(targets, Blocks(stdout)); }
  }

  function ByIndex(probes: seq<Probe>, answers: map<string, Observation>): Results
    requires forall p <- probes :: TargetOf(p) in answers
  {
    if probes == [] then map[] else
    var last := probes[|probes| - 1];
    ByIndex(probes[..|probes| - 1], answers)[last.index := answers[TargetOf(last)]]
  }

  lemma {:induction false} ByIndexAnswers(probes: seq<Probe>, answers: map<string, Observation>)
    requires forall p <- probes :: TargetOf(p) in answers
    requires forall i, j :: 0 <= i < j < |probes| ==> probes[i].index != probes[j].index
    ensures ByIndex(probes, answers).Keys == set p <- probes :: p.index
    ensures forall p <- probes :: p.index in ByIndex(probes, answers) && ByIndex(probes, answers)[p.index] == answers[TargetOf(p)]
  {
    if probes != [] {
      var rest, last := probes[..|probes| - 1], probes[|probes| - 1];
      ByIndexAnswers(rest, answers);
      assert probes == rest + [last];
      forall p | p in rest ensures p.index != last.index {
        var i :| 0 <= i < |rest| && rest[i] == p;
        assert probes[i] == p;
      }
    }
  }

  lemma TargetsAnswered(probes: seq<Probe>, answers: map<string, Observation>)
    requires answers.Keys == (set t <- Map(TargetOf, probes))
    requires forall t <- answers :: Coherent(SystemdUnitActive, answers[t])
    requires forall p <- probes :: p.kind == SystemdUnitActive
    ensures forall p <- probes :: TargetOf(p) in answers
    ensures Observes(ByIndex(probes, answers), probes)
  {
    forall p | p in probes ensures TargetOf(p) in answers {
      var i :| 0 <= i < |probes| && probes[i] == p;
      assert Map(TargetOf, probes)[i] == TargetOf(p);
    }
    IndexedObserves(probes, answers);
  }

  lemma {:induction false} IndexedObserves(probes: seq<Probe>, answers: map<string, Observation>)
    requires forall p <- probes :: TargetOf(p) in answers && p.kind == SystemdUnitActive
    requires forall t <- answers :: Coherent(SystemdUnitActive, answers[t])
    ensures Observes(ByIndex(probes, answers), probes)
  {
    if probes != [] {
      var rest, last := probes[..|probes| - 1], probes[|probes| - 1];
      IndexedObserves(rest, answers);
      assert probes == rest + [last];
    }
  }

  method Partition(probes: seq<Probe>) returns (broken: seq<Probe>, live: seq<Probe>)
    requires ValidSystemd(probes) && forall i :: 0 <= i < |probes| ==> probes[i].index == i
    ensures forall p :: p in probes <==> p in broken || p in live
    ensures (forall p <- broken :: Structural(p)) && (forall p <- live :: !Structural(p))
    ensures broken == [] ==> live == probes
    ensures ValidSystemd(live) && forall i, j :: 0 <= i < j < |live| ==> live[i].index != live[j].index
  {
    broken, live := [], [];
    var i := 0;
    while i < |probes|
      invariant 0 <= i <= |probes|
      invariant forall p :: p in probes[..i] <==> p in broken || p in live
      invariant (forall p <- broken :: Structural(p)) && (forall p <- live :: !Structural(p))
      invariant broken == [] ==> live == probes[..i]
      invariant forall j, k :: 0 <= j < k < |live| ==> live[j].target != live[k].target && live[j].index != live[k].index
      invariant forall p <- live :: exists j :: 0 <= j < i && probes[j] == p
    {
      var p := probes[i];
      assert probes[..i + 1] == probes[..i] + [p];
      forall q | q in live ensures q.target != p.target && q.index != p.index {
        var j :| 0 <= j < i && probes[j] == q;
      }
      if Structural(p) { broken := broken + [p]; } else { live := live + [p]; }
      i := i + 1;
    }
    assert probes[..i] == probes;
  }

  function StructuralResults(probes: seq<Probe>): Results
  {
    map p <- probes :: p.index := Observation(Unknown, ProbeTargetNotExact)
  }

  lemma MergeObserves(probes: seq<Probe>, broken: seq<Probe>, live: seq<Probe>, results: Results)
    requires forall p :: p in probes <==> p in broken || p in live
    requires (forall p <- probes :: p.kind == SystemdUnitActive) && Observes(results, live)
    ensures Observes(StructuralResults(broken) + results, probes)
  {
  }

  lemma ObservesIndices(probes: seq<Probe>, results: Results)
    requires Observes(results, probes)
    ensures forall i :: 0 <= i < |probes| ==> probes[i].index in results
  {
    forall i | 0 <= i < |probes| ensures probes[i].index in results { assert probes[i] in probes; }
  }

  function AnswersOf(probes: seq<Probe>, results: Results): (answers: seq<ProbeAnswer>)
    requires forall i :: 0 <= i < |probes| ==> probes[i].index in results
    ensures |answers| == |probes|
  {
    seq(|probes|, i requires 0 <= i < |probes| =>
      ProbeAnswer(probes[i].index, probes[i].kind, probes[i].target, results[probes[i].index]))
  }
}
