/** The two attempts of one council (mobility_agent/runtime/agentic_controller.py:1208-1396):
    proposals, reviews, the critic and the arbitration, reopened once with the cached answers
    when a critical role fails. */
module Deliberation {
  import opened Council

  datatype Mode = FailureCouncil | ValidationFollowup | SegmentCouncil

  /** When the optional reviewing roles are called; any rule. */
  datatype Policy = Policy(
    needsCostGuardian: (Mode, seq<Item>) -> bool,
    needsCritic: (Mode, seq<Item>, seq<Item>) -> bool)

  datatype Verdict = Decided(record: Item) | Unavailable(failure: Failure)
  datatype Session = Session(verdict: Verdict, ledger: Ledger)

  function ProposalSpecs(mode: Mode): (specs: seq<Spec>)
    ensures DistinctRoles(specs)
    ensures forall s :: s in specs ==> s.role in {Planner, Recovery, Validation, Refinement, Executor}
    ensures |specs| == (if mode.SegmentCouncil? then 2 else 3) && specs[0].role == LeadOf(mode)
    ensures Spec(Executor, false) in specs
    ensures mode.FailureCouncil? ==> Spec(Planner, false) in specs
    ensures mode.ValidationFollowup? ==> Spec(Refinement, false) in specs
    ensures forall i :: 0 <= i < |specs| ==> (specs[i].critical <==> i == 0)
  {
    match mode
    case FailureCouncil => [Spec(Recovery, true), Spec(Planner, false), Spec(Executor, false)]
    case ValidationFollowup => [Spec(Validation, true), Spec(Refinement, false), Spec(Executor, false)]
    case SegmentCouncil => [Spec(Planner, true), Spec(Executor, false)]
  }

  function ReviewerSpecs(policy: Policy, mode: Mode, proposals: seq<Item>): (specs: seq<Spec>)
    ensures DistinctRoles(specs)
    ensures forall s :: s in specs ==> s.role in {PhysicsJudge, CostGuardian}
    ensures Spec(CostGuardian, false) in specs <==> policy.needsCostGuardian(mode, proposals)
    ensures |specs| > 0 && specs[0].role == PhysicsJudge
    ensures forall i :: 0 <= i < |specs| ==> (specs[i].critical <==> i == 0)
  {
    [Spec(PhysicsJudge, true)] + if policy.needsCostGuardian(mode, proposals) then [Spec(CostGuardian, false)] else []
  }

  function Proposals(results: seq<Result>): seq<Item> {
    if results == [] then [] else results[0].output.proposals + Proposals(results[1..])
  }

  function Critiques(results: seq<Result>): seq<Item> {
    if results == [] then [] else results[0].output.critiques + Critiques(results[1..])
  }

  function Preferences(results: seq<Result>): seq<Item> {
    if results == [] then [] else results[0].output.preferences + Preferences(results[1..])
  }

  function FirstCritical(failures: seq<Failure>): Option<Failure> {
    if failures == [] then None
    else if failures[0].critical then Some(failures[0])
    else FirstCritical(failures[1..])
  }

  function Alone(w: World, ctx: Context, spec: Spec, led: Ledger): Run {
    Step(w, ctx, spec, 0, Run([], [], led))
  }

  function Propose(w: World, mode: Mode, attempt: nat, led: Ledger): Run {
    var specs := ProposalSpecs(mode);
    OneByOne(w, Context(attempt, Proposing, Inputs(None, [], [], [])), specs, |specs|, led)
  }

  function ReviewContext(attempt: nat, proposed: Run): Context {
    Context(attempt, Reviewing, Inputs(proposed.ledger.diagnosis, Proposals(proposed.results), [], []))
  }

  function Review(w: World, policy: Policy, mode: Mode, attempt: nat, proposed: Run): Run {
    var specs := ReviewerSpecs(policy, mode, Proposals(proposed.results));
    OneByOne(w, ReviewContext(attempt, proposed), specs, |specs|, proposed.ledger)
  }

  /** The critic, when it is called, adds its opinions; its failure is not critical. */
  function Criticise(w: World, policy: Policy, mode: Mode, attempt: nat, proposed: Run, reviewed: Run): Run {
    if policy.needsCritic(mode, Proposals(proposed.results), Critiques(reviewed.results)) then
      Alone(w, ReviewContext(attempt, proposed), Spec(Critic, false), reviewed.ledger)
    else Run([], [], reviewed.ledger)
  }

  function ArbitrationContext(attempt: nat, proposed: Run, reviewed: Run, criticised: Run): Context {
    Context(attempt, Arbitrating,
            Inputs(proposed.ledger.diagnosis, Proposals(proposed.results),
                   Critiques(reviewed.results) + Critiques(criticised.results),
                   Preferences(reviewed.results) + Preferences(criticised.results)))
  }

  function Arbitrate(w: World, policy: Policy, mode: Mode, attempt: nat, proposed: Run, reviewed: Run): Session {
    var criticised := Criticise(w, policy, mode, attempt, proposed, reviewed);
    var arbitrated := Alone(w, ArbitrationContext(attempt, proposed, reviewed, criticised),
                            Spec(Orchestrator, true), criticised.ledger);
    if arbitrated.failures != [] then Session(Unavailable(arbitrated.failures[0]), arbitrated.ledger)
    else Session(Decided(arbitrated.results[0].output.record), arbitrated.ledger)
  }

  function ReviewAndArbitrate(w: World, policy: Policy, mode: Mode, attempt: nat, proposed: Run): Session {
    var reviewed := Review(w, policy, mode, attempt, proposed);
    var failure := FirstCritical(reviewed.failures);
    if failure.Some? then Session(Unavailable(failure.value), reviewed.ledger)
    else Arbitrate(w, policy, mode, attempt, proposed, reviewed)
  }

  /** One attempt: it stops at the first phase in which a critical role fails. */
  function Attempt(w: World, policy: Policy, mode: Mode, attempt: nat, led: Ledger): Session {
    var proposed := Propose(w, mode, attempt, led);
    var failure := FirstCritical(proposed.failures);
    if failure.Some? then Session(Unavailable(failure.value), proposed.ledger)
    else ReviewAndArbitrate(w, policy, mode, attempt, proposed)
  }

  /** The council: a second attempt with the cache of the first when that one fails. */
  function Deliberated(w: World, policy: Policy, mode: Mode, led: Ledger): Session {
    var first := Attempt(w, policy, mode, 1, led);
    if first.verdict.Decided? then first else Attempt(w, policy, mode, 2, first.ledger)
  }

  lemma {:induction false} SameAnswersSame(a: seq<Result>, b: seq<Result>)
    requires SameAnswers(a, b)
    ensures Proposals(a) == Proposals(b) && Critiques(a) == Critiques(b) && Preferences(a) == Preferences(b)
  {
    if a != [] {
      assert a[0] == b[0].(reused := a[0].reused);
      forall i | 0 <= i < |a[1..]|
        ensures a[1..][i] == b[1..][i].(reused := a[1..][i].reused) && (b[1..][i].reused ==> a[1..][i].reused)
      {
        assert a[1..][i] == a[i + 1] && b[1..][i] == b[i + 1];
      }
      SameAnswersSame(a[1..], b[1..]);
    }
  }

  method RunAttempt(runner: CouncilRunner, w: World, policy: Policy, mode: Mode, attempt: nat, serialized: bool,
      ghost led: Ledger)
    returns (verdict: Verdict)
    requires runner.Matches(led)
    modifies runner
    ensures var session := Attempt(w, policy, mode, attempt, led);
      verdict == session.verdict && runner.Matches(session.ledger)
  {
    var results, failures := runner.RunRolesParallel(
      w, Context(attempt, Proposing, Inputs(None, [], [], [])), ProposalSpecs(mode), led);
    var critical := FirstCritical(failures);
    if critical.Some? {
      return Unavailable(critical.value);
    }
    verdict := RunReviews(runner, w, policy, mode, attempt, serialized, Proposals(results),
      Propose(w, mode, attempt, led));
  }

  method RunReviews(runner: CouncilRunner, w: World, policy: Policy, mode: Mode, attempt: nat, serialized: bool,
      proposals: seq<Item>, ghost proposed: Run)
    returns (verdict: Verdict)
    requires runner.Matches(proposed.ledger) && proposals == Proposals(proposed.results)
    modifies runner
    ensures var session := ReviewAndArbitrate(w, policy, mode, attempt, proposed);
      verdict == session.verdict && runner.Matches(session.ledger)
  {
    var ctx := Context(attempt, Reviewing, Inputs(runner.diagnosis, proposals, [], []));
    var results, failures := runner.RunReviewerRoles(
      w, ctx, ReviewerSpecs(policy, mode, proposals), serialized, proposed.ledger);
    ghost var reviewed := Review(w, policy, mode, attempt, proposed);
    if serialized { SameAnswersSame(results, reviewed.results); }
    var critical := FirstCritical(failures);
    if critical.Some? {
      return Unavailable(critical.value);
    }
    verdict := RunArbitration(runner, w, policy, mode, ctx, Critiques(results), Preferences(results), proposed,
      reviewed);
  }

  method RunArbitration(runner: CouncilRunner, w: World, policy: Policy, mode: Mode, ctx: Context,
      critiques: seq<Item>, preferences: seq<Item>, ghost proposed: Run, ghost reviewed: Run)
    returns (verdict: Verdict)
    requires runner.Matches(reviewed.ledger) && ctx == ReviewContext(ctx.attempt, proposed)
    requires critiques == Critiques(reviewed.results) && preferences == Preferences(reviewed.results)
    modifies runner
    ensures var session := Arbitrate(w, policy, mode, ctx.attempt, proposed, reviewed);
      verdict == session.verdict && runner.Matches(session.ledger)
  {
    ghost var criticised := Criticise(w, policy, mode, ctx.attempt, proposed, reviewed);
    var allCritiques, allPreferences := critiques + [], preferences + [];
    if policy.needsCritic(mode, ctx.inputs.proposals, critiques) {
      var opinion, omitted := runner.RunRole(w, ctx, Spec(Critic, false), reviewed.ledger);
      OpinionOf(w, ctx, Spec(Critic, false), reviewed.ledger, opinion, omitted);
      if opinion.Some? {
        allCritiques := critiques + opinion.value.critiques;
        allPreferences := preferences + opinion.value.preferences;
      }
    }
    var answer, raised := runner.RunRole(
      w, Context(ctx.attempt, Arbitrating, ctx.inputs.(critiques := allCritiques, preferences := allPreferences)),
      Spec(Orchestrator, true), criticised.ledger);
    verdict := if answer.Some? then Decided(answer.value.record) else Unavailable(raised[0]);
  }

  lemma OpinionOf(w: World, ctx: Context, spec: Spec, led: Ledger, opinion: Option<Output>, failures: seq<Failure>)
    requires Gives(w, ctx, spec, led, opinion, failures)
    ensures var run := Alone(w, ctx, spec, led);
      && Critiques(run.results) == (if opinion.Some? then opinion.value.critiques else [])
      && Preferences(run.results) == (if opinion.Some? then opinion.value.preferences else [])
  {
    var run := Alone(w, ctx, spec, led);
    if opinion.Some? {
      assert run.results == [run.results[0]];
      assert Critiques(run.results) == run.results[0].output.critiques + Critiques([]);
      assert Preferences(run.results) == run.results[0].output.preferences + Preferences([]);
    }
  }

  /** The two-attempt loop of _deliberate. */
  method Deliberate(runner: CouncilRunner, w: World, policy: Policy, mode: Mode, serialized: bool, ghost led: Ledger)
    returns (verdict: Verdict)
    requires runner.Matches(led)
    modifies runner
    ensures var session := Deliberated(w, policy, mode, led);
      verdict == session.verdict && runner.Matches(session.ledger)
  {
    verdict := RunAttempt(runner, w, policy, mode, 1, serialized, led);
    if verdict.Unavailable? {
      verdict := RunAttempt(runner, w, policy, mode, 2, serialized, Attempt(w, policy, mode, 1, led).ledger);
    }
  }

  // What an attempt decides

  /** The role whose failure stops an attempt at its proposals. */
  function LeadOf(mode: Mode): Role {
    if mode.FailureCouncil? then Recovery else if mode.ValidationFollowup? then Validation else Planner
  }

  lemma {:induction false} FirstCriticalIsFirst(failures: seq<Failure>)
    ensures FirstCritical(failures).None? <==> forall f :: f in failures ==> !f.critical
    ensures FirstCritical(failures).Some? ==>
      exists i :: 0 <= i < |failures| && failures[i] == FirstCritical(failures).value && failures[i].critical
                  && forall j :: 0 <= j < i ==> !failures[j].critical
  {
    if failures != [] && !failures[0].critical {
      FirstCriticalIsFirst(failures[1..]);
      assert failures == [failures[0]] + failures[1..];
      if FirstCritical(failures).Some? {
        var i :| 0 <= i < |failures[1..]| && failures[1..][i] == FirstCritical(failures).value
          && failures[1..][i].critical && forall j :: 0 <= j < i ==> !failures[1..][j].critical;
        assert failures[i + 1] == failures[1..][i];
        forall j | 0 <= j < i + 1
          ensures !failures[j].critical
        {
          if j > 0 { assert failures[j] == failures[1..][j - 1]; }
        }
      }
    }
  }

  ghost predicate OnlyCritical(specs: seq<Spec>, lead: nat) {
    lead < |specs| && forall i :: 0 <= i < |specs| ==> (specs[i].critical <==> i == lead)
  }

  /** Of such specs only the lead fails critically, with what its call raised. */
  lemma CriticalIsLead(w: World, ctx: Context, specs: seq<Spec>, led: Ledger, lead: nat, f: Failure)
    requires DistinctRoles(specs) && OnlyCritical(specs, lead)
    requires f in OneByOne(w, ctx, specs, |specs|, led).failures
    ensures f.critical || f.role == specs[lead].role ==>
      f.critical && Carries(w, ctx, specs[lead], led.cache, f)
  {
    OutputsAreAnswers(w, ctx, specs, |specs|, led);
    var i :| 0 <= i < |specs| && Carries(w, ctx, specs[i], led.cache, f);
  }

  lemma LeadLands(w: World, ctx: Context, specs: seq<Spec>, led: Ledger, lead: nat)
    requires DistinctRoles(specs) && OnlyCritical(specs, lead)
    ensures HasFailure(OneByOne(w, ctx, specs, |specs|, led), specs[lead].role)
      <==> AnswerOf(w, ctx, specs[lead].role, led.cache).None?
  {
    var run := OneByOne(w, ctx, specs, |specs|, led);
    EachSpecLandsOnce(w, ctx, specs, |specs|, led, lead);
    if HasFailure(run, specs[lead].role) {
      var f :| f in run.failures && f.role == specs[lead].role;
      CriticalIsLead(w, ctx, specs, led, lead, f);
    } else {
      OutputsAreAnswers(w, ctx, specs, |specs|, led);
      var r :| r in run.results && r.index == lead;
      assert HandsOn(w, ctx, specs[lead], led.cache, r);
    }
  }

  /** The critical failure of a run of specs of which one is critical. */
  lemma CriticalFailure(w: World, ctx: Context, specs: seq<Spec>, led: Ledger, lead: nat)
    requires DistinctRoles(specs) && OnlyCritical(specs, lead)
    ensures var failure := FirstCritical(OneByOne(w, ctx, specs, |specs|, led).failures);
      && (failure.None? <==> AnswerOf(w, ctx, specs[lead].role, led.cache).Some?)
      && (failure.Some? ==> FailsWith(w, ctx, specs[lead].role, Unavailable(failure.value)))
  {
    var run := OneByOne(w, ctx, specs, |specs|, led);
    FirstCriticalIsFirst(run.failures);
    LeadLands(w, ctx, specs, led, lead);
    forall f | f in run.failures
      ensures f.critical || f.role == specs[lead].role ==> f.critical && Carries(w, ctx, specs[lead], led.cache, f)
    {
      CriticalIsLead(w, ctx, specs, led, lead, f);
    }
  }

  /** The failure of a role's call. */
  ghost predicate FailsWith(w: World, ctx: Context, role: Role, verdict: Verdict) {
    var outcome := w.invoke(ctx.attempt, ctx.phase, role, ctx.inputs);
    outcome.Raised? && verdict == Unavailable(Failure(role, ctx.phase, true, outcome.error, outcome.metadata))
  }

  ghost function ProposalContext(attempt: nat): Context {
    Context(attempt, Proposing, Inputs(None, [], [], []))
  }

  lemma ArbitrationVerdict(w: World, policy: Policy, mode: Mode, attempt: nat, proposed: Run, reviewed: Run)
    ensures var verdict := Arbitrate(w, policy, mode, attempt, proposed, reviewed).verdict;
      var criticised := Criticise(w, policy, mode, attempt, proposed, reviewed);
      var shown := ArbitrationContext(attempt, proposed, reviewed, criticised);
      if AnswerOf(w, shown, Orchestrator, criticised.ledger.cache).None?
      then FailsWith(w, shown, Orchestrator, verdict)
      else verdict == Decided(AnswerOf(w, shown, Orchestrator, criticised.ledger.cache).value.record)
  {
  }

  lemma ProposalVerdict(w: World, mode: Mode, attempt: nat, led: Ledger)
    ensures var failure := FirstCritical(Propose(w, mode, attempt, led).failures);
      && (failure.None? <==> AnswerOf(w, ProposalContext(attempt), LeadOf(mode), led.cache).Some?)
      && (failure.Some? ==> FailsWith(w, ProposalContext(attempt), LeadOf(mode), Unavailable(failure.value)))
  {
    CriticalFailure(w, ProposalContext(attempt), ProposalSpecs(mode), led, 0);
  }

  lemma ReviewVerdict(w: World, policy: Policy, mode: Mode, attempt: nat, proposed: Run)
    ensures var failure := FirstCritical(Review(w, policy, mode, attempt, proposed).failures);
      var ctx := ReviewContext(attempt, proposed);
      && (failure.None? <==> AnswerOf(w, ctx, PhysicsJudge, proposed.ledger.cache).Some?)
      && (failure.Some? ==> FailsWith(w, ctx, PhysicsJudge, Unavailable(failure.value)))
  {
    CriticalFailure(w, ReviewContext(attempt, proposed), ReviewerSpecs(policy, mode, Proposals(proposed.results)),
      proposed.ledger, 0);
  }

  /** An attempt decides exactly when the leading proposer, the physics judge and the
      orchestrator have an answer, cached or called; it then says what the orchestrator's
      record says, and otherwise it fails with the first of the three that has none. */
  lemma AttemptVerdict(w: World, policy: Policy, mode: Mode, attempt: nat, led: Ledger)
    ensures var verdict := Attempt(w, policy, mode, attempt, led).verdict;
      var proposed := Propose(w, mode, attempt, led);
      var reviewed := Review(w, policy, mode, attempt, proposed);
      var criticised := Criticise(w, policy, mode, attempt, proposed, reviewed);
      var shown := ArbitrationContext(attempt, proposed, reviewed, criticised);
      if AnswerOf(w, ProposalContext(attempt), LeadOf(mode), led.cache).None?
      then FailsWith(w, ProposalContext(attempt), LeadOf(mode), verdict)
      else if AnswerOf(w, ReviewContext(attempt, proposed), PhysicsJudge, proposed.ledger.cache).None?
      then FailsWith(w, ReviewContext(attempt, proposed), PhysicsJudge, verdict)
      else if AnswerOf(w, shown, Orchestrator, criticised.ledger.cache).None?
      then FailsWith(w, shown, Orchestrator, verdict)
      else verdict == Decided(AnswerOf(w, shown, Orchestrator, criticised.ledger.cache).value.record)
  {
    var proposed := Propose(w, mode, attempt, led);
    ProposalVerdict(w, mode, attempt, led);
    ReviewVerdict(w, policy, mode, attempt, proposed);
    ArbitrationVerdict(w, policy, mode, attempt, proposed, Review(w, policy, mode, attempt, proposed));
  }

  /** The three roles an attempt needs all have an answer. */
  ghost predicate AllAnswer(w: World, policy: Policy, mode: Mode, attempt: nat, led: Ledger) {
    var proposed := Propose(w, mode, attempt, led);
    var reviewed := Review(w, policy, mode, attempt, proposed);
    var criticised := Criticise(w, policy, mode, attempt, proposed, reviewed);
    && AnswerOf(w, ProposalContext(attempt), LeadOf(mode), led.cache).Some?
    && AnswerOf(w, ReviewContext(attempt, proposed), PhysicsJudge, proposed.ledger.cache).Some?
    && AnswerOf(w, ArbitrationContext(attempt, proposed, reviewed, criticised), Orchestrator,
         criticised.ledger.cache).Some?
  }

  lemma AttemptDecidesIff(w: World, policy: Policy, mode: Mode, attempt: nat, led: Ledger)
    ensures Attempt(w, policy, mode, attempt, led).verdict.Decided? <==> AllAnswer(w, policy, mode, attempt, led)
  {
    AttemptVerdict(w, policy, mode, attempt, led);
  }

  /** The council decides exactly when they have one in its first attempt, or in a second that
      starts from what the first one cached. */
  lemma CouncilDecidesIff(w: World, policy: Policy, mode: Mode, led: Ledger)
    ensures Deliberated(w, policy, mode, led).verdict.Decided?
      <==> AllAnswer(w, policy, mode, 1, led) || AllAnswer(w, policy, mode, 2, Attempt(w, policy, mode, 1, led).ledger)
  {
    AttemptDecidesIff(w, policy, mode, 1, led);
    AttemptDecidesIff(w, policy, mode, 2, Attempt(w, policy, mode, 1, led).ledger);
  }

  // What the orchestrator is shown

  /** The parts of the outputs that the first n specs gave, in the order of the specs. */
  ghost function Gathered(w: World, ctx: Context, specs: seq<Spec>, n: nat, cache: map<Key, Entry>,
      part: Output -> seq<Item>): seq<Item>
    requires n <= |specs|
  {
    if n == 0 then []
    else
      var answer := AnswerOf(w, ctx, specs[n - 1].role, cache);
      Gathered(w, ctx, specs, n - 1, cache, part) + if answer.Some? then part(answer.value) else []
  }

  lemma {:induction false} ProposalsConcat(a: seq<Result>, b: seq<Result>)
    ensures Proposals(a + b) == Proposals(a) + Proposals(b)
  {
    if a == [] {
      assert a + b == b;
    } else {
      assert (a + b)[1..] == a[1..] + b;
      ProposalsConcat(a[1..], b);
    }
  }

  lemma {:induction false} CritiquesConcat(a: seq<Result>, b: seq<Result>)
    ensures Critiques(a + b) == Critiques(a) + Critiques(b)
  {
    if a == [] {
      assert a + b == b;
    } else {
      assert (a + b)[1..] == a[1..] + b;
      CritiquesConcat(a[1..], b);
    }
  }

  lemma {:induction false} PreferencesConcat(a: seq<Result>, b: seq<Result>)
    ensures Preferences(a + b) == Preferences(a) + Preferences(b)
  {
    if a == [] {
      assert a + b == b;
    } else {
      assert (a + b)[1..] == a[1..] + b;
      PreferencesConcat(a[1..], b);
    }
  }

  lemma OnePart(r: Result)
    ensures Proposals([r]) == r.output.proposals && Critiques([r]) == r.output.critiques
      && Preferences([r]) == r.output.preferences
  {
    assert [r][1..] == [];
  }

  /** The phase hands on all proposals, critiques and preferences its roles gave. */
  ghost predicate HandsOnAll(w: World, ctx: Context, specs: seq<Spec>, n: nat, cache: map<Key, Entry>,
      results: seq<Result>)
    requires n <= |specs|
  {
    && Proposals(results) == Gathered(w, ctx, specs, n, cache, (o: Output) => o.proposals)
    && Critiques(results) == Gathered(w, ctx, specs, n, cache, (o: Output) => o.critiques)
    && Preferences(results) == Gathered(w, ctx, specs, n, cache, (o: Output) => o.preferences)
  }

  lemma {:induction false} PhaseHandsOnAll(w: World, ctx: Context, specs: seq<Spec>, n: nat, led: Ledger)
    requires DistinctRoles(specs) && n <= |specs|
    ensures HandsOnAll(w, ctx, specs, n, led.cache, OneByOne(w, ctx, specs, n, led).results)
  {
    if n > 0 {
      var so, run := OneByOne(w, ctx, specs, n - 1, led), OneByOne(w, ctx, specs, n, led);
      PhaseHandsOnAll(w, ctx, specs, n - 1, led);
      CacheUntouched(w, ctx, specs, n - 1, led, KeyOf(w, ctx, specs[n - 1].role));
      StepHandsOn(w, ctx, specs[n - 1], n - 1, so, led.cache);
      if |run.results| > |so.results| {
        var r := run.results[|so.results|];
        assert run.results == so.results + [r];
        ProposalsConcat(so.results, [r]);
        CritiquesConcat(so.results, [r]);
        PreferencesConcat(so.results, [r]);
        OnePart(r);
      }
    }
  }

  /** The reviewers see every proposal that was made, and the orchestrator every proposal,
      critique and preference, in the order of the roles with the critic's last. */
  lemma OrchestratorSees(w: World, policy: Policy, mode: Mode, attempt: nat, led: Ledger)
    ensures var proposed := Propose(w, mode, attempt, led);
      var reviewed := Review(w, policy, mode, attempt, proposed);
      var criticised := Criticise(w, policy, mode, attempt, proposed, reviewed);
      var review := ReviewContext(attempt, proposed);
      var shown := ArbitrationContext(attempt, proposed, reviewed, criticised);
      var proposers, cache := ProposalSpecs(mode), proposed.ledger.cache;
      var reviewers := ReviewerSpecs(policy, mode, review.inputs.proposals);
      var critic := AnswerOf(w, review, Critic, reviewed.ledger.cache);
      var heard := critic.Some? && policy.needsCritic(mode, review.inputs.proposals, Critiques(reviewed.results));
      && review == Context(attempt, Reviewing,
                     Inputs(proposed.ledger.diagnosis, review.inputs.proposals, [], []))
      && review.inputs.proposals
         == Gathered(w, ProposalContext(attempt), proposers, |proposers|, led.cache, (o: Output) => o.proposals)
      && shown == Context(attempt, Arbitrating, review.inputs.(
           critiques := Gathered(w, review, reviewers, |reviewers|, cache, (o: Output) => o.critiques)
                        + (if heard then critic.value.critiques else []),
           preferences := Gathered(w, review, reviewers, |reviewers|, cache, (o: Output) => o.preferences)
                          + if heard then critic.value.preferences else []))
  {
    var proposed := Propose(w, mode, attempt, led);
    var reviewed := Review(w, policy, mode, attempt, proposed);
    var review := ReviewContext(attempt, proposed);
    var proposers := ProposalSpecs(mode);
    var reviewers := ReviewerSpecs(policy, mode, review.inputs.proposals);
    PhaseHandsOnAll(w, ProposalContext(attempt), proposers, |proposers|, led);
    PhaseHandsOnAll(w, review, reviewers, |reviewers|, proposed.ledger);
    CriticIsHeard(w, review, reviewed.ledger);
  }

  lemma CriticIsHeard(w: World, ctx: Context, led: Ledger)
    ensures var results := Alone(w, ctx, Spec(Critic, false), led).results;
      var critic := AnswerOf(w, ctx, Critic, led.cache);
      && Critiques(results) == (if critic.Some? then critic.value.critiques else [])
      && Preferences(results) == (if critic.Some? then critic.value.preferences else [])
  {
    var run := Run([], [], led);
    StepHandsOn(w, ctx, Spec(Critic, false), 0, run, led.cache);
    var results := Alone(w, ctx, Spec(Critic, false), led).results;
    if results != [] {
      assert results == [results[0]];
      OnePart(results[0]);
    }
  }

  // What the calls of a council look like

  /** The calls of a council so far, in its current attempt only of the roles in `used`,
      against the cache it started with. */
  ghost predicate Sound(start: map<Key, Entry>, led: Ledger, attempt: nat, used: set<Role>) {
    && KeepsStart(start, led)
    && Explained(start, led)
    && CallsOnce(led.invoked)
    && OncePerAttempt(led.invoked, attempt, used)
  }

  /** What was cached at the start stays, and is never called for. */
  ghost predicate KeepsStart(start: map<Key, Entry>, led: Ledger) {
    && (forall k :: k in start ==> k in led.cache && led.cache[k] == start[k])
    && (forall i :: 0 <= i < |led.invoked| ==> led.invoked[i].key !in start)
  }

  /** The cache holds exactly the start and the answers that were given. */
  ghost predicate Explained(start: map<Key, Entry>, led: Ledger) {
    && (forall i :: 0 <= i < |led.invoked| && led.invoked[i].answer.Some? ==>
          led.invoked[i].key in led.cache && led.cache[led.invoked[i].key] == led.invoked[i].answer.value)
    && (forall k :: k in led.cache && k !in start ==>
          exists i :: 0 <= i < |led.invoked| && led.invoked[i].key == k && led.invoked[i].answer == Some(led.cache[k]))
  }

  /** After a successful call there is no further call with the same key. */
  ghost predicate CallsOnce(log: seq<Invocation>) {
    forall i, j :: 0 <= i < j < |log| && log[i].answer.Some? ==> log[i].key != log[j].key
  }

  ghost predicate OncePerAttempt(log: seq<Invocation>, attempt: nat, used: set<Role>) {
    && (forall i :: 0 <= i < |log| ==> 1 <= log[i].attempt <= attempt)
    && (forall i :: 0 <= i < |log| && log[i].attempt == attempt ==> log[i].key.role in used)
    && (forall i, j :: 0 <= i < j < |log| && log[i].attempt == log[j].attempt ==> log[i].key.role != log[j].key.role)
  }

  lemma CallExplained(start: map<Key, Entry>, led: Ledger, call: Invocation, next: Ledger)
    requires KeepsStart(start, led) && Explained(start, led) && call.key !in led.cache
    requires next.invoked == led.invoked + [call]
    requires next.cache == if call.answer.Some? then led.cache[call.key := call.answer.value] else led.cache
    ensures KeepsStart(start, next) && Explained(start, next)
  {
    assert forall i :: 0 <= i < |led.invoked| ==> next.invoked[i] == led.invoked[i];
    forall k | k in next.cache && k !in start
      ensures exists i ::
        0 <= i < |next.invoked| && next.invoked[i].key == k && next.invoked[i].answer == Some(next.cache[k])
    {
      if k in led.cache {
        var i :| 0 <= i < |led.invoked| && led.invoked[i].key == k && led.invoked[i].answer == Some(led.cache[k]);
        assert next.invoked[i] == led.invoked[i];
      } else {
        assert next.invoked[|led.invoked|] == call;
      }
    }
  }

  lemma StepSound(start: map<Key, Entry>, w: World, ctx: Context, spec: Spec, index: nat, run: Run, used: set<Role>)
    requires ctx.attempt >= 1
    requires Sound(start, run.ledger, ctx.attempt, used) && spec.role !in used
    ensures Sound(start, Step(w, ctx, spec, index, run).ledger, ctx.attempt, used + {spec.role})
  {
    var led, next := run.ledger, Step(w, ctx, spec, index, run).ledger;
    if KeyOf(w, ctx, spec.role) in led.cache {
      assert next.invoked == led.invoked && next.cache == led.cache;
    } else {
      var call := Logged(w, ctx, spec.role);
      assert next.invoked == led.invoked + [call];
      CallExplained(start, led, call, next);
      OneSuccess(start, led, call);
      OneMoreCall(led.invoked, call, ctx.attempt, used);
    }
  }

  lemma OneSuccess(start: map<Key, Entry>, led: Ledger, call: Invocation)
    requires Explained(start, led) && CallsOnce(led.invoked) && call.key !in led.cache
    ensures CallsOnce(led.invoked + [call])
  {
  }

  lemma OneMoreCall(log: seq<Invocation>, call: Invocation, attempt: nat, used: set<Role>)
    requires OncePerAttempt(log, attempt, used) && call.attempt == attempt >= 1 && call.key.role !in used
    ensures OncePerAttempt(log + [call], attempt, used + {call.key.role})
  {
  }

  ghost function RolesOf(specs: seq<Spec>, n: nat): set<Role>
    requires n <= |specs|
  {
    set i | 0 <= i < n :: specs[i].role
  }

  lemma RolesGrow(specs: seq<Spec>, n: nat)
    requires DistinctRoles(specs) && 0 < n <= |specs|
    ensures RolesOf(specs, n) == RolesOf(specs, n - 1) + {specs[n - 1].role}
    ensures specs[n - 1].role !in RolesOf(specs, n - 1)
  {
  }

  lemma {:induction false} OneByOneSound(start: map<Key, Entry>, w: World, ctx: Context, specs: seq<Spec>, n: nat,
      led: Ledger,
      used: set<Role>)
    requires ctx.attempt >= 1 && Sound(start, led, ctx.attempt, used)
    requires DistinctRoles(specs) && n <= |specs| && forall s :: s in specs ==> s.role !in used
    ensures Sound(start, OneByOne(w, ctx, specs, n, led).ledger, ctx.attempt, used + RolesOf(specs, n))
  {
    if n == 0 {
      assert used + RolesOf(specs, n) == used;
    } else {
      OneByOneSound(start, w, ctx, specs, n - 1, led, used);
      RolesGrow(specs, n);
      assert specs[n - 1] in specs;
      StepSound(start, w, ctx, specs[n - 1], n - 1, OneByOne(w, ctx, specs, n - 1, led), used + RolesOf(specs, n - 1));
      assert used + (RolesOf(specs, n - 1) + {specs[n - 1].role}) == used + RolesOf(specs, n - 1) + {specs[n - 1].role};
    }
  }

  /** Calling more roles keeps what holds of the calls. */
  lemma SoundWidens(start: map<Key, Entry>, led: Ledger, attempt: nat, used: set<Role>, more: set<Role>)
    requires Sound(start, led, attempt, used) && used <= more
    ensures Sound(start, led, attempt, more)
  {
  }

  const PROPOSERS: set<Role> := {Planner, Recovery, Validation, Refinement, Executor}
  const REVIEWERS: set<Role> := PROPOSERS + {PhysicsJudge, CostGuardian}
  const ALL_ROLES: set<Role> := REVIEWERS + {Critic} + {Orchestrator}

  lemma ProposeSound(start: map<Key, Entry>, w: World, mode: Mode, attempt: nat, led: Ledger)
    requires attempt >= 1 && Sound(start, led, attempt, {})
    ensures Sound(start, Propose(w, mode, attempt, led).ledger, attempt, PROPOSERS)
  {
    var specs := ProposalSpecs(mode);
    OneByOneSound(start, w, Context(attempt, Proposing, Inputs(None, [], [], [])), specs, |specs|, led, {});
    SoundWidens(start, Propose(w, mode, attempt, led).ledger, attempt, {} + RolesOf(specs, |specs|), PROPOSERS);
  }

  lemma ReviewSound(start: map<Key, Entry>, w: World, policy: Policy, mode: Mode, attempt: nat, proposed: Run)
    requires attempt >= 1 && Sound(start, proposed.ledger, attempt, PROPOSERS)
    ensures Sound(start, Review(w, policy, mode, attempt, proposed).ledger, attempt, REVIEWERS)
  {
    var specs := ReviewerSpecs(policy, mode, Proposals(proposed.results));
    OneByOneSound(start, w, ReviewContext(attempt, proposed), specs, |specs|, proposed.ledger, PROPOSERS);
    SoundWidens(start, Review(w, policy, mode, attempt, proposed).ledger, attempt,
      PROPOSERS + RolesOf(specs, |specs|), REVIEWERS);
  }

  lemma CriticiseSound(start: map<Key, Entry>, w: World, policy: Policy, mode: Mode, attempt: nat, proposed: Run,
      reviewed: Run)
    requires attempt >= 1 && Sound(start, reviewed.ledger, attempt, REVIEWERS)
    ensures Sound(start, Criticise(w, policy, mode, attempt, proposed, reviewed).ledger, attempt, REVIEWERS + {Critic})
  {
    StepSound(start, w, ReviewContext(attempt, proposed), Spec(Critic, false), 0, Run([], [], reviewed.ledger),
      REVIEWERS);
    SoundWidens(start, reviewed.ledger, attempt, REVIEWERS, REVIEWERS + {Critic});
  }

  lemma ArbitrateSound(start: map<Key, Entry>, w: World, policy: Policy, mode: Mode, attempt: nat, proposed: Run,
      reviewed: Run)
    requires attempt >= 1 && Sound(start, reviewed.ledger, attempt, REVIEWERS)
    ensures Sound(start, Arbitrate(w, policy, mode, attempt, proposed, reviewed).ledger, attempt, ALL_ROLES)
  {
    var criticised := Criticise(w, policy, mode, attempt, proposed, reviewed);
    CriticiseSound(start, w, policy, mode, attempt, proposed, reviewed);
    StepSound(start, w, ArbitrationContext(attempt, proposed, reviewed, criticised), Spec(Orchestrator, true), 0,
              Run([], [], criticised.ledger), REVIEWERS + {Critic});
  }

  lemma ReviewAndArbitrateSound(start: map<Key, Entry>, w: World, policy: Policy, mode: Mode, attempt: nat,
      proposed: Run)
    requires attempt >= 1 && Sound(start, proposed.ledger, attempt, PROPOSERS)
    ensures Sound(start, ReviewAndArbitrate(w, policy, mode, attempt, proposed).ledger, attempt, ALL_ROLES)
  {
    var reviewed := Review(w, policy, mode, attempt, proposed);
    ReviewSound(start, w, policy, mode, attempt, proposed);
    SoundWidens(start, reviewed.ledger, attempt, REVIEWERS, ALL_ROLES);
    ArbitrateSound(start, w, policy, mode, attempt, proposed, reviewed);
  }

  lemma AttemptSound(start: map<Key, Entry>, w: World, policy: Policy, mode: Mode, attempt: nat, led: Ledger)
    requires attempt >= 1 && Sound(start, led, attempt, {})
    ensures Sound(start, Attempt(w, policy, mode, attempt, led).ledger, attempt, ALL_ROLES)
  {
    var proposed := Propose(w, mode, attempt, led);
    ProposeSound(start, w, mode, attempt, led);
    SoundWidens(start, proposed.ledger, attempt, PROPOSERS, ALL_ROLES);
    ReviewAndArbitrateSound(start, w, policy, mode, attempt, proposed);
  }

  lemma CouncilSound(w: World, policy: Policy, mode: Mode, led: Ledger)
    requires led.invoked == []
    ensures Sound(led.cache, Deliberated(w, policy, mode, led).ledger, 2, ALL_ROLES)
  {
    var first := Attempt(w, policy, mode, 1, led);
    CouncilBegins(led);
    AttemptSound(led.cache, w, policy, mode, 1, led);
    SecondBegins(led.cache, first.ledger);
    if first.verdict.Unavailable? {
      AttemptSound(led.cache, w, policy, mode, 2, first.ledger);
    } else {
      SoundWidens(led.cache, first.ledger, 2, {}, ALL_ROLES);
    }
  }

  lemma CouncilBegins(led: Ledger)
    requires led.invoked == []
    ensures Sound(led.cache, led, 1, {})
  {
  }

  lemma SecondBegins(start: map<Key, Entry>, led: Ledger)
    requires Sound(start, led, 1, ALL_ROLES)
    ensures Sound(start, led, 2, {})
  {
  }

  /** However the agents answer or fail: a role whose answer is cached for the payload is not
      called, neither from the start nor on the reopened attempt; a key is answered by at
      most one call; and no role is called more than twice. */
  lemma CouncilCallsAreBounded(w: World, policy: Policy, mode: Mode, led: Ledger)
    requires led.invoked == []
    ensures var log := Deliberated(w, policy, mode, led).ledger.invoked;
      && (forall i :: 0 <= i < |log| ==> log[i].key !in led.cache)
      && (forall i, j :: 0 <= i < j < |log| && log[i].answer.Some? ==> log[j].key != log[i].key)
      && (forall i, j, k :: 0 <= i < j < k < |log| ==>
            !(log[i].key.role == log[j].key.role && log[j].key.role == log[k].key.role))
  {
    CouncilSound(w, policy, mode, led);
    var log := Deliberated(w, policy, mode, led).ledger.invoked;
    forall i, j, k | 0 <= i < j < k < |log|
      ensures !(log[i].key.role == log[j].key.role && log[j].key.role == log[k].key.role)
    {
      assert 1 <= log[i].attempt <= 2 && 1 <= log[j].attempt <= 2 && 1 <= log[k].attempt <= 2;
    }
  }

  // Where outputs come from

  /** The output was cached at the start, or given by one of the calls. */
  ghost predicate Given(start: map<Key, Entry>, log: seq<Invocation>, key: Key, output: Output) {
    || (key in start && start[key].output == output)
    || (exists i :: 0 <= i < |log| && log[i].key == key && log[i].answer.Some? && log[i].answer.value.output == output)
  }

  /** Each result of a phase that reuses an output hands on one that was given for the same
      key, before the phase began; the others hand on what their own call gave. */
  ghost predicate Traced(start: map<Key, Entry>, w: World, ctx: Context, before: seq<Invocation>,
      results: seq<Result>) {
    forall r :: r in results ==>
      var key := Key(ctx.phase, r.role, w.payload(ctx.phase, r.role, ctx.inputs));
      var outcome := w.invoke(ctx.attempt, ctx.phase, r.role, ctx.inputs);
      if r.reused then Given(start, before, key, r.output) else outcome.Answer? && r.output == outcome.entry.output
  }

  lemma CachedIsGiven(start: map<Key, Entry>, led: Ledger, key: Key)
    requires KeepsStart(start, led) && Explained(start, led) && key in led.cache
    ensures Given(start, led.invoked, key, led.cache[key].output)
  {
  }

  lemma PhaseTraced(start: map<Key, Entry>, w: World, ctx: Context, specs: seq<Spec>, led: Ledger)
    requires KeepsStart(start, led) && Explained(start, led) && DistinctRoles(specs)
    ensures Traced(start, w, ctx, led.invoked, OneByOne(w, ctx, specs, |specs|, led).results)
  {
    OutputsAreAnswers(w, ctx, specs, |specs|, led);
    forall r | r in OneByOne(w, ctx, specs, |specs|, led).results && r.reused
      ensures Given(start, led.invoked, Key(ctx.phase, r.role, w.payload(ctx.phase, r.role, ctx.inputs)), r.output)
    {
      CachedIsGiven(start, led, Key(ctx.phase, r.role, w.payload(ctx.phase, r.role, ctx.inputs)));
    }
  }

  /** So do all phases of an attempt. */
  ghost predicate AttemptTraced(start: map<Key, Entry>, w: World, policy: Policy, mode: Mode, attempt: nat,
      led: Ledger) {
    var proposed := Propose(w, mode, attempt, led);
    var reviewed := Review(w, policy, mode, attempt, proposed);
    var criticised := Criticise(w, policy, mode, attempt, proposed, reviewed);
    var shown := ArbitrationContext(attempt, proposed, reviewed, criticised);
    && Traced(start, w, ProposalContext(attempt), led.invoked, proposed.results)
    && Traced(start, w, ReviewContext(attempt, proposed), proposed.ledger.invoked, reviewed.results)
    && Traced(start, w, ReviewContext(attempt, proposed), reviewed.ledger.invoked, criticised.results)
    && Traced(start, w, shown, criticised.ledger.invoked,
         Alone(w, shown, Spec(Orchestrator, true), criticised.ledger).results)
  }

  lemma AloneTraced(start: map<Key, Entry>, w: World, ctx: Context, spec: Spec, led: Ledger)
    requires KeepsStart(start, led) && Explained(start, led)
    ensures Traced(start, w, ctx, led.invoked, Alone(w, ctx, spec, led).results)
  {
    StepHandsOn(w, ctx, spec, 0, Run([], [], led), led.cache);
    if KeyOf(w, ctx, spec.role) in led.cache {
      CachedIsGiven(start, led, KeyOf(w, ctx, spec.role));
    }
  }

  lemma AttemptIsTraced(start: map<Key, Entry>, w: World, policy: Policy, mode: Mode, attempt: nat, led: Ledger)
    requires attempt >= 1 && Sound(start, led, attempt, {})
    ensures AttemptTraced(start, w, policy, mode, attempt, led)
  {
    var proposed := Propose(w, mode, attempt, led);
    var reviewed := Review(w, policy, mode, attempt, proposed);
    var criticised := Criticise(w, policy, mode, attempt, proposed, reviewed);
    PhaseTraced(start, w, ProposalContext(attempt), ProposalSpecs(mode), led);
    ProposeSound(start, w, mode, attempt, led);
    PhaseTraced(start, w, ReviewContext(attempt, proposed), ReviewerSpecs(policy, mode, Proposals(proposed.results)),
      proposed.ledger);
    ReviewSound(start, w, policy, mode, attempt, proposed);
    AloneTraced(start, w, ReviewContext(attempt, proposed), Spec(Critic, false), reviewed.ledger);
    CriticiseSound(start, w, policy, mode, attempt, proposed, reviewed);
    AloneTraced(start, w, ArbitrationContext(attempt, proposed, reviewed, criticised), Spec(Orchestrator, true),
      criticised.ledger);
  }

  /** In both attempts of a council every reused output was given for its key earlier, by the
      cache it started with or by a call, and every other one by the role's own call. */
  lemma ReusedOutputsWereGiven(w: World, policy: Policy, mode: Mode, led: Ledger)
    requires led.invoked == []
    ensures AttemptTraced(led.cache, w, policy, mode, 1, led)
    ensures var first := Attempt(w, policy, mode, 1, led);
      first.verdict.Unavailable? ==> AttemptTraced(led.cache, w, policy, mode, 2, first.ledger)
  {
    var first := Attempt(w, policy, mode, 1, led);
    CouncilBegins(led);
    AttemptIsTraced(led.cache, w, policy, mode, 1, led);
    if first.verdict.Unavailable? {
      AttemptSound(led.cache, w, policy, mode, 1, led);
      SecondBegins(led.cache, first.ledger);
      AttemptIsTraced(led.cache, w, policy, mode, 2, first.ledger);
    }
  }

  /** A reused output is the one first produced: what the cache holds beyond its start was
      given by one call, and every other call with that key had raised before it. */
  lemma ReusedIsFirstProduced(w: World, policy: Policy, mode: Mode, led: Ledger, key: Key) returns (i: nat)
    requires led.invoked == []
    requires var end := Deliberated(w, policy, mode, led).ledger; key in end.cache && key !in led.cache
    ensures var end := Deliberated(w, policy, mode, led).ledger;
      && i < |end.invoked| && end.invoked[i].key == key && end.invoked[i].answer == Some(end.cache[key])
      && forall j :: 0 <= j < |end.invoked| && j != i && end.invoked[j].key == key ==>
           j < i && end.invoked[j].answer.None?
  {
    CouncilSound(w, policy, mode, led);
    var end := Deliberated(w, policy, mode, led).ledger;
    i :| 0 <= i < |end.invoked| && end.invoked[i].key == key && end.invoked[i].answer == Some(end.cache[key]);
  }
}
