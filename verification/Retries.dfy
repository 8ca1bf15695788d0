/** What the retry budget stops in a run, and what it does not
    (mobility_agent/agents/orchestrator.py:225-265; mobility_agent/graph/runtime_nodes.py:766-771;
    mobility_agent/runtime/agent_tools.py:903-907). */
module Retries {
  import opened Channels
  import opened Runtime
  import opened Runs
  import opened Progress
  import opened Scenarios
  import opened Accounts
  import A = Arbitration
  import Retry = RetryAccounting

  // What the guardrail stops

  /** The failed capability has used up its retries; without a budget they are two. */
  predicate Exhausted(config: Config, s: State) {
    var failing := Strip(ObservedTarget(s));
    && failing != "" && Saw(s, Failure)
    && Retry.CountOf(s.workflow.retries, failing) >= if config.retryBudget == 0 then 2 else config.retryBudget
  }

  function RecordOf(c: Council): A.Outcome {
    A.Arbitrated(c.desk, c.proposals, c.critiques, c.preferences, c.reply)
  }

  lemma GuardCloses(config: Config, s: State, turn: Turn)
    requires s.execution.pending == [] && Exhausted(config, s) && Informed(config, s, turn)
    ensures RecordOf(turn.council) in {A.Raised, A.Recorded(A.Noop(false, false))}
  {
    StripTrims("");
    assert ObservedTarget(ObservedState(s)) == ObservedTarget(s) != "";
    assert A.BudgetExhausted(turn.council.desk.standing);
  }

  lemma FailureHasReason(s: State, view: View)
    requires s.execution.pending == [] && Saw(s, Failure) && !Waiting(s.workflow.status)
    ensures DeliberationReason(s, view).Some?
  {
  }

  /** Where a deliberation without an action leads. */
  ghost predicate Settled(p: State, options: Params) {
    if p.execution.current.Some? then p.execution.current == Some(EscalateForRelax(options))
    else Terminal(p.workflow.status) || p.workflow.status.ReadyToFinalize?
  }

  lemma NoopSettles(s: State, reason: Reason, turn: Turn)
    requires RecordOf(turn.council) in {A.Raised, A.Recorded(A.Noop(false, false))}
    ensures Deliberated(s, reason, turn).Some? ==>
      var p := Deliberated(s, reason, turn).value;
      Settled(p, turn.options) && (p.execution.current.Some? ==> turn.relaxEvidence)
  {
  }

  lemma ExhaustedPlan(config: Config, s: State, turn: Turn)
    requires s.execution.pending == [] && !Waiting(s.workflow.status) && Exhausted(config, s)
    requires Informed(config, s, turn)
    ensures Planned(s, turn).Some? ==>
      var p := Planned(s, turn).value;
      Settled(p, turn.options) && (p.execution.current.Some? ==> turn.relaxEvidence)
  {
    GuardCloses(config, s, turn);
    FailureHasReason(s, turn.before);
    NoopSettles(s, DeliberationReason(s, turn.before).value, turn);
  }

  lemma SettledStops(config: Config, p: State, turn: Turn)
    requires Settled(p, turn.options)
    ensures LedgerOfPlan(config, p, turn) == NOTHING
    ensures p.execution.current.None? ==> Carried(config, p, turn) == Break(p)
  {
  }

  /** Once a failed capability has used up its retries, a council that judges by the state
      has nothing executed: the turn raises, asks a person when there is evidence of a failed
      relaxation, or ends the loop with the run over or ready to be finalized. */
  lemma ExhaustedTurnStops(config: Config, s: State, turn: Turn)
    requires s.execution.pending == [] && !Waiting(s.workflow.status)
    ensures Exhausted(config, s) && Informed(config, s, turn) ==>
      var flow := Proceeded(config, s, turn);
      && LedgerOfTurn(config, s, turn) == NOTHING
      && (|| flow.Raise?
          || (Escalates(s, turn) && turn.relaxEvidence)
          || (flow.Break? && (Terminal(flow.state.workflow.status) || flow.state.workflow.status.ReadyToFinalize?)))
  {
    if Exhausted(config, s) && Informed(config, s, turn) && !Terminal(s.workflow.status) {
      ExhaustedPlan(config, s, turn);
      if Planned(s, turn).Some? {
        SettledStops(config, Planned(s, turn).value, turn);
      }
    }
  }

  /** So without such evidence the call ends in this turn: with an exception, or with the run
      over, its report written. */
  lemma ExhaustedRunEnds(config: Config, s: State, turns: seq<Turn>)
    requires s.execution.pending == [] && !Waiting(s.workflow.status) && !ReportMarked(s) && turns != []
    ensures Exhausted(config, s) && Informed(config, s, turns[0]) && !turns[0].relaxEvidence ==>
      var end := Looped(config, s, turns);
      || end.Raised?
      || (end.Returned? && Terminal(end.state.workflow.status) && end.state.log.reports == s.log.reports + 1)
  {
    ExhaustedTurnStops(config, s, turns[0]);
    ProceedingStandsAside(config, s, turns[0]);
    if Exhausted(config, s) && Informed(config, s, turns[0]) && !turns[0].relaxEvidence {
      NotAsked(config, s, turns[0]);
    }
  }

  lemma NotAsked(config: Config, s: State, turn: Turn)
    requires s.execution.pending == [] && !Waiting(s.workflow.status) && Exhausted(config, s)
    requires Informed(config, s, turn) && !turn.relaxEvidence
    ensures !Escalates(s, turn)
  {
    if Planned(s, turn).Some? {
      ExhaustedPlan(config, s, turn);
    }
  }

  lemma PlanLedger(config: Config, s: State, turn: Turn, p: State, r: A.Request)
    requires !Terminal(s.workflow.status) && !Waiting(s.workflow.status) && Planned(s, turn) == Some(p)
    requires p.execution.current == Some(PickOf(r)) && r.family != "escalate_human"
    requires Allowed(config, p, r, turn.tooling.otherwiseLegal)
    ensures LedgerOfTurn(config, s, turn).steps == [StepOf(r, turn.tooling)]
  {
  }

  lemma SelectedStatus(s: State, a: A.Action, planned: seq<string>)
    requires s.execution.pending == [] && Open(s) && !Waiting(s.workflow.status)
    ensures var p := ActionSelected(ObservedState(s), a, planned);
      && !Terminal(p.workflow.status) && !p.workflow.status.WaitingExternal? && p.execution.current == Some(a)
      && p.execution.jobs == s.execution.jobs
  {
  }

  lemma RepairIsExecuted(config: Config, s: State) returns (turn: Turn)
    requires s.execution.pending == [] && Open(s) && !Waiting(s.workflow.status)
    requires Saw(s, Failure) && Choosing(config, ObservedState(s))
    ensures Informed(config, s, turn) && LedgerOfTurn(config, s, turn).steps != []
  {
    turn := Picking(config, s, REPAIR, Success);
    var p := ActionSelected(ObservedState(s), PickOf(REPAIR), [""]);
    SelectedStatus(s, PickOf(REPAIR), [""]);
    RepairIsAllowed(config, ObservedState(s));
    PickingIsInformed(config, s, REPAIR, Success);
    FailureHasReason(s, QUIET);
    ProposalIsPlanned(s, turn, config.render, StandingOf(config, ObservedState(s)), REPAIR);
    RepairIsAllowed(config, p);
    PlanLedger(config, s, turn, p, REPAIR);
  }

  lemma ChoosingIff(config: Config, s: State)
    requires s.execution.pending == [] && Saw(s, Failure)
    ensures Choosing(config, ObservedState(s)) <==> !Exhausted(config, s)
  {
  }

  /** After a failure some council that judges by the state can have something executed,
      whatever it is, exactly while the failed capability has retries left. */
  lemma ActsAfterFailureIff(config: Config, s: State)
    requires s.execution.pending == [] && Open(s) && !Waiting(s.workflow.status) && Saw(s, Failure)
    ensures (exists turn :: Informed(config, s, turn) && LedgerOfTurn(config, s, turn).steps != [])
      <==> !Exhausted(config, s)
  {
    if Exhausted(config, s) {
      forall turn | Informed(config, s, turn)
        ensures LedgerOfTurn(config, s, turn).steps == []
      {
        ExhaustedTurnStops(config, s, turn);
      }
    } else {
      ChoosingIff(config, s);
      var turn := RepairIsExecuted(config, s);
    }
  }

  // What it does not stop

  /** The stages whose failures and retries are counted in the executor. */
  const COUNTED: set<string> := STAGE_ORDER - {"prepare", "validation"}

  function RetriesOf(steps: seq<Retry.Step>, capability: string): nat {
    if steps == [] then 0
    else
      (if steps[0].family == "retry_capability" && steps[0].target == capability then 1 else 0)
      + RetriesOf(steps[1..], capability)
  }

  lemma {:induction false} RetriesAdd(first: seq<Retry.Step>, second: seq<Retry.Step>, capability: string)
    ensures RetriesOf(first + second, capability) == RetriesOf(first, capability) + RetriesOf(second, capability)
    decreases |first|
  {
    if first == [] {
      assert first + second == second;
    } else {
      assert (first + second)[1..] == first[1..] + second;
      RetriesAdd(first[1..], second, capability);
    }
  }

  lemma BothAssociates(whole: Ledger, first: Ledger, tail: Ledger, rest: Ledger)
    requires whole == Both(first, Both(tail, rest))
    ensures whole == Both(Both(first, tail), rest)
  {
  }

  lemma WentStep(config: Config, s: State, turns: seq<Turn>, d: State) returns (next: State)
    requires turns != [] && WentOn(config, s, turns) == Some(d)
    ensures Turned(config, s, turns[0]) == Continue(next) && WentOn(config, next, turns[1..]) == Some(d)
  {
    next := Turned(config, s, turns[0]).state;
  }

  lemma LedgerStep(config: Config, s: State, turns: seq<Turn>, next: State)
    requires turns != [] && Turned(config, s, turns[0]) == Continue(next)
    ensures LedgerOfLoop(config, s, turns)
      == Both(LedgerOfTurn(config, Entered(s), turns[0]), LedgerOfLoop(config, next, turns[1..]))
  {
  }

  lemma {:induction false} LedgerGoesOn(config: Config, s: State, turns: seq<Turn>, d: State, rest: seq<Turn>)
    requires WentOn(config, s, turns) == Some(d)
    ensures LedgerOfLoop(config, s, turns + rest)
      == Both(LedgerOfLoop(config, s, turns), LedgerOfLoop(config, d, rest))
    decreases |turns|
  {
    if turns == [] {
      assert turns + rest == rest;
    } else {
      assert (turns + rest)[1..] == turns[1..] + rest;
      var next := WentStep(config, s, turns, d);
      LedgerGoesOn(config, next, turns[1..], d, rest);
      LedgerStep(config, s, turns, next);
      LedgerStep(config, s, turns + rest, next);
      BothAssociates(LedgerOfLoop(config, s, turns + rest), LedgerOfTurn(config, Entered(s), turns[0]),
        LedgerOfLoop(config, next, turns[1..]), LedgerOfLoop(config, d, rest));
    }
  }

  lemma StageEntry(config: Config, s: State, family: string, stage: string, result: Verdict)
    requires Going(s) && Choosing(config, ObservedState(s)) && Runnable(config, s, family, stage, result)
    ensures LedgerOfTurn(config, s, Picking(config, s, StageRequest(family, stage), result)).steps
      == [StageStep(family, stage, result)]
  {
    var r := StageRequest(family, stage);
    var p := ActionSelected(ObservedState(s), PickOf(r), [stage]);
    SelectedStatus(s, PickOf(r), [stage]);
    StageIsPlanned(config, s, family, stage, result);
    StageIsAllowed(config, p, family, stage, result);
    PlanLedger(config, s, Picking(config, s, r, result), p, r);
  }

  lemma OneTurnLedger(config: Config, s: State, turn: Turn, d: State)
    requires s.execution.pending == [] && Proceeded(config, s, turn) == Continue(d)
    ensures LedgerOfLoop(config, s, [turn]).steps == LedgerOfTurn(config, s, turn).steps
  {
    assert [turn][1..] == [];
  }

  lemma CountedStep(family: string, stage: string)
    requires stage in COUNTED && family in {"run_capability", "retry_capability"}
    ensures StageStep(family, stage, Failure) == Retry.Step(family, stage, Retry.ToolRan(false), false)
  {
    StagesAreTrimmed(stage);
  }

  lemma FirstRetryLeaves(books: Retry.Books, stage: string, branch: Retry.Branch)
    requires Retry.Persisted(books) && Retry.CountOf(books.workflow, stage) == 0 && !branch.Uncounted?
    ensures Retry.After(books, Retry.Step("retry_capability", stage, branch, false)).workflow == map[stage := 1]
  {
    var step := Retry.Step("retry_capability", stage, branch, false);
    Retry.SnapshotOfPersisted(books);
    Retry.SnapshotOfPersisted(Retry.NodeCounts(books, step));
  }

  /** A counted failure is the only one remembered. */
  lemma CountedFailure(books: Retry.Books, family: string, stage: string)
    requires Retry.Persisted(books) && stage in COUNTED
    requires family == "run_capability"
      || (family == "retry_capability" && Retry.CountOf(books.workflow, stage) == 0)
    ensures Retry.After(books, StageStep(family, stage, Failure)).workflow == map[stage := 1]
  {
    CountedStep(family, stage);
    if family == "run_capability" {
      Retry.FailedRunResetsCount(books, StageStep(family, stage, Failure));
    } else {
      FirstRetryLeaves(books, stage, Retry.ToolRan(false));
    }
  }

  /** The stage has just failed, and its failure is all that is counted. */
  ghost predicate JustFailed(s: State, stage: string) {
    && Going(s) && stage in COUNTED && s.execution.observation == Some(Observation(stage, Failure))
    && s.workflow.retries == map[stage := 1]
  }

  lemma JustFailedChooses(config: Config, s: State, stage: string)
    requires JustFailed(s, stage) && config.retryBudget >= 2
    ensures Choosing(config, ObservedState(s))
  {
    StagesAreTrimmed(stage);
  }

  lemma RetryFails(config: Config, s: State, last: string, stage: string) returns (turn: Turn, d: State)
    requires JustFailed(s, last) && stage in COUNTED && stage != last && config.retryBudget >= 2
    ensures Leads(config, s, [turn], d) && JustFailed(d, stage)
    ensures LedgerOfLoop(config, s, [turn]).steps == [StageStep("retry_capability", stage, Failure)]
  {
    JustFailedChooses(config, s, last);
    turn := Picking(config, s, StageRequest("retry_capability", stage), Failure);
    d := StageTurn(config, s, "retry_capability", stage, Failure);
    CountedFailure(BooksOf(s), "retry_capability", stage);
    OneTurnLeads(config, s, turn, d);
    StageEntry(config, s, "retry_capability", stage, Failure);
    OneTurnLedger(config, s, turn, d);
  }

  lemma OneRetryMore(steps: seq<Retry.Step>, stage: string, other: string)
    requires stage in COUNTED && stage != other
    ensures var more := [StageStep("retry_capability", stage, Failure)] + steps;
      RetriesOf(more, stage) == RetriesOf(steps, stage) + 1 && RetriesOf(more, other) == RetriesOf(steps, other)
  {
    CountedStep("retry_capability", stage);
    assert ([StageStep("retry_capability", stage, Failure)] + steps)[1..] == steps;
  }

  lemma RetryThen(config: Config, s: State, turn: Turn, d: State, rest: seq<Turn>, stage: string, other: string)
    requires Leads(config, s, [turn], d) && AllInformed(config, d, rest) && stage in COUNTED && stage != other
    requires LedgerOfLoop(config, s, [turn]).steps == [StageStep("retry_capability", stage, Failure)]
    ensures AllInformed(config, s, [turn] + rest)
    ensures var steps, more := LedgerOfLoop(config, d, rest).steps, LedgerOfLoop(config, s, [turn] + rest).steps;
      RetriesOf(more, stage) == RetriesOf(steps, stage) + 1 && RetriesOf(more, other) == RetriesOf(steps, other)
  {
    LeadsOn(config, s, [turn], d, rest);
    LedgerGoesOn(config, s, [turn], d, rest);
    OneRetryMore(LedgerOfLoop(config, d, rest).steps, stage, other);
  }

  /** Failing retries of two capabilities in turn: each makes the other's count disappear. */
  lemma {:induction false} AlternationGoesOn(config: Config, s: State, last: string, stage: string, other: string,
      n: nat)
    returns (turns: seq<Turn>)
    requires JustFailed(s, last) && config.retryBudget >= 2
    requires stage in COUNTED && other in COUNTED && stage != last && stage != other
    ensures AllInformed(config, s, turns)
    ensures RetriesOf(LedgerOfLoop(config, s, turns).steps, stage) == (n + 1) / 2
    ensures RetriesOf(LedgerOfLoop(config, s, turns).steps, other) == n / 2
    decreases n
  {
    if n == 0 {
      return [];
    }
    var turn, d := RetryFails(config, s, last, stage);
    var rest := AlternationGoesOn(config, d, stage, other, stage, n - 1);
    turns := [turn] + rest;
    RetryThen(config, s, turn, d, rest, stage, other);
  }

  lemma FirstFailure(config: Config, s: State, stage: string) returns (turns: seq<Turn>, d: State)
    requires Going(s) && !Saw(s, Failure) && stage in COUNTED
    ensures Leads(config, s, turns, d) && JustFailed(d, stage)
  {
    QuietIsChoosing(config, s);
    var turn := Picking(config, s, StageRequest("run_capability", stage), Failure);
    d := StageTurn(config, s, "run_capability", stage, Failure);
    CountedFailure(BooksOf(s), "run_capability", stage);
    turns := [turn];
    OneTurnLeads(config, s, turn, d);
  }

  lemma LaterRetriesCount(config: Config, s: State, turns: seq<Turn>, d: State, rest: seq<Turn>, capability: string)
    requires Leads(config, s, turns, d)
    ensures RetriesOf(LedgerOfLoop(config, s, turns + rest).steps, capability)
      >= RetriesOf(LedgerOfLoop(config, d, rest).steps, capability)
  {
    LedgerGoesOn(config, s, turns, d, rest);
    RetriesAdd(LedgerOfLoop(config, s, turns).steps, LedgerOfLoop(config, d, rest).steps, capability);
  }

  /** The stages before mobility that count. */
  const MIDDLE: set<string> := {"relax", "scf", "band", "effective_mass", "strain_loop"}

  lemma MiddleStagesCount(stage: string)
    requires stage in MIDDLE
    ensures stage in COUNTED && stage != "mobility"
  {
  }

  lemma EarlyStagesAreStages()
    ensures forall stage :: stage in PIPELINE[..6] ==> stage in STAGE_ORDER
    ensures "mobility" in COUNTED
  {
  }

  lemma PipelineThenFailure(config: Config, s: State) returns (turns: seq<Turn>, d: State)
    requires Going(s) && !Saw(s, Failure)
    ensures Leads(config, s, turns, d) && JustFailed(d, "mobility")
  {
    EarlyStagesAreStages();
    var before, ran := StagesRun(config, s, PIPELINE[..6]);
    var failure;
    failure, d := FirstFailure(config, ran, "mobility");
    turns := before + failure;
    LeadsOn(config, s, before, ran, failure);
  }

  /** The stages before mobility are run, mobility fails, and two of them are retried in turn. */
  lemma RetriesAlternate(config: Config, s: State, stage: string, other: string, n: nat)
    returns (turns: seq<Turn>)
    requires Going(s) && !Saw(s, Failure) && config.retryBudget >= 2
    requires stage in MIDDLE && other in MIDDLE && stage != other
    ensures AllInformed(config, s, turns)
    ensures RetriesOf(LedgerOfCalls(s, [Call(config, false, None, turns)]).steps, stage) >= n
    ensures RetriesOf(LedgerOfCalls(s, [Call(config, false, None, turns)]).steps, other) >= n
  {
    MiddleStagesCount(stage);
    MiddleStagesCount(other);
    var before, failed := PipelineThenFailure(config, s);
    var retries := AlternationGoesOn(config, failed, "mobility", stage, other, 2 * n);
    turns := before + retries;
    LeadsOn(config, s, before, failed, retries);
    LaterRetriesCount(config, s, before, failed, retries, stage);
    LaterRetriesCount(config, s, before, failed, retries, other);
    OneCallLedger(s, config, turns);
  }

  /** Only the last counted capability is remembered, so with a budget of two or more any
      number of failing retries of one capability fits into the first call of a run, by councils
      that judge by the state and retry after a failure only. */
  lemma AlternationIsUnbounded(config: Config, stage: string, other: string, n: nat) returns (turns: seq<Turn>)
    requires config.retryBudget >= 2 && stage in MIDDLE && other in MIDDLE && stage != other
    ensures AllInformed(config, INITIAL, turns)
    ensures var steps := LedgerOfCalls(INITIAL, [Call(config, false, None, turns)]).steps;
      RetriesOf(steps, stage) >= n && RetriesOf(steps, other) >= n
  {
    FreshRunIsGoing();
    turns := RetriesAlternate(config, INITIAL, stage, other, n);
  }

  lemma OneCallLedger(s: State, config: Config, turns: seq<Turn>)
    ensures LedgerOfCalls(s, [Call(config, false, None, turns)]) == LedgerOfLoop(config, s, turns)
  {
    var call := Call(config, false, None, turns);
    assert [call][1..] == [];
    NothingMore(LedgerOfLoop(config, s, turns));
  }
}
