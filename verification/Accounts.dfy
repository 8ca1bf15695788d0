/** Retry counts, refinement rounds and the strain plan over the turns and calls of drive
    (mobility_agent/runtime/agentic_controller.py:1880-1893, 2309-2393;
    mobility_agent/graph/runtime_nodes.py:1412-1464, 1713-1714, 1806-1808;
    mobility_agent/runtime/agent_tools.py:903-913). */
module Accounts {
  import opened Runtime
  import opened Runs
  import opened Sessions
  import A = Arbitration
  import Retry = RetryAccounting
  import Sampling = Refinement

  // The ledger

  /** What was executed legally, in order: the steps that matter to the retry counts, and the
      refinements that applied points. */
  datatype Ledger = Ledger(steps: seq<Retry.Step>, applied: seq<Sampling.Application>)

  const NOTHING := Ledger([], [])

  function Both(first: Ledger, second: Ledger): Ledger {
    Ledger(first.steps + second.steps, first.applied + second.applied)
  }

  /** Each retry was within the budget when it was executed. */
  ghost predicate InBudget(s: State, done: Ledger, budget: nat) {
    Retry.WithinBudget(BooksOf(s), done.steps, budget)
  }

  /** So were the refinements, in the limit of rounds. */
  ghost predicate InRounds(s: State, done: Ledger, maxRounds: nat) {
    done.applied != [] ==> s.workflow.rounds + |done.applied| <= maxRounds
  }

  ghost predicate Allows(config: Config, s: State, done: Ledger) {
    InBudget(s, done, config.retryBudget) && InRounds(s, done, config.maxRounds)
  }

  /** The accounts of the later state are those of the earlier one after what was done. */
  ghost predicate Balances(s: State, r: State, done: Ledger) {
    && BooksOf(r) == Retry.AfterAll(BooksOf(s), done.steps)
    && r.plan == Sampling.ExtendedAll(s.plan, done.applied)
    && r.workflow.rounds == s.workflow.rounds + |done.applied|
  }

  lemma {:induction false} AfterConcat(b: Retry.Books, first: seq<Retry.Step>, second: seq<Retry.Step>, budget: nat)
    ensures Retry.AfterAll(b, first + second) == Retry.AfterAll(Retry.AfterAll(b, first), second)
    ensures Retry.WithinBudget(b, first + second, budget)
      <==> Retry.WithinBudget(b, first, budget) && Retry.WithinBudget(Retry.AfterAll(b, first), second, budget)
    decreases |first|
  {
    if first == [] {
      assert first + second == second;
    } else {
      assert (first + second)[1..] == first[1..] + second;
      AfterConcat(Retry.After(b, first[0]), first[1..], second, budget);
    }
  }

  lemma BalancesAlong(s: State, n: State, first: Ledger, second: Ledger, budget: nat, maxRounds: nat)
    requires Balances(s, n, first)
    ensures InBudget(s, first, budget) && InBudget(n, second, budget) ==> InBudget(s, Both(first, second), budget)
    ensures InRounds(s, first, maxRounds) && InRounds(n, second, maxRounds) ==>
      InRounds(s, Both(first, second), maxRounds)
    ensures forall r :: Balances(n, r, second) ==> Balances(s, r, Both(first, second))
  {
    AfterConcat(BooksOf(s), first.steps, second.steps, budget);
    Sampling.ExtendedConcat(s.plan, first.applied, second.applied);
  }

  lemma NothingChanges(config: Config, s: State, r: State)
    requires SameAccounts(s, r)
    ensures Allows(config, s, NOTHING) && Balances(s, r, NOTHING)
  {
  }

  lemma BalancesAlike(config: Config, s: State, p: State, d: State, e: State, done: Ledger)
    requires SameAccounts(s, p) && SameAccounts(d, e)
    requires Allows(config, p, done) && Balances(p, d, done)
    ensures Allows(config, s, done) && Balances(s, e, done)
  {
  }

  // What leaves the accounts alone

  lemma EntrySameAccounts(s: State)
    ensures SameAccounts(s, Entered(s))
  {
  }

  lemma WaitSameAccounts(config: Config, s: State)
    ensures SameAccounts(s, AtWait(config, s).state)
  {
  }

  lemma FinishSameAccounts(s: State)
    ensures SameAccounts(s, Finalized(s))
  {
  }

  // What an action does to them

  function ApplicationOf(tooling: Tooling): Sampling.Application {
    Sampling.Application(tooling.points.at, if tooling.channels == [] then tooling.points.keys else tooling.channels)
  }

  /** What a legally executed action enters into the ledger. */
  function EntryOf(r: A.Request, tooling: Tooling): Ledger {
    Ledger([StepOf(r, tooling)],
      if r.family == "refine_sampling" && tooling.points.keys != [] then [ApplicationOf(tooling)] else [])
  }

  function LedgerOfAction(config: Config, s: State, r: A.Request, tooling: Tooling): Ledger {
    if r.family != "escalate_human" && Allowed(config, s, r, tooling.otherwiseLegal) then EntryOf(r, tooling)
    else NOTHING
  }

  lemma OneStep(b: Retry.Books, step: Retry.Step, budget: nat)
    ensures Retry.AfterAll(b, [step]) == Retry.After(b, step)
    ensures Retry.WithinBudget(b, [step], budget)
      <==> (step.family == "retry_capability" ==> Retry.CountOf(b.workflow, step.target) < budget)
  {
    var none: seq<Retry.Step> := [];
    assert [step][1..] == none;
  }

  lemma OneApplication(plan: Sampling.Plan, a: Sampling.Application)
    ensures Sampling.ExtendedAll(plan, [a]) == Sampling.Extended(plan, a.applied, a.channels)
  {
    assert [a][1..] == [];
  }

  lemma PerformanceSamples(config: Config, s: State, r: A.Request, tooling: Tooling)
    requires Performed(config, s, r, tooling).Some?
    ensures var d, applied := Performed(config, s, r, tooling).value, EntryOf(r, tooling).applied;
      && d.workflow.retries == s.workflow.retries && d.workflow.rounds == s.workflow.rounds + |applied|
      && d.plan == Sampling.ExtendedAll(s.plan, applied)
  {
    OneApplication(s.plan, ApplicationOf(tooling));
  }

  lemma ExecutionBalances(config: Config, s: State, r: A.Request, tooling: Tooling)
    requires r.family != "escalate_human" && ExecutedAndCounted(config, s, r, tooling).Some?
    ensures Balances(s, ExecutedAndCounted(config, s, r, tooling).value, LedgerOfAction(config, s, r, tooling))
  {
    if Allowed(config, s, r, tooling.otherwiseLegal) {
      PerformanceSamples(config, s, r, tooling);
      OneStep(BooksOf(s), StepOf(r, tooling), 0);
    }
  }

  lemma ActionBalances(config: Config, s: State, a: A.Action, turn: Turn)
    requires Acted(config, s, a, turn).Some?
    ensures Balances(s, Acted(config, s, a, turn).value, LedgerOfAction(config, s, a.request, turn.tooling))
  {
    if a.request.family != "escalate_human" {
      ExecutionBalances(config, s, a.request, turn.tooling);
    }
  }

  lemma ActionIsAllowed(config: Config, s: State, r: A.Request, tooling: Tooling)
    ensures Allows(config, s, LedgerOfAction(config, s, r, tooling))
  {
    OneStep(BooksOf(s), StepOf(r, tooling), config.retryBudget);
  }

  // Turns

  function LedgerOfTurn(config: Config, s: State, turn: Turn): Ledger {
    if Terminal(s.workflow.status) || AtBoundary(s) then NOTHING
    else match Planned(s, turn)
      case None => NOTHING
      case Some(p) => LedgerOfPlan(config, p, turn)
  }

  function LedgerOfPlan(config: Config, p: State, turn: Turn): Ledger {
    if p.execution.current.None? then NOTHING
    else LedgerOfAction(config, p, p.execution.current.value.request, turn.tooling)
  }

  ghost predicate FlowBalances(config: Config, s: State, flow: Flow, done: Ledger) {
    Allows(config, s, done) && (flow.Raise? || Balances(s, flow.state, done))
  }

  lemma CarryingBalances(config: Config, p: State, turn: Turn)
    ensures FlowBalances(config, p, Carried(config, p, turn), LedgerOfPlan(config, p, turn))
  {
    WaitSameAccounts(config, p);
    if p.execution.current.Some? {
      var a := p.execution.current.value;
      ActionIsAllowed(config, p, a.request, turn.tooling);
      if Acted(config, p, a, turn).Some? {
        var d := Acted(config, p, a, turn).value;
        ActionBalances(config, p, a, turn);
        WaitSameAccounts(config, d);
        BalancesAlike(config, p, p, d, AfterAction(config, d).state, LedgerOfPlan(config, p, turn));
      }
    }
  }

  lemma TurnBalances(config: Config, s: State, turn: Turn)
    requires s.execution.pending == []
    ensures FlowBalances(config, s, Proceeded(config, s, turn), LedgerOfTurn(config, s, turn))
  {
    WaitSameAccounts(config, s);
    if Planned(s, turn).Some? {
      CarryingBalances(config, Planned(s, turn).value, turn);
    }
  }

  // Loops and calls

  function LedgerOfLoop(config: Config, s: State, turns: seq<Turn>): Ledger
    decreases |turns|
  {
    if turns == [] then NOTHING
    else
      Both(LedgerOfTurn(config, Entered(s), turns[0]),
        match Turned(config, s, turns[0]) { case Continue(n) => LedgerOfLoop(config, n, turns[1..]) case _ => NOTHING })
  }

  function LedgerOfCall(s: State, call: Call): Ledger {
    if Refused(Started(s, call), call.event) then NOTHING
    else LedgerOfLoop(call.config, LoopStart(s, call), call.turns)
  }

  function LedgerOfCalls(s: State, calls: seq<Call>): Ledger
    decreases |calls|
  {
    if calls == [] then NOTHING
    else
      Both(LedgerOfCall(s, calls[0]),
        match Driven(s, calls[0]) { case Returned(n) => LedgerOfCalls(n, calls[1..]) case _ => NOTHING })
  }

  ghost predicate EndBalances(config: Config, s: State, end: End, done: Ledger) {
    Allows(config, s, done) && (end.Returned? ==> Balances(s, end.state, done))
  }

  lemma NothingMore(done: Ledger)
    ensures Both(done, NOTHING) == done
  {
  }

  lemma LastTurnBalances(config: Config, s: State, flow: Flow, done: Ledger)
    requires FlowBalances(config, s, flow, done) && !flow.Continue?
    ensures EndBalances(config, s, if flow.Break? then Returned(Finalized(flow.state)) else Raised, Both(done, NOTHING))
  {
    NothingMore(done);
    if flow.Break? {
      FinishSameAccounts(flow.state);
      BalancesAlike(config, s, s, flow.state, Finalized(flow.state), done);
    }
  }

  lemma EntryBalances(config: Config, s: State, end: End, done: Ledger)
    requires EndBalances(config, Entered(s), end, done)
    ensures EndBalances(config, s, end, done)
  {
    EntrySameAccounts(s);
  }

  /** Whatever a loop returns, its accounts are those at the start after what was legally
      executed, and each execution was within budget and rounds. */
  lemma {:induction false} LoopKeepsBooks(config: Config, s: State, turns: seq<Turn>)
    requires |s.execution.pending| <= 1
    ensures EndBalances(config, s, Looped(config, s, turns), LedgerOfLoop(config, s, turns))
    decreases |turns|
  {
    if turns == [] {
      NothingChanges(config, s, s);
    } else {
      var entered, flow := Entered(s), Turned(config, s, turns[0]);
      var done := LedgerOfTurn(config, entered, turns[0]);
      EntryEmptiesQueue(s);
      TurnBalances(config, entered, turns[0]);
      TurnStandsAside(config, s, turns[0]);
      if flow.Continue? {
        LoopKeepsBooks(config, flow.state, turns[1..]);
        BalancesAlong(entered, flow.state, done, LedgerOfLoop(config, flow.state, turns[1..]),
          config.retryBudget, config.maxRounds);
      } else {
        LastTurnBalances(config, entered, flow, done);
      }
      EntryBalances(config, s, Looped(config, s, turns), LedgerOfLoop(config, s, turns));
    }
  }

  lemma CallKeepsBooks(s: State, call: Call)
    requires s.execution.pending == [] && !call.anew
    ensures EndBalances(call.config, s, Driven(s, call), LedgerOfCall(s, call))
  {
    if Refused(s, call.event) {
      NothingChanges(call.config, s, s);
    } else {
      LoopKeepsBooks(call.config, LoopStart(s, call), call.turns);
    }
  }

  /** The calls go on with one run. */
  ghost predicate Resumes(calls: seq<Call>) {
    forall call :: call in calls ==> !call.anew
  }

  ghost predicate OneBudget(calls: seq<Call>, budget: nat) {
    forall call :: call in calls ==> call.config.retryBudget == budget
  }

  ghost predicate OneLimit(calls: seq<Call>, maxRounds: nat) {
    forall call :: call in calls ==> call.config.maxRounds == maxRounds
  }

  lemma {:induction false} CallsKeepBooks(s: State, calls: seq<Call>, budget: nat, maxRounds: nat)
    requires s.execution.pending == [] && Resumes(calls)
    ensures OneBudget(calls, budget) ==> InBudget(s, LedgerOfCalls(s, calls), budget)
    ensures OneLimit(calls, maxRounds) ==> InRounds(s, LedgerOfCalls(s, calls), maxRounds)
    ensures Played(s, calls).Some? ==> Balances(s, Played(s, calls).value, LedgerOfCalls(s, calls))
    decreases |calls|
  {
    if calls != [] {
      var call := calls[0];
      CallKeepsBooks(s, call);
      if Driven(s, call).Returned? {
        var next := Driven(s, call).state;
        CallConsumes(s, call);
        CallsKeepBooks(next, calls[1..], budget, maxRounds);
        BalancesAlong(s, next, LedgerOfCall(s, call), LedgerOfCalls(next, calls[1..]), budget, maxRounds);
      } else {
        NothingMore(LedgerOfCall(s, call));
      }
    }
  }

  /** In any calls of drive whose counted executions are all retries and reruns of one
      capability, the legal retries executed are bounded by the budget left at the start. */
  lemma RetriesStayInBudget(s: State, calls: seq<Call>, capability: string, budget: nat)
    requires s.execution.pending == [] && capability != "" && Resumes(calls) && OneBudget(calls, budget)
    ensures var steps := LedgerOfCalls(s, calls).steps;
      var before := Retry.CountOf(s.workflow.retries, capability);
      var retries := Retry.CountFamilies(steps, {"retry_capability"});
      Retry.Stretch(steps, capability) ==>
        && (retries > 0 ==> before + retries <= budget)
        && (Played(s, calls).Some? ==>
              Retry.CountOf(Played(s, calls).value.workflow.retries, capability)
              == before + Retry.CountFamilies(steps, Retry.RETRY_FAMILIES))
  {
    var steps := LedgerOfCalls(s, calls).steps;
    CallsKeepBooks(s, calls, budget, 0);
    if Retry.Stretch(steps, capability) {
      Retry.StretchIsBounded(BooksOf(s), steps, capability, budget);
      Retry.StretchCounts(BooksOf(s), steps, capability);
    }
  }

  /** Over any calls of drive under one limit the rounds count the refinements that applied
      points, which fit the rounds left at the start; the plan is the earlier one with exactly
      these merged in; and every direction keeps its earlier points: as they were, or in a
      strictly increasing list with each of them rounded. */
  lemma CallsKeepPoints(s: State, calls: seq<Call>, maxRounds: nat, channel: string)
    requires s.execution.pending == [] && Resumes(calls) && OneLimit(calls, maxRounds)
    ensures var applied := LedgerOfCalls(s, calls).applied;
      && (applied != [] ==> s.workflow.rounds + |applied| <= maxRounds)
      && (Played(s, calls).Some? ==>
            var r := Played(s, calls).value;
            && r.workflow.rounds == s.workflow.rounds + |applied|
            && r.plan == Sampling.ExtendedAll(s.plan, applied)
            && Sampling.KeepsPoints(Sampling.At(s.plan, channel), Sampling.At(r.plan, channel)))
  {
    CallsKeepBooks(s, calls, 0, maxRounds);
    Sampling.AllKeepPoints(s.plan, LedgerOfCalls(s, calls).applied, channel);
  }
}
