/** Turns from which concrete runs are built: a council that judges by the state of the run
    proposes one action, and the action is executed
    (mobility_agent/runtime/agentic_controller.py:2309-2393;
    mobility_agent/graph/runtime_nodes.py:1340-1850). */
module Scenarios {
  import opened Channels
  import opened Runtime
  import opened Runs
  import opened Progress
  import A = Arbitration
  import Retry = RetryAccounting
  import Sampling = Refinement

  // One proposal

  const QUIET := View(false, false, false)

  /** A council with one proposal, which it finds legal and settles on. */
  function Proposing(render: Rendering, standing: A.Standing, r: A.Request): Council {
    Council(A.Desk(render, q => q == r, standing), [A.Proposal("p", r, 0.0, 0.0)], [], [],
      A.Reply("p", None, false, false, false))
  }

  function Picks(render: Rendering, standing: A.Standing, r: A.Request, result: Verdict): Turn {
    Turn(QUIET, Proposing(render, standing, r), false, map[], NotComputed, [Text(r.target)],
      Tooling(true, Sampling.Points([], map[]), [], result, false, "job"), Human("", false, ""), QUIET)
  }

  function PickOf(r: A.Request): A.Action {
    A.Action(r, Some("p"), "")
  }

  lemma ProposalIsSelected(render: Rendering, standing: A.Standing, r: A.Request)
    requires A.CanonicalRequest(render, r) == Some(r) && !A.BudgetExhausted(standing)
    ensures var c := Proposing(render, standing, r);
      A.Arbitrated(c.desk, c.proposals, c.critiques, c.preferences, c.reply)
      == A.Recorded(A.Record("p", Some(PickOf(r)), false, r.wait, false))
  {
    var desk, p := Proposing(render, standing, r).desk, A.Proposal("p", r, 0.0, 0.0);
    var reply := A.Reply("p", None, false, false, false);
    var ps, none := [p], [];
    assert ps[1..] == none && A.CanonicalProposals(render, none) == Some(none);
    assert p.(request := r) == p && [p] + none == ps;
    assert A.CanonicalProposals(render, ps) == Some(ps);
    assert A.Viable(desk.legal, none) == none;
    assert A.Viable(desk.legal, ps) == ps;
    assert A.Guard(desk, ps, [], []) == A.Open(ps, "p");
    StripTrims("p");
    assert p in ps && A.SettledId(false, reply, A.Ids(ps), "p") == Some("p");
    A.ActionIsChecked(render, r, p);
    assert A.FirstWithId(ps, "p") == p;
  }

  /** What the guardrail reads of a state. */
  function StandingOf(config: Config, s: State): A.Standing {
    var failing := Strip(ObservedTarget(s));
    A.Standing(failing, Saw(s, Failure), Retry.CountOf(s.workflow.retries, failing), config.retryBudget,
      s.workflow.status.WaitingExternal?, false)
  }

  /** The turn in which a council that judges by this state picks the action. */
  function Picking(config: Config, s: State, r: A.Request, result: Verdict): Turn {
    Picks(config.render, StandingOf(config, ObservedState(s)), r, result)
  }

  lemma PickingIsInformed(config: Config, s: State, r: A.Request, result: Verdict)
    requires Allowed(config, ObservedState(s), r, true)
    requires r.family == "retry_capability" ==> Saw(ObservedState(s), Failure)
    ensures Informed(config, s, Picking(config, s, r, result))
  {
  }

  lemma ProposalIsPlanned(s: State, turn: Turn, render: Rendering, standing: A.Standing, r: A.Request)
    requires A.CanonicalRequest(render, r) == Some(r) && !A.BudgetExhausted(standing)
    requires turn.council == Proposing(render, standing, r) && DeliberationReason(s, turn.before).Some?
    ensures Planned(s, turn) == Some(ActionSelected(ObservedState(s), PickOf(r), turn.planned))
  {
    ProposalIsSelected(render, standing, r);
  }

  // Running a stage

  function StageRequest(family: string, stage: string): A.Request {
    A.Request(family, Some(stage), map[], false, false)
  }

  /** The run has no jobs and no event waiting, is not asked to end, and its next turn
      deliberates. */
  ghost predicate Going(s: State) {
    && s.execution.pending == [] && s.execution.jobs == [] && !s.services.terminationRequested
    && (s.workflow.status.Pending? || s.workflow.status.Running? || s.workflow.status.NeedsRecovery?)
    && Calls(s)
  }

  lemma FreshRunIsGoing()
    ensures Going(INITIAL) && !Saw(INITIAL, Failure)
  {
  }

  /** The guardrail lets the council choose. */
  ghost predicate Choosing(config: Config, s: State) {
    !A.BudgetExhausted(StandingOf(config, s))
  }

  predicate Runnable(config: Config, s: State, family: string, stage: string, result: Verdict) {
    && stage in STAGE_ORDER && (stage == "validation" ==> result.Success?) && (result.Success? || result.Failure?)
    && (family == "run_capability"
        || (family == "retry_capability" && Saw(s, Failure)
            && Retry.CountOf(s.workflow.retries, stage) < config.retryBudget))
  }

  lemma StageIsAllowed(config: Config, s: State, family: string, stage: string, result: Verdict)
    requires s.execution.jobs == [] && !Terminal(s.workflow.status) && !s.workflow.status.WaitingExternal?
    requires Runnable(config, s, family, stage, result)
    ensures Allowed(config, s, StageRequest(family, stage), true)
  {
  }

  lemma StageExecutes(config: Config, s: State, family: string, stage: string, tooling: Tooling)
    requires Runnable(config, s, family, stage, tooling.result)
    requires Allowed(config, s, StageRequest(family, stage), tooling.otherwiseLegal)
    ensures Executed(config, s, StageRequest(family, stage), tooling) == Some(ToolRun(s, stage, tooling.result))
  {
  }

  lemma StageIsPlanned(config: Config, s: State, family: string, stage: string, result: Verdict)
    requires Going(s) && Choosing(config, ObservedState(s)) && Runnable(config, s, family, stage, result)
    ensures var r := StageRequest(family, stage);
      var turn := Picking(config, s, r, result);
      && Informed(config, s, turn)
      && Planned(s, turn) == Some(ActionSelected(ObservedState(s), PickOf(r), [stage]))
  {
    var r := StageRequest(family, stage);
    var turn := Picking(config, s, r, result);
    CallsDeliberates(s);
    StageIsAllowed(config, ObservedState(s), family, stage, result);
    PickingIsInformed(config, s, r, result);
    ProposalIsPlanned(s, turn, config.render, StandingOf(config, ObservedState(s)), r);
  }

  /** The state a stage's turn leaves, before its checkpoint. */
  function StageRan(s: State, family: string, stage: string, turn: Turn): State {
    var p := ActionSelected(ObservedState(s), PickOf(StageRequest(family, stage)), [stage]);
    Accounted(ToolRun(p, stage, turn.tooling.result), p, StepOf(StageRequest(family, stage), turn.tooling))
  }

  lemma StagesAreTrimmed(stage: string)
    requires stage in STAGE_ORDER
    ensures Strip(stage) == stage && stage != ""
  {
    StripTrims(stage);
  }

  /** A contract of one stage is fulfilled once the stage is completed. */
  lemma OwnContractIsDone(completed: seq<string>, stage: string)
    requires stage in STAGE_ORDER
    ensures NextAfter(AddOnce(completed, stage), [stage]).None?
  {
    StagesAreTrimmed(stage);
    var done := AddOnce(completed, stage);
    assert stage in done;
    var i :| 0 <= i < |done| && done[i] == stage;
    assert [stage][1..] == [];
  }

  lemma RanDeliberates(s: State, family: string, stage: string, turn: Turn)
    requires Going(s) && stage in STAGE_ORDER && (turn.tooling.result.Success? || turn.tooling.result.Failure?)
    ensures DeliberationReason(StageRan(s, family, stage, turn), QUIET).Some?
  {
    OwnContractIsDone(s.workflow.completed, stage);
  }

  /** What the turn of a stage does. */
  ghost predicate StageLeaves(s: State, d: State, family: string, stage: string, result: Verdict) {
    && Aside(s, d) && d.execution.jobs == s.execution.jobs
    && d.execution.observation == Some(Observation(stage, result))
    && d.workflow.completed == (if result.Success? then AddOnce(s.workflow.completed, stage) else s.workflow.completed)
    && d.workflow.retries == Retry.After(BooksOf(s), StageStep(family, stage, result)).workflow
    && d.workflow.status == (if result.Success? then Running else NeedsRecovery)
    && d.services == Services(s.services.terminationRequested, Some([stage]))
  }

  function StageStep(family: string, stage: string, result: Verdict): Retry.Step {
    StepOf(StageRequest(family, stage), Tooling(true, Sampling.Points([], map[]), [], result, false, "job"))
  }

  lemma StageActs(config: Config, s: State, family: string, stage: string, result: Verdict) returns (d: State)
    requires Going(s) && Runnable(config, s, family, stage, result)
    ensures var turn := Picking(config, s, StageRequest(family, stage), result);
      var p := ActionSelected(ObservedState(s), PickOf(StageRequest(family, stage)), [stage]);
      && d == Checked(StageRan(s, family, stage, turn), DeliberationReason(StageRan(s, family, stage, turn), QUIET))
      && Acted(config, p, PickOf(StageRequest(family, stage)), turn) == Some(d)
  {
    var turn := Picking(config, s, StageRequest(family, stage), result);
    var p := ActionSelected(ObservedState(s), PickOf(StageRequest(family, stage)), [stage]);
    StageIsAllowed(config, p, family, stage, result);
    StageExecutes(config, p, family, stage, turn.tooling);
    d := Checked(StageRan(s, family, stage, turn), DeliberationReason(StageRan(s, family, stage, turn), QUIET));
  }

  lemma ToolLeaves(p: State, step: Retry.Step, stage: string, result: Verdict)
    requires stage in STAGE_ORDER
    ensures var d := Accounted(ToolRun(p, stage, result), p, step);
      && Aside(p, d) && d.execution.observation == Some(Observation(stage, result))
      && d.execution.jobs == p.execution.jobs && d.services == p.services
      && d.workflow.completed
        == (if result.Success? then AddOnce(p.workflow.completed, stage) else p.workflow.completed)
      && d.workflow.retries == Retry.After(BooksOf(p), step).workflow
      && d.workflow.status == (if result.Success? then Running else NeedsRecovery)
  {
    StageIsNotReport(p, stage, result.Success?);
  }

  lemma SelectionLeaves(s: State, a: A.Action, planned: seq<string>)
    requires Going(s)
    ensures var p := ActionSelected(ObservedState(s), a, planned);
      && Aside(s, p) && p.execution.jobs == s.execution.jobs && BooksOf(p) == BooksOf(s)
      && p.workflow.completed == s.workflow.completed
      && p.services == Services(s.services.terminationRequested, Some(planned))
  {
  }

  lemma RanKeeps(config: Config, s: State, family: string, stage: string, result: Verdict)
    requires Going(s) && stage in STAGE_ORDER
    ensures StageLeaves(s, StageRan(s, family, stage, Picking(config, s, StageRequest(family, stage), result)),
              family, stage, result)
  {
    var a := PickOf(StageRequest(family, stage));
    SelectionLeaves(s, a, [stage]);
    ToolLeaves(ActionSelected(ObservedState(s), a, [stage]), StageStep(family, stage, result), stage, result);
  }

  lemma CheckLeaves(s: State, ran: State, reason: Option<Reason>, family: string, stage: string, result: Verdict)
    requires StageLeaves(s, ran, family, stage, result)
    ensures StageLeaves(s, Checked(ran, reason), family, stage, result)
  {
  }

  lemma LeftGoing(s: State, d: State, family: string, stage: string, result: Verdict)
    requires StageLeaves(s, d, family, stage, result) && Going(s) && d.execution.checkpoint.reason.Some?
    ensures Going(d) && forall config :: AfterAction(config, d) == Continue(d)
  {
  }

  lemma RanLeaves(config: Config, s: State, family: string, stage: string, result: Verdict, d: State)
    requires Going(s) && Runnable(config, s, family, stage, result)
    requires var ran := StageRan(s, family, stage, Picking(config, s, StageRequest(family, stage), result));
      d == Checked(ran, DeliberationReason(ran, QUIET))
    ensures StageLeaves(s, d, family, stage, result) && Going(d) && AfterAction(config, d) == Continue(d)
  {
    var turn := Picking(config, s, StageRequest(family, stage), result);
    var ran := StageRan(s, family, stage, turn);
    RanKeeps(config, s, family, stage, result);
    CheckLeaves(s, ran, DeliberationReason(ran, QUIET), family, stage, result);
    RanDeliberates(s, family, stage, turn);
    LeftGoing(s, d, family, stage, result);
  }

  lemma PickedActionGoesOn(config: Config, s: State, turn: Turn, p: State, a: A.Action, d: State)
    requires !Terminal(s.workflow.status) && !AtBoundary(s) && Planned(s, turn) == Some(p)
    requires p.execution.current == Some(a) && Acted(config, p, a, turn) == Some(d)
    requires AfterAction(config, d) == Continue(d)
    ensures Proceeded(config, s, turn) == Continue(d)
  {
  }

  /** A council that judges by the state picks a stage; the run goes on with its result. */
  lemma StageTurn(config: Config, s: State, family: string, stage: string, result: Verdict) returns (d: State)
    requires Going(s) && Choosing(config, ObservedState(s)) && Runnable(config, s, family, stage, result)
    ensures var turn := Picking(config, s, StageRequest(family, stage), result);
      && Informed(config, s, turn) && Proceeded(config, s, turn) == Continue(d)
      && StageLeaves(s, d, family, stage, result) && Going(d)
  {
    var a := PickOf(StageRequest(family, stage));
    StageIsPlanned(config, s, family, stage, result);
    d := StageActs(config, s, family, stage, result);
    RanLeaves(config, s, family, stage, result, d);
    var p := ActionSelected(ObservedState(s), a, [stage]);
    PickedActionGoesOn(config, s, Picking(config, s, a.request, result), p, a, d);
  }

  // A repair without a target

  const REPAIR: A.Request := A.Request("repair_execution_context", None, map[], false, false)

  lemma RepairIsAllowed(config: Config, s: State)
    requires !Terminal(s.workflow.status) && !s.workflow.status.WaitingExternal?
    ensures Allowed(config, s, REPAIR, true)
  {
  }

  lemma RepairExecutes(config: Config, s: State, tooling: Tooling)
    requires !Terminal(s.workflow.status) && !s.workflow.status.WaitingExternal? && tooling.otherwiseLegal
    ensures Executed(config, s, REPAIR, tooling) == Some(WithObservation(WithStatus(s, NeedsRecovery), "", Failure))
    ensures Retry.After(BooksOf(s), StepOf(REPAIR, tooling)) == BooksOf(s)
  {
    RepairIsAllowed(config, s);
  }

  /** What a repair without a target leaves: nothing but a run that needs recovery. */
  ghost predicate Repaired(s: State, d: State) {
    && Aside(s, d) && d.workflow.status.NeedsRecovery? && d.workflow.retries == s.workflow.retries
    && d.services.terminationRequested == s.services.terminationRequested
  }

  lemma RepairActs(config: Config, s: State, turn: Turn) returns (d: State)
    requires !Terminal(s.workflow.status) && !s.workflow.status.WaitingExternal? && turn.tooling.otherwiseLegal
    ensures Acted(config, s, PickOf(REPAIR), turn) == Some(d) && Repaired(s, d)
  {
    RepairExecutes(config, s, turn.tooling);
    RepairIsAllowed(config, s);
    d := Acted(config, s, PickOf(REPAIR), turn).value;
  }

  lemma PickedActionStops(config: Config, s: State, turn: Turn, p: State, a: A.Action, last: State)
    requires !Terminal(s.workflow.status) && !AtBoundary(s) && Planned(s, turn) == Some(p)
    requires p.execution.current == Some(a) && Acted(config, p, a, turn) == Some(last) && TerminalOrFinalizable(last)
    ensures Proceeded(config, s, turn) == Break(last)
  {
  }

  lemma ObservedStays(s: State, a: A.Action, planned: seq<string>)
    requires s.execution.pending == [] && !Waiting(s.workflow.status) && !Terminal(s.workflow.status)
    ensures var p := ActionSelected(ObservedState(s), a, planned);
      && Aside(s, p) && p.workflow.retries == s.workflow.retries && p.execution.current == Some(a)
      && p.services.terminationRequested == s.services.terminationRequested
      && !Terminal(p.workflow.status) && !Waiting(p.workflow.status)
  {
  }

  /** In a run asked to end it stops the loop. */
  lemma RepairStops(config: Config, s: State, standing: A.Standing, turn: Turn) returns (last: State)
    requires s.execution.pending == [] && !Waiting(s.workflow.status) && !Terminal(s.workflow.status)
    requires s.services.terminationRequested && DeliberationReason(s, turn.before).Some?
    requires turn.council == Proposing(config.render, standing, REPAIR) && !A.BudgetExhausted(standing)
    requires turn.tooling.otherwiseLegal
    ensures Proceeded(config, s, turn) == Break(last) && Repaired(s, last)
  {
    var p := ActionSelected(ObservedState(s), PickOf(REPAIR), turn.planned);
    ObservedStays(s, PickOf(REPAIR), turn.planned);
    ProposalIsPlanned(s, turn, config.render, standing, REPAIR);
    last := RepairActs(config, p, turn);
    PickedActionStops(config, s, turn, p, PickOf(REPAIR), last);
  }

  // Finalizing

  const FINALIZE: A.Request := A.Request("finalize_material", None, map[], false, false)

  lemma FinalizeIsAllowed(config: Config, s: State)
    requires !Terminal(s.workflow.status) && !s.workflow.status.WaitingExternal?
    ensures Allowed(config, s, FINALIZE, true)
  {
  }

  lemma FinalizeExecutes(config: Config, s: State, tooling: Tooling)
    requires !Terminal(s.workflow.status) && !s.workflow.status.WaitingExternal? && tooling.otherwiseLegal
    ensures Executed(config, s, FINALIZE, tooling) == Some(WithObservation(Terminated(s, ReadyToFinalize), "", Success))
    ensures Retry.After(BooksOf(s), StepOf(FINALIZE, tooling)) == BooksOf(s)
  {
    FinalizeIsAllowed(config, s);
  }

  /** The run is ready to be finalized. */
  ghost predicate Finalizing(s: State, d: State) {
    && Aside(s, d) && d.workflow.status.ReadyToFinalize? && d.workflow.retries == s.workflow.retries
    && d.services.terminationRequested && d.workflow.completed == s.workflow.completed
  }

  lemma FinalizeActs(config: Config, s: State, turn: Turn) returns (d: State)
    requires !Terminal(s.workflow.status) && !s.workflow.status.WaitingExternal? && turn.tooling.otherwiseLegal
    ensures Acted(config, s, PickOf(FINALIZE), turn) == Some(d) && Finalizing(s, d)
  {
    FinalizeExecutes(config, s, turn.tooling);
    FinalizeIsAllowed(config, s);
    d := Acted(config, s, PickOf(FINALIZE), turn).value;
  }

  /** A council that judges by the state finalizes a run that has not just failed. */
  lemma FinalizeStops(config: Config, s: State) returns (last: State)
    requires Going(s) && !Saw(s, Failure)
    ensures var turn := Picking(config, s, FINALIZE, Success);
      Informed(config, s, turn) && Proceeded(config, s, turn) == Break(last) && Finalizing(s, last)
  {
    var turn := Picking(config, s, FINALIZE, Success);
    var p := ActionSelected(ObservedState(s), PickOf(FINALIZE), turn.planned);
    QuietIsChoosing(config, s);
    CallsDeliberates(s);
    SelectionLeaves(s, PickOf(FINALIZE), turn.planned);
    ObservedStays(s, PickOf(FINALIZE), turn.planned);
    FinalizeIsAllowed(config, ObservedState(s));
    PickingIsInformed(config, s, FINALIZE, Success);
    ProposalIsPlanned(s, turn, config.render, StandingOf(config, ObservedState(s)), FINALIZE);
    last := FinalizeActs(config, p, turn);
    PickedActionStops(config, s, turn, p, PickOf(FINALIZE), last);
  }

  // Running on

  /** The state after turns that all go on. */
  function WentOn(config: Config, s: State, turns: seq<Turn>): Option<State>
    decreases |turns|
  {
    if turns == [] then Some(s)
    else match Turned(config, s, turns[0])
      case Continue(next) => WentOn(config, next, turns[1..])
      case _ => None
  }

  /** Every council judged by the state it saw. */
  ghost predicate AllInformed(config: Config, s: State, turns: seq<Turn>)
    decreases |turns|
  {
    turns == []
    || (Informed(config, Entered(s), turns[0])
        && (Turned(config, s, turns[0]).Continue? ==>
              AllInformed(config, Turned(config, s, turns[0]).state, turns[1..])))
  }

  /** The turns lead on to this state, and every council judged by what it saw. */
  ghost predicate Leads(config: Config, s: State, turns: seq<Turn>, d: State) {
    WentOn(config, s, turns) == Some(d) && AllInformed(config, s, turns)
  }

  lemma {:induction false} LeadsOn(config: Config, s: State, turns: seq<Turn>, d: State, rest: seq<Turn>)
    requires WentOn(config, s, turns) == Some(d)
    ensures Looped(config, s, turns + rest) == Looped(config, d, rest)
    ensures WentOn(config, s, turns + rest) == WentOn(config, d, rest)
    ensures AllInformed(config, s, turns) ==>
      (AllInformed(config, s, turns + rest) <==> AllInformed(config, d, rest))
    decreases |turns|
  {
    if turns == [] {
      assert turns + rest == rest;
    } else {
      assert (turns + rest)[1..] == turns[1..] + rest;
      LeadsOn(config, Turned(config, s, turns[0]).state, turns[1..], d, rest);
    }
  }

  /** The event of a call is taken up first. */
  lemma EntryFirst(config: Config, s: State, turns: seq<Turn>)
    requires |s.execution.pending| <= 1 && turns != []
    ensures Looped(config, s, turns) == Looped(config, Entered(s), turns)
    ensures AllInformed(config, s, turns) <==> AllInformed(config, Entered(s), turns)
  {
    EntryEmptiesQueue(s);
  }

  /** So did those of all calls. */
  ghost predicate CallsInformed(s: State, calls: seq<Call>)
    decreases |calls|
  {
    calls == []
    || (AllInformed(calls[0].config, LoopStart(s, calls[0]), calls[0].turns)
        && (Driven(s, calls[0]).Returned? ==> CallsInformed(Driven(s, calls[0]).state, calls[1..])))
  }

  lemma OneTurnLeads(config: Config, s: State, turn: Turn, d: State)
    requires s.execution.pending == [] && Informed(config, s, turn) && Proceeded(config, s, turn) == Continue(d)
    ensures Leads(config, s, [turn], d)
  {
    var none: seq<Turn> := [];
    assert [turn][1..] == none;
    assert WentOn(config, d, none) == Some(d);
  }

  const PIPELINE: seq<string> :=
    ["prepare", "relax", "scf", "band", "effective_mass", "strain_loop", "mobility", "validation"]

  lemma QuietIsChoosing(config: Config, s: State)
    requires Going(s) && !Saw(s, Failure)
    ensures Choosing(config, ObservedState(s))
  {
  }

  lemma RunKeepsCounts(books: Retry.Books, stage: string)
    requires Retry.Persisted(books)
    ensures Retry.After(books, StageStep("run_capability", stage, Success)) == books
  {
  }

  /** Stages can be run one after the other, from any run that goes on and has not just
      failed. */
  lemma {:induction false} StagesRun(config: Config, s: State, stages: seq<string>)
    returns (turns: seq<Turn>, d: State)
    requires Going(s) && !Saw(s, Failure) && forall stage :: stage in stages ==> stage in STAGE_ORDER
    ensures |turns| == |stages| && Leads(config, s, turns, d)
    ensures Going(d) && !Saw(d, Failure) && Aside(s, d) && d.workflow.retries == s.workflow.retries
    ensures forall stage :: stage in s.workflow.completed || stage in stages ==> stage in d.workflow.completed
    decreases |stages|
  {
    if stages == [] {
      return [], s;
    }
    QuietIsChoosing(config, s);
    var turn := Picking(config, s, StageRequest("run_capability", stages[0]), Success);
    var next := StageTurn(config, s, "run_capability", stages[0], Success);
    RunKeepsCounts(BooksOf(s), stages[0]);
    OneTurnLeads(config, s, turn, next);
    var rest;
    rest, d := StagesRun(config, next, stages[1..]);
    turns := [turn] + rest;
    LeadsOn(config, s, [turn], next, rest);
  }
}
