/** What holds of every turn, of every call of drive and of every sequence of calls
    (mobility_agent/runtime/agentic_controller.py:2204-2397), whatever the council replies
    and whatever tools, people and events answer. */
module Runs {
  import opened Channels
  import opened Runtime
  import A = Arbitration

  // What planning and acting leave alone

  /** Neither the queue nor the record of events, nor the mark of the final report. */
  ghost predicate Aside(before: State, after: State) {
    && after.log == before.log
    && after.execution.pending == before.execution.pending
    && after.execution.consumedIds == before.execution.consumedIds
    && ReportMarked(after) == ReportMarked(before)
  }

  lemma PlanningStandsAside(s: State, turn: Turn)
    requires s.execution.pending == [] && Planned(s, turn).Some?
    ensures Aside(s, Planned(s, turn).value)
  {
  }

  lemma StageIsNotReport(s: State, stage: string, success: bool)
    requires stage != FINAL_REPORT
    ensures ReportMarked(StageDone(s, stage, success)) == ReportMarked(s)
  {
  }

  lemma DispatchIsUnmarked(config: Config, s: State, r: A.Request, target: string, tooling: Tooling)
    requires target != FINAL_REPORT && Dispatched(config, s, r, target, tooling).Some?
    ensures ReportMarked(Dispatched(config, s, r, target, tooling).value) == ReportMarked(s)
  {
    StagesDispatched(config, s, r, target, tooling);
    StageIsNotReport(s, "validation", true);
    StageIsNotReport(s, target, tooling.result.Success?);
  }

  lemma StagesDispatched(config: Config, s: State, r: A.Request, target: string, tooling: Tooling)
    requires Dispatched(config, s, r, target, tooling).Some?
    ensures var stages := Dispatched(config, s, r, target, tooling).value.workflow.stageStatus;
      || stages == s.workflow.stageStatus
      || stages == StageDone(s, "validation", true).workflow.stageStatus
      || stages == StageDone(s, target, tooling.result.Success?).workflow.stageStatus
  {
  }

  lemma PerformanceIsUnmarked(config: Config, s: State, r: A.Request, tooling: Tooling)
    requires Text(r.target) in STAGE_ORDER + {""} && Performed(config, s, r, tooling).Some?
    ensures ReportMarked(Performed(config, s, r, tooling).value) == ReportMarked(s)
  {
    var refining := r.family == "refine_sampling";
    var target := if refining && Text(r.target) == "" then "strain_loop" else Text(r.target);
    var counted := if refining then Refined(s, tooling) else s;
    if Dispatched(config, counted, r, target, tooling).Some? {
      assert FINAL_REPORT !in STAGE_ORDER;
      DispatchIsUnmarked(config, counted, r, target, tooling);
    }
  }

  lemma ExecutionIsUnmarked(config: Config, s: State, r: A.Request, tooling: Tooling)
    requires Executed(config, s, r, tooling).Some?
    ensures ReportMarked(Executed(config, s, r, tooling).value) == ReportMarked(s)
  {
    if Allowed(config, s, r, tooling.otherwiseLegal) {
      PerformanceIsUnmarked(config, s, r, tooling);
    }
  }

  lemma ActingStandsAside(config: Config, s: State, a: A.Action, turn: Turn)
    requires Acted(config, s, a, turn).Some?
    ensures Aside(s, Acted(config, s, a, turn).value)
  {
    if a.request.family != "escalate_human" {
      ExecutionIsUnmarked(config, s, a.request, turn.tooling);
    }
  }

  lemma WaitStandsAside(config: Config, s: State)
    ensures AtWait(config, s).state.log == s.log && Aside(s, AtWait(config, s).state)
  {
  }

  ghost predicate FlowsAside(s: State, flow: Flow) {
    flow.Raise? || Aside(s, flow.state)
  }

  lemma CarryingStandsAside(config: Config, planned: State, turn: Turn)
    ensures FlowsAside(planned, Carried(config, planned, turn))
  {
    if planned.execution.current.Some? {
      var acted := Acted(config, planned, planned.execution.current.value, turn);
      if acted.Some? {
        ActingStandsAside(config, planned, planned.execution.current.value, turn);
        WaitStandsAside(config, acted.value);
      }
    } else {
      WaitStandsAside(config, planned);
    }
  }

  lemma ProceedingStandsAside(config: Config, s: State, turn: Turn)
    requires s.execution.pending == []
    ensures FlowsAside(s, Proceeded(config, s, turn))
  {
    WaitStandsAside(config, s);
    if Planned(s, turn).Some? {
      PlanningStandsAside(s, turn);
      CarryingStandsAside(config, Planned(s, turn).value, turn);
    }
  }

  lemma EntryEmptiesQueue(s: State)
    requires |s.execution.pending| <= 1
    ensures Entered(s).execution.pending == []
  {
  }

  lemma TurnStandsAside(config: Config, s: State, turn: Turn)
    requires |s.execution.pending| <= 1
    ensures FlowsAside(Entered(s), Turned(config, s, turn))
  {
    EntryEmptiesQueue(s);
    ProceedingStandsAside(config, Entered(s), turn);
  }

  // How a turn ends

  /** After deliberation or activation, a missing action always has an explanation: the
      failure called missing_selected_action cannot happen. */
  lemma ActionIsNeverMissing(s: State, turn: Turn)
    requires Planned(s, turn).Some?
    ensures !MissesAction(Planned(s, turn).value)
  {
  }

  /** The run may go on. */
  predicate Open(s: State) {
    !TerminalOrFinalizable(s)
  }

  lemma PlanEndsInOrder(s: State, turn: Turn)
    requires Open(s) && s.execution.pending == [] && Planned(s, turn).Some?
    ensures var p := Planned(s, turn).value;
      && EndsInOrder(p)
      && (p.execution.current.Some? || p.execution.actionStatus.WaitingCouncil? ==> Open(p))
  {
  }

  lemma ActEndsInOrder(config: Config, s: State, a: A.Action, turn: Turn)
    requires Open(s) && Acted(config, s, a, turn).Some?
    ensures EndsInOrder(Acted(config, s, a, turn).value)
  {
  }

  /** A turn goes on only in an open state, and ends only when the run is over, is ready to
      be finalized, or waits where waiting is allowed. */
  ghost predicate InOrder(config: Config, flow: Flow) {
    && (flow.Continue? ==> Open(flow.state))
    && (flow.Break? ==>
          && EndsInOrder(flow.state)
          && (TerminalOrFinalizable(flow.state) || (Waiting(flow.state.workflow.status) && !config.fullAutonomy)))
  }

  lemma ActionInOrder(config: Config, done: State)
    requires EndsInOrder(done)
    ensures InOrder(config, AfterAction(config, done))
  {
  }

  lemma CarryingInOrder(config: Config, planned: State, turn: Turn)
    requires planned.execution.pending == [] && EndsInOrder(planned) && !MissesAction(planned)
    requires planned.execution.current.Some? || planned.execution.actionStatus.WaitingCouncil? ==> Open(planned)
    ensures InOrder(config, Carried(config, planned, turn))
  {
    if planned.execution.current.Some? {
      var acted := Acted(config, planned, planned.execution.current.value, turn);
      if acted.Some? {
        ActEndsInOrder(config, planned, planned.execution.current.value, turn);
        ActionInOrder(config, acted.value);
      }
    }
  }

  lemma ConsumptionInOrder(s: State)
    requires Open(s) && s.execution.pending != []
    ensures Consumed(s).execution.pending == s.execution.pending[1..] && EndsInOrder(Consumed(s))
    ensures Terminal(Consumed(s).workflow.status) || Open(Consumed(s))
  {
  }

  lemma EntryInOrder(s: State)
    requires Open(s) && |s.execution.pending| <= 1
    ensures EndsInOrder(Entered(s))
    ensures Terminal(Entered(s).workflow.status) || Open(Entered(s))
  {
    if s.execution.pending != [] {
      ConsumptionInOrder(s);
    }
  }

  lemma ProceedingInOrder(config: Config, s: State, turn: Turn)
    requires s.execution.pending == [] && EndsInOrder(s) && (Terminal(s.workflow.status) || Open(s))
    ensures InOrder(config, Proceeded(config, s, turn))
  {
    if Open(s) && Planned(s, turn).Some? {
      PlanEndsInOrder(s, turn);
      ActionIsNeverMissing(s, turn);
      PlanningStandsAside(s, turn);
      CarryingInOrder(config, Planned(s, turn).value, turn);
    }
  }

  lemma TurnInOrder(config: Config, s: State, turn: Turn)
    requires Open(s) && |s.execution.pending| <= 1
    ensures InOrder(config, Turned(config, s, turn))
  {
    EntryEmptiesQueue(s);
    EntryInOrder(s);
    ProceedingInOrder(config, Entered(s), turn);
  }

  /** A timed-out human decision ends the run, whatever the answer said. */
  lemma TimedOutDecisionEnds(config: Config, planned: State, turn: Turn)
    requires planned.execution.current.Some? && planned.execution.current.value.request.family == "escalate_human"
    requires turn.human.timedOut
    ensures var flow := Carried(config, planned, turn);
      && flow.Break? && flow.state.services.terminationRequested
      && flow.state.workflow.status == (if turn.human.action == "abort_task" then Failed else Skipped)
      && Finalized(flow.state).workflow.status == flow.state.workflow.status
  {
  }

  /** The call in which it times out returns, with the run over. */
  lemma TimedOutCallEnds(config: Config, s: State, turns: seq<Turn>)
    requires turns != [] && turns[0].human.timedOut
    ensures Escalates(Entered(s), turns[0]) ==>
      && Looped(config, s, turns).Returned?
      && Looped(config, s, turns).state.workflow.status in {Skipped, Failed}
  {
    if Escalates(Entered(s), turns[0]) {
      TimedOutDecisionEnds(config, Planned(Entered(s), turns[0]).value, turns[0]);
      assert Turned(config, s, turns[0]) == Carried(config, Planned(Entered(s), turns[0]).value, turns[0]);
    }
  }

  /** The turn comes to ask a person. */
  predicate Escalates(s: State, turn: Turn) {
    && !Terminal(s.workflow.status) && !AtBoundary(s) && Planned(s, turn).Some?
    && Planned(s, turn).value.execution.current.Some?
    && Planned(s, turn).value.execution.current.value.request.family == "escalate_human"
  }

  /** After a recovery from a wait the council always sits before anything else happens, and
      no job that blocked is left. */
  lemma RecoveryDeliberates(config: Config, s: State, view: View)
    requires s.execution.pending == []
    ensures var r := Recovered(config, s);
      && !AtBoundary(r) && DeliberationReason(r, view).Some?
      && forall i :: 0 <= i < |r.execution.jobs| ==>
           && r.execution.jobs[i] in s.execution.jobs
           && (BlockedJob(config, s) != "" ==> r.execution.jobs[i].id != BlockedJob(config, s))
           && (BlockedCapability(s) != "" ==> r.execution.jobs[i].target != BlockedCapability(s))
  {
    UnblockedKeeps(s.execution.jobs, BlockedJob(config, s), BlockedCapability(s));
  }

  lemma {:induction false} UnblockedKeeps(jobs: seq<Job>, id: string, capability: string)
    ensures forall job :: job in Unblocked(jobs, id, capability) <==>
      job in jobs && !((id != "" && job.id == id) || (capability != "" && job.target == capability))
  {
    if jobs != [] {
      UnblockedKeeps(jobs[1..], id, capability);
      assert jobs == [jobs[0]] + jobs[1..];
    }
  }

  // How a call ends

  /** The state the loop of a call starts in. */
  function LoopStart(saved: State, call: Call): State {
    if call.event.Some? then Injected(Started(saved, call), call.event.value) else Started(saved, call)
  }

  /** Between calls: the queue is empty, and the run either has ended with its report
      written, once, or can go on and has no report. */
  ghost predicate Finished(s: State) {
    Terminal(s.workflow.status) && ReportMarked(s) && s.log.reports == 1 && s.execution.pending == []
  }

  ghost predicate Unfinished(s: State) {
    Open(s) && !ReportMarked(s) && s.log.reports == 0 && s.execution.pending == []
  }

  ghost predicate AtRest(s: State) {
    Finished(s) || Unfinished(s)
  }

  /** The stage an accepted event marks: its own target, or without one what was awaited, or,
      when the event is stale, what was last observed. */
  function NamedStage(s: State, e: Event): string {
    Strip(if e.target != "" then e.target
          else if Stale(s.execution.jobs, e) then ObservedTarget(s) else s.execution.markers.awaiting)
  }

  /** The event reports the stage "final_report" as done, or as failed. */
  predicate Forges(s: State, e: Event) {
    e.kind == "job_completed" && NamedStage(s, e) == FINAL_REPORT
  }

  predicate Unmarks(s: State, e: Event) {
    e.kind in FAILURE_EVENTS && NamedStage(s, e) == FINAL_REPORT
  }

  /** The event is an override that ends the run. */
  predicate Overrides(e: Event) {
    e.kind == "manual_override" && e.order in {"skip_material", "abort_task"}
  }

  /** Whether the report is marked once the event of a call, if any, is taken up. */
  predicate MarkedAfter(s: State, event: Option<Event>) {
    if event.None? then ReportMarked(s)
    else Forges(s, event.value) || (ReportMarked(s) && !Unmarks(s, event.value))
  }

  lemma EntryMark(s: State, e: Event)
    requires s.execution.pending == []
    ensures ReportMarked(Entered(Injected(s, e))) <==> MarkedAfter(s, Some(e))
    ensures Entered(Injected(s, e)).log == Log(s.log.consumed + [e.id], s.log.reports)
  {
    EntryWorkflow(s, e);
  }

  /** What an accepted event does to the stages: a verdict on the stage it names, no more. */
  function MarkedBy(w: Workflow, stage: string, e: Event): Workflow {
    if stage == "" || e.kind !in JOB_EVENTS then w
    else
      w.(stageStatus := w.stageStatus[stage := e.kind == "job_completed"],
         completed := if e.kind == "job_completed" then AddOnce(w.completed, stage) else w.completed)
  }

  lemma EntryWorkflow(s: State, e: Event)
    requires s.execution.pending == []
    ensures var entered := Entered(Injected(s, e));
      && entered.log == Log(s.log.consumed + [e.id], s.log.reports)
      && entered.workflow == MarkedBy(s.workflow, NamedStage(s, e), e).(status := entered.workflow.status)
  {
    assert Injected(s, e).execution.pending == [e];
    ConsumptionNames(Injected(s, e), e);
    ProgressMarks(Consumed(Injected(s, e)), e);
  }

  lemma ProgressMarks(s: State, e: Event)
    requires s.execution.latestEvent == Some(e)
    ensures Progressed(s) == s.(workflow := MarkedBy(s.workflow, ProgressStage(s), e))
  {
  }

  lemma ConsumptionNames(s: State, e: Event)
    requires s.execution.pending == [e]
    ensures var c := Consumed(s);
      && c.execution.latestEvent == Some(e) && ProgressStage(c) == NamedStage(s, e)
      && c.workflow == s.workflow.(status := c.workflow.status)
      && c.log == Log(s.log.consumed + [e.id], s.log.reports)
  {
  }

  /** The state a loop that started in `entered` may return. */
  ghost predicate SettlesFrom(config: Config, entered: State, r: State) {
    && r.execution.pending == [] && r.log.consumed == entered.log.consumed
    && r.execution.consumedIds == entered.execution.consumedIds
    && (if ReportMarked(entered) then ReportMarked(r) && r.log.reports == entered.log.reports
        else Finished(r) || (Unfinished(r) && Waiting(r.workflow.status) && !config.fullAutonomy))
  }

  lemma BreakSettles(config: Config, entered: State, last: State)
    requires Aside(entered, last) && InOrder(config, Break(last))
    requires entered.log.reports == 0 && entered.execution.pending == []
    ensures SettlesFrom(config, entered, Finalized(last))
  {
  }

  lemma SettlesAlong(config: Config, entered: State, next: State, r: State)
    requires Aside(entered, next) && SettlesFrom(config, next, r)
    ensures SettlesFrom(config, entered, r)
  {
  }

  /** What a loop started in an open state returns. A mark that is there after the first
      event is taken up keeps the report from being written. */
  lemma {:induction false} LoopSettles(config: Config, s: State, turns: seq<Turn>)
    requires Open(s) && |s.execution.pending| <= 1 && s.log.reports == 0
    requires Looped(config, s, turns).Returned?
    ensures SettlesFrom(config, Entered(s), Looped(config, s, turns).state)
    decreases |turns|
  {
    TurnStandsAside(config, s, turns[0]);
    TurnInOrder(config, s, turns[0]);
    var flow := Turned(config, s, turns[0]);
    EntryKeepsReports(s);
    EntryEmptiesQueue(s);
    if flow.Continue? {
      LoopSettles(config, flow.state, turns[1..]);
      SettlesAlong(config, Entered(s), flow.state, Looped(config, flow.state, turns[1..]).state);
    } else {
      BreakSettles(config, Entered(s), flow.state);
    }
  }

  lemma EntryKeepsReports(s: State)
    ensures Entered(s).log.reports == s.log.reports
  {
  }

  predicate ForgedBy(s: State, call: Call) {
    call.event.Some? && !Refused(s, call.event) && Forges(s, call.event.value)
  }

  /** A call that returns leaves the run finished with exactly one report, or waiting where
      that is allowed, or as it was when the event was refused; exactly when its event does
      not forge the report's own mark. */
  lemma CallSettles(saved: State, call: Call)
    requires AtRest(Started(saved, call)) && Driven(saved, call).Returned?
    ensures AtRest(Driven(saved, call).state) <==> !ForgedBy(Started(saved, call), call)
    ensures var s, r := Started(saved, call), Driven(saved, call).state;
      if Refused(s, call.event) then r == s
      else if ForgedBy(s, call) then ReportMarked(r) && r.log.reports == 0
      else Finished(r) || (Waiting(r.workflow.status) && !call.config.fullAutonomy)
  {
    var s := Started(saved, call);
    if !Refused(s, call.event) {
      if call.event.Some? {
        EntryMark(s, call.event.value);
        LoopSettles(call.config, Injected(s, call.event.value), call.turns);
      } else if Unfinished(s) {
        LoopSettles(call.config, s, call.turns);
      }
    }
  }

  lemma StopReturns(config: Config, s: State, turns: seq<Turn>)
    requires turns != [] && Turned(config, s, turns[0]).Break? && ReportMarked(Turned(config, s, turns[0]).state)
    ensures Looped(config, s, turns) == Returned(Turned(config, s, turns[0]).state)
  {
  }
}
