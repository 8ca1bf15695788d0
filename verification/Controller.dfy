/** The controller that drives one material (mobility_agent/runtime/agentic_controller.py:
    983-2397; mobility_agent/graph/runtime_nodes.py:603-717, 1315-1850, 1971-2027): every
    method changes the sections of the state in place and is proved to make the step that
    Runtime describes. */
module Controller {
  import opened Channels
  import opened Runtime
  import A = Arbitration
  import Retry = RetryAccounting
  import Sampling = Refinement

  /** What a method that may raise leaves, against what was specified. */
  ghost predicate Matches(raised: bool, value: State, specified: Option<State>) {
    if raised then specified.None? else specified == Some(value)
  }

  method NextCapabilityAfter(completed: seq<string>, planned: seq<string>) returns (next: Option<string>)
    ensures next == NextAfter(completed, planned)
    ensures next.Some? ==> next.value != "" && forall i :: 0 <= i < |completed| ==> Strip(completed[i]) != next.value
  {
    for i := 0 to |planned|
      invariant NextAfter(completed, planned) == NextAfter(completed, planned[i..])
    {
      assert planned[i..][0] == planned[i] && planned[i..][1..] == planned[i + 1..];
      var capability := Strip(planned[i]);
      var done := false;
      for j := 0 to |completed|
        invariant done <==> exists k :: 0 <= k < j && Strip(completed[k]) == capability
      {
        if Strip(completed[j]) == capability {
          done := true;
        }
      }
      if capability != "" && !done {
        return Some(capability);
      }
    }
    next := None;
  }

  method UpdateJobs(jobs: seq<Job>, e: Event) returns (updated: seq<Job>, matched: bool)
    ensures updated == JobsAfter(jobs, e)
    ensures matched <==> e.jobId != "" && exists i :: 0 <= i < |jobs| && jobs[i].id == e.jobId
  {
    updated, matched := [], false;
    for i := 0 to |jobs|
      invariant updated + JobsAfter(jobs[i..], e) == JobsAfter(jobs, e)
      invariant matched <==> e.jobId != "" && exists k :: 0 <= k < i && jobs[k].id == e.jobId
    {
      assert jobs[i..][0] == jobs[i] && jobs[i..][1..] == jobs[i + 1..];
      if e.jobId != "" && jobs[i].id == e.jobId {
        matched := true;
      }
      updated := updated + [JobAfter(jobs[i], e)];
    }
  }

  method DropJob(jobs: seq<Job>, id: string) returns (kept: seq<Job>)
    ensures kept == WithoutJob(jobs, id)
  {
    kept := [];
    for i := 0 to |jobs|
      invariant kept + WithoutJob(jobs[i..], id) == WithoutJob(jobs, id)
    {
      assert jobs[i..][0] == jobs[i] && jobs[i..][1..] == jobs[i + 1..];
      if jobs[i].id != id {
        kept := kept + [jobs[i]];
      }
    }
  }

  method CleanJobs(jobs: seq<Job>, id: string, capability: string) returns (cleaned: seq<Job>)
    ensures cleaned == Unblocked(jobs, id, capability)
  {
    cleaned := [];
    for i := 0 to |jobs|
      invariant cleaned + Unblocked(jobs[i..], id, capability) == Unblocked(jobs, id, capability)
    {
      assert jobs[i..][0] == jobs[i] && jobs[i..][1..] == jobs[i + 1..];
      if (id != "" && jobs[i].id == id) || (capability != "" && jobs[i].target == capability) {
        continue;
      }
      cleaned := cleaned + [jobs[i]];
    }
  }

  class Material {
    var workflow: Workflow
    var execution: Execution
    var services: Services
    var plan: Sampling.Plan
    var log: Log

    function Value(): State
      reads this
    {
      State(workflow, execution, services, plan, log)
    }

    constructor ()
      ensures Value() == INITIAL
    {
      workflow, execution, services := INITIAL.workflow, INITIAL.execution, INITIAL.services;
      plan, log := INITIAL.plan, INITIAL.log;
    }

    // The fields every step writes

    method SetStatus(status: RunStatus)
      modifies this`workflow
      ensures Value() == WithStatus(old(Value()), status)
    {
      workflow := workflow.(status := status);
    }

    method Terminate(status: RunStatus)
      modifies this`workflow, this`services
      ensures Value() == Terminated(old(Value()), status)
    {
      services := services.(terminationRequested := true);
      workflow := workflow.(status := status);
    }

    method Observe(target: string, status: Verdict)
      modifies this`execution
      ensures Value() == WithObservation(old(Value()), target, status)
    {
      execution := execution.(observation := Some(Observation(target, status)), actionStatus := Observed(status));
    }

    method SyncCheckpoint(reason: Option<Reason>)
      modifies this`execution
      ensures Value() == Checked(old(Value()), reason)
    {
      execution := execution.(checkpoint := Checkpoint(workflow.completed, reason));
    }

    method RecordStage(stage: string, success: bool)
      modifies this`workflow
      ensures Value() == StageDone(old(Value()), stage, success)
    {
      workflow := workflow.(stageStatus := workflow.stageStatus[stage := success]);
      if success {
        workflow := workflow.(completed := AddOnce(workflow.completed, stage));
      }
    }

    // Events

    method ConsumePendingEvent()
      modifies this
      ensures Value() == Consumed(old(Value()))
    {
      if execution.pending == [] {
        return;
      }
      var e := execution.pending[0];
      var target := TargetOf(e, execution.markers);
      var matched := TakeEvent();
      if e.jobId != "" && e.kind in JOB_EVENTS && !matched {
        SetStatus(WaitingExternal);
        return;
      }
      execution := execution.(
        markers := Markers("", ""),
        observation := Some(Observation(target, if Succeeded(e) then Success else Failure)));
      React(e);
    }

    method TakeEvent() returns (matched: bool)
      requires execution.pending != []
      modifies this`execution, this`log
      ensures Value() == Taken(old(Value()))
      ensures matched <==>
        (old(execution.pending[0]).jobId != ""
         && exists i :: 0 <= i < |old(execution.jobs)| && old(execution.jobs)[i].id == old(execution.pending[0]).jobId)
    {
      var e := execution.pending[0];
      execution := execution.(pending := execution.pending[1..], latestEvent := Some(e));
      if e.id != "" {
        execution := execution.(consumedIds := AddOnce(execution.consumedIds, e.id));
      }
      log := log.(consumed := log.consumed + [e.id]);
      var jobs;
      jobs, matched := UpdateJobs(execution.jobs, e);
      execution := execution.(jobs := jobs);
    }

    method React(e: Event)
      modifies this`workflow, this`services
      ensures Value() == Reacted(old(Value()), e)
    {
      if e.kind == "manual_override" {
        if e.order == "skip_material" {
          Terminate(Skipped);
        } else if e.order == "abort_task" {
          Terminate(Aborted);
        } else {
          SetStatus(Running);
        }
      } else if e.kind == "resume_requested" {
        SetStatus(Running);
      } else if !Succeeded(e) {
        SetStatus(NeedsRecovery);
      } else {
        SetStatus(Running);
      }
    }

    method SyncEventProgress()
      modifies this`workflow
      ensures Value() == Progressed(old(Value()))
    {
      var stage := ProgressStage(Value());
      var kind := if execution.latestEvent.Some? then execution.latestEvent.value.kind else "";
      if stage != "" && kind == "job_completed" {
        RecordStage(stage, true);
      } else if stage != "" && kind in FAILURE_EVENTS {
        RecordStage(stage, false);
      }
    }

    method InjectEvent(e: Event)
      modifies this`execution
      ensures Value() == Injected(old(Value()), e)
    {
      execution := execution.(pending := execution.pending + [e]);
      execution := execution.(latestEvent := None);
    }

    /** The event is refused when the run has ended or a consumed id, stripped, is the
        event's. */
    method RefusesEvent(event: Option<Event>) returns (refused: bool)
      ensures refused <==> Refused(Value(), event)
    {
      if event.None? {
        return false;
      }
      if Terminal(workflow.status) {
        return true;
      }
      refused := false;
      for i := 0 to |execution.consumedIds|
        invariant refused <==>
          event.value.id != "" && exists k :: 0 <= k < i && Strip(execution.consumedIds[k]) == event.value.id
      {
        if event.value.id != "" && Strip(execution.consumedIds[i]) == event.value.id {
          refused := true;
        }
      }
    }

    // Planning

    method ObserveState()
      modifies this
      ensures Value() == ObservedState(old(Value()))
    {
      if workflow.status.Pending? {
        SetStatus(Running);
      }
      if workflow.status.WaitingExternal? && execution.pending != [] {
        ConsumePendingEvent();
      }
    }

    method SettleWithoutAction(reason: Reason, record: A.Record, validation: Validation)
      modifies this`workflow, this`services
      ensures Value() == Unselected(old(Value()), reason, record, validation)
    {
      if record.waiting {
        SetStatus(WaitingExternal);
      } else if record.ready {
        SetStatus(ReadyToFinalize);
      } else if AboutValidation(reason) {
        if validation.Validated? {
          RecordStage("validation", true);
        }
        if validation.AlreadyReady? || validation == Validated(true) {
          SetStatus(ReadyToFinalize);
        } else {
          Terminate(Skipped);
        }
      } else {
        Terminate(Failed);
      }
    }

    method SelectNothing(reason: Reason, record: A.Record, validation: Validation)
      modifies this
      ensures Value() == NothingSelected(old(Value()), reason, record, validation)
    {
      execution := execution.(current := None, actionStatus := Noop);
      SettleWithoutAction(reason, record, validation);
      var explained := Terminal(workflow.status) || Waiting(workflow.status) || workflow.status.ReadyToFinalize?;
      SyncCheckpoint(if explained then None else Some(MissingSelectedAction));
    }

    method SelectAction(action: A.Action, planned: seq<string>)
      modifies this
      ensures Value() == ActionSelected(old(Value()), action, planned)
    {
      execution := execution.(current := Some(action), actionStatus := Chosen);
      services := services.(contract := Some(planned));
      SyncCheckpoint(None);
    }

    method Deliberate(reason: Reason, turn: Turn) returns (raised: bool)
      modifies this
      ensures Matches(raised, Value(), Deliberated(old(Value()), reason, turn))
    {
      ObserveState();
      var c := turn.council;
      var outcome := A.Arbitrate(c.desk, c.proposals, c.critiques, c.preferences, c.reply);
      if outcome.Raised? {
        return true;
      }
      var selected := outcome.record.action;
      if selected.None? && FailureCouncil(Value(), reason) && turn.relaxEvidence {
        selected := Some(EscalateForRelax(turn.options));
      }
      if selected.None? {
        SelectNothing(reason, outcome.record, turn.validation);
      } else {
        SelectAction(selected.value, turn.planned);
      }
      raised := false;
    }

    method ActivateContractAction()
      modifies this
      ensures Value() == Activated(old(Value()))
    {
      if services.contract.None? {
        return;
      }
      var known := execution.checkpoint.completed;
      var next := NextCapabilityAfter(if known != [] then known else workflow.completed, services.contract.value);
      if next.None? {
        execution := execution.(current := None, actionStatus := WaitingCouncil);
        SyncCheckpoint(Some(ContractCompleted));
      } else {
        execution := execution.(current := Some(RunNext(next.value)), actionStatus := Chosen);
        SyncCheckpoint(None);
      }
    }

    // Execution

    method Submit(config: Config, r: A.Request, target: string, generatedJobId: string)
      modifies this
      ensures Value() == Submitted(config, old(Value()), r, target, generatedJobId)
    {
      var jobId := JobParameter(config, r);
      if jobId == "" {
        jobId := generatedJobId;
      }
      var others := DropJob(execution.jobs, jobId);
      execution := execution.(jobs := others + [Job(jobId, target, "submitted")]);
      execution := execution.(markers := Markers(jobId, target));
      SetStatus(WaitingExternal);
      Observe(target, InProgress);
    }

    method RunTool(stage: string, result: Verdict)
      modifies this
      ensures Value() == ToolRun(old(Value()), stage, result)
    {
      RecordStage(stage, result.Success?);
      SetStatus(if result.Success? then Running else NeedsRecovery);
      Observe(stage, result);
    }

    method Perform(config: Config, r: A.Request, tooling: Tooling) returns (raised: bool)
      modifies this
      ensures Matches(raised, Value(), Performed(config, old(Value()), r, tooling))
    {
      var target := Text(r.target);
      if r.family == "refine_sampling" {
        if target == "" {
          target := "strain_loop";
        }
        if tooling.points.keys == [] {
          SetStatus(NeedsRecovery);
          Observe(target, Failure);
          return false;
        }
        ApplyPoints(tooling);
      }
      raised := Dispatch(config, r, target, tooling);
    }

    method ApplyPoints(tooling: Tooling)
      modifies this`workflow, this`plan
      ensures Value() == Refined(old(Value()), tooling)
    {
      var channels := if tooling.channels == [] then tooling.points.keys else tooling.channels;
      plan := Sampling.ExtendPlan(plan, tooling.points.at, channels);
      workflow := workflow.(rounds := workflow.rounds + 1);
    }

    method Dispatch(config: Config, r: A.Request, target: string, tooling: Tooling) returns (raised: bool)
      modifies this
      ensures Matches(raised, Value(), Dispatched(config, old(Value()), r, target, tooling))
    {
      raised := false;
      if r.family == "finalize_material" {
        Terminate(ReadyToFinalize);
        Observe(target, Success);
      } else if r.family == "abort_material" {
        Terminate(Aborted);
        Observe(target, Failure);
      } else if r.family == "revalidate_result" || target == "validation" {
        RecordStage("validation", true);
        SetStatus(Running);
        Observe("validation", Success);
      } else if IsChannelFamily(r.family) {
        var channels := ExecutorTargets(config.render, r.params);
        if channels.None? {
          raised := true;
        } else if channels.value == [] {
          SetStatus(NeedsRecovery);
          Observe(target, Failure);
        } else {
          SetStatus(Running);
          Observe(target, Success);
        }
      } else {
        ActOnStage(config, r, target, tooling);
      }
    }

    method ActOnStage(config: Config, r: A.Request, target: string, tooling: Tooling)
      modifies this
      ensures Value() == StageActed(config, old(Value()), r, target, tooling)
    {
      if target == "prepare" {
        RunTool(target, tooling.result);
      } else if target != "" {
        if r.submit || r.wait {
          Submit(config, r, target, tooling.generatedJobId);
        } else {
          RunTool(target, tooling.result);
        }
      } else {
        SetStatus(NeedsRecovery);
        Observe(target, Failure);
      }
    }

    method ExecuteSelectedAction(config: Config, r: A.Request, tooling: Tooling) returns (raised: bool)
      modifies this
      ensures Matches(raised, Value(), Executed(config, old(Value()), r, tooling))
    {
      if ChannelsSeen(config, r).None? {
        return true;
      }
      if !Allowed(config, Value(), r, tooling.otherwiseLegal) {
        SetStatus(Failed);
        Observe(Text(r.target), Failure);
        return false;
      }
      raised := Perform(config, r, tooling);
    }

    /** The counts before are kept for the accounting after the execution. */
    method ExecuteAndCount(config: Config, r: A.Request, tooling: Tooling) returns (raised: bool)
      modifies this
      ensures Matches(raised, Value(), ExecutedAndCounted(config, old(Value()), r, tooling))
    {
      var books := BooksOf(Value());
      var allowed := Allowed(config, Value(), r, tooling.otherwiseLegal);
      raised := ExecuteSelectedAction(config, r, tooling);
      if !raised && allowed {
        books := Retry.ExecuteCounted(books, StepOf(r, tooling));
        workflow := workflow.(retries := books.workflow);
      }
    }

    method ExecuteEscalation(target: string, human: Human)
      modifies this
      ensures Value() == Escalated(old(Value()), target, human)
    {
      SetStatus(NeedsHuman);
      var action := human.action;
      if human.timedOut && action !in {"skip_material", "abort_task"} {
        action := "skip_material";
      }
      if action == "complete_material" {
        Terminate(Completed);
        Observe(target, Success);
      } else if action == "skip_material" {
        Terminate(Skipped);
        Observe(target, Omitted);
      } else if action == "abort_task" {
        Terminate(Failed);
        Observe(target, Failure);
      } else {
        SetStatus(Running);
        Observe(human.resumeStage, Success);
      }
    }

    method ExecuteCurrentAction(config: Config, a: A.Action, turn: Turn) returns (raised: bool)
      modifies this
      ensures Matches(raised, Value(), Acted(config, old(Value()), a, turn))
    {
      if a.request.family == "escalate_human" {
        ExecuteEscalation(Text(a.request.target), turn.human);
      } else {
        raised := ExecuteAndCount(config, a.request, turn.tooling);
        if raised {
          return;
        }
      }
      SyncCheckpoint(DeliberationReason(Value(), turn.after));
      raised := false;
    }

    // Recovery and the final report

    method RecoverWaitBoundary(config: Config)
      modifies this
      ensures Value() == Recovered(config, old(Value()))
    {
      var cleaned := CleanJobs(execution.jobs, BlockedJob(config, Value()), BlockedCapability(Value()));
      execution := execution.(jobs := cleaned);
      execution := execution.(markers := Markers("", ""));
      if execution.current.Some? {
        execution := execution.(current := Some(Quieted(execution.current.value)));
      }
      if Saw(Value(), InProgress) {
        Observe(ObservedTarget(Value()), Failure);
      }
      SetStatus(NeedsRecovery);
    }

    method WriteFinalReport()
      modifies this
      ensures Value() == Reported(old(Value()))
    {
      if workflow.status.ReadyToFinalize? || workflow.status.Running? || workflow.status.Pending? {
        SetStatus(Completed);
      }
      workflow := workflow.(stageStatus := workflow.stageStatus[FINAL_REPORT := true]);
      log := log.(reports := log.reports + 1);
    }

    method FinalizeIfNeeded()
      modifies this
      ensures Value() == Finalized(old(Value()))
    {
      if ReportMarked(Value()) {
        return;
      }
      if !TerminalOrFinalizable(Value()) {
        return;
      }
      WriteFinalReport();
      SyncCheckpoint(None);
    }

    // The loop

    /** Whether the loop goes on, ends, or an exception leaves it. */
    ghost predicate Flows(next: Next, flow: Flow)
      reads this
    {
      match flow
      case Continue(s) => next.GoOn? && Value() == s
      case Break(s) => next.Stop? && Value() == s
      case Raise => next.Escape?
    }

    method Wait(config: Config) returns (next: Next)
      modifies this
      ensures Flows(next, AtWait(config, old(Value())))
    {
      if config.fullAutonomy {
        RecoverWaitBoundary(config);
        return GoOn;
      }
      next := Stop;
    }

    method GoWithoutAction(config: Config) returns (next: Next)
      modifies this
      ensures Flows(next, WithoutAction(config, old(Value())))
    {
      if Terminal(workflow.status) || workflow.status.ReadyToFinalize? {
        return Stop;
      }
      if Waiting(workflow.status) {
        next := Wait(config);
        return;
      }
      if execution.actionStatus.WaitingCouncil? {
        SyncCheckpoint(Some(ContractCompleted));
        return GoOn;
      }
      SyncCheckpoint(Some(MissingSelectedAction));
      Terminate(Failed);
      next := Stop;
    }

    method CarryOn(config: Config, turn: Turn) returns (next: Next)
      modifies this
      ensures Flows(next, Carried(config, old(Value()), turn))
    {
      if execution.current.None? {
        next := GoWithoutAction(config);
        return;
      }
      var raised := ExecuteCurrentAction(config, execution.current.value, turn);
      if raised {
        return Escape;
      }
      if TerminalOrFinalizable(Value()) {
        return Stop;
      }
      if AtBoundary(Value()) {
        next := Wait(config);
        return;
      }
      next := GoOn;
    }

    method TakeTurn(config: Config, turn: Turn) returns (next: Next)
      modifies this
      ensures Flows(next, Turned(config, old(Value()), turn))
    {
      if execution.pending != [] {
        ConsumePendingEvent();
        SyncEventProgress();
      }
      if Terminal(workflow.status) {
        return Stop;
      }
      if AtBoundary(Value()) {
        next := Wait(config);
        return;
      }
      var reason := DeliberationReason(Value(), turn.before);
      if reason.Some? {
        var raised := Deliberate(reason.value, turn);
        if raised {
          return Escape;
        }
      } else {
        ActivateContractAction();
      }
      next := CarryOn(config, turn);
    }

    ghost predicate Ends(exit: Exit, end: End)
      reads this
    {
      match end
      case Returned(s) => exit.Normal? && Value() == s
      case Raised => exit.Exception?
      case StillGoing => exit.OutOfTurns?
    }

    /** One call of drive. The loop has no bound of its own: the answers of the surroundings
        for as many turns as are considered come with the call. */
    method Drive(call: Call) returns (exit: Exit)
      modifies this
      ensures Ends(exit, Driven(old(Value()), call))
    {
      if call.anew {
        workflow, execution, services := INITIAL.workflow, INITIAL.execution, INITIAL.services;
        plan, log := INITIAL.plan, INITIAL.log;
      }
      var refused := RefusesEvent(call.event);
      if refused {
        return Normal;
      }
      if call.event.Some? {
        InjectEvent(call.event.value);
      }
      ghost var specified := Driven(old(Value()), call);
      assert call.turns[0..] == call.turns;
      for i := 0 to |call.turns|
        invariant specified == Looped(call.config, Value(), call.turns[i..])
      {
        assert call.turns[i..][0] == call.turns[i] && call.turns[i..][1..] == call.turns[i + 1..];
        var next := TakeTurn(call.config, call.turns[i]);
        if next.Escape? {
          return Exception;
        }
        if next.Stop? {
          FinalizeIfNeeded();
          return Normal;
        }
      }
      exit := OutOfTurns;
    }
  }

  datatype Next = GoOn | Stop | Escape
  datatype Exit = Normal | Exception | OutOfTurns
}
