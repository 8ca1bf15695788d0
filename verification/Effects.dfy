/** What events, councils, actions and recoveries make of a run, in terms of the run alone
    (mobility_agent/graph/runtime_nodes.py:603-717, 1491-1834;
    mobility_agent/runtime/agentic_controller.py:983-1015, 1603-1675, 1799-1837, 2057-2124;
    mobility_agent/runtime/agent_tools.py:819-975). */
module Effects {
  import opened Json
  import opened Channels
  import opened Runtime
  import opened Runs
  import opened Sessions
  import opened Scenarios
  import opened Outcomes
  import A = Arbitration
  import Retry = RetryAccounting

  // Events

  /** The event concerns no job, or one that is known. */
  ghost predicate Concerns(s: State, e: Event) {
    || e.jobId == "" || e.kind !in {"job_completed", "job_failed", "job_timeout", "artifact_missing"}
    || exists i :: 0 <= i < |s.execution.jobs| && s.execution.jobs[i].id == e.jobId
  }

  /** The text by which an event is judged. */
  function Said(e: Event): string {
    if e.status != "" then e.status else e.kind
  }

  predicate SaysDone(e: Event) {
    Said(e) in {"completed", "success", "job_completed", "resume_requested", "manual_override"}
  }

  /** An accepted event about an unknown job only leaves the run waiting. Any other is observed
      on the stage it names or that was awaited, ends the wait, and sets the run going, or into
      recovery when it says neither that something is done nor that the run resumes; an override
      may end it. */
  lemma EventIsObserved(s: State, e: Event)
    requires s.execution.pending == []
    ensures var entered := Entered(Injected(s, e));
      if !Concerns(s, e) then
        && entered.workflow.status.WaitingExternal? && entered.execution.observation == s.execution.observation
        && entered.execution.markers == s.execution.markers && entered.services == s.services
      else
        && entered.execution.markers == Markers("", "")
        && entered.execution.observation
           == Some(Observation(if e.target != "" then e.target else s.execution.markers.awaiting,
                if SaysDone(e) then Success else Failure))
        && entered.services.contract == s.services.contract
        && entered.services.terminationRequested == (s.services.terminationRequested || Overrides(e))
        && entered.workflow.status
           == if e.kind == "manual_override" then
                if e.order == "skip_material" then Skipped else if e.order == "abort_task" then Aborted else Running
              else if e.kind == "resume_requested" || SaysDone(e) then Running
              else NeedsRecovery
  {
    assert Injected(s, e).execution.pending == [e];
  }

  lemma {:induction false} JobsTakeStatus(jobs: seq<Job>, e: Event, i: nat)
    requires i < |jobs|
    ensures |JobsAfter(jobs, e)| == |jobs|
    ensures JobsAfter(jobs, e)[i]
      == if e.jobId != "" && jobs[i].id == e.jobId then Job(jobs[i].id, jobs[i].target, Said(e)) else jobs[i]
  {
    JobsAfterLength(jobs, e);
    if i > 0 {
      JobsTakeStatus(jobs[1..], e, i - 1);
    }
  }

  lemma {:induction false} JobsAfterLength(jobs: seq<Job>, e: Event)
    ensures |JobsAfter(jobs, e)| == |jobs|
  {
    if jobs != [] {
      JobsAfterLength(jobs[1..], e);
    }
  }

  /** The event of an accepted call is the latest, recorded unless it has no id, and its status
      reaches the jobs with its id and no other. */
  lemma EventIsRecorded(s: State, e: Event, i: nat)
    requires s.execution.pending == []
    ensures var x := Entered(Injected(s, e)).execution;
      && x.latestEvent == Some(e) && |x.jobs| == |s.execution.jobs| && x.current == s.execution.current
      && (i < |s.execution.jobs| ==>
            var job := s.execution.jobs[i];
            x.jobs[i] == if e.jobId != "" && job.id == e.jobId then Job(job.id, job.target, Said(e)) else job)
      && (e.id != "" ==> e.id in x.consumedIds)
  {
    assert Injected(s, e).execution.pending == [e];
    JobsAfterLength(s.execution.jobs, e);
    if i < |s.execution.jobs| {
      JobsTakeStatus(s.execution.jobs, e, i);
    }
  }

  /** A call that starts a run anew is one on a new run, whatever was there before, and refuses
      no event. */
  lemma FreshStartForgets(s: State, call: Call)
    requires call.anew
    ensures Driven(s, call) == Driven(INITIAL, call.(anew := false))
    ensures !Refused(INITIAL, call.event)
  {
  }

  // When a council sits

  /** The last observation calls for a review. */
  predicate CallsForReview(s: State, view: View) {
    var target := ObservedTarget(s);
    || Saw(s, Failure)
    || (Saw(s, Success) && target in {"validation", "strain_loop"})
    || (Saw(s, Success) && target == "mobility" && view.lowQuality)
    || (view.anomalies && target in {"strain_loop", "mobility", "validation"})
  }

  /** A council sits in a run without a contract, for a pending event, and, unless the run
      waits, when its checkpoint asks for one, the last observation calls for a review, the run
      needs recovery, or nothing is left to do. */
  lemma CouncilSitsIff(s: State, view: View)
    ensures DeliberationReason(s, view).Some? <==>
      || s.services.contract.None?
      || s.execution.pending != []
      || (!Waiting(s.workflow.status)
          && (|| s.execution.checkpoint.reason.Some?
              || CallsForReview(s, view)
              || s.workflow.status in {NeedsRecovery, ReadyToFinalize}
              || NextAfter(s.workflow.completed, s.services.contract.value).None?
              || view.allResolved))
  {
  }

  /** What a council is about: nothing yet in a run without a contract, a failure when an event
      resumes after one, what the checkpoint asks for, and otherwise what the last observation
      says, a failure before anything about validation. */
  lemma CouncilIsAbout(s: State, view: View)
    requires DeliberationReason(s, view).Some?
    ensures var reason, target := DeliberationReason(s, view).value, ObservedTarget(s);
      var failed := Saw(s, Failure) || s.workflow.status.NeedsRecovery?;
      if s.services.contract.None? then !FailureCouncil(s, reason) && !AboutValidation(reason)
      else if s.execution.pending != [] then
        (FailureCouncil(s, reason) <==> Saw(s, Failure)) && !AboutValidation(reason)
      else if s.execution.checkpoint.reason.Some? then s.execution.checkpoint.reason == Some(reason)
      else
        && (FailureCouncil(s, reason) <==> failed)
        && (AboutValidation(reason) <==>
              !failed && ((Saw(s, Success) && target == "validation")
                          || (Saw(s, Success) && target == "mobility" && view.lowQuality)
                          || (view.anomalies && target == "validation")))
  {
  }

  /** A council that waits leaves the run waiting for external work, also when it says that the
      run is ready: the call returns so, or under full autonomy goes on in recovery. */
  lemma CouncilWaits(config: Config, s: State, turn: Turn, reason: Reason, record: A.Record)
    requires !Terminal(s.workflow.status) && !Waiting(s.workflow.status) && s.execution.pending == []
    requires FindsNothing(s, turn, reason, record) && record.waiting
    ensures var flow := Proceeded(config, s, turn);
      if config.fullAutonomy then flow.Continue? && flow.state.workflow.status.NeedsRecovery?
      else flow.Break? && flow.state.workflow.status.WaitingExternal? && flow.state.execution.current.None?
  {
    assert Planned(s, turn) == Some(NothingSelected(ObservedState(s), reason, record, turn.validation));
  }

  lemma ValidationSettles(s: State, reason: Reason, record: A.Record, validation: Validation)
    requires AboutValidation(reason) && !record.waiting && !record.ready && record.action.None?
    ensures var p := NothingSelected(s, reason, record, validation);
      && TerminalOrFinalizable(p) && !Waiting(p.workflow.status) && p.execution.current.None?
      && (if validation.Validated? then Marks(s, p, "validation", true)
          else p.workflow.stageStatus == s.workflow.stageStatus && p.workflow.completed == s.workflow.completed)
  {
  }

  lemma NothingStops(config: Config, s: State, turn: Turn, p: State)
    requires !Terminal(s.workflow.status) && !AtBoundary(s) && Planned(s, turn) == Some(p)
    requires p.execution.current.None? && (Terminal(p.workflow.status) || p.workflow.status.ReadyToFinalize?)
    ensures Proceeded(config, s, turn) == Break(p)
  {
  }

  /** A council about validation that selects nothing completes the stage with the report that
      is then computed, whether or not it is ready. */
  lemma ValidationIsComputed(config: Config, s: State, turn: Turn, reason: Reason, record: A.Record)
    requires !Terminal(s.workflow.status) && !Waiting(s.workflow.status) && s.execution.pending == []
    requires FindsNothing(s, turn, reason, record) && AboutValidation(reason) && !record.waiting && !record.ready
    ensures var flow := Proceeded(config, s, turn);
      && flow.Break?
      && (if turn.validation.Validated? then Marks(s, flow.state, "validation", true)
          else flow.state.workflow.stageStatus == s.workflow.stageStatus
               && flow.state.workflow.completed == s.workflow.completed)
  {
    var p := NothingSelected(ObservedState(s), reason, record, turn.validation);
    assert Planned(s, turn) == Some(p);
    ObservationKeepsStages(s);
    ValidationSettles(ObservedState(s), reason, record, turn.validation);
    NothingStops(config, s, turn, p);
  }

  /** An action that a council selects is executed under the plan that comes with it, in a run
      that has begun. */
  lemma CouncilPlans(s: State, turn: Turn, p: State, r: A.Request)
    requires DeliberationReason(s, turn.before).Some? && Executes(s, turn, p, r) && s.execution.pending == []
    ensures p.workflow == (if s.workflow.status.Pending? then s.workflow.(status := Running) else s.workflow)
    ensures p.services == Services(s.services.terminationRequested, Some(turn.planned))
    ensures p.execution.checkpoint == Checkpoint(s.workflow.completed, None)
  {
  }

  /** A failure council that selects nothing asks a person when there is evidence of a failed
      relaxation, with the options it was given. */
  lemma RelaxFailureAsksPerson(s: State, turn: Turn, reason: Reason, record: A.Record)
    requires DeliberationReason(s, turn.before) == Some(reason) && turn.relaxEvidence
    requires reason.FailureSeen? || (reason.ResumeEvent? && Saw(ObservedState(s), Failure))
    requires var c := turn.council;
      A.Arbitrated(c.desk, c.proposals, c.critiques, c.preferences, c.reply) == A.Recorded(record)
    requires record.action.None?
    ensures exists p :: Executes(s, turn, p, A.Request("escalate_human", None, turn.options, false, false))
  {
    var p := Planned(s, turn).value;
    assert Executes(s, turn, p, A.Request("escalate_human", None, turn.options, false, false));
  }

  /** What the checkpoint, or without one the run, counts as completed. */
  function Known(s: State): seq<string> {
    if s.execution.checkpoint.completed != [] then s.execution.checkpoint.completed else s.workflow.completed
  }

  /** Between councils the contract is followed: the next capability that is not known as
      completed is run, without flags; when there is none the run stays and the next turn
      deliberates. */
  lemma ContractIsFollowed(config: Config, s: State, turn: Turn)
    requires DeliberationReason(s, turn.before).None? && Open(s) && !Waiting(s.workflow.status)
    requires s.execution.pending == []
    ensures var next := NextAfter(Known(s), s.services.contract.value);
      if next.Some? then exists p :: Executes(s, turn, p, A.Request("run_capability", next, map[], false, false))
      else
        var flow := Proceeded(config, s, turn);
        && flow.Continue? && flow.state.workflow == s.workflow && DeliberationReason(flow.state, turn.after).Some?
  {
    var next := NextAfter(Known(s), s.services.contract.value);
    if next.Some? {
      var p := Planned(s, turn).value;
      assert Executes(s, turn, p, A.Request("run_capability", next, map[], false, false));
    }
  }

  // What is legal

  /** The check has an objection to the action. */
  ghost predicate Objected(config: Config, s: State, r: A.Request) {
    var target := Text(r.target);
    || r.family !in A.LOCAL_FAMILIES + {"repair_execution_context", "escalate_human"}
    || s.workflow.status in {Completed, Failed, Aborted, Skipped}
    || ((r.submit || r.wait) && config.fullAutonomy && !config.allowExternalWait)
    || (s.workflow.status.WaitingExternal? && s.execution.pending == []
        && r.family !in {"abort_material", "escalate_human"})
    || (s.workflow.status.WaitingExternal? && r.family == "finalize_material")
    || (r.family in {"run_capability", "retry_capability", "rerun_from_capability", "refine_sampling",
                     "revalidate_result"}
        && (target == "" || UnderwayOn(s, target)))
    || (target != "" && target !in STAGE_ORDER)
    || (r.family == "retry_capability" && Retry.CountOf(s.workflow.retries, target) >= config.retryBudget)
    || (r.family == "refine_sampling" && s.workflow.rounds >= config.maxRounds)
    || (r.family in {"invalidate_channel", "skip_channel"}
        && LegalityHasTargets(config.render, r.family, r.params) != Some(true))
  }

  ghost predicate UnderwayOn(s: State, target: string) {
    exists job :: job in s.execution.jobs && job.target == target && job.status in {"submitted", "running", "waiting"}
  }

  /** An action that does not raise is allowed exactly when there is no objection to it, the
      task board's included. */
  lemma AllowedIffNotObjected(config: Config, s: State, r: A.Request, otherwiseLegal: bool)
    requires ChannelsSeen(config, r).Some?
    ensures Allowed(config, s, r, otherwiseLegal) <==> otherwiseLegal && !Objected(config, s, r)
  {
    if JobUnderway(s.execution.jobs, Text(r.target)) {
      var i :| 0 <= i < |s.execution.jobs| && s.execution.jobs[i].target == Text(r.target)
        && s.execution.jobs[i].status in {"submitted", "running", "waiting"};
      assert s.execution.jobs[i] in s.execution.jobs;
    }
  }

  // What legal actions do

  /** The turn comes to execute the action in a run that goes on and does not wait. */
  ghost predicate Reaches(s: State, turn: Turn, p: State, r: A.Request) {
    s.execution.pending == [] && Open(s) && !Waiting(s.workflow.status) && Executes(s, turn, p, r)
  }

  /** And the action is legal. */
  ghost predicate Performs(config: Config, s: State, turn: Turn, p: State, r: A.Request) {
    && Reaches(s, turn, p, r)
    && ChannelsSeen(config, r).Some? && Allowed(config, p, r, turn.tooling.otherwiseLegal)
  }

  /** The run goes on with this status and observation. */
  ghost predicate GoesOnWith(flow: Flow, status: RunStatus, target: string, verdict: Verdict) {
    && flow.Continue? && flow.state.workflow.status == status
    && flow.state.execution.observation == Some(Observation(target, verdict))
  }

  /** The stage has this verdict, counts as completed when it was successful, and no other
      stage is touched. */
  ghost predicate Marks(s: State, d: State, stage: string, success: bool) {
    && stage in d.workflow.stageStatus && d.workflow.stageStatus[stage] == success
    && (forall other :: other != stage ==>
          && (other in d.workflow.stageStatus <==> other in s.workflow.stageStatus)
          && (other in s.workflow.stageStatus ==> d.workflow.stageStatus[other] == s.workflow.stageStatus[other]))
    && (forall other :: other in d.workflow.completed <==>
          other in s.workflow.completed || (success && other == stage))
  }

  lemma DeliberationKeepsStages(s: State, turn: Turn, reason: Reason)
    requires s.execution.pending == [] && Deliberated(s, reason, turn).Some?
    requires Deliberated(s, reason, turn).value.execution.current.Some?
    ensures var p := Deliberated(s, reason, turn).value;
      p.workflow.stageStatus == s.workflow.stageStatus && p.workflow.completed == s.workflow.completed
  {
    ObservationKeepsStages(s);
  }

  lemma ObservationKeepsStages(s: State)
    requires s.execution.pending == []
    ensures ObservedState(s).workflow == s.workflow.(status := ObservedState(s).workflow.status)
  {
  }

  lemma PlanKeepsStages(s: State, turn: Turn, p: State, r: A.Request)
    requires Reaches(s, turn, p, r)
    ensures p.workflow.stageStatus == s.workflow.stageStatus && p.workflow.completed == s.workflow.completed
    ensures !p.services.terminationRequested && !Waiting(p.workflow.status) && p.execution.pending == []
  {
    var reason := DeliberationReason(s, turn.before);
    if reason.Some? {
      DeliberationKeepsStages(s, turn, reason.value);
    }
  }

  lemma EffectGoesOn(config: Config, s: State, turn: Turn, p: State, r: A.Request, d: State)
    requires Performs(config, s, turn, p, r) && r.family != "escalate_human"
    requires ExecutedAndCounted(config, p, r, turn.tooling) == Some(d)
    requires !d.services.terminationRequested && (d.workflow.status.Running? || d.workflow.status.NeedsRecovery?)
    ensures var flow := Proceeded(config, s, turn);
      && flow.Continue? && flow.state.workflow == d.workflow
      && flow.state.execution.observation == d.execution.observation
  {
    var done := Checked(d, DeliberationReason(d, turn.after));
    assert Acted(config, p, p.execution.current.value, turn) == Some(done);
    ActionGoesOn(config, s, turn, p, done);
  }

  lemma ActionGoesOn(config: Config, s: State, turn: Turn, p: State, d: State)
    requires !Terminal(s.workflow.status) && !AtBoundary(s) && Planned(s, turn) == Some(p)
    requires p.execution.current.Some? && Acted(config, p, p.execution.current.value, turn) == Some(d) && Open(d)
    requires !Waiting(d.workflow.status)
    ensures Proceeded(config, s, turn) == Continue(d)
  {
  }

  /** The action is one that runs the tool of a stage. */
  ghost predicate RunsTool(r: A.Request, tooling: Tooling) {
    && (r.family in {"run_capability", "retry_capability", "rerun_from_capability", "repair_execution_context"}
        || (r.family == "refine_sampling" && tooling.points.keys != []))
    && r.target.Some? && r.target.value !in {"", "validation"}
    && ((!r.submit && !r.wait) || r.target.value == "prepare")
  }

  /** What the tool of a stage answers is observed and marked on it, and the run goes on,
      into recovery when it failed. */
  lemma StageIsRun(config: Config, s: State, turn: Turn, p: State, r: A.Request)
    requires RunsTool(r, turn.tooling)
    ensures Performs(config, s, turn, p, r) ==>
      var flow, result := Proceeded(config, s, turn), turn.tooling.result;
      && GoesOnWith(flow, if result.Success? then Running else NeedsRecovery, r.target.value, result)
      && Marks(s, flow.state, r.target.value, result.Success?)
  {
    if Performs(config, s, turn, p, r) {
      PlanKeepsStages(s, turn, p, r);
      StageExecution(config, p, r, turn.tooling);
      EffectGoesOn(config, s, turn, p, r, ExecutedAndCounted(config, p, r, turn.tooling).value);
    }
  }

  lemma StageExecution(config: Config, p: State, r: A.Request, tooling: Tooling)
    requires RunsTool(r, tooling)
    requires ChannelsSeen(config, r).Some? && Allowed(config, p, r, tooling.otherwiseLegal)
    ensures var d := ExecutedAndCounted(config, p, r, tooling);
      && d.Some? && d.value.services == p.services
      && d.value.workflow.status == (if tooling.result.Success? then Running else NeedsRecovery)
      && d.value.execution.observation == Some(Observation(r.target.value, tooling.result))
      && Marks(p, d.value, r.target.value, tooling.result.Success?)
  {
    var refined := if r.family == "refine_sampling" then Refined(p, tooling) else p;
    assert Executed(config, p, r, tooling) == Some(ToolRun(refined, r.target.value, tooling.result));
    ToolMarks(refined, r.target.value, tooling.result);
  }

  lemma ToolMarks(p: State, stage: string, result: Verdict)
    ensures Marks(p, ToolRun(p, stage, result), stage, result.Success?)
  {
  }

  /** A validation succeeds and is marked, whatever is validated anew. */
  lemma ValidationIsMarked(config: Config, s: State, turn: Turn, p: State, r: A.Request)
    requires r.family == "revalidate_result" || (r.family == "run_capability" && r.target == Some("validation"))
    ensures Performs(config, s, turn, p, r) ==>
      var flow := Proceeded(config, s, turn);
      GoesOnWith(flow, Running, "validation", Success) && Marks(s, flow.state, "validation", true)
  {
    if Performs(config, s, turn, p, r) {
      PlanKeepsStages(s, turn, p, r);
      ToolMarks(p, "validation", Success);
      assert Executed(config, p, r, turn.tooling) == Some(ToolRun(p, "validation", Success));
      EffectGoesOn(config, s, turn, p, r, ExecutedAndCounted(config, p, r, turn.tooling).value);
    }
  }

  lemma ChannelExecution(config: Config, p: State, r: A.Request, tooling: Tooling, channels: seq<string>)
    requires IsChannelFamily(r.family) && Text(r.target) != "validation"
    requires ChannelsSeen(config, r).Some? && Allowed(config, p, r, tooling.otherwiseLegal)
    requires ExecutorTargets(config.render, r.params) == Some(channels)
    ensures var d := ExecutedAndCounted(config, p, r, tooling);
      && d.Some? && d.value.services == p.services && d.value.workflow.stageStatus == p.workflow.stageStatus
      && d.value.workflow.status == (if channels != [] then Running else NeedsRecovery)
      && d.value.execution.observation
         == Some(Observation(Text(r.target), if channels != [] then Success else Failure))
  {
  }

  lemma UnreadableRaises(config: Config, s: State, turn: Turn, p: State, r: A.Request)
    requires IsChannelFamily(r.family) && Text(r.target) != "validation"
    requires Performs(config, s, turn, p, r) && ExecutorTargets(config.render, r.params).None?
    ensures Proceeded(config, s, turn).Raise?
  {
    assert Executed(config, p, r, turn.tooling).None?;
  }

  /** An action on channels succeeds exactly when the executor reads some; no stage is
      touched. Channels that cannot be read raise. */
  lemma ChannelsAreActedOn(config: Config, s: State, turn: Turn, p: State, r: A.Request)
    requires r.family in {"skip_channel", "invalidate_channel"} && Text(r.target) != "validation"
    ensures Performs(config, s, turn, p, r) ==>
      var flow, channels := Proceeded(config, s, turn), ExecutorTargets(config.render, r.params);
      if channels.None? then flow.Raise?
      else
        var found := channels.value != [];
        && GoesOnWith(flow, if found then Running else NeedsRecovery, Text(r.target),
             if found then Success else Failure)
        && flow.state.workflow.stageStatus == s.workflow.stageStatus
  {
    if Performs(config, s, turn, p, r) {
      if ExecutorTargets(config.render, r.params).None? {
        UnreadableRaises(config, s, turn, p, r);
      } else {
        PlanKeepsStages(s, turn, p, r);
        ChannelExecution(config, p, r, turn.tooling, ExecutorTargets(config.render, r.params).value);
        EffectGoesOn(config, s, turn, p, r, ExecutedAndCounted(config, p, r, turn.tooling).value);
      }
    }
  }

  lemma EmptyExecution(config: Config, p: State, r: A.Request, tooling: Tooling)
    requires (r.family == "refine_sampling" && tooling.points.keys == [])
      || (r.family == "repair_execution_context" && Text(r.target) == "")
    requires ChannelsSeen(config, r).Some? && Allowed(config, p, r, tooling.otherwiseLegal)
    ensures var d := ExecutedAndCounted(config, p, r, tooling);
      && d.Some? && d.value.services == p.services && d.value.workflow.stageStatus == p.workflow.stageStatus
      && d.value.workflow.status.NeedsRecovery?
      && d.value.execution.observation == Some(Observation(Text(r.target), Failure))
  {
  }

  /** A refinement without fresh points, and an action on no stage, only send the run into
      recovery. */
  lemma NothingIsRun(config: Config, s: State, turn: Turn, p: State, r: A.Request)
    requires (r.family == "refine_sampling" && turn.tooling.points.keys == [])
      || (r.family == "repair_execution_context" && Text(r.target) == "")
    ensures Performs(config, s, turn, p, r) ==>
      var flow := Proceeded(config, s, turn);
      && GoesOnWith(flow, NeedsRecovery, Text(r.target), Failure)
      && flow.state.workflow.stageStatus == s.workflow.stageStatus
  {
    if Performs(config, s, turn, p, r) {
      PlanKeepsStages(s, turn, p, r);
      EmptyExecution(config, p, r, turn.tooling);
      EffectGoesOn(config, s, turn, p, r, ExecutedAndCounted(config, p, r, turn.tooling).value);
    }
  }

  /** A repair that submits puts its job last, in place of any with its id, and waits for it:
      under full autonomy the wait is recovered from at once, otherwise the call returns,
      waiting. */
  lemma SubmissionWaits(config: Config, s: State, turn: Turn, p: State, r: A.Request)
    requires r.family == "repair_execution_context" && (r.submit || r.wait)
    requires r.target.Some? && r.target.value !in {"", "validation", "prepare"}
    ensures Performs(config, s, turn, p, r) ==>
      var flow := Proceeded(config, s, turn);
      var asked := if "job_id" in r.params then r.params["job_id"] else Null;
      var id := if asked.Str? && asked.s != "" then asked.s
                else if Truthy(asked) && config.render(asked) != "" then config.render(asked)
                else turn.tooling.generatedJobId;
      if config.fullAutonomy then flow.Continue? && flow.state.workflow.status.NeedsRecovery?
      else
        && flow.Break? && flow.state.workflow.status.WaitingExternal?
        && flow.state.execution.markers == Markers(id, r.target.value)
        && flow.state.execution.observation == Some(Observation(r.target.value, InProgress))
        && |flow.state.execution.jobs| > 0
        && flow.state.execution.jobs[|flow.state.execution.jobs| - 1] == Job(id, r.target.value, "submitted")
  {
    if Performs(config, s, turn, p, r) {
      PlanKeepsStages(s, turn, p, r);
      SubmissionExecutes(config, p, r, turn.tooling);
      var d := ExecutedAndCounted(config, p, r, turn.tooling).value;
      WaitFollows(config, s, turn, p, Checked(d, DeliberationReason(d, turn.after)));
    }
  }

  lemma WaitFollows(config: Config, s: State, turn: Turn, p: State, d: State)
    requires !Terminal(s.workflow.status) && !AtBoundary(s) && Planned(s, turn) == Some(p)
    requires p.execution.current.Some? && Acted(config, p, p.execution.current.value, turn) == Some(d)
    requires !d.services.terminationRequested && d.workflow.status.WaitingExternal? && d.execution.pending == []
    ensures Proceeded(config, s, turn) == if config.fullAutonomy then Continue(Recovered(config, d)) else Break(d)
  {
  }

  lemma SubmissionExecutes(config: Config, p: State, r: A.Request, tooling: Tooling)
    requires r.family == "repair_execution_context" && (r.submit || r.wait)
    requires r.target.Some? && r.target.value !in {"", "validation", "prepare"}
    requires Allowed(config, p, r, tooling.otherwiseLegal)
    ensures ExecutedAndCounted(config, p, r, tooling).Some?
    ensures var d := ExecutedAndCounted(config, p, r, tooling).value;
      d == Submitted(config, p, r, r.target.value, tooling.generatedJobId).(workflow := d.workflow)
      && d.workflow.status.WaitingExternal?
  {
  }

  /** A person who neither completes, skips nor aborts sets the run going again, with the stage
      to resume from as the last success. */
  lemma PersonResumes(config: Config, s: State, turn: Turn, p: State, r: A.Request)
    requires r.family == "escalate_human" && !turn.human.timedOut
    requires turn.human.action !in {"complete_material", "skip_material", "abort_task"}
    ensures Reaches(s, turn, p, r) ==>
      GoesOnWith(Proceeded(config, s, turn), Running, turn.human.resumeStage, Success)
  {
    if Reaches(s, turn, p, r) {
      PlanKeepsStages(s, turn, p, r);
      var d := Acted(config, p, p.execution.current.value, turn).value;
      ActionGoesOn(config, s, turn, p, d);
    }
  }

  /** An action that ends the run is observed on its target: a finalize as a success, an abort
      or an illegal action as a failure. */
  lemma LastActionIsObserved(config: Config, s: State, turn: Turn, p: State, r: A.Request, status: RunStatus)
    requires ActionEndsAs(config, p, r, turn.tooling, status)
    ensures Reaches(s, turn, p, r) ==>
      var flow := Proceeded(config, s, turn);
      && flow.Break?
      && flow.state.execution.observation
         == Some(Observation(Text(r.target), if status.Completed? then Success else Failure))
  {
    if Reaches(s, turn, p, r) {
      ActionBreaks(config, p, p.execution.current.value, turn, status);
      var d := Acted(config, p, p.execution.current.value, turn).value;
      PickedActionStops(config, s, turn, p, p.execution.current.value, d);
    }
  }

  /** So is a person's decision that ends it: completion as a success, a skip as an omission,
      an abort as a failure. */
  lemma LastDecisionIsObserved(config: Config, s: State, turn: Turn, p: State, r: A.Request, status: RunStatus)
    requires PersonEndsAs(r, turn.human, status)
    ensures Reaches(s, turn, p, r) ==>
      var flow := Proceeded(config, s, turn);
      && flow.Break?
      && flow.state.execution.observation
         == Some(Observation(Text(r.target),
              if status.Completed? then Success else if status.Skipped? then Omitted else Failure))
  {
    if Reaches(s, turn, p, r) {
      PersonBreaks(config, p, p.execution.current.value, turn, status);
      var d := Acted(config, p, p.execution.current.value, turn).value;
      PickedActionStops(config, s, turn, p, p.execution.current.value, d);
    }
  }

  /** How an execution enters into the retry counts: a stage's tool with its result, unless the
      stage is "prepare", a submission as such, and everything else not at all. A text that looks
      like a refusal is only read where a tool ran. */
  lemma ExecutionCountsAs(r: A.Request, tooling: Tooling)
    ensures var target, step := Text(r.target), StepOf(r, tooling);
      && step.family == r.family && step.target == target
      && (RunsTool(r, tooling) && target != "prepare" ==>
            step.branch == Retry.ToolRan(tooling.result.Success?) && step.disguised == tooling.disguised)
      && (r.family == "repair_execution_context" && (r.submit || r.wait) ==>
            target in {"", "validation", "prepare"} || (step.branch.Submitted? && !step.disguised))
      && (target == "prepare" ==> step.branch.Uncounted? && step.disguised == tooling.disguised)
      && (|| target in {"", "validation"}
          || r.family in {"finalize_material", "abort_material", "skip_channel", "invalidate_channel"}
          || (r.family == "refine_sampling" && tooling.points.keys == [])
          ==> step.branch.Uncounted?)
  {
  }

  // Waiting

  /** A run that waits with no event at hand is not waited for under full autonomy: the turn
      gives up the job that blocks, known by its marker or by the action that is current,
      takes its flags away, counts what was in progress as failed, and goes on in recovery.
      Otherwise the call returns it as it is. */
  lemma WaitIsLeft(config: Config, s: State, turn: Turn)
    requires Waiting(s.workflow.status) && s.execution.pending == []
    ensures var flow := Proceeded(config, s, turn);
      if !config.fullAutonomy then flow == Break(s)
      else
        && flow.Continue? && flow.state.workflow == s.workflow.(status := NeedsRecovery)
        && flow.state.services == s.services && flow.state.execution.markers == Markers("", "")
        && flow.state.execution.observation
           == (if Saw(s, InProgress) then Some(Observation(ObservedTarget(s), Failure)) else s.execution.observation)
        && (flow.state.execution.current.Some? <==> s.execution.current.Some?)
        && (s.execution.current.Some? ==>
              !flow.state.execution.current.value.request.submit && !flow.state.execution.current.value.request.wait
              && flow.state.execution.current.value.request.target == s.execution.current.value.request.target)
        && forall job :: job in flow.state.execution.jobs <==>
             job in s.execution.jobs && !Blocks(config, s, job)
  {
    UnblockedKeeps(s.execution.jobs, BlockedJob(config, s), BlockedCapability(s));
  }

  ghost predicate Blocks(config: Config, s: State, job: Job) {
    var x := s.execution;
    var id := if x.markers.jobId != "" then x.markers.jobId
              else if x.current.Some? then JobParameter(config, x.current.value.request) else "";
    var stage := if x.markers.awaiting != "" then x.markers.awaiting
                 else if x.current.Some? then Text(x.current.value.request.target) else "";
    (id != "" && job.id == id) || (stage != "" && job.target == stage)
  }
}
