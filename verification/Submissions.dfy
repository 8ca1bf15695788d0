/** External jobs, their events, and the submit and wait flags over the turns and calls of
    drive (mobility_agent/graph/runtime_nodes.py:634-656, 1715-1742;
    mobility_agent/runtime/agentic_controller.py:2072-2098, 2183-2202). */
module Submissions {
  import opened Channels
  import opened Runtime
  import opened Runs
  import opened Sessions
  import opened Progress
  import A = Arbitration

  // External jobs

  ghost predicate JobsDistinct(jobs: seq<Job>) {
    forall i, j :: 0 <= i < j < |jobs| ==> jobs[i].id != jobs[j].id
  }

  lemma {:induction false} EventKeepsJobIds(jobs: seq<Job>, e: Event)
    ensures |JobsAfter(jobs, e)| == |jobs|
    ensures forall i :: 0 <= i < |jobs| ==> JobsAfter(jobs, e)[i] == JobAfter(jobs[i], e)
  {
    if jobs != [] {
      EventKeepsJobIds(jobs[1..], e);
    }
  }

  lemma {:induction false} RecoveryKeepsDistinct(jobs: seq<Job>, id: string, capability: string)
    requires JobsDistinct(jobs)
    ensures JobsDistinct(Unblocked(jobs, id, capability))
  {
    if jobs != [] {
      RecoveryKeepsDistinct(jobs[1..], id, capability);
      UnblockedKeeps(jobs[1..], id, capability);
      var rest := Unblocked(jobs[1..], id, capability);
      forall i | 0 <= i < |rest|
        ensures rest[i].id != jobs[0].id
      {
        assert rest[i] in rest;
        var j :| 0 <= j < |jobs[1..]| && jobs[1..][j] == rest[i];
        assert jobs[j + 1] == rest[i];
      }
    }
  }

  lemma {:induction false} WithoutJobKeeps(jobs: seq<Job>, id: string)
    ensures forall job :: job in WithoutJob(jobs, id) <==> job in jobs && job.id != id
    ensures JobsDistinct(jobs) ==> JobsDistinct(WithoutJob(jobs, id))
  {
    if jobs != [] {
      WithoutJobKeeps(jobs[1..], id);
      var rest := WithoutJob(jobs[1..], id);
      assert jobs == [jobs[0]] + jobs[1..];
      if JobsDistinct(jobs) {
        forall i | 0 <= i < |rest|
          ensures rest[i].id != jobs[0].id
        {
          assert rest[i] in rest;
          var j :| 0 <= j < |jobs[1..]| && jobs[1..][j] == rest[i];
          assert jobs[j + 1] == rest[i];
        }
      }
    }
  }

  /** A submission replaces the job of the same id and is the last of the list. */
  lemma SubmissionKeepsDistinct(config: Config, s: State, r: A.Request, target: string, generatedJobId: string)
    requires JobsDistinct(s.execution.jobs)
    ensures JobsDistinct(Submitted(config, s, r, target, generatedJobId).execution.jobs)
  {
    var given := JobParameter(config, r);
    var id := if given != "" then given else generatedJobId;
    WithoutJobKeeps(s.execution.jobs, id);
    var kept := WithoutJob(s.execution.jobs, id);
    assert forall i :: 0 <= i < |kept| ==> kept[i] in kept;
  }

  lemma EntryJobs(s: State)
    ensures Entered(s).execution.jobs ==
      if s.execution.pending == [] then s.execution.jobs else JobsAfter(s.execution.jobs, s.execution.pending[0])
  {
  }

  lemma EntryKeepsDistinct(s: State)
    requires JobsDistinct(s.execution.jobs)
    ensures JobsDistinct(Entered(s).execution.jobs)
  {
    EntryJobs(s);
    if s.execution.pending != [] {
      EventKeepsJobIds(s.execution.jobs, s.execution.pending[0]);
    }
  }

  // One turn, all turns, all calls

  ghost predicate SparesJobs(before: State, after: State) {
    JobsDistinct(before.execution.jobs) ==> JobsDistinct(after.execution.jobs)
  }

  lemma DispatchSparesJobs(config: Config, s: State, r: A.Request, target: string, tooling: Tooling)
    requires Dispatched(config, s, r, target, tooling).Some?
    ensures var d := Dispatched(config, s, r, target, tooling).value;
      SparesJobs(s, d) && (d.execution.jobs == s.execution.jobs || r.submit || r.wait)
  {
    if JobsDistinct(s.execution.jobs) {
      SubmissionKeepsDistinct(config, s, r, target, tooling.generatedJobId);
    }
  }

  lemma PerformanceSparesJobs(config: Config, s: State, r: A.Request, tooling: Tooling)
    requires Performed(config, s, r, tooling).Some?
    ensures var d := Performed(config, s, r, tooling).value;
      SparesJobs(s, d) && (d.execution.jobs == s.execution.jobs || r.submit || r.wait)
  {
    var refining := r.family == "refine_sampling";
    var target := if refining && Text(r.target) == "" then "strain_loop" else Text(r.target);
    var counted := if refining then Refined(s, tooling) else s;
    if Dispatched(config, counted, r, target, tooling).Some? {
      DispatchSparesJobs(config, counted, r, target, tooling);
    }
  }

  lemma ActingSparesJobs(config: Config, s: State, a: A.Action, turn: Turn)
    requires Acted(config, s, a, turn).Some?
    ensures var d := Acted(config, s, a, turn).value;
      SparesJobs(s, d) && (d.execution.jobs == s.execution.jobs || a.request.submit || a.request.wait)
  {
    var r := a.request;
    if r.family != "escalate_human" && Performed(config, s, r, turn.tooling).Some? {
      PerformanceSparesJobs(config, s, r, turn.tooling);
    }
  }

  lemma WaitSparesJobs(config: Config, s: State)
    ensures SparesJobs(s, AtWait(config, s).state)
  {
    if JobsDistinct(s.execution.jobs) {
      RecoveryKeepsDistinct(s.execution.jobs, BlockedJob(config, s), BlockedCapability(s));
    }
  }

  ghost predicate FlowSparesJobs(s: State, flow: Flow) {
    flow.Raise? || SparesJobs(s, flow.state)
  }

  lemma CarryingSparesJobs(config: Config, planned: State, turn: Turn)
    ensures FlowSparesJobs(planned, Carried(config, planned, turn))
  {
    if planned.execution.current.Some? {
      var acted := Acted(config, planned, planned.execution.current.value, turn);
      if acted.Some? {
        ActingSparesJobs(config, planned, planned.execution.current.value, turn);
        WaitSparesJobs(config, acted.value);
      }
    } else {
      WaitSparesJobs(config, planned);
    }
  }

  lemma ProceedingSparesJobs(config: Config, s: State, turn: Turn)
    requires s.execution.pending == []
    ensures FlowSparesJobs(s, Proceeded(config, s, turn))
  {
    WaitSparesJobs(config, s);
    if Planned(s, turn).Some? {
      CarryingSparesJobs(config, Planned(s, turn).value, turn);
    }
  }

  lemma TurnSparesJobs(config: Config, s: State, turn: Turn)
    requires |s.execution.pending| <= 1
    ensures FlowSparesJobs(s, Turned(config, s, turn))
  {
    EntryEmptiesQueue(s);
    if JobsDistinct(s.execution.jobs) {
      EntryKeepsDistinct(s);
    }
    ProceedingSparesJobs(config, Entered(s), turn);
  }

  lemma {:induction false} LoopKeepsJobs(config: Config, s: State, turns: seq<Turn>)
    requires |s.execution.pending| <= 1 && JobsDistinct(s.execution.jobs)
    ensures Looped(config, s, turns).Returned? ==> JobsDistinct(Looped(config, s, turns).state.execution.jobs)
    decreases |turns|
  {
    if turns != [] {
      EntryEmptiesQueue(s);
      TurnStandsAside(config, s, turns[0]);
      TurnSparesJobs(config, s, turns[0]);
      if Turned(config, s, turns[0]).Continue? {
        LoopKeepsJobs(config, Turned(config, s, turns[0]).state, turns[1..]);
      }
    }
  }

  /** In every reachable state the external job ids are pairwise distinct, whatever was
      submitted, reported and recovered, under whatever limits. */
  lemma {:induction false} CallsKeepJobs(s: State, calls: seq<Call>)
    requires s.execution.pending == [] && JobsDistinct(s.execution.jobs)
    ensures Played(s, calls).Some? ==> JobsDistinct(Played(s, calls).value.execution.jobs)
    decreases |calls|
  {
    if calls != [] && Driven(s, calls[0]).Returned? {
      var call, start := calls[0], Started(s, calls[0]);
      CallConsumes(s, call);
      if !Refused(start, call.event) {
        LoopKeepsJobs(call.config, if call.event.Some? then Injected(start, call.event.value) else start, call.turns);
      }
      CallsKeepJobs(Driven(s, call).state, calls[1..]);
    }
  }

  // Flags

  /** An action of a local family carries no flag. */
  predicate Quiet(r: A.Request) {
    r.family in A.LOCAL_FAMILIES ==> !r.submit && !r.wait
  }

  /** Whatever the council proposed or overrode, what is planned for execution is quiet. */
  lemma OnlyQuietActionsExecute(s: State, turn: Turn)
    requires Planned(s, turn).Some? && Planned(s, turn).value.execution.current.Some?
    ensures Quiet(Planned(s, turn).value.execution.current.value.request)
  {
    var c := turn.council;
    if DeliberationReason(s, turn.before).Some?
      && A.Selects(A.Arbitrated(c.desk, c.proposals, c.critiques, c.preferences, c.reply)) {
      A.LocalActionsDoNotWait(c.desk, c.proposals, c.critiques, c.preferences, c.reply);
    }
  }

  /** The action changed the list of external jobs: it is a repair of the execution context,
      on a known stage, and waiting is allowed. */
  ghost predicate OnlyRepairsSubmit(config: Config, s: State, a: A.Action, turn: Turn) {
    var acted := Acted(config, s, a, turn);
    acted.Some? && acted.value.execution.jobs != s.execution.jobs ==>
      && a.request.family == "repair_execution_context"
      && Text(a.request.target) in STAGE_ORDER
      && (!config.fullAutonomy || config.allowExternalWait)
  }

  lemma SubmissionIsLegal(config: Config, s: State, a: A.Action, turn: Turn)
    requires Quiet(a.request)
    ensures OnlyRepairsSubmit(config, s, a, turn)
  {
    if Acted(config, s, a, turn).Some? {
      ActingSparesJobs(config, s, a, turn);
    }
  }

  /** Of all actions planned for execution, only such repairs change the external jobs. */
  lemma SubmittersRepair(config: Config, s: State, turn: Turn)
    requires Planned(s, turn).Some? && Planned(s, turn).value.execution.current.Some?
    ensures OnlyRepairsSubmit(config, Planned(s, turn).value, Planned(s, turn).value.execution.current.value, turn)
  {
    OnlyQuietActionsExecute(s, turn);
    SubmissionIsLegal(config, Planned(s, turn).value, Planned(s, turn).value.execution.current.value, turn);
  }

  // From submission to report

  function SubmittedId(config: Config, r: A.Request, generatedJobId: string): string {
    if JobParameter(config, r) != "" then JobParameter(config, r) else generatedJobId
  }

  /** A submitted job is under way, and its completion is recognized: the event is not stale,
      marks the job and the stage, and sets the run going again. */
  lemma SubmittedJobReportsBack(config: Config, s: State, r: A.Request, stage: string, generatedJobId: string, e: Event)
    requires s.execution.pending == [] && Strip(stage) == stage != ""
    requires e.jobId == SubmittedId(config, r, generatedJobId) != "" && e.kind == "job_completed" && e.status == ""
      && e.target == ""
    ensures var submitted := Submitted(config, s, r, stage, generatedJobId);
      var resumed := Entered(Injected(submitted, e));
      && JobUnderway(submitted.execution.jobs, stage)
      && Job(e.jobId, stage, "job_completed") in resumed.execution.jobs
      && resumed.workflow.status == Running && resumed.execution.markers == Markers("", "")
      && stage in resumed.workflow.completed
      && resumed.execution.observation == Some(Observation(stage, Success))
  {
    var submitted := Submitted(config, s, r, stage, generatedJobId);
    var jobs := submitted.execution.jobs;
    var last := |jobs| - 1;
    assert jobs[last] == Job(e.jobId, stage, "submitted");
    EventKeepsJobIds(jobs, e);
    assert Injected(submitted, e).execution.pending == [e];
    CompletedJobResumes(submitted, e);
    EntryJobs(Injected(submitted, e));
    assert JobsAfter(jobs, e)[last] == Job(e.jobId, stage, "job_completed");
  }

  lemma CompletedJobResumes(s: State, e: Event)
    requires s.execution.pending == [] && !Stale(s.execution.jobs, e)
    requires e.kind == "job_completed" && e.status == "" && e.target == ""
    requires Strip(s.execution.markers.awaiting) == s.execution.markers.awaiting != ""
    ensures var resumed := Entered(Injected(s, e));
      && resumed.workflow.status == Running && resumed.execution.markers == Markers("", "")
      && s.execution.markers.awaiting in resumed.workflow.completed
      && resumed.execution.observation == Some(Observation(s.execution.markers.awaiting, Success))
  {
    assert Injected(s, e).execution.pending == [e];
  }

  /** A job that a recovery gave up is not recognized any more: its events are stale. */
  lemma RecoveredJobIsStale(config: Config, s: State, e: Event)
    requires e.jobId == BlockedJob(config, s) != "" && e.kind in JOB_EVENTS
    ensures Stale(Recovered(config, s).execution.jobs, e)
  {
    UnblockedKeeps(s.execution.jobs, BlockedJob(config, s), BlockedCapability(s));
  }

  // Stale events

  /** The stage carries the verdict of the event already. */
  predicate AlreadyMarked(w: Workflow, stage: string, e: Event) {
    && stage in w.stageStatus && w.stageStatus[stage] == (e.kind == "job_completed")
    && (e.kind == "job_completed" ==> stage in w.completed)
  }

  /** An event that is ignored as stale leaves the stages alone exactly when it names none, or
      one that carries its verdict already. */
  lemma StaleEventMarks(s: State, e: Event)
    requires s.execution.pending == [] && Stale(s.execution.jobs, e)
    ensures var stage, after := NamedStage(s, e), Entered(Injected(s, e)).workflow;
      && after.status == WaitingExternal
      && (after.stageStatus == s.workflow.stageStatus && after.completed == s.workflow.completed
          <==> stage == "" || AlreadyMarked(s.workflow, stage, e))
  {
    EntryWorkflow(s, e);
    StaleWaits(s, e);
    var stage := NamedStage(s, e);
    if stage != "" && s.workflow.stageStatus[stage := e.kind == "job_completed"] == s.workflow.stageStatus {
      assert stage in s.workflow.stageStatus;
    }
    if stage != "" && AlreadyMarked(s.workflow, stage, e) {
      assert s.workflow.stageStatus[stage := e.kind == "job_completed"] == s.workflow.stageStatus;
    }
  }

  lemma StaleWaits(s: State, e: Event)
    requires s.execution.pending == [] && Stale(s.execution.jobs, e)
    ensures Entered(Injected(s, e)).workflow.status == WaitingExternal
  {
    assert Injected(s, e).execution.pending == [e];
  }

  /** In a run that knows no job the completion of one is ignored, and still completes
      "relax". */
  lemma StaleEventCompletes()
    ensures var e := Event("e", "job_completed", "job", "relax", "", "");
      && Stale(INITIAL.execution.jobs, e)
      && "relax" in Entered(Injected(INITIAL, e)).workflow.completed && "relax" !in INITIAL.workflow.completed
  {
    StripTrims("relax");
    EntryWorkflow(INITIAL, Event("e", "job_completed", "job", "relax", "", ""));
  }

  /** The late completion of a job that a recovery gave up completes the stage it names, or
      without a name the stage last observed: the next capability of any plan is never that
      stage, although it did not run. */
  lemma LateCompletionSkips(config: Config, s: State, e: Event, planned: seq<string>)
    requires s.execution.pending == [] && e.kind == "job_completed"
    requires e.jobId == BlockedJob(config, s) != ""
    ensures var r := Recovered(config, s);
      var stage, after := NamedStage(r, e), Entered(Injected(r, e)).workflow;
      && Stale(r.execution.jobs, e) && after.status == WaitingExternal
      && (stage != "" ==> stage in after.completed && NextAfter(after.completed, planned) != Some(stage))
      && stage == Strip(if e.target != "" then e.target else ObservedTarget(s))
  {
    var r := Recovered(config, s);
    var stage := NamedStage(r, e);
    RecoveredJobIsStale(config, s, e);
    EntryWorkflow(r, e);
    StaleWaits(r, e);
    StripTrims(if e.target != "" then e.target else ObservedTarget(s));
    var after := Entered(Injected(r, e)).workflow.completed;
    if stage != "" {
      DoneGrows(r.workflow.completed, stage, stage);
      NextIsOpen(after, planned);
    }
  }
}
