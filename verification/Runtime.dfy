/** The state of one material's run and what each step of the controller makes of it
    (mobility_agent/runtime/agentic_controller.py:983-1015, 1156-1158, 1373-1533, 1603-1949,
    2037-2202; mobility_agent/graph/runtime_nodes.py:603-717, 1315-1850, 1971-2027).
    Council replies, tool results, human answers and events are arbitrary. */
module Runtime {
  import opened Channels
  import A = Arbitration
  import Retry = RetryAccounting
  import Sampling = Refinement

  // The state

  datatype RunStatus =
    | Pending | Running | WaitingExternal | NeedsHuman | NeedsRecovery | ReadyToFinalize
    | Completed | Failed | Aborted | Skipped

  predicate Terminal(status: RunStatus) {
    status.Completed? || status.Failed? || status.Aborted? || status.Skipped?
  }

  predicate Waiting(status: RunStatus) {
    status.WaitingExternal? || status.NeedsHuman?
  }

  datatype Verdict = Success | Failure | InProgress | Omitted
  datatype Observation = Observation(target: string, status: Verdict)
  datatype ActionStatus = Unset | Noop | Chosen | WaitingCouncil | Observed(status: Verdict)

  datatype Reason =
    | InitialPlan | ResumeEvent | FailureSeen | PostMobilityReview | Anomaly(target: string)
    | ValidationFollowup | Milestone | ContractCompleted | MissingSelectedAction

  /** An external event after normalization; `order` is the action of a manual override. */
  datatype Event = Event(id: string, kind: string, jobId: string, target: string, status: string, order: string)

  datatype Job = Job(id: string, target: string, status: string)
  datatype Markers = Markers(jobId: string, awaiting: string)

  /** The reason, when there is one, asks for a deliberation. */
  datatype Checkpoint = Checkpoint(completed: seq<string>, reason: Option<Reason>)

  datatype Workflow = Workflow(
    status: RunStatus, stageStatus: map<string, bool>, completed: seq<string>, rounds: nat, retries: Retry.Counts)

  datatype Execution = Execution(
    current: Option<A.Action>, actionStatus: ActionStatus, observation: Option<Observation>,
    pending: seq<Event>, latestEvent: Option<Event>, consumedIds: seq<string>,
    jobs: seq<Job>, markers: Markers, checkpoint: Checkpoint)

  /** The contract is its planned capabilities. */
  datatype Services = Services(terminationRequested: bool, contract: Option<seq<string>>)

  /** What happened, in order; the program does not read it. */
  datatype Log = Log(consumed: seq<string>, reports: nat)

  /** `plan` holds the strain points of every direction. */
  datatype State = State(workflow: Workflow, execution: Execution, services: Services, plan: Sampling.Plan, log: Log)

  const POINTS: seq<real> := [-0.02, -0.01, 0.0, 0.01, 0.02]

  const INITIAL := State(
    Workflow(Pending, map[], [], 0, map[]),
    Execution(None, Unset, None, [], None, [], [], Markers("", ""), Checkpoint([], None)),
    Services(false, None),
    map["x" := POINTS, "y" := POINTS],
    Log([], 0))

  datatype Config = Config(
    render: Rendering, fullAutonomy: bool, allowExternalWait: bool, maxRounds: nat, retryBudget: nat)

  const FINAL_REPORT := "final_report"

  // What the surroundings answer in one turn of the loop

  /** What else the choice of a deliberation reason looks at. */
  datatype View = View(lowQuality: bool, anomalies: bool, allResolved: bool)

  datatype Council = Council(
    desk: A.Desk, proposals: seq<A.Proposal>, critiques: seq<A.Critique>,
    preferences: seq<A.Preference>, reply: A.Reply)

  datatype Validation = NotComputed | NoReport | AlreadyReady | Validated(ready: bool)

  /** The points a refinement applies, and the directions it names, may be any. `disguised`
      says that the error text of the tool begins like a refusal's. */
  datatype Tooling = Tooling(
    otherwiseLegal: bool, points: Sampling.Points, channels: seq<string>, result: Verdict, disguised: bool,
    generatedJobId: string)

  datatype Human = Human(action: string, timedOut: bool, resumeStage: string)

  datatype Turn = Turn(
    before: View, council: Council, relaxEvidence: bool, options: Params, validation: Validation,
    planned: seq<string>, tooling: Tooling, human: Human, after: View)

  // Small parts

  function AddOnce(xs: seq<string>, x: string): seq<string> {
    if x in xs then xs else xs + [x]
  }

  function Text(s: Option<string>): string {
    if s.Some? then s.value else ""
  }

  function WithStatus(s: State, status: RunStatus): State {
    s.(workflow := s.workflow.(status := status))
  }

  /** The run is asked to end with this status. */
  function Terminated(s: State, status: RunStatus): State {
    WithStatus(s, status).(services := s.services.(terminationRequested := true))
  }

  /** The checkpoint as of now, with a reason to deliberate or none. */
  function Checked(s: State, reason: Option<Reason>): State {
    s.(execution := s.execution.(checkpoint := Checkpoint(s.workflow.completed, reason)))
  }

  function StageDone(s: State, stage: string, success: bool): State {
    s.(workflow := s.workflow.(
      stageStatus := s.workflow.stageStatus[stage := success],
      completed := if success then AddOnce(s.workflow.completed, stage) else s.workflow.completed))
  }

  function WithObservation(s: State, target: string, status: Verdict): State {
    s.(execution := s.execution.(observation := Some(Observation(target, status)), actionStatus := Observed(status)))
  }

  function ObservedTarget(s: State): string {
    if s.execution.observation.Some? then s.execution.observation.value.target else ""
  }

  predicate Saw(s: State, status: Verdict) {
    s.execution.observation.Some? && s.execution.observation.value.status == status
  }

  predicate ReportMarked(s: State) {
    FINAL_REPORT in s.workflow.stageStatus && s.workflow.stageStatus[FINAL_REPORT]
  }

  /** A request to end comes with a status that ends the run. */
  predicate EndsInOrder(s: State) {
    s.services.terminationRequested ==> Terminal(s.workflow.status) || s.workflow.status.ReadyToFinalize?
  }

  /** What planning and execution keep: the queue and record of events, and the log. They ask
      a run to end only with a status that ends it. */
  ghost predicate KeepsEvents(s: State, d: State) {
    && d.execution.pending == s.execution.pending && d.execution.consumedIds == s.execution.consumedIds
    && d.log == s.log
    && (!s.services.terminationRequested ==> EndsInOrder(d))
  }

  /** Rounds, retries and the strain plan. */
  ghost predicate SameAccounts(s: State, d: State) {
    d.workflow.rounds == s.workflow.rounds && d.workflow.retries == s.workflow.retries && d.plan == s.plan
  }

  /** Where an action or a contract boundary is planned, the run is not asked to end. */
  ghost predicate StaysOpen(s: State, p: State) {
    p.execution.current.Some? || p.execution.actionStatus.WaitingCouncil? ==>
      && p.services.terminationRequested == s.services.terminationRequested
      && (p.workflow.status == s.workflow.status || p.workflow.status.Running?)
  }

  ghost predicate KeepsPlan(s: State, d: State) {
    d.services.contract == s.services.contract && d.execution.checkpoint == s.execution.checkpoint
  }

  predicate TerminalOrFinalizable(s: State) {
    s.services.terminationRequested || s.workflow.status.ReadyToFinalize? || Terminal(s.workflow.status)
  }

  // External events

  const FAILURE_EVENTS: set<string> := {"job_failed", "job_timeout", "artifact_missing"}
  const JOB_EVENTS: set<string> := FAILURE_EVENTS + {"job_completed"}

  function StatusOf(e: Event): string {
    if e.status != "" then e.status else e.kind
  }

  predicate Succeeded(e: Event) {
    StatusOf(e) in {"completed", "success", "job_completed", "resume_requested", "manual_override"}
  }

  function JobAfter(job: Job, e: Event): Job {
    if e.jobId != "" && job.id == e.jobId then job.(status := StatusOf(e)) else job
  }

  function JobsAfter(jobs: seq<Job>, e: Event): seq<Job> {
    if jobs == [] then [] else [JobAfter(jobs[0], e)] + JobsAfter(jobs[1..], e)
  }

  /** The event reports on a job that is not known. */
  predicate Stale(jobs: seq<Job>, e: Event) {
    e.jobId != "" && e.kind in JOB_EVENTS && forall i :: 0 <= i < |jobs| ==> jobs[i].id != e.jobId
  }

  function TargetOf(e: Event, markers: Markers): string {
    if e.target != "" then e.target else markers.awaiting
  }

  /** _consume_pending_external_event */
  function Consumed(s: State): (r: State)
    ensures s.execution.pending != [] ==> r.execution.pending == s.execution.pending[1..]
    ensures r.workflow == s.workflow.(status := r.workflow.status) && r.plan == s.plan && KeepsPlan(s, r)
    ensures !s.services.terminationRequested ==> EndsInOrder(r)
    ensures s.execution.pending != [] && s.execution.pending[0].kind != "manual_override" ==>
      r.services == s.services && !Terminal(r.workflow.status)
  {
    if s.execution.pending == [] then s
    else
      var e := s.execution.pending[0];
      var taken := Taken(s);
      if Stale(s.execution.jobs, e) then WithStatus(taken, WaitingExternal)
      else
        var observed := taken.(execution := taken.execution.(
          markers := Markers("", ""),
          observation := Some(Observation(
            TargetOf(e, s.execution.markers), if Succeeded(e) then Success else Failure))));
        Reacted(observed, e)
  }

  /** The first event leaves the queue and is recorded, and its job is marked. */
  function Taken(s: State): State
    requires s.execution.pending != []
  {
    var e := s.execution.pending[0];
    s.(
      execution := s.execution.(
        pending := s.execution.pending[1..],
        latestEvent := Some(e),
        consumedIds := if e.id != "" then AddOnce(s.execution.consumedIds, e.id) else s.execution.consumedIds,
        jobs := JobsAfter(s.execution.jobs, e)),
      log := s.log.(consumed := s.log.consumed + [e.id]))
  }

  /** The status an event that is not stale leads to; nothing else changes but the request to
      end. */
  function Reacted(s: State, e: Event): (r: State)
    ensures r.execution == s.execution && r.log == s.log && r.workflow == s.workflow.(status := r.workflow.status)
    ensures r.services.contract == s.services.contract && r.plan == s.plan
    ensures !s.services.terminationRequested ==> EndsInOrder(r)
    ensures e.kind != "manual_override" ==> r.services == s.services && !Terminal(r.workflow.status)
  {
    if e.kind == "manual_override" then
      if e.order == "skip_material" then Terminated(s, Skipped)
      else if e.order == "abort_task" then Terminated(s, Aborted)
      else WithStatus(s, Running)
    else if e.kind == "resume_requested" then WithStatus(s, Running)
    else if !Succeeded(e) then WithStatus(s, NeedsRecovery)
    else WithStatus(s, Running)
  }

  /** _sync_external_event_progress: the latest event marks a stage, stale or not. */
  function Progressed(s: State): State {
    var kind := if s.execution.latestEvent.Some? then s.execution.latestEvent.value.kind else "";
    var stage := ProgressStage(s);
    if stage != "" && kind == "job_completed" then StageDone(s, stage, true)
    else if stage != "" && kind in FAILURE_EVENTS then StageDone(s, stage, false)
    else s
  }

  function ProgressStage(s: State): string {
    var named := if s.execution.latestEvent.Some? then s.execution.latestEvent.value.target else "";
    Strip(if named != "" then named else ObservedTarget(s))
  }

  /** The event is one the controller has consumed before. Recorded ids are stripped before
      they are compared, the event's own is not. */
  predicate Duplicate(s: State, e: Event) {
    e.id != "" && exists i :: 0 <= i < |s.execution.consumedIds| && Strip(s.execution.consumedIds[i]) == e.id
  }

  function Injected(s: State, e: Event): State {
    s.(execution := s.execution.(pending := s.execution.pending + [e], latestEvent := None))
  }

  // Deliberation

  /** next_capability_after */
  function NextAfter(completed: seq<string>, planned: seq<string>): Option<string> {
    if planned == [] then None
    else
      var capability := Strip(planned[0]);
      if capability != "" && !(exists i :: 0 <= i < |completed| && Strip(completed[i]) == capability)
      then Some(capability)
      else NextAfter(completed, planned[1..])
  }

  function DeliberationReason(s: State, view: View): Option<Reason> {
    var x := s.execution;
    var target := ObservedTarget(s);
    if s.services.contract.None? then Some(InitialPlan)
    else if x.pending != [] then Some(ResumeEvent)
    else if Waiting(s.workflow.status) then None
    else if x.checkpoint.reason.Some? then x.checkpoint.reason
    else if Saw(s, Failure) || s.workflow.status.NeedsRecovery? then Some(FailureSeen)
    else if target == "mobility" && Saw(s, Success) && view.lowQuality then Some(PostMobilityReview)
    else if view.anomalies && target in {"strain_loop", "mobility", "validation"} then Some(Anomaly(target))
    else if target == "validation" && Saw(s, Success) then Some(ValidationFollowup)
    else if target == "strain_loop" && Saw(s, Success) then Some(Milestone)
    else if NextAfter(s.workflow.completed, s.services.contract.value).None? then Some(ContractCompleted)
    else if view.allResolved || s.workflow.status.ReadyToFinalize? then Some(ContractCompleted)
    else None
  }

  /** observe_state */
  function ObservedState(s: State): State {
    var started := if s.workflow.status.Pending? then WithStatus(s, Running) else s;
    if started.workflow.status.WaitingExternal? && started.execution.pending != [] then Consumed(started) else started
  }

  predicate FailureCouncil(s: State, reason: Reason) {
    reason.FailureSeen? || (reason.ResumeEvent? && Saw(s, Failure))
  }

  function EscalateForRelax(options: Params): A.Action {
    A.Action(A.Request("escalate_human", None, options, false, false),
      Some("deterministic::relax_failure::escalate_human"), "")
  }

  predicate AboutValidation(reason: Reason) {
    reason.ValidationFollowup? || reason.PostMobilityReview? || reason == Anomaly("validation")
  }

  /** What becomes of a run for which the council chose no action. */
  function Unselected(s: State, reason: Reason, record: A.Record, validation: Validation): State {
    if record.waiting then WithStatus(s, WaitingExternal)
    else if record.ready then WithStatus(s, ReadyToFinalize)
    else if AboutValidation(reason) then
      var validated := if validation.Validated? then StageDone(s, "validation", true) else s;
      if validation.AlreadyReady? || validation == Validated(true) then WithStatus(validated, ReadyToFinalize)
      else Terminated(validated, Skipped)
    else Terminated(s, Failed)
  }

  function NothingSelected(s: State, reason: Reason, record: A.Record, validation: Validation): (r: State)
    ensures KeepsEvents(s, r) && SameAccounts(s, r) && r.execution.jobs == s.execution.jobs
    ensures ReportMarked(r) == ReportMarked(s) && r.execution.current.None?
  {
    var settled := Unselected(s.(execution := s.execution.(current := None, actionStatus := Noop)), reason, record,
      validation);
    var status := settled.workflow.status;
    var explained := Terminal(status) || Waiting(status) || status.ReadyToFinalize?;
    Checked(settled, if explained then None else Some(MissingSelectedAction))
  }

  function ActionSelected(s: State, action: A.Action, planned: seq<string>): (r: State)
    ensures KeepsEvents(s, r) && SameAccounts(s, r) && r.execution.jobs == s.execution.jobs
    ensures ReportMarked(r) == ReportMarked(s) && r.workflow == s.workflow
  {
    Checked(
      s.(execution := s.execution.(current := Some(action), actionStatus := Chosen),
         services := s.services.(contract := Some(planned))),
      None)
  }

  /** _deliberate; None when the council raises. */
  function Deliberated(s: State, reason: Reason, turn: Turn): (r: Option<State>)
    ensures r.Some? && s.execution.pending == [] ==>
      KeepsEvents(s, r.value) && SameAccounts(s, r.value) && r.value.execution.jobs == s.execution.jobs
      && ReportMarked(r.value) == ReportMarked(s) && StaysOpen(s, r.value)
  {
    var observed := ObservedState(s);
    var c := turn.council;
    match A.Arbitrated(c.desk, c.proposals, c.critiques, c.preferences, c.reply)
    case Raised => None
    case Recorded(record) =>
      if record.action.Some? then Some(ActionSelected(observed, record.action.value, turn.planned))
      else if FailureCouncil(observed, reason) && turn.relaxEvidence
      then Some(ActionSelected(observed, EscalateForRelax(turn.options), turn.planned))
      else Some(NothingSelected(observed, reason, record, turn.validation))
  }

  function RunNext(capability: string): A.Action {
    A.Action(A.Request("run_capability", Some(capability), map[], false, false), None, "")
  }

  /** _activate_contract_action */
  function Activated(s: State): (r: State)
    ensures KeepsEvents(s, r) && SameAccounts(s, r) && r.execution.jobs == s.execution.jobs
      && ReportMarked(r) == ReportMarked(s)
  {
    if s.services.contract.None? then s
    else
      var known := s.execution.checkpoint.completed;
      var next := NextAfter(if known != [] then known else s.workflow.completed, s.services.contract.value);
      if next.None?
      then Checked(s.(execution := s.execution.(current := None, actionStatus := WaitingCouncil)),
        Some(ContractCompleted))
      else Checked(s.(execution := s.execution.(current := Some(RunNext(next.value)), actionStatus := Chosen)), None)
  }

  function Planned(s: State, turn: Turn): (r: Option<State>)
    ensures r.Some? && s.execution.pending == [] ==>
      KeepsEvents(s, r.value) && SameAccounts(s, r.value) && r.value.execution.jobs == s.execution.jobs
      && ReportMarked(r.value) == ReportMarked(s) && StaysOpen(s, r.value)
  {
    var reason := DeliberationReason(s, turn.before);
    if reason.Some? then Deliberated(s, reason.value, turn) else Some(Activated(s))
  }

  // Execution

  const STAGE_ORDER: set<string> := {
    "prepare", "relax", "scf", "band", "effective_mass", "strain_loop", "refinement", "mobility", "validation",
      "report"}

  const TARGETED: set<string> := {
    "run_capability", "retry_capability", "rerun_from_capability", "refine_sampling", "revalidate_result"}

  predicate JobUnderway(jobs: seq<Job>, target: string) {
    exists i :: 0 <= i < |jobs| && jobs[i].target == target && jobs[i].status in {"submitted", "running", "waiting"}
  }

  /** check_action_legality on an action whose channels can be read; task-board, dependency
      and evidence conditions are in `otherwiseLegal`. */
  predicate Legal(config: Config, s: State, r: A.Request, hasTargets: bool, otherwiseLegal: bool) {
    var target := Text(r.target);
    && r.family in A.LOCAL_FAMILIES + {"repair_execution_context", "escalate_human"}
    && !Terminal(s.workflow.status)
    && !((r.submit || r.wait) && config.fullAutonomy && !config.allowExternalWait)
    && (s.workflow.status.WaitingExternal? && s.execution.pending == []
      ==> r.family in {"abort_material", "escalate_human"})
    && (r.family in TARGETED ==> target != "" && !JobUnderway(s.execution.jobs, target))
    && (IsChannelFamily(r.family) ==> hasTargets)
    && (target != "" ==> target in STAGE_ORDER)
    && (r.family == "retry_capability" && target != "" ==>
          Retry.CountOf(s.workflow.retries, target) < config.retryBudget)
    && (r.family == "refine_sampling" ==> s.workflow.rounds < config.maxRounds)
    && (r.family == "finalize_material" ==> !s.workflow.status.WaitingExternal?)
    && otherwiseLegal
  }

  /** What the check finds of target channels; None when it raises. */
  function ChannelsSeen(config: Config, r: A.Request): Option<bool> {
    if IsChannelFamily(r.family) then LegalityHasTargets(config.render, r.family, r.params) else Some(false)
  }

  predicate Allowed(config: Config, s: State, r: A.Request, otherwiseLegal: bool) {
    ChannelsSeen(config, r).Some? && Legal(config, s, r, ChannelsSeen(config, r).value, otherwiseLegal)
  }

  function WithoutJob(jobs: seq<Job>, id: string): seq<Job> {
    if jobs == [] then []
    else if jobs[0].id == id then WithoutJob(jobs[1..], id)
    else [jobs[0]] + WithoutJob(jobs[1..], id)
  }

  function JobParameter(config: Config, r: A.Request): string {
    if Truthy(Get(r.params, "job_id")) then Show(config.render, Get(r.params, "job_id")) else ""
  }

  function Submitted(config: Config, s: State, r: A.Request, target: string, generatedJobId: string): State {
    var given := JobParameter(config, r);
    var id := if given != "" then given else generatedJobId;
    WithStatus(
      WithObservation(
        s.(execution := s.execution.(
          jobs := WithoutJob(s.execution.jobs, id) + [Job(id, target, "submitted")],
          markers := Markers(id, target))),
        target, InProgress),
      WaitingExternal)
  }

  function ToolRun(s: State, stage: string, result: Verdict): State {
    WithObservation(
      WithStatus(StageDone(s, stage, result.Success?), if result.Success? then Running else NeedsRecovery),
      stage, result)
  }

  /** The effect of a legal action; None when its channels cannot be read. */
  function Performed(config: Config, s: State, r: A.Request, tooling: Tooling): (d: Option<State>)
    ensures d.Some? ==>
      KeepsEvents(s, d.value) && KeepsPlan(s, d.value) && d.value.workflow.retries == s.workflow.retries
    ensures d.Some? ==> !d.value.workflow.status.Failed?
  {
    if r.family != "refine_sampling" then Dispatched(config, s, r, Text(r.target), tooling)
    else
      var target := if Text(r.target) == "" then "strain_loop" else Text(r.target);
      if tooling.points.keys == [] then Some(WithObservation(WithStatus(s, NeedsRecovery), target, Failure))
      else Dispatched(config, Refined(s, tooling), r, target, tooling)
  }

  /** The points are merged into the plan, and the round is counted. */
  function Refined(s: State, tooling: Tooling): State {
    s.(workflow := s.workflow.(rounds := s.workflow.rounds + 1),
       plan := Sampling.Extended(
         s.plan, tooling.points.at, if tooling.channels == [] then tooling.points.keys else tooling.channels))
  }

  function Dispatched(config: Config, s: State, r: A.Request, target: string, tooling: Tooling): (d: Option<State>)
    ensures d.Some? ==> KeepsEvents(s, d.value) && KeepsPlan(s, d.value) && SameAccounts(s, d.value)
    ensures d.Some? ==> !d.value.workflow.status.Failed?
  {
    if r.family == "finalize_material" then Some(WithObservation(Terminated(s, ReadyToFinalize), target, Success))
    else if r.family == "abort_material" then Some(WithObservation(Terminated(s, Aborted), target, Failure))
    else if r.family == "revalidate_result" || target == "validation" then
      Some(WithObservation(WithStatus(StageDone(s, "validation", true), Running), "validation", Success))
    else if IsChannelFamily(r.family) then
      match ExecutorTargets(config.render, r.params)
      case None => None
      case Some(channels) =>
        Some(if channels == [] then WithObservation(WithStatus(s, NeedsRecovery), target, Failure)
             else WithObservation(WithStatus(s, Running), target, Success))
    else Some(StageActed(config, s, r, target, tooling))
  }

  /** An action on a stage: a submission, or a run of the stage's tool. */
  function StageActed(config: Config, s: State, r: A.Request, target: string, tooling: Tooling): (d: State)
    ensures KeepsEvents(s, d) && KeepsPlan(s, d) && SameAccounts(s, d) && !d.workflow.status.Failed?
  {
    if target == "" then WithObservation(WithStatus(s, NeedsRecovery), target, Failure)
    else if target != "prepare" && (r.submit || r.wait) then Submitted(config, s, r, target, tooling.generatedJobId)
    else ToolRun(s, target, tooling.result)
  }

  /** execute_selected_action; None when it raises. */
  function Executed(config: Config, s: State, r: A.Request, tooling: Tooling): (d: Option<State>)
    ensures d.Some? ==>
      KeepsEvents(s, d.value) && KeepsPlan(s, d.value) && d.value.workflow.retries == s.workflow.retries
  {
    if ChannelsSeen(config, r).None? then None
    else if !Allowed(config, s, r, tooling.otherwiseLegal)
    then Some(WithObservation(WithStatus(s, Failed), Text(r.target), Failure))
    else Performed(config, s, r, tooling)
  }

  // Retry accounting

  /** The part of the executor a legal action reaches, as far as the retry counts go. */
  function BranchOf(r: A.Request, tooling: Tooling): Retry.Branch {
    var target := Text(r.target);
    if || r.family in {"finalize_material", "abort_material", "revalidate_result"} || IsChannelFamily(r.family)
       || target in {"", "validation", "prepare"} || (r.family == "refine_sampling" && tooling.points.keys == [])
    then Retry.Uncounted
    else if r.submit || r.wait then Retry.Submitted
    else Retry.ToolRan(tooling.result.Success?)
  }

  function StepOf(r: A.Request, tooling: Tooling): Retry.Step {
    var branch := BranchOf(r, tooling);
    Retry.Step(r.family, Text(r.target), branch, tooling.disguised && (branch.ToolRan? || Text(r.target) == "prepare"))
  }

  /** The counts as every normalization leaves them. */
  function BooksOf(s: State): Retry.Books {
    Retry.Books(map[], s.workflow.retries)
  }

  /** What the execution of a legal action does to the recorded counts. */
  function Accounted(d: State, s: State, step: Retry.Step): State {
    d.(workflow := d.workflow.(retries := Retry.After(BooksOf(s), step).workflow))
  }

  /** The executor's step and the accounting after it; a refused action is not counted. */
  function ExecutedAndCounted(config: Config, s: State, r: A.Request, tooling: Tooling): Option<State> {
    match Executed(config, s, r, tooling)
    case None => None
    case Some(d) =>
      Some(if Allowed(config, s, r, tooling.otherwiseLegal) then Accounted(d, s, StepOf(r, tooling)) else d)
  }

  function EffectiveAction(human: Human): string {
    if human.timedOut && human.action !in {"skip_material", "abort_task"} then "skip_material" else human.action
  }

  /** _execute_escalation_action */
  function Escalated(s: State, target: string, human: Human): State {
    var action := EffectiveAction(human);
    if action == "complete_material" then WithObservation(Terminated(s, Completed), target, Success)
    else if action == "skip_material" then WithObservation(Terminated(s, Skipped), target, Omitted)
    else if action == "abort_task" then WithObservation(Terminated(s, Failed), target, Failure)
    else WithObservation(WithStatus(s, Running), human.resumeStage, Success)
  }

  /** _execute_current_action on a selected action, with the checkpoint taken after it. */
  function Acted(config: Config, s: State, a: A.Action, turn: Turn): Option<State> {
    var done :=
      if a.request.family == "escalate_human" then Some(Escalated(s, Text(a.request.target), turn.human))
      else ExecutedAndCounted(config, s, a.request, turn.tooling);
    match done
    case None => None
    case Some(d) => Some(Checked(d, DeliberationReason(d, turn.after)))
  }

  // Recovery and the final report

  function Unblocked(jobs: seq<Job>, id: string, capability: string): seq<Job> {
    if jobs == [] then []
    else if (id != "" && jobs[0].id == id) || (capability != "" && jobs[0].target == capability)
    then Unblocked(jobs[1..], id, capability)
    else [jobs[0]] + Unblocked(jobs[1..], id, capability)
  }

  function BlockedJob(config: Config, s: State): string {
    if s.execution.markers.jobId != "" then s.execution.markers.jobId
    else if s.execution.current.Some? then JobParameter(config, s.execution.current.value.request)
    else ""
  }

  function BlockedCapability(s: State): string {
    if s.execution.markers.awaiting != "" then s.execution.markers.awaiting
    else if s.execution.current.Some? then Text(s.execution.current.value.request.target)
    else ""
  }

  function Quieted(a: A.Action): A.Action {
    a.(request := a.request.(submit := false, wait := false))
  }

  /** _recover_unexpected_wait_boundary */
  function Recovered(config: Config, s: State): State {
    var x := s.execution;
    var cleaned := x.(
      jobs := Unblocked(x.jobs, BlockedJob(config, s), BlockedCapability(s)),
      markers := Markers("", ""),
      current := if x.current.Some? then Some(Quieted(x.current.value)) else None);
    var closed :=
      if Saw(s, InProgress)
      then cleaned.(observation := Some(Observation(ObservedTarget(s), Failure)), actionStatus := Observed(Failure))
      else cleaned;
    WithStatus(s.(execution := closed), NeedsRecovery)
  }

  /** final_report */
  function Reported(s: State): State {
    var status := s.workflow.status;
    s.(workflow := s.workflow.(
         status := if status.ReadyToFinalize? || status.Running? || status.Pending? then Completed else status,
         stageStatus := s.workflow.stageStatus[FINAL_REPORT := true]),
       log := s.log.(reports := s.log.reports + 1))
  }

  /** _finalize_if_needed */
  function Finalized(s: State): State {
    if ReportMarked(s) || !TerminalOrFinalizable(s) then s else Checked(Reported(s), None)
  }

  // The loop

  datatype Flow = Continue(state: State) | Break(state: State) | Raise

  function AtWait(config: Config, s: State): Flow {
    if config.fullAutonomy then Continue(Recovered(config, s)) else Break(s)
  }

  predicate AtBoundary(s: State) {
    Waiting(s.workflow.status) && s.execution.pending == []
  }

  /** No action, no status that explains it, and no contract boundary: a failure that is
      called missing_selected_action. */
  predicate MissesAction(s: State) {
    && s.execution.current.None?
    && !Terminal(s.workflow.status) && !s.workflow.status.ReadyToFinalize? && !Waiting(s.workflow.status)
    && !s.execution.actionStatus.WaitingCouncil?
  }

  function WithoutAction(config: Config, s: State): Flow {
    if Terminal(s.workflow.status) || s.workflow.status.ReadyToFinalize? then Break(s)
    else if Waiting(s.workflow.status) then AtWait(config, s)
    else if s.execution.actionStatus.WaitingCouncil? then Continue(Checked(s, Some(ContractCompleted)))
    else Break(Terminated(Checked(s, Some(MissingSelectedAction)), Failed))
  }

  /** What the loop does before it plans. */
  function Entered(s: State): State {
    if s.execution.pending == [] then s else Progressed(Consumed(s))
  }

  function AfterAction(config: Config, s: State): Flow {
    if TerminalOrFinalizable(s) then Break(s)
    else if AtBoundary(s) then AtWait(config, s)
    else Continue(s)
  }

  /** The rest of a turn, once it is planned. */
  function Carried(config: Config, planned: State, turn: Turn): Flow {
    if planned.execution.current.None? then WithoutAction(config, planned)
    else match Acted(config, planned, planned.execution.current.value, turn)
      case None => Raise
      case Some(done) => AfterAction(config, done)
  }

  /** One pass through the loop of drive. */
  function Turned(config: Config, s: State, turn: Turn): Flow {
    Proceeded(config, Entered(s), turn)
  }

  function Proceeded(config: Config, s: State, turn: Turn): Flow {
    if Terminal(s.workflow.status) then Break(s)
    else if AtBoundary(s) then AtWait(config, s)
    else match Planned(s, turn)
      case None => Raise
      case Some(planned) => Carried(config, planned, turn)
  }

  /** How a call of drive ends: normally, with an exception, or not within these turns. */
  datatype End = Returned(state: State) | Raised | StillGoing

  function Looped(config: Config, s: State, turns: seq<Turn>): End
    decreases |turns|
  {
    if turns == [] then StillGoing
    else match Turned(config, s, turns[0])
      case Continue(next) => Looped(config, next, turns[1..])
      case Break(last) => Returned(Finalized(last))
      case Raise => Raised
  }

  /** The guard answers the event and the call returns at once. */
  predicate Refused(s: State, event: Option<Event>) {
    event.Some? && (Terminal(s.workflow.status) || Duplicate(s, event.value))
  }

  datatype Call = Call(config: Config, anew: bool, event: Option<Event>, turns: seq<Turn>)

  function Started(saved: State, call: Call): State {
    if call.anew then INITIAL else saved
  }

  /** drive */
  function Driven(saved: State, call: Call): End {
    var s := Started(saved, call);
    if Refused(s, call.event) then Returned(s)
    else Looped(call.config, if call.event.Some? then Injected(s, call.event.value) else s, call.turns)
  }
}
