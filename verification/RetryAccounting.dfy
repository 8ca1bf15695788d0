/** The recorded retry counts (mobility_agent/runtime/agentic_controller.py:121-170,
    1880-1893; mobility_agent/graph/runtime_nodes.py:766-771, 1713-1714, 1806-1808;
    mobility_agent/runtime/agent_tools.py:903-907).

    The execution section has no retry_counts field, so every normalization of the state
    drops the map that the executor increments; only the workflow's copy survives. */
module RetryAccounting {

  type Counts = map<string, nat>

  /** The two places a count is written to. */
  datatype Books = Books(execution: Counts, workflow: Counts)

  function CountOf(counts: Counts, capability: string): nat {
    if capability in counts then counts[capability] else 0
  }

  /** MaterialTaskState.from_dict(...).to_dict() */
  function Normalized(b: Books): Books {
    b.(execution := map[])
  }

  /** _retry_counts_snapshot: the larger count of the two places. */
  function Snapshot(b: Books): Counts {
    map k | k in b.execution.Keys + b.workflow.Keys ::
      if CountOf(b.execution, k) > CountOf(b.workflow, k) then CountOf(b.execution, k) else CountOf(b.workflow, k)
  }

  /** _sync_retry_counts: the execution section's count, one higher, replaces both maps. */
  function Synced(b: Books, capability: string): Books {
    var retries := b.execution[capability := CountOf(b.execution, capability) + 1];
    Books(retries, retries)
  }

  /** Which part of the executor an action reaches: one without retry accounting, the
      submission of an external job, or a tool run. */
  datatype Branch = Uncounted | Submitted | ToolRan(success: bool)

  /** One legally executed action. `disguised` says that its error text begins with
      "illegal_selected_action", the mark of a refusal. */
  datatype Step = Step(family: string, target: string, branch: Branch, disguised: bool)

  const RETRY_FAMILIES: set<string> := {"retry_capability", "rerun_from_capability"}
  const FAILURE_COUNTED: set<string> :=
    {"run_capability", "repair_execution_context", "refine_sampling", "revalidate_result"}

  /** The counts after the executor node. */
  function NodeCounts(b: Books, step: Step): Books {
    var start := Normalized(b);
    if step.branch.Uncounted? then start
    else
      var synced := if step.family in RETRY_FAMILIES then Synced(start, step.target) else start;
      var recorded := Normalized(synced);
      if step.branch.ToolRan? && !step.branch.success && step.family in FAILURE_COUNTED
      then Normalized(Synced(recorded, step.target))
      else recorded
  }

  /** _ensure_selected_retry_accounted_after_execution */
  function Ensured(b: Books, step: Step, before: Counts): Books {
    if step.family !in RETRY_FAMILIES || step.target == "" || step.disguised then b
    else
      var required := CountOf(before, step.target) + 1;
      var counts := Snapshot(b);
      if CountOf(counts, step.target) >= required then b
      else Books(counts[step.target := required], counts[step.target := required])
  }

  /** The counts an executed action leaves in the persisted state. */
  function After(b: Books, step: Step): Books {
    Normalized(Ensured(NodeCounts(b, step), step, Snapshot(b)))
  }

  /** _execute_current_action, as far as it touches the counts. */
  method ExecuteCounted(books: Books, step: Step) returns (b: Books)
    ensures b == After(books, step)
  {
    var before := Snapshot(books);
    b := Normalized(books);
    if !step.branch.Uncounted? {
      if step.family in RETRY_FAMILIES {
        b := Synced(b, step.target);
      }
      b := Normalized(b);
      if step.branch.ToolRan? && !step.branch.success && step.family in FAILURE_COUNTED {
        b := Normalized(Synced(b, step.target));
      }
    }
    if step.family in RETRY_FAMILIES && step.target != "" && !step.disguised {
      var required := CountOf(before, step.target) + 1;
      var counts := Snapshot(b);
      if CountOf(counts, step.target) < required {
        counts := counts[step.target := required];
        b := Books(counts, counts);
      }
    }
    b := Normalized(b);
  }

  ghost predicate Persisted(b: Books) {
    b.execution == map[]
  }

  lemma SnapshotOfPersisted(b: Books)
    requires Persisted(b)
    ensures forall k :: CountOf(Snapshot(b), k) == CountOf(b.workflow, k)
  {
  }

  /** A legally executed retry or rerun raises the recorded count of its capability by one,
      whatever branch it took, unless its error text is disguised as a refusal: then it does
      so only when it was the first one and went through a counting branch. */
  lemma RetryRaisesCount(b: Books, step: Step)
    requires Persisted(b) && step.family in {"retry_capability", "rerun_from_capability"} && step.target != ""
    ensures CountOf(After(b, step).workflow, step.target) == CountOf(b.workflow, step.target) + 1
       <==> !step.disguised || (CountOf(b.workflow, step.target) == 0 && !step.branch.Uncounted?)
  {
    SnapshotOfPersisted(b);
    SnapshotOfPersisted(NodeCounts(b, step));
  }

  /** The step replaces the map of counts. */
  predicate Replaces(step: Step) {
    && !step.branch.Uncounted?
    && (step.family in RETRY_FAMILIES
        || (step.branch.ToolRan? && !step.branch.success && step.family in FAILURE_COUNTED))
  }

  /** The count of another capability survives a step exactly when the step replaces no counts
      or there was none. */
  lemma OtherCountSurvives(b: Books, step: Step, other: string)
    requires Persisted(b) && other != step.target
    ensures CountOf(After(b, step).workflow, other) == CountOf(b.workflow, other)
       <==> !Replaces(step) || CountOf(b.workflow, other) == 0
  {
    SnapshotOfPersisted(b);
    SnapshotOfPersisted(NodeCounts(b, step));
  }

  /** A counted execution keeps no other capability's count. */
  lemma OtherCountsAreLost(b: Books, step: Step, other: string)
    requires Persisted(b) && Replaces(step) && other != step.target
    ensures CountOf(After(b, step).workflow, other) == 0
  {
    SnapshotOfPersisted(b);
    SnapshotOfPersisted(NodeCounts(b, step));
  }

  /** A failed first run is recorded as one retry, and forgets what was recorded before. */
  lemma FailedRunResetsCount(b: Books, step: Step)
    requires step.branch == ToolRan(false)
    requires step.family in {"run_capability", "repair_execution_context", "refine_sampling", "revalidate_result"}
    ensures After(b, step).workflow == map[step.target := 1]
  {
  }

  // Uninterrupted stretches

  function AfterAll(b: Books, steps: seq<Step>): Books
    decreases |steps|
  {
    if steps == [] then b else AfterAll(After(b, steps[0]), steps[1..])
  }

  /** The step touches no count. */
  predicate Silent(step: Step) {
    && step.family !in RETRY_FAMILIES
    && !(step.branch.ToolRan? && !step.branch.success && step.family in FAILURE_COUNTED)
  }

  /** The counted executions are all retries and reruns of one capability. */
  ghost predicate Stretch(steps: seq<Step>, capability: string) {
    forall step :: step in steps ==>
      Silent(step) || (step.family in RETRY_FAMILIES && step.target == capability && !step.disguised)
  }

  function CountFamilies(steps: seq<Step>, families: set<string>): nat {
    if steps == [] then 0
    else (if steps[0].family in families then 1 else 0) + CountFamilies(steps[1..], families)
  }

  /** The budget part of the legality check holds at each step of the run. */
  predicate WithinBudget(b: Books, steps: seq<Step>, budget: nat)
    decreases |steps|
  {
    steps == []
    || ((steps[0].family == "retry_capability" ==> CountOf(b.workflow, steps[0].target) < budget)
        && WithinBudget(After(b, steps[0]), steps[1..], budget))
  }

  lemma SilentKeepsCounts(b: Books, step: Step)
    requires Persisted(b) && Silent(step)
    ensures After(b, step) == b
  {
  }

  /** In an uninterrupted stretch every retry and rerun is counted. */
  lemma {:induction false} StretchCounts(b: Books, steps: seq<Step>, capability: string)
    requires Persisted(b) && capability != "" && Stretch(steps, capability)
    ensures CountOf(AfterAll(b, steps).workflow, capability)
         == CountOf(b.workflow, capability) + CountFamilies(steps, RETRY_FAMILIES)
    decreases |steps|
  {
    if steps != [] {
      if Silent(steps[0]) {
        SilentKeepsCounts(b, steps[0]);
      } else {
        RetryRaisesCount(b, steps[0]);
      }
      StretchCounts(After(b, steps[0]), steps[1..], capability);
    }
  }

  /** In an uninterrupted stretch the legal retries of the capability are bounded by the
      budget that was left at its start. */
  lemma {:induction false} StretchIsBounded(b: Books, steps: seq<Step>, capability: string, budget: nat)
    requires Persisted(b) && capability != "" && Stretch(steps, capability) && WithinBudget(b, steps, budget)
    ensures CountFamilies(steps, {"retry_capability"}) > 0 ==>
      CountOf(b.workflow, capability) + CountFamilies(steps, {"retry_capability"}) <= budget
    decreases |steps|
  {
    if steps != [] {
      if Silent(steps[0]) {
        SilentKeepsCounts(b, steps[0]);
      } else {
        RetryRaisesCount(b, steps[0]);
      }
      StretchIsBounded(After(b, steps[0]), steps[1..], capability, budget);
    }
  }
}
