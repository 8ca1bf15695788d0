/** Normalization of the state of a run and the patches between its versions
    (mobility_agent/graph/state.py:505-532, 687-716; mobility_agent/config_runtime.py:58-64).
    Fields that normalization does not touch are kept together in `rest`. */
module StatePatch {
  import opened Json
  import opened Dedupe
  import opened Channels

  // The sections

  datatype Task = Task(updatedAt: string, userGoal: string, rest: Json)
  datatype Mission = Mission(materialId: string, userGoal: string, rest: Json)
  datatype MaterialSection = MaterialSection(materialId: string, preflightTags: seq<string>, warnings: seq<string>,
      rest: Json)
  datatype WorkflowSection = WorkflowSection(completedStages: seq<string>, rest: Json)
  datatype Physics = Physics(accepted: seq<string>, rejected: seq<string>, rest: Json)
  datatype Agent = Agent(loadedSkills: seq<string>, provider: string, rest: Json)
  datatype ServicesSection = ServicesSection(loadedSkills: seq<string>, rest: Json)
  datatype Blackboard = Blackboard(riskFlags: seq<string>, anomalyFlags: seq<string>, rest: Json)
  datatype ExecutionSection = ExecutionSection(
    artifactPaths: map<string, string>, artifactRegistry: map<string, string>, rest: Json)
  datatype Board = Board(pending: seq<Json>, completed: seq<Json>, active: seq<Json>, rest: Json)

  datatype State = State(
    task: Task, mission: Mission, material: MaterialSection, workflow: WorkflowSection, physics: Physics,
    agent: Agent, services: ServicesSection, blackboard: Blackboard, execution: ExecutionSection, board: Board,
    deliberation: Json, diagnostics: Json, workspaces: Json, memory: Json, batch: Json)

  // Normalization

  /** normalize_llm_provider */
  function Provider(value: string): string {
    var raw := Lower(Strip(value));
    if raw == "" then "openai"
    else if raw == "openai_compatible" || raw == "openai-compatible" then "openai"
    else raw
  }

  const SEQUENCE := ["prepare", "relax", "scf", "band", "effective_mass", "strain_loop", "mobility", "validation"]

  /** The pending task of the capability at a position; it depends on the one before it. */
  function PendingTask(i: nat): Json
    requires i < |SEQUENCE|
  {
    Dict(["task_id", "task_type", "capability", "depends_on", "status"],
         map["task_id" := Str("capability::" + SEQUENCE[i]), "task_type" := Str("capability"),
           "capability" := Str(SEQUENCE[i]),
             "depends_on" := List(if i == 0 then [] else [Str(SEQUENCE[i - 1])]), "status" := Str("pending")])
  }

  function InitialPending(): seq<Json> {
    seq(|SEQUENCE|, i requires 0 <= i < |SEQUENCE| => PendingTask(i))
  }

  function FirstOf(own: string, other: string): string {
    if own != "" then own else other
  }

  function Unique(items: seq<string>): seq<string> {
    Deduped(items, Self)
  }

  function FilledBoard(b: Board): Board {
    if b.pending == [] && b.completed == [] && b.active == [] then b.(pending := InitialPending()) else b
  }

  /** Ids and goals are filled from each other across the sections. */
  function Identified(s: State, now: string): State {
    s.(
      task := s.task.(updatedAt := now, userGoal := FirstOf(s.task.userGoal, s.mission.userGoal)),
      mission := s.mission.(
        materialId := FirstOf(s.mission.materialId, s.material.materialId),
        userGoal := FirstOf(s.mission.userGoal, s.task.userGoal)),
      material := s.material.(materialId := FirstOf(s.material.materialId, s.mission.materialId)))
  }

  function WithoutRepeats(s: State): State {
    s.(
      material := s.material.(preflightTags := Unique(s.material.preflightTags),
        warnings := Unique(s.material.warnings)),
      workflow := s.workflow.(completedStages := Unique(s.workflow.completedStages)),
      physics := s.physics.(accepted := Unique(s.physics.accepted), rejected := Unique(s.physics.rejected)),
      agent := s.agent.(loadedSkills := Unique(s.agent.loadedSkills)),
      services := s.services.(loadedSkills := Unique(s.services.loadedSkills)),
      blackboard := s.blackboard.(riskFlags := Unique(s.blackboard.riskFlags),
        anomalyFlags := Unique(s.blackboard.anomalyFlags)))
  }

  /** The provider's name, the artifact registry and an empty task board. */
  function Supplied(s: State): State {
    s.(
      agent := s.agent.(provider := Provider(s.agent.provider)),
      execution := s.execution.(artifactRegistry := s.execution.artifactPaths + s.execution.artifactRegistry),
      board := FilledBoard(s.board))
  }

  function Normalized(s: State, now: string): State {
    Supplied(WithoutRepeats(Identified(s, now)))
  }

  class MaterialTaskState {
    var task: Task
    var mission: Mission
    var material: MaterialSection
    var workflow: WorkflowSection
    var physics: Physics
    var agent: Agent
    var services: ServicesSection
    var blackboard: Blackboard
    var execution: ExecutionSection
    var board: Board
    var deliberation: Json
    var diagnostics: Json
    var workspaces: Json
    var memory: Json
    var batch: Json

    function Value(): State
      reads this
    {
      State(task, mission, material, workflow, physics, agent, services, blackboard, execution, board,
            deliberation, diagnostics, workspaces, memory, batch)
    }

    /** _normalize: one assignment after the other, each on what the ones before it left. */
    method Normalize(now: string)
      modifies this
      ensures Value() == Normalized(old(Value()), now)
    {
      RepairIdentity(now);
      RemoveRepeats();
      agent := agent.(provider := Provider(agent.provider));
      execution := execution.(artifactRegistry := execution.artifactPaths + execution.artifactRegistry);
      if board.pending == [] && board.completed == [] && board.active == [] {
        board := board.(pending := InitialPending());
      }
    }

    method RepairIdentity(now: string)
      modifies this`task, this`mission, this`material
      ensures Value() == Identified(old(Value()), now)
    {
      task := task.(updatedAt := now);
      if mission.materialId == "" {
        mission := mission.(materialId := material.materialId);
      }
      if mission.userGoal == "" {
        mission := mission.(userGoal := task.userGoal);
      }
      if material.materialId == "" {
        material := material.(materialId := mission.materialId);
      }
      if task.userGoal == "" {
        task := task.(userGoal := mission.userGoal);
      }
    }

    method RemoveRepeats()
      modifies this`material, this`workflow, this`physics, this`agent, this`services, this`blackboard
      ensures material == WithoutRepeats(old(Value())).material && workflow == WithoutRepeats(old(Value())).workflow
      ensures physics == WithoutRepeats(old(Value())).physics && agent == WithoutRepeats(old(Value())).agent
      ensures services == WithoutRepeats(old(Value())).services && blackboard == WithoutRepeats(old(Value())).blackboard
    {
      material := material.(preflightTags := Unique(material.preflightTags));
      material := material.(warnings := Unique(material.warnings));
      workflow := workflow.(completedStages := Unique(workflow.completedStages));
      physics := physics.(accepted := Unique(physics.accepted));
      physics := physics.(rejected := Unique(physics.rejected));
      agent := agent.(loadedSkills := Unique(agent.loadedSkills));
      services := services.(loadedSkills := Unique(services.loadedSkills));
      blackboard := blackboard.(riskFlags := Unique(blackboard.riskFlags));
      blackboard := blackboard.(anomalyFlags := Unique(blackboard.anomalyFlags));
    }
  }

  // What normalization repairs

  /** The list keeps the first of each entry, in order. */
  ghost predicate Firsts(items: seq<string>, kept: seq<string>) {
    kept == FirstsBefore(items, Self, |items|)
  }

  lemma UniqueKeepsFirsts(items: seq<string>)
    ensures Firsts(items, Unique(items))
  {
    DedupedAreFirsts(items, Self, |items|);
    assert items[..|items|] == items;
  }

  /** Ids and goals stand where they are given, and are taken from the other section where not;
      the time is the new one. */
  lemma IdentityIsRepaired(s: State, now: string)
    ensures var n := Normalized(s, now);
      && n.task.updatedAt == now
      && (s.mission.materialId != "" ==> n.mission.materialId == s.mission.materialId)
      && (s.mission.materialId == "" ==> n.mission.materialId == s.material.materialId)
      && (s.material.materialId != "" ==> n.material.materialId == s.material.materialId)
      && (s.material.materialId == "" ==> n.material.materialId == s.mission.materialId)
      && (s.mission.userGoal != "" ==> n.mission.userGoal == s.mission.userGoal)
      && (s.mission.userGoal == "" ==> n.mission.userGoal == s.task.userGoal)
      && (s.task.userGoal != "" ==> n.task.userGoal == s.task.userGoal)
      && (s.task.userGoal == "" ==> n.task.userGoal == s.mission.userGoal)
  {
  }

  /** Each list loses its repeats, keeping first entries; an artifact is registered with its
      path unless it is registered already. */
  lemma ListsAreRepaired(s: State, now: string)
    ensures var n := Normalized(s, now);
      && Firsts(s.material.preflightTags, n.material.preflightTags)
      && Firsts(s.material.warnings, n.material.warnings)
      && Firsts(s.workflow.completedStages, n.workflow.completedStages)
      && Firsts(s.physics.accepted, n.physics.accepted) && Firsts(s.physics.rejected, n.physics.rejected)
      && Firsts(s.agent.loadedSkills, n.agent.loadedSkills) && Firsts(s.services.loadedSkills, n.services.loadedSkills)
      && Firsts(s.blackboard.riskFlags, n.blackboard.riskFlags)
      && Firsts(s.blackboard.anomalyFlags, n.blackboard.anomalyFlags)
      && n.execution.artifactPaths == s.execution.artifactPaths
      && (forall k :: k in n.execution.artifactRegistry <==>
            k in s.execution.artifactRegistry || k in s.execution.artifactPaths)
      && (forall k :: k in s.execution.artifactRegistry ==>
            n.execution.artifactRegistry[k] == s.execution.artifactRegistry[k])
      && (forall k :: k in s.execution.artifactPaths && k !in s.execution.artifactRegistry ==>
            n.execution.artifactRegistry[k] == s.execution.artifactPaths[k])
  {
    UniqueKeepsFirsts(s.material.preflightTags);
    UniqueKeepsFirsts(s.material.warnings);
    UniqueKeepsFirsts(s.workflow.completedStages);
    UniqueKeepsFirsts(s.physics.accepted);
    UniqueKeepsFirsts(s.physics.rejected);
    UniqueKeepsFirsts(s.agent.loadedSkills);
    UniqueKeepsFirsts(s.services.loadedSkills);
    UniqueKeepsFirsts(s.blackboard.riskFlags);
    UniqueKeepsFirsts(s.blackboard.anomalyFlags);
  }

  /** Nothing else is changed. */
  lemma TheRestIsKept(s: State, now: string)
    ensures var n := Normalized(s, now);
      && n.task.rest == s.task.rest && n.mission.rest == s.mission.rest && n.material.rest == s.material.rest
      && n.workflow.rest == s.workflow.rest && n.physics.rest == s.physics.rest && n.agent.rest == s.agent.rest
      && n.services.rest == s.services.rest && n.blackboard.rest == s.blackboard.rest
      && n.execution.rest == s.execution.rest && n.board.rest == s.board.rest
      && n.board.completed == s.board.completed && n.board.active == s.board.active
      && n.deliberation == s.deliberation && n.diagnostics == s.diagnostics && n.workspaces == s.workspaces
      && n.memory == s.memory && n.batch == s.batch
  {
  }

  /** A provider is known by its name in lower case and without surrounding space; the absent
      and the compatible one are called "openai". */
  lemma ProviderMeans(value: string)
    ensures Strip(value) == "" ==> Provider(value) == "openai"
    ensures Lower(Strip(value)) in {"openai_compatible", "openai-compatible"} ==> Provider(value) == "openai"
    ensures Strip(value) != "" && Lower(Strip(value)) !in {"openai_compatible", "openai-compatible"} ==>
      Provider(value) == Lower(Strip(value))
  {
  }

  // Normalizing twice

  lemma UniqueTwice(items: seq<string>)
    ensures Unique(Unique(items)) == Unique(items)
  {
    var none: set<string> := {};
    DedupeTwice(items, Self, none, none);
    assert none + none == none;
  }

  lemma LowerKeepsTrim(s: string)
    requires Trimmed(s)
    ensures Trimmed(Lower(s)) && Lower(Lower(s)) == Lower(s)
  {
  }

  lemma ProviderTwice(value: string)
    ensures Provider(Provider(value)) == Provider(value)
  {
    var raw := Lower(Strip(value));
    StripTrims(value);
    LowerKeepsTrim(Strip(value));
    StripTrims(raw);
    StripTrims("openai");
    assert Lower("openai") == "openai";
  }

  lemma RegistryTwice(paths: map<string, string>, registry: map<string, string>)
    ensures paths + (paths + registry) == paths + registry
  {
  }

  /** A second normalization only moves the time. */
  lemma NormalizedTwice(s: State, earlier: string, now: string)
    ensures Normalized(Normalized(s, earlier), now) == Normalized(s, now)
  {
    UniqueTwice(s.material.preflightTags);
    UniqueTwice(s.material.warnings);
    UniqueTwice(s.workflow.completedStages);
    UniqueTwice(s.physics.accepted);
    UniqueTwice(s.physics.rejected);
    UniqueTwice(s.agent.loadedSkills);
    UniqueTwice(s.services.loadedSkills);
    UniqueTwice(s.blackboard.riskFlags);
    UniqueTwice(s.blackboard.anomalyFlags);
    ProviderTwice(s.agent.provider);
    RegistryTwice(s.execution.artifactPaths, s.execution.artifactRegistry);
  }

  // Patches

  /** The changed sections with their new value. */
  datatype Patch = Patch(
    task: Option<Task>, mission: Option<Mission>, material: Option<MaterialSection>, workflow: Option<WorkflowSection>,
    physics: Option<Physics>, agent: Option<Agent>, services: Option<ServicesSection>, blackboard: Option<Blackboard>,
    execution: Option<ExecutionSection>, board: Option<Board>, deliberation: Option<Json>, diagnostics: Option<Json>,
    workspaces: Option<Json>, memory: Option<Json>, batch: Option<Json>)

  const SECTIONS: set<string> := {
    "task", "mission", "material", "workflow", "physics_results", "agent", "services", "blackboard", "execution",
    "task_board", "deliberation", "diagnostics", "agent_workspaces", "memory", "batch"}

  function Changed<T(==)>(asked: bool, before: T, after: T): Option<T> {
    if asked && before != after then Some(after) else None
  }

  function Patched<T>(base: T, change: Option<T>): T {
    if change.Some? then change.value else base
  }

  function Timeless(t: Task): Task {
    t.(updatedAt := "")
  }

  /** build_state_patch; the two states are normalized one after the other. */
  function Built(before: State, after: State, sections: set<string>, first: string, second: string): Patch {
    var b, a := Normalized(before, first), Normalized(after, second);
    Patch(
      if "task" in sections && Timeless(b.task) != Timeless(a.task) then Some(a.task) else None,
      Changed("mission" in sections, b.mission, a.mission),
      Changed("material" in sections, b.material, a.material),
      Changed("workflow" in sections, b.workflow, a.workflow),
      Changed("physics_results" in sections, b.physics, a.physics),
      Changed("agent" in sections, b.agent, a.agent),
      Changed("services" in sections, b.services, a.services),
      Changed("blackboard" in sections, b.blackboard, a.blackboard),
      Changed("execution" in sections, b.execution, a.execution),
      Changed("task_board" in sections, b.board, a.board),
      Changed("deliberation" in sections, b.deliberation, a.deliberation),
      Changed("diagnostics" in sections, b.diagnostics, a.diagnostics),
      Changed("agent_workspaces" in sections, b.workspaces, a.workspaces),
      Changed("memory" in sections, b.memory, a.memory),
      Changed("batch" in sections, b.batch, a.batch))
  }

  function Overwritten(b: State, p: Patch): State {
    State(
      Patched(b.task, p.task), Patched(b.mission, p.mission), Patched(b.material, p.material),
      Patched(b.workflow, p.workflow), Patched(b.physics, p.physics), Patched(b.agent, p.agent),
      Patched(b.services, p.services), Patched(b.blackboard, p.blackboard), Patched(b.execution, p.execution),
      Patched(b.board, p.board), Patched(b.deliberation, p.deliberation), Patched(b.diagnostics, p.diagnostics),
      Patched(b.workspaces, p.workspaces), Patched(b.memory, p.memory), Patched(b.batch, p.batch))
  }

  /** apply_state_patch */
  function Applied(s: State, p: Patch, now: string): State {
    Normalized(Overwritten(Normalized(s, now), p), now)
  }

  /** Equal but for the time of the last update. */
  ghost predicate Same(a: State, b: State) {
    a.(task := Timeless(a.task)) == b.(task := Timeless(b.task))
  }

  /** The sections of `a` where asked for, those of `b` elsewhere. */
  ghost function Mixed(b: State, a: State, sections: set<string>): State {
    State(
      if "task" in sections then a.task else b.task,
      if "mission" in sections then a.mission else b.mission,
      if "material" in sections then a.material else b.material,
      if "workflow" in sections then a.workflow else b.workflow,
      if "physics_results" in sections then a.physics else b.physics,
      if "agent" in sections then a.agent else b.agent,
      if "services" in sections then a.services else b.services,
      if "blackboard" in sections then a.blackboard else b.blackboard,
      if "execution" in sections then a.execution else b.execution,
      if "task_board" in sections then a.board else b.board,
      if "deliberation" in sections then a.deliberation else b.deliberation,
      if "diagnostics" in sections then a.diagnostics else b.diagnostics,
      if "agent_workspaces" in sections then a.workspaces else b.workspaces,
      if "memory" in sections then a.memory else b.memory,
      if "batch" in sections then a.batch else b.batch)
  }

  lemma SameNormalizes(a: State, b: State, now: string)
    requires Same(a, b)
    ensures Normalized(a, now) == Normalized(b, now)
  {
    assert a.mission == b.mission && a.material == b.material && Timeless(a.task) == Timeless(b.task);
    assert a.task.userGoal == Timeless(a.task).userGoal && a.task.rest == Timeless(a.task).rest;
    assert b.task.userGoal == Timeless(b.task).userGoal && b.task.rest == Timeless(b.task).rest;
    assert a.(task := b.task) == b;
  }

  /** Applying a patch puts the sections it was built for over the state, and normalizes. */
  lemma AppliedIsMixed(before: State, after: State, sections: set<string>, first: string, second: string, now: string)
    ensures Applied(before, Built(before, after, sections, first, second), now)
         == Normalized(Mixed(Normalized(before, first), Normalized(after, second), sections), now)
  {
    var over := Overwritten(Normalized(before, now), Built(before, after, sections, first, second));
    var mixed := Mixed(Normalized(before, first), Normalized(after, second), sections);
    assert Same(over, mixed);
    SameNormalizes(over, mixed, now);
  }

  /** Applying the patch between two states to the first gives the second, normalized. */
  lemma PatchRoundTrip(before: State, after: State, first: string, second: string, now: string)
    ensures Applied(before, Built(before, after, SECTIONS, first, second), now) == Normalized(after, now)
  {
    AppliedIsMixed(before, after, SECTIONS, first, second, now);
    NormalizedTwice(after, second, now);
  }

  /** Patches chain: applying them one after the other reaches the last state. */
  lemma PatchesChain(a: State, b: State, c: State, first: string, second: string, now: string)
    ensures Applied(Applied(a, Built(a, b, SECTIONS, first, second), now), Built(b, c, SECTIONS, first, second), now)
         == Normalized(c, now)
         == Applied(a, Built(a, c, SECTIONS, first, second), now)
  {
    PatchRoundTrip(a, b, first, second, now);
    PatchRoundTrip(a, c, first, second, now);
    var patch := Built(b, c, SECTIONS, first, second);
    NormalizedTwice(b, now, first);
    assert Built(Normalized(b, now), c, SECTIONS, first, second) == patch;
    PatchRoundTrip(Normalized(b, now), c, first, second, now);
  }

  predicate IsEmpty(p: Patch) {
    p == Patch(None, None, None, None, None, None, None, None, None, None, None, None, None, None, None)
  }

  /** Nothing is patched exactly between states that normalize to the same but for the time. */
  lemma EmptyPatchIffSame(before: State, after: State, first: string, second: string)
    ensures IsEmpty(Built(before, after, SECTIONS, first, second))
      <==> Same(Normalized(before, first), Normalized(after, second))
  {
  }

  // Patches of some sections

  /** Of two sections that share an id or a goal only one is asked for, and only one of the
      two states has it. */
  predicate Borrows(b: State, a: State, sections: set<string>) {
    || ((a.mission.materialId == "") != (b.mission.materialId == "")
      && ("mission" in sections) != ("material" in sections))
    || ((a.mission.userGoal == "") != (b.mission.userGoal == "") && ("mission" in sections) != ("task" in sections))
  }

  /** A partial patch brings its sections over and leaves the others, exactly unless
      normalization fills an empty id or goal across the two. */
  lemma PartialPatchIsExact(before: State, after: State, sections: set<string>, first: string, second: string,
      now: string)
    ensures var b, a := Normalized(before, first), Normalized(after, second);
      var result := Applied(before, Built(before, after, sections, first, second), now);
      Same(Mixed(b, a, sections), result) <==> !Borrows(b, a, sections)
  {
    AppliedIsMixed(before, after, sections, first, second, now);
    NormalizedTwice(before, first, first);
    NormalizedTwice(after, second, second);
    MixedIsSettled(Normalized(before, first), Normalized(after, second), sections, first, second, now);
  }

  lemma MixedIsSettled(b: State, a: State, sections: set<string>, first: string, second: string, now: string)
    requires Normalized(b, first) == b && Normalized(a, second) == a
    ensures Same(Mixed(b, a, sections), Normalized(Mixed(b, a, sections), now)) <==> !Borrows(b, a, sections)
  {
    var m := Mixed(b, a, sections);
    assert Supplied(WithoutRepeats(m)) == m;
  }

  /** The task as it stands on the board. */
  ghost predicate Plans(task: Json, capability: string, dependsOn: seq<Json>) {
    && task.Dict?
    && task.fields == map[
         "task_id" := Str("capability::" + capability), "task_type" := Str("capability"),
         "capability" := Str(capability), "status" := Str("pending"), "depends_on" := List(dependsOn)]
  }

  lemma PendingTaskPlans(i: nat)
    requires i < |SEQUENCE|
    ensures Plans(PendingTask(i), SEQUENCE[i], if i == 0 then [] else [Str(SEQUENCE[i - 1])])
  {
  }

  /** A board on which only blocked tasks are left, and no other, gets its whole plan back as
      pending: the stages in order, each depending on the one before it. */
  lemma BlockedBoardIsRefilled(s: State, now: string)
    ensures var b, pending := s.board, Normalized(s, now).board.pending;
      if b.pending == [] && b.completed == [] && b.active == [] then
        && |pending| == |SEQUENCE| && Plans(pending[0], "prepare", [])
        && forall i :: 0 < i < |SEQUENCE| ==> Plans(pending[i], SEQUENCE[i], [Str(SEQUENCE[i - 1])])
      else pending == b.pending
  {
    forall i | 0 <= i < |SEQUENCE|
      ensures Plans(InitialPending()[i], SEQUENCE[i], if i == 0 then [] else [Str(SEQUENCE[i - 1])])
    {
      PendingTaskPlans(i);
    }
  }
}
