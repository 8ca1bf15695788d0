/** The counters of a batch, computed once for the agents' tool
    (mobility_agent/runtime/agent_tools.py:1207-1250) and once more for the reporter
    (mobility_agent/agents/reporter.py:97-137), and the compute status they rest on
    (mobility_agent/graph/state.py:127-165, 229-262, 1029-1074). */
module Batch {
  import opened Channels

  datatype Mark = Mark(stage: string, status: string)

  /** What the counters read of the outcome of one material; a text that is absent is "". */
  datatype Outcome = Outcome(
    status: string, finalStatus: string, hasResults: bool, stages: seq<Mark>, terminationReason: string,
    finalAcceptance: string, validationDecision: string)

  // The compute status

  const COMPUTE_CAPABILITIES: set<string> :=
    {"prepare", "relax", "scf", "band", "effective_mass", "strain_loop", "mobility"}
  const WAITING: set<string> := {"waiting_external", "needs_human"}
  const TERMINAL: set<string> := {"completed", "failed", "aborted", "skipped"}

  predicate ComputeFailed(stages: seq<Mark>) {
    exists i :: 0 <= i < |stages| && stages[i].stage in COMPUTE_CAPABILITIES && stages[i].status == "failed"
  }

  /** derive_compute_status */
  function Derived(runStatus: string, hasResults: bool, stages: seq<Mark>): string {
    var raw := if Strip(runStatus) != "" then Strip(runStatus) else "pending";
    if raw == "ready_to_finalize" then "running"
    else if raw in WAITING || raw == "pending" || raw == "running" then raw
    else if hasResults && !ComputeFailed(stages) then "completed"
    else if ComputeFailed(stages) || raw == "failed" || raw == "aborted" then "failed"
    else if raw == "completed" || raw == "skipped" then "skipped"
    else raw
  }

  /** derive_compute_status_from_outcome_payload */
  function StatusOf(o: Outcome): string {
    var explicit, final := Strip(o.status), Strip(o.finalStatus);
    if explicit != "" && final == "" && explicit == "ready_to_finalize" then "running"
    else if explicit != "" && final == "" && explicit in WAITING + TERMINAL + {"pending", "running"} then explicit
    else Derived(if final != "" then final else if explicit != "" then explicit else "pending", o.hasResults, o.stages)
  }

  /** build_material_outcome and the validator of its result, which fills an empty status
      from the other one. */
  function Built(runStatus: string, hasResults: bool, stages: seq<Mark>, reason: string, acceptance: string,
      decision: string): Outcome {
    var derived := Derived(runStatus, hasResults, stages);
    var final := if runStatus == "" && derived != "" then derived else runStatus;
    Outcome(if derived == "" && final != "" then final else derived, final, hasResults, stages, reason, acceptance,
      decision)
  }

  /** A built outcome says what the run came to, beside the run's own status where it has one. */
  lemma BuiltSaysBoth(runStatus: string, hasResults: bool, stages: seq<Mark>, reason: string, acceptance: string,
      decision: string)
    ensures var o, derived := Built(runStatus, hasResults, stages, reason, acceptance, decision),
        Derived(runStatus, hasResults, stages);
      && o.status == derived != "" && o.finalStatus == (if runStatus != "" then runStatus else derived)
      && o.hasResults == hasResults && o.stages == stages && o.terminationReason == reason
      && o.finalAcceptance == acceptance && o.validationDecision == decision
  {
  }

  /** The status read back from a built outcome is the one of the state it was built from. */
  lemma StatusIsReadBack(runStatus: string, hasResults: bool, stages: seq<Mark>, reason: string, acceptance: string,
      decision: string)
    ensures StatusOf(Built(runStatus, hasResults, stages, reason, acceptance, decision))
      == Derived(runStatus, hasResults, stages)
  {
    DerivedFromStripped(runStatus, hasResults, stages);
    StripTrims("pending");
  }

  lemma DerivedFromStripped(runStatus: string, hasResults: bool, stages: seq<Mark>)
    ensures Derived(Strip(runStatus), hasResults, stages) == Derived(runStatus, hasResults, stages)
    ensures Strip(runStatus) == "" ==> Derived(runStatus, hasResults, stages) == "pending"
  {
    StripTrims(runStatus);
  }

  const UNFINISHED: set<string> :=
    {"", "pending", "running", "ready_to_finalize", "waiting_external", "needs_human"}

  /** What a status comes to. A run that is not over keeps its status, which counts as running
      when it is only ready; one that is over is completed exactly when it has results and no
      computing stage failed, and failed when one did. */
  lemma DerivedMeans(runStatus: string, hasResults: bool, stages: seq<Mark>)
    ensures var raw, derived := Strip(runStatus), Derived(runStatus, hasResults, stages);
      && (derived == "completed" <==> raw !in UNFINISHED && hasResults && !ComputeFailed(stages))
      && (raw !in UNFINISHED && ComputeFailed(stages) ==> derived == "failed")
      && (raw in {"failed", "aborted"} && !hasResults ==> derived == "failed")
      && (raw in {"completed", "skipped"} && !hasResults && !ComputeFailed(stages) ==> derived == "skipped")
      && (raw == "" ==> derived == "pending") && (raw == "ready_to_finalize" ==> derived == "running")
      && (raw in {"pending", "running", "waiting_external", "needs_human"} ==> derived == raw)
  {
  }

  /** A stated status stands when no final one contradicts it. */
  lemma StatedStatusStands(o: Outcome)
    requires Strip(o.finalStatus) == ""
    ensures Strip(o.status) in {"pending", "running", "waiting_external", "needs_human"} ==>
      StatusOf(o) == Strip(o.status)
    ensures Strip(o.status) in {"completed", "failed", "aborted", "skipped"} ==> StatusOf(o) == Strip(o.status)
    ensures Strip(o.status) == "ready_to_finalize" ==> StatusOf(o) == "running"
    ensures Strip(o.status) == "" ==> StatusOf(o) == "pending"
  {
    StripTrims("pending");
  }

  // Criteria

  datatype Bucket = Passed | Warning | Rejected | Unknown

  /** scientific_decision_bucket of resolve_outcome_scientific_decision */
  function BucketOf(o: Outcome): Bucket {
    var decision := Lower(Strip(Strip(if o.finalAcceptance != "" then o.finalAcceptance else o.validationDecision)));
    if decision == "pass" || decision == "accepted" then Passed
    else if decision == "pass_with_warning" || decision == "accepted_with_warning" then Warning
    else if decision == "fail" || decision == "rejected" then Rejected
    else Unknown
  }

  /** The words that say how the science was judged. */
  const VERDICTS: map<string, Bucket> := map[
    "pass" := Passed, "accepted" := Passed,
    "pass_with_warning" := Warning, "accepted_with_warning" := Warning,
    "fail" := Rejected, "rejected" := Rejected]

  /** The acceptance is judged by its word, whatever its case and surrounding space, and the
      validation's decision only where there is no acceptance; other words are unknown. */
  lemma BucketReadsVerdict(o: Outcome)
    ensures var word := Lower(Strip(if o.finalAcceptance != "" then o.finalAcceptance else o.validationDecision));
      BucketOf(o) == if word in VERDICTS then VERDICTS[word] else Unknown
  {
    StripTrims(if o.finalAcceptance != "" then o.finalAcceptance else o.validationDecision);
  }

  ghost predicate FailsFirst(stages: seq<Mark>, i: nat) {
    && i < |stages| && stages[i].status == "failed"
    && forall j :: 0 <= j < i ==> stages[j].status != "failed"
  }

  ghost predicate NoneFails(stages: seq<Mark>) {
    forall j :: 0 <= j < |stages| ==> stages[j].status != "failed"
  }

  /** The failure is put down to the first failed stage, or without one to the reason given. */
  lemma FailureIsPutDown(o: Outcome, i: nat)
    ensures FailsFirst(o.stages, i) && o.stages[i].stage != "" ==> FailureStage(o) == o.stages[i].stage
    ensures NoneFails(o.stages) ==>
      FailureStage(o) == if o.terminationReason != "" then o.terminationReason else "unknown"
  {
    FirstFailedIs(o.stages, i);
  }

  lemma {:induction false} FirstFailedIs(stages: seq<Mark>, i: nat)
    ensures FailsFirst(stages, i) ==> FirstFailed(stages) == stages[i].stage
    ensures NoneFails(stages) ==> FirstFailed(stages) == ""
  {
    if stages != [] && stages[0].status != "failed" {
      FirstFailedIs(stages[1..], if i > 0 then i - 1 else 0);
    }
  }

  function FirstFailed(stages: seq<Mark>): string {
    if stages == [] then ""
    else if stages[0].status == "failed" then stages[0].stage
    else FirstFailed(stages[1..])
  }

  function FailureStage(o: Outcome): string {
    if FirstFailed(o.stages) != "" then FirstFailed(o.stages)
    else if o.terminationReason != "" then o.terminationReason
    else "unknown"
  }

  type Criterion = Outcome -> bool

  function HasStatus(status: string): Criterion {
    o => StatusOf(o) == status
  }

  /** The tool counts as failed what neither completed nor was skipped; the reporter only
      what failed or was aborted. */
  function NeitherNor(): Criterion {
    o => StatusOf(o) != "completed" && StatusOf(o) != "skipped"
  }

  function FailedOrAborted(): Criterion {
    o => StatusOf(o) == "failed" || StatusOf(o) == "aborted"
  }

  function InBucket(b: Bucket): Criterion {
    o => BucketOf(o) == b
  }

  function Incomplete(): Criterion {
    o => StatusOf(o) != "completed"
  }

  function FailedAt(stage: string): Criterion {
    o => StatusOf(o) != "completed" && FailureStage(o) == stage
  }

  function Count(outcomes: seq<Outcome>, c: Criterion): nat {
    if outcomes == [] then 0
    else
      var so := Count(outcomes[..|outcomes| - 1], c);
      if c(outcomes[|outcomes| - 1]) then so + 1 else so
  }

  // The summary

  type Stages = map<string, nat>

  datatype Summary = Summary(
    processed: nat, succeeded: nat, failed: nat, skipped: nat,
    passed: nat, warning: nat, rejected: nat, unknown: nat, stages: Stages)

  function FailureStages(outcomes: seq<Outcome>): set<string> {
    if outcomes == [] then {}
    else
      var so := FailureStages(outcomes[..|outcomes| - 1]);
      var last := outcomes[|outcomes| - 1];
      if StatusOf(last) != "completed" then so + {FailureStage(last)} else so
  }

  /** What a summary says when `failing` decides what has failed. */
  function Summarized(outcomes: seq<Outcome>, failing: Criterion): Summary {
    Summary(
      |outcomes|, Count(outcomes, HasStatus("completed")), Count(outcomes, failing),
        Count(outcomes, HasStatus("skipped")),
      Count(outcomes, InBucket(Passed)), Count(outcomes, InBucket(Warning)),
      Count(outcomes, InBucket(Rejected)), Count(outcomes, InBucket(Unknown)),
      map stage | stage in FailureStages(outcomes) :: Count(outcomes, FailedAt(stage)))
  }

  lemma CountLast(outcomes: seq<Outcome>, i: nat, c: Criterion)
    requires i < |outcomes|
    ensures Count(outcomes[..i + 1], c) == Count(outcomes[..i], c) + if c(outcomes[i]) then 1 else 0
  {
    assert outcomes[..i + 1][..i] == outcomes[..i];
  }

  lemma {:induction false} CountNone(outcomes: seq<Outcome>, stage: string)
    ensures Count(outcomes, FailedAt(stage)) == 0 <==> stage !in FailureStages(outcomes)
  {
    if outcomes != [] {
      CountNone(outcomes[..|outcomes| - 1], stage);
    }
  }

  lemma StagesLast(outcomes: seq<Outcome>, i: nat)
    requires i < |outcomes|
    ensures FailureStages(outcomes[..i + 1]) == FailureStages(outcomes[..i])
      + if StatusOf(outcomes[i]) != "completed" then {FailureStage(outcomes[i])} else {}
  {
    assert outcomes[..i + 1][..i] == outcomes[..i];
  }

  /** The map counts exactly the failure stages of the first outcomes. */
  ghost predicate CountsStages(stages: Stages, outcomes: seq<Outcome>) {
    && stages.Keys == FailureStages(outcomes)
    && forall stage :: stage in stages ==> stages[stage] == Count(outcomes, FailedAt(stage))
  }

  function Bumped(stages: Stages, stage: string): Stages {
    stages[stage := (if stage in stages then stages[stage] else 0) + 1]
  }

  /** One more outcome is counted, unless it was completed. */
  function BumpedBy(stages: Stages, o: Outcome): Stages {
    if StatusOf(o) != "completed" then Bumped(stages, FailureStage(o)) else stages
  }

  lemma BumpKeys(stages: Stages, outcomes: seq<Outcome>, i: nat)
    requires i < |outcomes| && stages.Keys == FailureStages(outcomes[..i])
    ensures BumpedBy(stages, outcomes[i]).Keys == FailureStages(outcomes[..i + 1])
  {
    StagesLast(outcomes, i);
  }

  lemma BumpValue(stages: Stages, outcomes: seq<Outcome>, i: nat, stage: string)
    requires i < |outcomes| && CountsStages(stages, outcomes[..i]) && stage in BumpedBy(stages, outcomes[i])
    ensures BumpedBy(stages, outcomes[i])[stage] == Count(outcomes[..i + 1], FailedAt(stage))
  {
    CountLast(outcomes, i, FailedAt(stage));
    CountNone(outcomes[..i], stage);
  }

  lemma BumpCounts(stages: Stages, outcomes: seq<Outcome>, i: nat)
    requires i < |outcomes| && CountsStages(stages, outcomes[..i])
    ensures CountsStages(BumpedBy(stages, outcomes[i]), outcomes[..i + 1])
  {
    BumpKeys(stages, outcomes, i);
    forall stage | stage in BumpedBy(stages, outcomes[i])
      ensures BumpedBy(stages, outcomes[i])[stage] == Count(outcomes[..i + 1], FailedAt(stage))
    {
      BumpValue(stages, outcomes, i, stage);
    }
  }

  datatype Statuses = Statuses(succeeded: nat, failed: nat, skipped: nat)
  datatype Buckets = Buckets(passed: nat, warning: nat, rejected: nat, unknown: nat)

  function StatusesOf(outcomes: seq<Outcome>): Statuses {
    Statuses(Count(outcomes, HasStatus("completed")), Count(outcomes, NeitherNor()),
      Count(outcomes, HasStatus("skipped")))
  }

  function BucketsOf(outcomes: seq<Outcome>): Buckets {
    Buckets(Count(outcomes, InBucket(Passed)), Count(outcomes, InBucket(Warning)),
            Count(outcomes, InBucket(Rejected)), Count(outcomes, InBucket(Unknown)))
  }

  lemma StatusesLast(outcomes: seq<Outcome>, i: nat)
    requires i < |outcomes|
    ensures var so, status := StatusesOf(outcomes[..i]), StatusOf(outcomes[i]);
      StatusesOf(outcomes[..i + 1]) ==
        if status == "completed" then so.(succeeded := so.succeeded + 1)
        else if status == "skipped" then so.(skipped := so.skipped + 1)
        else so.(failed := so.failed + 1)
  {
    CountLast(outcomes, i, HasStatus("completed"));
    CountLast(outcomes, i, NeitherNor());
    CountLast(outcomes, i, HasStatus("skipped"));
  }

  function OneMore(so: Buckets, b: Bucket): Buckets {
    match b
    case Passed => so.(passed := so.passed + 1)
    case Warning => so.(warning := so.warning + 1)
    case Rejected => so.(rejected := so.rejected + 1)
    case Unknown => so.(unknown := so.unknown + 1)
  }

  lemma BucketsLast(outcomes: seq<Outcome>, i: nat)
    requires i < |outcomes|
    ensures BucketsOf(outcomes[..i + 1]) == OneMore(BucketsOf(outcomes[..i]), BucketOf(outcomes[i]))
  {
    CountLast(outcomes, i, InBucket(Passed));
    CountLast(outcomes, i, InBucket(Warning));
    CountLast(outcomes, i, InBucket(Rejected));
    CountLast(outcomes, i, InBucket(Unknown));
  }

  method SummarizeForTool(outcomes: seq<Outcome>) returns (summary: Summary)
    ensures summary == Summarized(outcomes, NeitherNor())
  {
    var succeeded, failed, skipped := 0, 0, 0;
    var passed, warning, rejected, unknown := 0, 0, 0, 0;
    var stages: Stages := map[];
    for i := 0 to |outcomes|
      invariant Statuses(succeeded, failed, skipped) == StatusesOf(outcomes[..i])
      invariant Buckets(passed, warning, rejected, unknown) == BucketsOf(outcomes[..i])
      invariant CountsStages(stages, outcomes[..i])
    {
      StatusesLast(outcomes, i);
      BucketsLast(outcomes, i);
      BumpCounts(stages, outcomes, i);
      var status := StatusOf(outcomes[i]);
      if status == "completed" {
        succeeded := succeeded + 1;
      } else if status == "skipped" {
        skipped := skipped + 1;
      } else {
        failed := failed + 1;
      }
      match BucketOf(outcomes[i]) {
        case Passed => passed := passed + 1;
        case Warning => warning := warning + 1;
        case Rejected => rejected := rejected + 1;
        case Unknown => unknown := unknown + 1;
      }
      if status != "completed" {
        stages := Bumped(stages, FailureStage(outcomes[i]));
      }
    }
    assert outcomes[..|outcomes|] == outcomes;
    summary := Summary(|outcomes|, succeeded, failed, skipped, passed, warning, rejected, unknown, stages);
    SameStages(stages, Summarized(outcomes, NeitherNor()).stages, outcomes);
  }

  method SummarizeForReport(outcomes: seq<Outcome>) returns (summary: Summary)
    ensures summary == Summarized(outcomes, FailedOrAborted())
  {
    var passed, warning, rejected, unknown := 0, 0, 0, 0;
    var stages: Stages := map[];
    for i := 0 to |outcomes|
      invariant Buckets(passed, warning, rejected, unknown) == BucketsOf(outcomes[..i])
      invariant CountsStages(stages, outcomes[..i])
    {
      BucketsLast(outcomes, i);
      BumpCounts(stages, outcomes, i);
      match BucketOf(outcomes[i]) {
        case Passed => passed := passed + 1;
        case Warning => warning := warning + 1;
        case Rejected => rejected := rejected + 1;
        case Unknown => unknown := unknown + 1;
      }
      if StatusOf(outcomes[i]) == "completed" {
        continue;
      }
      stages := Bumped(stages, FailureStage(outcomes[i]));
    }
    assert outcomes[..|outcomes|] == outcomes;
    summary := Summary(
      |outcomes|, Count(outcomes, HasStatus("completed")), Count(outcomes, FailedOrAborted()),
      Count(outcomes, HasStatus("skipped")), passed, warning, rejected, unknown, stages);
    SameStages(stages, Summarized(outcomes, FailedOrAborted()).stages, outcomes);
  }

  // Conservation

  /** The sum of the values of a map. */
  ghost function Total(m: Stages): nat {
    if m == map[] then 0
    else
      var k :| k in m;
      m[k] + Total(m - {k})
  }

  lemma {:induction false} TotalSplits(m: Stages, k: string)
    requires k in m
    ensures Total(m) == m[k] + Total(m - {k})
    decreases |m|
  {
    var first :| first in m && Total(m) == m[first] + Total(m - {first});
    if first != k {
      TotalSplits(m - {first}, k);
      TotalSplits(m - {k}, first);
      assert m - {first} - {k} == m - {k} - {first};
    }
  }

  lemma BumpTotal(m: Stages, k: string)
    ensures Total(Bumped(m, k)) == Total(m) + 1
  {
    var b := Bumped(m, k);
    TotalSplits(b, k);
    assert b - {k} == m - {k};
    if k in m {
      TotalSplits(m, k);
    } else {
      assert m - {k} == m;
    }
  }

  /** The counts of the first n outcomes. */
  ghost function StagesOf(outcomes: seq<Outcome>, n: nat): (stages: Stages)
    requires n <= |outcomes|
    ensures CountsStages(stages, outcomes[..n])
  {
    map stage | stage in FailureStages(outcomes[..n]) :: Count(outcomes[..n], FailedAt(stage))
  }

  lemma {:induction false} StagesTotal(outcomes: seq<Outcome>, n: nat, stages: Stages)
    requires n <= |outcomes| && CountsStages(stages, outcomes[..n])
    ensures Total(stages) == Count(outcomes[..n], Incomplete())
    decreases n
  {
    if n == 0 {
      NoStages(stages, outcomes[..n]);
    } else {
      StagesTotal(outcomes, n - 1, StagesOf(outcomes, n - 1));
      TotalOn(outcomes, n - 1, StagesOf(outcomes, n - 1), stages);
    }
  }

  lemma TotalOn(outcomes: seq<Outcome>, i: nat, before: Stages, after: Stages)
    requires i < |outcomes| && CountsStages(before, outcomes[..i]) && CountsStages(after, outcomes[..i + 1])
    requires Total(before) == Count(outcomes[..i], Incomplete())
    ensures Total(after) == Count(outcomes[..i + 1], Incomplete())
  {
    NextTotal(outcomes, i, before, after);
    CountLast(outcomes, i, Incomplete());
  }

  lemma NoStages(stages: Stages, outcomes: seq<Outcome>)
    requires outcomes == [] && CountsStages(stages, outcomes)
    ensures stages == map[]
  {
    assert FailureStages(outcomes) == {};
  }

  lemma NextTotal(outcomes: seq<Outcome>, i: nat, before: Stages, after: Stages)
    requires i < |outcomes| && CountsStages(before, outcomes[..i]) && CountsStages(after, outcomes[..i + 1])
    ensures Total(after) == Total(before) + if Incomplete()(outcomes[i]) then 1 else 0
  {
    BumpCounts(before, outcomes, i);
    SameStages(after, BumpedBy(before, outcomes[i]), outcomes[..i + 1]);
    BumpTotal(before, FailureStage(outcomes[i]));
  }

  lemma SameStages(a: Stages, b: Stages, outcomes: seq<Outcome>)
    requires CountsStages(a, outcomes) && CountsStages(b, outcomes)
    ensures a == b
  {
  }

  lemma {:induction false} CountsAdd(outcomes: seq<Outcome>)
    ensures Count(outcomes, HasStatus("completed")) + Count(outcomes, NeitherNor())
      + Count(outcomes, HasStatus("skipped")) == |outcomes|
    ensures Count(outcomes, HasStatus("completed")) + Count(outcomes, Incomplete()) == |outcomes|
    ensures Count(outcomes, InBucket(Passed)) + Count(outcomes, InBucket(Warning))
      + Count(outcomes, InBucket(Rejected)) + Count(outcomes, InBucket(Unknown)) == |outcomes|
  {
    if outcomes != [] {
      CountsAdd(outcomes[..|outcomes| - 1]);
    }
  }

  /** No outcome is lost or counted twice: statuses, science buckets and failure stages all
      add up. */
  lemma ToolConserves(outcomes: seq<Outcome>)
    ensures var s := Summarized(outcomes, NeitherNor());
      && s.succeeded + s.failed + s.skipped == s.processed
      && s.passed + s.warning + s.rejected + s.unknown == s.processed
      && Total(s.stages) == s.processed - s.succeeded
      && forall stage :: stage in s.stages ==> s.stages[stage] > 0
  {
    CountsAdd(outcomes);
    var s := Summarized(outcomes, NeitherNor());
    assert outcomes[..|outcomes|] == outcomes;
    StagesTotal(outcomes, |outcomes|, s.stages);
    forall stage | stage in s.stages
      ensures s.stages[stage] > 0
    {
      CountNone(outcomes, stage);
    }
  }

  predicate AllTerminal(outcomes: seq<Outcome>) {
    forall i :: 0 <= i < |outcomes| ==> StatusOf(outcomes[i]) in TERMINAL
  }

  function OtherStatus(): Criterion {
    o => StatusOf(o) !in TERMINAL
  }

  lemma {:induction false} CountZero(outcomes: seq<Outcome>, c: Criterion)
    ensures Count(outcomes, c) == 0 <==> forall i :: 0 <= i < |outcomes| ==> !c(outcomes[i])
  {
    if outcomes != [] {
      var rest := outcomes[..|outcomes| - 1];
      CountZero(rest, c);
      assert forall i :: 0 <= i < |rest| ==> rest[i] == outcomes[i];
    }
  }

  lemma {:induction false} FailedDiffer(outcomes: seq<Outcome>)
    ensures Count(outcomes, NeitherNor()) == Count(outcomes, FailedOrAborted()) + Count(outcomes, OtherStatus())
  {
    if outcomes != [] {
      FailedDiffer(outcomes[..|outcomes| - 1]);
    }
  }

  /** The tool's summary and the reporter's are equal exactly when every status is terminal. */
  lemma SummariesAgree(outcomes: seq<Outcome>)
    ensures Summarized(outcomes, NeitherNor()) == Summarized(outcomes, FailedOrAborted()) <==> AllTerminal(outcomes)
  {
    FailedDiffer(outcomes);
    CountZero(outcomes, OtherStatus());
  }

  // Order

  lemma {:induction false} CountConcat(a: seq<Outcome>, b: seq<Outcome>, c: Criterion)
    ensures Count(a + b, c) == Count(a, c) + Count(b, c)
  {
    if b == [] {
      assert a + b == a;
    } else {
      assert (a + b)[..|a + b| - 1] == a + b[..|b| - 1];
      CountConcat(a, b[..|b| - 1], c);
    }
  }

  lemma CountWithout(a: seq<Outcome>, i: nat, c: Criterion)
    requires i < |a|
    ensures Count(a, c) == Count(a[..i] + a[i + 1..], c) + if c(a[i]) then 1 else 0
  {
    assert a == a[..i + 1] + a[i + 1..];
    CountConcat(a[..i + 1], a[i + 1..], c);
    CountConcat(a[..i], a[i + 1..], c);
    CountLast(a, i, c);
  }

  lemma MultisetWithout<T>(a: seq<T>, i: nat)
    requires i < |a|
    ensures multiset(a[..i] + a[i + 1..]) == multiset(a) - multiset{a[i]}
  {
    assert a == a[..i] + [a[i]] + a[i + 1..];
  }

  lemma RestsMatch<T>(a: seq<T>, b: seq<T>, i: nat)
    requires multiset(a) == multiset(b) && a != [] && i < |b| && b[i] == a[0]
    ensures multiset(a[1..]) == multiset(b[..i] + b[i + 1..])
  {
    assert a == [a[0]] + a[1..];
    MultisetWithout(b, i);
  }

  lemma CountFirst(a: seq<Outcome>, c: Criterion)
    requires a != []
    ensures Count(a, c) == Count(a[1..], c) + if c(a[0]) then 1 else 0
  {
    CountWithout(a, 0, c);
    assert a[..0] + a[0 + 1..] == a[1..];
  }

  lemma {:induction false} CountIgnoresOrder(a: seq<Outcome>, b: seq<Outcome>, c: Criterion)
    requires multiset(a) == multiset(b)
    ensures Count(a, c) == Count(b, c)
    decreases |a|
  {
    assert |a| == |multiset(a)| == |multiset(b)| == |b|;
    if a != [] {
      assert a[0] in multiset(b);
      var i :| 0 <= i < |b| && b[i] == a[0];
      var rest := b[..i] + b[i + 1..];
      RestsMatch(a, b, i);
      CountIgnoresOrder(a[1..], rest, c);
      CountFirst(a, c);
      CountWithout(b, i, c);
    }
  }

  /** The order in which materials finish does not show. */
  lemma SummaryIgnoresOrder(a: seq<Outcome>, b: seq<Outcome>, failing: Criterion)
    requires multiset(a) == multiset(b)
    ensures Summarized(a, failing) == Summarized(b, failing)
  {
    assert |a| == |multiset(a)| == |multiset(b)| == |b|;
    forall c: Criterion
      ensures Count(a, c) == Count(b, c)
    {
      CountIgnoresOrder(a, b, c);
    }
    assert FailureStages(a) == FailureStages(b) by {
      forall stage: string
        ensures stage in FailureStages(a) <==> stage in FailureStages(b)
      {
        CountNone(a, stage);
        CountNone(b, stage);
      }
    }
  }
}
