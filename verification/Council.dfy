/** The council of agents: running a list of roles on a worker pool or one after the other,
    with a cache of answers (mobility_agent/runtime/agentic_controller.py:553-807).

    What an agent answers is arbitrary: the world says, for each attempt, role and inputs,
    whether the call returns or raises. The payload hash is modelled as the payload. */
module Council {
  import opened Sorting

  type Item = string

  datatype Option<T> = None | Some(value: T)

  datatype Role =
    | Planner | Recovery | Validation | Refinement | Executor
    | PhysicsJudge | CostGuardian | Critic | Orchestrator

  datatype Phase = Proposing | Reviewing | Arbitrating

  datatype Output = Output(proposals: seq<Item>, critiques: seq<Item>, preferences: seq<Item>, record: Item)

  /** What a role is shown besides the state snapshot, which one council never changes. */
  datatype Inputs = Inputs(diagnosis: Option<Item>, proposals: seq<Item>, critiques: seq<Item>, preferences: seq<Item>)

  datatype Key = Key(phase: Phase, role: Role, payload: Item)
  datatype Entry = Entry(output: Output, metadata: Item)

  datatype Outcome =
    | Answer(entry: Entry, diagnosis: Item)
    | Raised(error: Item, metadata: Item)

  datatype World = World(
    payload: (Phase, Role, Inputs) -> Item,
    invoke: (nat, Phase, Role, Inputs) -> Outcome)

  datatype Spec = Spec(role: Role, critical: bool)
  datatype Pending = Pending(index: nat, spec: Spec)
  datatype Result = Result(index: nat, role: Role, critical: bool, output: Output, reused: bool)
  datatype Failure = Failure(role: Role, phase: Phase, critical: bool, error: Item, metadata: Item)

  /** One call of an agent: the answer it gave, or None when it raised. */
  datatype Invocation = Invocation(attempt: nat, key: Key, answer: Option<Entry>)

  datatype Ledger = Ledger(cache: map<Key, Entry>, reused: seq<Role>, diagnosis: Option<Item>, invoked: seq<Invocation>)

  datatype Context = Context(attempt: nat, phase: Phase, inputs: Inputs)
  datatype Run = Run(results: seq<Result>, failures: seq<Failure>, ledger: Ledger)

  function KeyOf(w: World, ctx: Context, role: Role): Key {
    Key(ctx.phase, role, w.payload(ctx.phase, role, ctx.inputs))
  }

  function Call(w: World, ctx: Context, role: Role): Outcome {
    w.invoke(ctx.attempt, ctx.phase, role, ctx.inputs)
  }

  function Logged(w: World, ctx: Context, role: Role): Invocation {
    var outcome := Call(w, ctx, role);
    Invocation(ctx.attempt, KeyOf(w, ctx, role), if outcome.Answer? then Some(outcome.entry) else None)
  }

  // One role after the other

  /** Running one role: a cached answer is reused, anything else is one call whose answer is
      cached. */
  function Step(w: World, ctx: Context, spec: Spec, index: nat, run: Run): Run {
    var key := KeyOf(w, ctx, spec.role);
    var led := run.ledger;
    if key in led.cache then
      run.(results := run.results + [Result(index, spec.role, spec.critical, led.cache[key].output, true)],
           ledger := led.(reused := led.reused + [spec.role]))
    else
      var log := led.invoked + [Logged(w, ctx, spec.role)];
      match Call(w, ctx, spec.role)
      case Answer(entry, diagnosis) =>
        run.(results := run.results + [Result(index, spec.role, spec.critical, entry.output, false)],
             ledger := led.(cache := led.cache[key := entry], invoked := log,
                            diagnosis := if spec.role.Recovery? then Some(diagnosis) else led.diagnosis))
      case Raised(error, metadata) =>
        run.(failures := run.failures + [Failure(spec.role, ctx.phase, spec.critical, error, metadata)],
             ledger := led.(invoked := log))
  }

  /** The first n specs run in order, each seeing the cache the earlier ones left. */
  function OneByOne(w: World, ctx: Context, specs: seq<Spec>, n: nat, led: Ledger): Run
    requires n <= |specs|
  {
    if n == 0 then Run([], [], led)
    else Step(w, ctx, specs[n - 1], n - 1, OneByOne(w, ctx, specs, n - 1, led))
  }

  ghost predicate DistinctRoles(specs: seq<Spec>) {
    forall i, j :: 0 <= i < j < |specs| ==> specs[i].role != specs[j].role
  }

  function ResultIndex(): Result -> int {
    (r: Result) => r.index
  }

  /** The position of the first spec of a role, 0 when there is none. */
  function FirstSpec(specs: seq<Spec>, role: Role): nat {
    if specs == [] || specs[0].role == role then 0
    else if forall s :: s in specs[1..] ==> s.role != role then 0
    else 1 + FirstSpec(specs[1..], role)
  }

  function ByFirstSpec(specs: seq<Spec>): Failure -> int {
    (f: Failure) => FirstSpec(specs, f.role)
  }

  lemma {:induction false} FirstSpecFinds(specs: seq<Spec>, i: nat)
    requires DistinctRoles(specs) && i < |specs|
    ensures FirstSpec(specs, specs[i].role) == i
  {
    if i > 0 {
      assert specs[1..][i - 1] == specs[i];
      FirstSpecFinds(specs[1..], i - 1);
    }
  }

  // The worker pool

  /** Those of the first n specs that the cache has no answer for. */
  function PendingOf(w: World, ctx: Context, specs: seq<Spec>, n: nat, cache: map<Key, Entry>): seq<Pending>
    requires n <= |specs|
  {
    if n == 0 then []
    else
      var before := PendingOf(w, ctx, specs, n - 1, cache);
      if KeyOf(w, ctx, specs[n - 1].role) in cache then before else before + [Pending(n - 1, specs[n - 1])]
  }

  function CachedOf(w: World, ctx: Context, specs: seq<Spec>, n: nat, cache: map<Key, Entry>): seq<Result>
    requires n <= |specs|
  {
    if n == 0 then []
    else
      var spec := specs[n - 1];
      var key := KeyOf(w, ctx, spec.role);
      var before := CachedOf(w, ctx, specs, n - 1, cache);
      if key in cache then before + [Result(n - 1, spec.role, spec.critical, cache[key].output, true)] else before
  }

  /** What the answer of one pending spec adds to a run. */
  function Collate(w: World, ctx: Context, p: Pending, run: Run): Run {
    match Call(w, ctx, p.spec.role)
    case Answer(entry, diagnosis) =>
      run.(results := run.results + [Result(p.index, p.spec.role, p.spec.critical, entry.output, false)],
           ledger := run.ledger.(cache := run.ledger.cache[KeyOf(w, ctx, p.spec.role) := entry],
                                 diagnosis := if p.spec.role.Recovery? then Some(diagnosis) else run.ledger.diagnosis))
    case Raised(error, metadata) =>
      run.(failures := run.failures + [Failure(p.spec.role, ctx.phase, p.spec.critical, error, metadata)])
  }

  /** The pending specs collated in submission order. */
  function Collated(w: World, ctx: Context, pending: seq<Pending>, run: Run): Run {
    if pending == [] then run
    else Collate(w, ctx, pending[|pending| - 1], Collated(w, ctx, pending[..|pending| - 1], run))
  }

  /** The run of the pool on the first n specs, before its results are sorted. */
  ghost function PoolRun(w: World, ctx: Context, specs: seq<Spec>, n: nat, led: Ledger): Run
    requires n <= |specs|
  {
    Collated(w, ctx, PendingOf(w, ctx, specs, n, led.cache), Run(CachedOf(w, ctx, specs, n, led.cache), [], led))
  }

  lemma {:induction false} CollatedShifts(w: World, ctx: Context, pending: seq<Pending>, run: Run, more: seq<Result>)
    ensures var a := Collated(w, ctx, pending, run);
      var b := Collated(w, ctx, pending, run.(results := run.results + more));
      && multiset(b.results) == multiset(a.results) + multiset(more)
      && b.failures == a.failures && b.ledger == a.ledger
  {
    if pending != [] {
      CollatedShifts(w, ctx, pending[..|pending| - 1], run, more);
    }
  }

  /** The pool against the one-by-one run on the first n specs: the same failures, cache and
      diagnosis, and the same results up to their order. */
  ghost predicate Agrees(pool: Run, serial: Run) {
    && pool.failures == serial.failures
    && pool.ledger.cache == serial.ledger.cache
    && pool.ledger.diagnosis == serial.ledger.diagnosis
    && multiset(pool.results) == multiset(serial.results)
  }

  ghost predicate SeesStart(key: Key, cache: map<Key, Entry>, start: map<Key, Entry>) {
    (key in cache <==> key in start) && (key in start ==> cache[key] == start[key])
  }

  /** A spec sees the cache the council started with: the earlier specs have other roles. */
  lemma {:induction false} CacheUntouched(w: World, ctx: Context, specs: seq<Spec>, n: nat, led: Ledger, key: Key)
    requires n <= |specs| && forall i :: 0 <= i < n ==> specs[i].role != key.role
    ensures SeesStart(key, OneByOne(w, ctx, specs, n, led).ledger.cache, led.cache)
  {
    if n > 0 {
      CacheUntouched(w, ctx, specs, n - 1, led, key);
    }
  }

  /** What one more spec does to the pool's run: a cached one adds its result, the others
      are collated last. */
  lemma PoolGrows(w: World, ctx: Context, specs: seq<Spec>, n: nat, led: Ledger)
    requires n < |specs|
    ensures GrownBy(w, ctx, specs[n], n, PoolRun(w, ctx, specs, n, led), PoolRun(w, ctx, specs, n + 1, led), led.cache)
  {
    var pending := PendingOf(w, ctx, specs, n, led.cache);
    var start := Run(CachedOf(w, ctx, specs, n, led.cache), [], led);
    var key := KeyOf(w, ctx, specs[n].role);
    if key in led.cache {
      var result := Result(n, specs[n].role, specs[n].critical, led.cache[key].output, true);
      CollatedShifts(w, ctx, pending, start, [result]);
      assert PoolRun(w, ctx, specs, n + 1, led)
        == Collated(w, ctx, pending, start.(results := start.results + [result]));
    } else {
      var p := Pending(n, specs[n]);
      assert (pending + [p])[..|pending|] == pending;
    }
  }

  /** What PoolGrows says of two runs of the pool. */
  ghost predicate GrownBy(w: World, ctx: Context, spec: Spec, index: nat, so: Run, run: Run, cache: map<Key, Entry>) {
    var key := KeyOf(w, ctx, spec.role);
    if key in cache then
      && run.failures == so.failures && run.ledger == so.ledger
      && multiset(run.results) == multiset(so.results)
           + multiset{Result(index, spec.role, spec.critical, cache[key].output, true)}
    else run == Collate(w, ctx, Pending(index, spec), so)
  }

  /** One spec served by the pool from the cache the council started with, and by a step
      from the cache so far. */
  lemma StepAgrees(w: World, ctx: Context, spec: Spec, index: nat, so: Run, serial: Run, cache: map<Key, Entry>,
      run: Run)
    requires Agrees(so, serial)
    requires SeesStart(KeyOf(w, ctx, spec.role), serial.ledger.cache, cache)
    requires GrownBy(w, ctx, spec, index, so, run, cache)
    ensures Agrees(run, Step(w, ctx, spec, index, serial))
  {
  }

  lemma NextAgrees(w: World, ctx: Context, specs: seq<Spec>, n: nat, led: Ledger, so: Run, run: Run)
    requires DistinctRoles(specs) && 0 < n <= |specs| && Agrees(so, OneByOne(w, ctx, specs, n - 1, led))
    requires GrownBy(w, ctx, specs[n - 1], n - 1, so, run, led.cache)
    ensures Agrees(run, OneByOne(w, ctx, specs, n, led))
  {
    CacheUntouched(w, ctx, specs, n - 1, led, KeyOf(w, ctx, specs[n - 1].role));
    StepAgrees(w, ctx, specs[n - 1], n - 1, so, OneByOne(w, ctx, specs, n - 1, led), led.cache, run);
  }

  /** The pool's run agrees with the one-by-one run. */
  lemma {:induction false} PoolAgrees(w: World, ctx: Context, specs: seq<Spec>, n: nat, led: Ledger)
    requires DistinctRoles(specs) && n <= |specs|
    ensures Agrees(PoolRun(w, ctx, specs, n, led), OneByOne(w, ctx, specs, n, led))
  {
    if n == 0 {
      assert PoolRun(w, ctx, specs, n, led) == Run([], [], led);
    } else {
      PoolAgrees(w, ctx, specs, n - 1, led);
      PoolGrows(w, ctx, specs, n - 1, led);
      NextAgrees(w, ctx, specs, n, led, PoolRun(w, ctx, specs, n - 1, led), PoolRun(w, ctx, specs, n, led));
    }
  }

  /** One more result or one more failure, of the given spec. */
  ghost predicate AddsOne(run: Run, next: Run, index: nat, role: Role) {
    || (next.failures == run.failures
        && exists r: Result :: next.results == run.results + [r] && r.index == index && r.role == role)
    || (next.results == run.results
        && exists f: Failure :: next.failures == run.failures + [f] && f.role == role)
  }

  lemma StepAddsOne(w: World, ctx: Context, spec: Spec, index: nat, run: Run)
    ensures AddsOne(run, Step(w, ctx, spec, index, run), index, spec.role)
  {
  }

  ghost predicate ResultsOrdered(specs: seq<Spec>, n: nat, results: seq<Result>)
    requires n <= |specs|
  {
    && StrictlyAscending(results, ResultIndex())
    && forall r :: r in results ==> r.index < n && specs[r.index].role == r.role
  }

  ghost predicate FailuresOrdered(specs: seq<Spec>, n: nat, failures: seq<Failure>) {
    StrictlyAscending(failures, ByFirstSpec(specs)) && forall f :: f in failures ==> FirstSpec(specs, f.role) < n
  }

  ghost predicate Ordered(specs: seq<Spec>, n: nat, run: Run)
    requires n <= |specs|
  {
    ResultsOrdered(specs, n, run.results) && FailuresOrdered(specs, n, run.failures)
  }

  lemma OneMoreOrdered(specs: seq<Spec>, n: nat, so: Run, run: Run)
    requires DistinctRoles(specs) && n < |specs|
    requires Ordered(specs, n, so) && AddsOne(so, run, n, specs[n].role)
    ensures Ordered(specs, n + 1, run)
  {
    FirstSpecFinds(specs, n);
    if run.results != so.results {
      StrictlyAscendingAppend(so.results, run.results[|so.results|], ResultIndex());
    }
    if run.failures != so.failures {
      StrictlyAscendingAppend(so.failures, run.failures[|so.failures|], ByFirstSpec(specs));
    }
  }

  /** One by one, results and failures come in the order of the specs. */
  lemma {:induction false} InSpecOrder(w: World, ctx: Context, specs: seq<Spec>, n: nat, led: Ledger)
    requires DistinctRoles(specs) && n <= |specs|
    ensures Ordered(specs, n, OneByOne(w, ctx, specs, n, led))
  {
    if n > 0 {
      InSpecOrder(w, ctx, specs, n - 1, led);
      TurnAddsOne(w, ctx, specs, n, led);
      OneMoreOrdered(specs, n - 1, OneByOne(w, ctx, specs, n - 1, led), OneByOne(w, ctx, specs, n, led));
    }
  }

  lemma TurnAddsOne(w: World, ctx: Context, specs: seq<Spec>, n: nat, led: Ledger)
    requires 0 < n <= |specs|
    ensures AddsOne(OneByOne(w, ctx, specs, n - 1, led), OneByOne(w, ctx, specs, n, led), n - 1, specs[n - 1].role)
  {
    StepAddsOne(w, ctx, specs[n - 1], n - 1, OneByOne(w, ctx, specs, n - 1, led));
  }

  ghost predicate HasResult(run: Run, index: nat) {
    exists r :: r in run.results && r.index == index
  }

  ghost predicate HasFailure(run: Run, role: Role) {
    exists f :: f in run.failures && f.role == role
  }

  /** Every spec lands exactly once, in the results or in the failures. */
  lemma {:induction false} EachSpecLandsOnce(w: World, ctx: Context, specs: seq<Spec>, n: nat, led: Ledger, i: nat)
    requires DistinctRoles(specs) && i < n <= |specs|
    ensures var run := OneByOne(w, ctx, specs, n, led);
      |run.results| + |run.failures| == n && (HasResult(run, i) <==> !HasFailure(run, specs[i].role))
  {
    var so := OneByOne(w, ctx, specs, n - 1, led);
    var run := OneByOne(w, ctx, specs, n, led);
    LandingsCount(w, ctx, specs, n, led);
    TurnAddsOne(w, ctx, specs, n, led);
    if i < n - 1 {
      EachSpecLandsOnce(w, ctx, specs, n - 1, led, i);
      StepAddsNoOther(so, run, n - 1, specs[n - 1].role, i, specs[i].role);
    } else {
      NotLandedYet(w, ctx, specs, n - 1, led);
      LandsNow(so, run, i, specs[i].role);
    }
  }

  lemma LandsNow(so: Run, run: Run, index: nat, role: Role)
    requires AddsOne(so, run, index, role) && !HasResult(so, index) && !HasFailure(so, role)
    ensures HasResult(run, index) <==> !HasFailure(run, role)
  {
    if run.failures == so.failures {
      assert run.results[|so.results|] in run.results;
    } else {
      assert run.failures[|so.failures|] in run.failures;
    }
  }

  lemma StepAddsNoOther(so: Run, run: Run, index: nat, role: Role, i: nat, other: Role)
    requires i != index && other != role
    requires AddsOne(so, run, index, role)
    ensures HasResult(run, i) <==> HasResult(so, i)
    ensures HasFailure(run, other) <==> HasFailure(so, other)
  {
    if HasResult(so, i) {
      var r :| r in so.results && r.index == i;
      assert r in run.results;
    }
    if HasFailure(so, other) {
      var f :| f in so.failures && f.role == other;
      assert f in run.failures;
    }
  }

  lemma {:induction false} LandingsCount(w: World, ctx: Context, specs: seq<Spec>, n: nat, led: Ledger)
    requires n <= |specs|
    ensures var run := OneByOne(w, ctx, specs, n, led); |run.results| + |run.failures| == n
  {
    if n > 0 {
      LandingsCount(w, ctx, specs, n - 1, led);
      StepAddsOne(w, ctx, specs[n - 1], n - 1, OneByOne(w, ctx, specs, n - 1, led));
    }
  }

  lemma NotLandedYet(w: World, ctx: Context, specs: seq<Spec>, n: nat, led: Ledger)
    requires DistinctRoles(specs) && n < |specs|
    ensures var run := OneByOne(w, ctx, specs, n, led); !HasResult(run, n) && !HasFailure(run, specs[n].role)
  {
    InSpecOrder(w, ctx, specs, n, led);
    FirstSpecFinds(specs, n);
  }

  // What the results hold

  /** The output a role gives: the one cached under its key, or its call's when that answers. */
  ghost function AnswerOf(w: World, ctx: Context, role: Role, cache: map<Key, Entry>): Option<Output> {
    var key := Key(ctx.phase, role, w.payload(ctx.phase, role, ctx.inputs));
    var outcome := w.invoke(ctx.attempt, ctx.phase, role, ctx.inputs);
    if key in cache then Some(cache[key].output)
    else if outcome.Answer? then Some(outcome.entry.output)
    else None
  }

  ghost predicate IsCached(w: World, ctx: Context, role: Role, cache: map<Key, Entry>) {
    Key(ctx.phase, role, w.payload(ctx.phase, role, ctx.inputs)) in cache
  }

  /** The result hands on the output its role gave, and says whether it was cached. */
  ghost predicate HandsOn(w: World, ctx: Context, spec: Spec, cache: map<Key, Entry>, r: Result) {
    && r.role == spec.role && r.critical == spec.critical
    && AnswerOf(w, ctx, spec.role, cache) == Some(r.output)
    && (r.reused <==> IsCached(w, ctx, spec.role, cache))
  }

  /** The failure carries what the role's call raised. */
  ghost predicate Carries(w: World, ctx: Context, spec: Spec, cache: map<Key, Entry>, f: Failure) {
    && f.role == spec.role && f.critical == spec.critical && f.phase == ctx.phase
    && !IsCached(w, ctx, spec.role, cache)
    && w.invoke(ctx.attempt, ctx.phase, spec.role, ctx.inputs) == Raised(f.error, f.metadata)
  }

  lemma StepHandsOn(w: World, ctx: Context, spec: Spec, index: nat, run: Run, cache: map<Key, Entry>)
    requires SeesStart(KeyOf(w, ctx, spec.role), run.ledger.cache, cache)
    ensures var next := Step(w, ctx, spec, index, run);
      if AnswerOf(w, ctx, spec.role, cache).Some? then
        && next.failures == run.failures && |next.results| == |run.results| + 1
        && next.results[..|run.results|] == run.results
        && next.results[|run.results|].index == index
        && HandsOn(w, ctx, spec, cache, next.results[|run.results|])
      else
        && next.results == run.results && |next.failures| == |run.failures| + 1
        && next.failures[..|run.failures|] == run.failures
        && Carries(w, ctx, spec, cache, next.failures[|run.failures|])
  {
  }

  /** Every result hands on the output that was cached at the start or given by the role's
      call, and every failure carries what the call raised. */
  lemma {:induction false} OutputsAreAnswers(w: World, ctx: Context, specs: seq<Spec>, n: nat, led: Ledger)
    requires DistinctRoles(specs) && n <= |specs|
    ensures var run := OneByOne(w, ctx, specs, n, led);
      && (forall r :: r in run.results ==> r.index < n && HandsOn(w, ctx, specs[r.index], led.cache, r))
      && (forall f :: f in run.failures ==> exists i :: 0 <= i < n && Carries(w, ctx, specs[i], led.cache, f))
  {
    if n > 0 {
      var so, run := OneByOne(w, ctx, specs, n - 1, led), OneByOne(w, ctx, specs, n, led);
      OutputsAreAnswers(w, ctx, specs, n - 1, led);
      CacheUntouched(w, ctx, specs, n - 1, led, KeyOf(w, ctx, specs[n - 1].role));
      StepHandsOn(w, ctx, specs[n - 1], n - 1, so, led.cache);
      forall r | r in run.results
        ensures r.index < n && HandsOn(w, ctx, specs[r.index], led.cache, r)
      {
        if r !in so.results {
          assert r == run.results[|so.results|];
        }
      }
      forall f | f in run.failures
        ensures exists i :: 0 <= i < n && Carries(w, ctx, specs[i], led.cache, f)
      {
        if f in so.failures {
          var i :| 0 <= i < n - 1 && Carries(w, ctx, specs[i], led.cache, f);
        } else {
          assert Carries(w, ctx, specs[n - 1], led.cache, f);
        }
      }
    }
  }

  /** The cache after the specs: what it held, and the entries of the calls that answered. */
  ghost predicate CachesAnswers(w: World, ctx: Context, specs: seq<Spec>, n: nat, start: map<Key, Entry>,
      cache: map<Key, Entry>)
    requires n <= |specs|
  {
    && (forall key :: key in start ==> key in cache && cache[key] == start[key])
    && (forall i :: 0 <= i < n && !IsCached(w, ctx, specs[i].role, start) ==>
          var key := Key(ctx.phase, specs[i].role, w.payload(ctx.phase, specs[i].role, ctx.inputs));
          var outcome := w.invoke(ctx.attempt, ctx.phase, specs[i].role, ctx.inputs);
          if outcome.Answer? then key in cache && cache[key] == outcome.entry else key !in cache)
  }

  lemma StepCaches(w: World, ctx: Context, spec: Spec, index: nat, run: Run, start: map<Key, Entry>)
    requires SeesStart(KeyOf(w, ctx, spec.role), run.ledger.cache, start)
    ensures Step(w, ctx, spec, index, run).ledger.cache
      == var outcome := w.invoke(ctx.attempt, ctx.phase, spec.role, ctx.inputs);
         if !IsCached(w, ctx, spec.role, start) && outcome.Answer?
         then run.ledger.cache[Key(ctx.phase, spec.role, w.payload(ctx.phase, spec.role, ctx.inputs)) := outcome.entry]
         else run.ledger.cache
  {
  }

  lemma {:induction false} AnswersAreCached(w: World, ctx: Context, specs: seq<Spec>, n: nat, led: Ledger)
    requires DistinctRoles(specs) && n <= |specs|
    ensures CachesAnswers(w, ctx, specs, n, led.cache, OneByOne(w, ctx, specs, n, led).ledger.cache)
  {
    if n > 0 {
      AnswersAreCached(w, ctx, specs, n - 1, led);
      CacheUntouched(w, ctx, specs, n - 1, led, KeyOf(w, ctx, specs[n - 1].role));
      StepCaches(w, ctx, specs[n - 1], n - 1, OneByOne(w, ctx, specs, n - 1, led), led.cache);
    }
  }

  /** The diagnosis is the one of the recovery role's call when that is made and answers; a
      cached answer leaves it as it was. */
  lemma {:induction false} RecoveryDiagnoses(w: World, ctx: Context, specs: seq<Spec>, n: nat, led: Ledger)
    requires DistinctRoles(specs) && n <= |specs|
    ensures OneByOne(w, ctx, specs, n, led).ledger.diagnosis
      == var outcome := w.invoke(ctx.attempt, ctx.phase, Recovery, ctx.inputs);
         if (exists i :: 0 <= i < n && specs[i].role == Recovery) && !IsCached(w, ctx, Recovery, led.cache)
           && outcome.Answer?
         then Some(outcome.diagnosis) else led.diagnosis
  {
    if n > 0 {
      RecoveryDiagnoses(w, ctx, specs, n - 1, led);
      CacheUntouched(w, ctx, specs, n - 1, led, KeyOf(w, ctx, specs[n - 1].role));
    }
  }

  /** The calls made for the pending specs. */
  ghost function CallsOf(w: World, ctx: Context, pending: seq<Pending>): seq<Invocation> {
    if pending == [] then []
    else CallsOf(w, ctx, pending[..|pending| - 1]) + [Logged(w, ctx, pending[|pending| - 1].spec.role)]
  }

  lemma {:induction false} CallsConcat(w: World, ctx: Context, a: seq<Pending>, b: seq<Pending>)
    ensures CallsOf(w, ctx, a + b) == CallsOf(w, ctx, a) + CallsOf(w, ctx, b)
  {
    if b == [] {
      assert a + b == a;
    } else {
      assert (a + b)[..|a + b| - 1] == a + b[..|b| - 1];
      CallsConcat(w, ctx, a, b[..|b| - 1]);
    }
  }

  lemma CallsWithout(w: World, ctx: Context, pending: seq<Pending>, i: nat)
    requires i < |pending|
    ensures multiset(CallsOf(w, ctx, pending))
         == multiset(CallsOf(w, ctx, pending[..i] + pending[i + 1..])) + multiset{Logged(w, ctx, pending[i].spec.role)}
  {
    assert pending == pending[..i] + ([pending[i]] + pending[i + 1..]);
    CallsConcat(w, ctx, pending[..i], [pending[i]] + pending[i + 1..]);
    CallsConcat(w, ctx, [pending[i]], pending[i + 1..]);
    CallsConcat(w, ctx, pending[..i], pending[i + 1..]);
    assert CallsOf(w, ctx, [pending[i]]) == [Logged(w, ctx, pending[i].spec.role)];
  }

  lemma RestKeeps<T>(xs: seq<T>, i: nat)
    requires i < |xs|
    ensures forall x :: x in xs ==> x == xs[i] || x in xs[..i] + xs[i + 1..]
  {
    forall x | x in xs && x != xs[i]
      ensures x in xs[..i] + xs[i + 1..]
    {
      var j :| 0 <= j < |xs| && xs[j] == x;
      assert if j < i then xs[..i][j] == x else xs[i + 1..][j - i - 1] == x;
    }
  }

  lemma CallsAppend(w: World, ctx: Context, pending: seq<Pending>, p: Pending)
    ensures CallsOf(w, ctx, pending + [p]) == CallsOf(w, ctx, pending) + [Logged(w, ctx, p.spec.role)]
  {
    assert (pending + [p])[..|pending|] == pending;
  }

  lemma StepCalls(w: World, ctx: Context, spec: Spec, index: nat, run: Run)
    ensures Step(w, ctx, spec, index, run).ledger.invoked
      == run.ledger.invoked + NewCalls(w, ctx, spec, run.ledger.cache)
  {
  }

  lemma NextCalls(w: World, ctx: Context, specs: seq<Spec>, n: nat, led: Ledger)
    requires 0 < n <= |specs|
    ensures CallsOf(w, ctx, PendingOf(w, ctx, specs, n, led.cache))
      == CallsOf(w, ctx, PendingOf(w, ctx, specs, n - 1, led.cache))
         + NewCalls(w, ctx, specs[n - 1], led.cache)
  {
    CallsAppend(w, ctx, PendingOf(w, ctx, specs, n - 1, led.cache), Pending(n - 1, specs[n - 1]));
  }

  lemma InvokedGrows(w: World, ctx: Context, specs: seq<Spec>, n: nat, led: Ledger)
    requires DistinctRoles(specs) && 0 < n <= |specs|
    ensures OneByOne(w, ctx, specs, n, led).ledger.invoked
      == OneByOne(w, ctx, specs, n - 1, led).ledger.invoked
         + NewCalls(w, ctx, specs[n - 1], led.cache)
  {
    CacheUntouched(w, ctx, specs, n - 1, led, KeyOf(w, ctx, specs[n - 1].role));
    StepCalls(w, ctx, specs[n - 1], n - 1, OneByOne(w, ctx, specs, n - 1, led));
  }

  /** Both a list and its last part grow by the same items. */
  lemma GrowAlike<T>(start: seq<T>, part: seq<T>, whole: seq<T>, more: seq<T>, grownPart: seq<T>, grown: seq<T>)
    requires whole == start + part && grown == whole + more && grownPart == part + more
    ensures grown == start + grownPart
  {
  }

  function NewCalls(w: World, ctx: Context, spec: Spec, cache: map<Key, Entry>): seq<Invocation> {
    if KeyOf(w, ctx, spec.role) in cache then [] else [Logged(w, ctx, spec.role)]
  }

  /** One by one, exactly the roles that the cache has no answer for are called. */
  lemma {:induction false} OneByOneCalls(w: World, ctx: Context, specs: seq<Spec>, n: nat, led: Ledger)
    requires DistinctRoles(specs) && n <= |specs|
    ensures OneByOne(w, ctx, specs, n, led).ledger.invoked
         == led.invoked + CallsOf(w, ctx, PendingOf(w, ctx, specs, n, led.cache))
  {
    if n == 0 {
      assert led.invoked + [] == led.invoked;
    } else {
      OneByOneCalls(w, ctx, specs, n - 1, led);
      InvokedGrows(w, ctx, specs, n, led);
      NextCalls(w, ctx, specs, n, led);
      GrowAlike(led.invoked, CallsOf(w, ctx, PendingOf(w, ctx, specs, n - 1, led.cache)),
                OneByOne(w, ctx, specs, n - 1, led).ledger.invoked, NewCalls(w, ctx, specs[n - 1], led.cache),
                CallsOf(w, ctx, PendingOf(w, ctx, specs, n, led.cache)),
                OneByOne(w, ctx, specs, n, led).ledger.invoked);
    }
  }

  /** The same results, except that the first list may call more of them reused. */
  ghost predicate SameAnswers(a: seq<Result>, b: seq<Result>) {
    |a| == |b| && forall i :: 0 <= i < |a| ==> a[i] == b[i].(reused := a[i].reused) && (b[i].reused ==> a[i].reused)
  }

  /** What _run_role gives back for a step. */
  ghost predicate Gives(w: World, ctx: Context, spec: Spec, led: Ledger, answer: Option<Output>,
      failures: seq<Failure>) {
    var run := Step(w, ctx, spec, 0, Run([], [], led));
    && failures == run.failures
    && (answer.Some? <==> run.results != [])
    && (answer.Some? ==> answer.value == run.results[0].output)
    && (answer.None? <==> failures != [])
  }

  /** A role run on its own adds to a run what its step adds. */
  lemma TurnAdds(w: World, ctx: Context, spec: Spec, index: nat, run: Run, results: seq<Result>,
      answer: Option<Output>, raised: seq<Failure>, flag: bool)
    requires SameAnswers(results, run.results)
    requires Gives(w, ctx, spec, run.ledger, answer, raised)
    requires flag <==> spec.role in Step(w, ctx, spec, 0, Run([], [], run.ledger)).ledger.reused
    ensures var next := Step(w, ctx, spec, index, run);
      && next.ledger == Step(w, ctx, spec, 0, Run([], [], run.ledger)).ledger
      && next.failures == run.failures + raised
      && SameAnswers(if answer.Some? then results + [Result(index, spec.role, spec.critical, answer.value, flag)]
        else results,
                     next.results)
  {
  }

  class CouncilRunner {
    var cache: map<Key, Entry>
    var reused: seq<Role>
    var diagnosis: Option<Item>
    ghost var log: multiset<Invocation>

    /** The runner is where a ledger says a council stands; calls made at the same time have
        no order in its log. */
    ghost predicate Matches(led: Ledger)
      reads this
    {
      cache == led.cache && reused == led.reused && diagnosis == led.diagnosis && log == multiset(led.invoked)
    }

    constructor (cache: map<Key, Entry>, diagnosis: Option<Item>)
      ensures Matches(Ledger(cache, [], diagnosis, []))
    {
      this.cache := cache;
      this.diagnosis := diagnosis;
      reused, log := [], multiset{};
    }

    /** The workers finish in whatever order `:|` picks them. */
    method CompleteAll(w: World, ctx: Context, pending: seq<Pending>) returns (workerResults: map<Pending, Outcome>)
      modifies this`log
      ensures forall p :: p in pending ==> p in workerResults && workerResults[p] == Call(w, ctx, p.spec.role)
      ensures log == old(log) + multiset(CallsOf(w, ctx, pending))
    {
      workerResults := map[];
      var running := pending;
      while running != []
        invariant forall p :: p in pending ==>
          p in running || (p in workerResults && workerResults[p] == Call(w, ctx, p.spec.role))
        invariant log + multiset(CallsOf(w, ctx, running)) == old(log) + multiset(CallsOf(w, ctx, pending))
        decreases |running|
      {
        var done :| 0 <= done < |running|;
        var p := running[done];
        workerResults := workerResults[p := Call(w, ctx, p.spec.role)];
        log := log + multiset{Logged(w, ctx, p.spec.role)};
        CallsWithout(w, ctx, running, done);
        RestKeeps(running, done);
        running := running[..done] + running[done + 1..];
      }
    }

    /** The first loop of the pool: cached answers at once, the rest to the workers. */
    method ServeFromCache(w: World, ctx: Context, specs: seq<Spec>, ghost led: Ledger)
      returns (results: seq<Result>, pending: seq<Pending>)
      requires Matches(led) && DistinctRoles(specs)
      modifies this`reused
      ensures pending == PendingOf(w, ctx, specs, |specs|, led.cache)
      ensures results == CachedOf(w, ctx, specs, |specs|, led.cache)
      ensures reused == OneByOne(w, ctx, specs, |specs|, led).ledger.reused
    {
      results, pending := [], [];
      for i := 0 to |specs|
        invariant pending == PendingOf(w, ctx, specs, i, led.cache)
        invariant results == CachedOf(w, ctx, specs, i, led.cache)
        invariant reused == OneByOne(w, ctx, specs, i, led).ledger.reused
      {
        var key := KeyOf(w, ctx, specs[i].role);
        CacheUntouched(w, ctx, specs, i, led, key);
        if key in cache {
          reused := reused + [specs[i].role];
          results := results + [Result(i, specs[i].role, specs[i].critical, cache[key].output, true)];
        } else {
          pending := pending + [Pending(i, specs[i])];
        }
      }
    }

    /** The last loop of the pool: the answers are taken in submission order. */
    method CollateAll(w: World, ctx: Context, pending: seq<Pending>, workerResults: map<Pending, Outcome>,
        cached: seq<Result>, ghost led: Ledger)
      returns (results: seq<Result>, failures: seq<Failure>)
      requires cache == led.cache && diagnosis == led.diagnosis
      requires forall p :: p in pending ==> p in workerResults && workerResults[p] == Call(w, ctx, p.spec.role)
      modifies this`cache, this`diagnosis
      ensures var run := Collated(w, ctx, pending, Run(cached, [], led));
        results == run.results && failures == run.failures && cache == run.ledger.cache
          && diagnosis == run.ledger.diagnosis
    {
      results, failures := cached, [];
      for j := 0 to |pending|
        invariant var so := Collated(w, ctx, pending[..j], Run(cached, [], led));
          results == so.results && failures == so.failures && cache == so.ledger.cache
            && diagnosis == so.ledger.diagnosis
      {
        var p := pending[j];
        assert pending[..j + 1][..j] == pending[..j] && pending[..j + 1][j] == p;
        var outcome: Outcome := workerResults[p];
        match outcome
        case Answer(entry, diag) =>
          cache := cache[KeyOf(w, ctx, p.spec.role) := entry];
          if p.spec.role.Recovery? {
            diagnosis := Some(diag);
          }
          results := results + [Result(p.index, p.spec.role, p.spec.critical, entry.output, false)];
        case Raised(error, metadata) =>
          failures := failures + [Failure(p.spec.role, ctx.phase, p.spec.critical, error, metadata)];
      }
      assert pending[..|pending|] == pending;
    }

    /** _run_roles_parallel: whatever order the workers finish in, the run is the one-by-one
        run. */
    method RunRolesParallel(w: World, ctx: Context, specs: seq<Spec>, ghost led: Ledger)
      returns (results: seq<Result>, failures: seq<Failure>)
      requires Matches(led) && DistinctRoles(specs)
      modifies this
      ensures var run := OneByOne(w, ctx, specs, |specs|, led);
        results == run.results && failures == run.failures && Matches(run.ledger)
    {
      ghost var run := OneByOne(w, ctx, specs, |specs|, led);
      var cached, pending := ServeFromCache(w, ctx, specs, led);
      var workerResults := CompleteAll(w, ctx, pending);
      results, failures := CollateAll(w, ctx, pending, workerResults, cached, led);
      OneByOneCalls(w, ctx, specs, |specs|, led);
      PoolAgrees(w, ctx, specs, |specs|, led);
      InSpecOrder(w, ctx, specs, |specs|, led);
      SortFinds(results, run.results, ResultIndex());
      SortFinds(failures, run.failures, ByFirstSpec(specs));
      results := SortedBy(results, ResultIndex());
      failures := SortedBy(failures, ByFirstSpec(specs));
    }

    /** _run_role: a cached answer, or one call. */
    method RunRole(w: World, ctx: Context, spec: Spec, ghost led: Ledger)
        returns (answer: Option<Output>, failures: seq<Failure>)
      requires Matches(led)
      modifies this
      ensures Matches(Step(w, ctx, spec, 0, Run([], [], led)).ledger)
      ensures Gives(w, ctx, spec, led, answer, failures)
    {
      var key := KeyOf(w, ctx, spec.role);
      if key in cache {
        reused := reused + [spec.role];
        return Some(cache[key].output), [];
      }
      var outcome := Call(w, ctx, spec.role);
      log := log + multiset{Logged(w, ctx, spec.role)};
      match outcome
      case Answer(entry, diag) =>
        cache := cache[key := entry];
        if spec.role.Recovery? {
          diagnosis := Some(diag);
        }
        return Some(entry.output), [];
      case Raised(error, metadata) =>
        return None, [Failure(spec.role, ctx.phase, spec.critical, error, metadata)];
    }

    /** _run_reviewer_roles. With a serialized provider the reviewing roles run one after the
        other, and the outputs and failures are those of the pool. Only the `reused` flag may
        differ: it then says that the role was reused at some point of the council. */
    method RunReviewerRoles(w: World, ctx: Context, specs: seq<Spec>, serialized: bool, ghost led: Ledger)
      returns (results: seq<Result>, failures: seq<Failure>)
      requires Matches(led) && DistinctRoles(specs)
      modifies this
      ensures var run := OneByOne(w, ctx, specs, |specs|, led);
        && Matches(run.ledger) && failures == run.failures
        && if serialized then SameAnswers(results, run.results) else results == run.results
    {
      if !serialized {
        results, failures := RunRolesParallel(w, ctx, specs, led);
        return;
      }
      results, failures := RunReviewersInTurn(w, ctx, specs, led);
    }

    method RunReviewersInTurn(w: World, ctx: Context, specs: seq<Spec>, ghost led: Ledger)
      returns (results: seq<Result>, failures: seq<Failure>)
      requires Matches(led)
      modifies this
      ensures var run := OneByOne(w, ctx, specs, |specs|, led);
        Matches(run.ledger) && failures == run.failures && SameAnswers(results, run.results)
    {
      results, failures := [], [];
      ghost var run := Run([], [], led);
      for i := 0 to |specs|
        invariant run == OneByOne(w, ctx, specs, i, led)
        invariant Matches(run.ledger) && failures == run.failures && SameAnswers(results, run.results)
      {
        var answer, raised := RunRole(w, ctx, specs[i], run.ledger);
        TurnAdds(w, ctx, specs[i], i, run, results, answer, raised, specs[i].role in reused);
        failures := failures + raised;
        if answer.Some? {
          results := results + [Result(i, specs[i].role, specs[i].critical, answer.value, specs[i].role in reused)];
        }
        run := Step(w, ctx, specs[i], i, run);
      }
    }
  }
}
