/** How a run moves on between councils, and what ends it from outside
    (mobility_agent/runtime/agentic_controller.py:983-1015, 1603-1675, 1839-1878, 2309-2393;
    mobility_agent/graph/runtime_nodes.py:676-689). */
module Progress {
  import opened Channels
  import opened Runtime
  import opened Runs
  import A = Arbitration
  import Retry = RetryAccounting

  // The contract

  /** The capability is in the list, up to surrounding space. */
  predicate Lists(names: seq<string>, capability: string) {
    exists i :: 0 <= i < |names| && Strip(names[i]) == capability
  }

  /** The next capability is the first of the plan that is open: every one before it is blank or
      completed. */
  lemma {:induction false} NextIsFirst(completed: seq<string>, planned: seq<string>) returns (i: nat)
    requires NextAfter(completed, planned).Some?
    ensures i < |planned| && NextAfter(completed, planned) == Some(Strip(planned[i]))
    ensures forall j :: 0 <= j < i ==> Strip(planned[j]) == "" || Lists(completed, Strip(planned[j]))
  {
    if Strip(planned[0]) != "" && !Lists(completed, Strip(planned[0])) {
      i := 0;
    } else {
      var n := NextIsFirst(completed, planned[1..]);
      i := n + 1;
      forall j | 0 < j < i
        ensures Strip(planned[j]) == "" || Lists(completed, Strip(planned[j]))
      {
        assert planned[1..][j - 1] == planned[j];
      }
    }
  }

  /** The planned capabilities that are not blank and not completed. */
  function OpenCount(completed: seq<string>, planned: seq<string>): nat {
    if planned == [] then 0
    else
      var rest := OpenCount(completed, planned[1..]);
      if Strip(planned[0]) != "" && !Lists(completed, Strip(planned[0])) then rest + 1 else rest
  }

  lemma {:induction false} NextIsOpen(completed: seq<string>, planned: seq<string>)
    ensures NextAfter(completed, planned).None? <==> OpenCount(completed, planned) == 0
    ensures NextAfter(completed, planned).Some? ==>
      var next := NextAfter(completed, planned).value;
      next != "" && Strip(next) == next && !Lists(completed, next)
      && Lists(planned, next)
  {
    if planned != [] {
      StripTrims(planned[0]);
      NextIsOpen(completed, planned[1..]);
      if NextAfter(completed, planned) != Some(Strip(planned[0])) && NextAfter(completed, planned).Some? {
        var i :| 0 <= i < |planned[1..]| && Strip(planned[1..][i]) == NextAfter(completed, planned).value;
        assert planned[i + 1] == planned[1..][i];
      }
    }
  }

  lemma DoneGrows(completed: seq<string>, stage: string, capability: string)
    requires Strip(stage) == stage
    ensures Lists(AddOnce(completed, stage), capability) <==> Lists(completed, capability) || capability == stage
  {
    var after := AddOnce(completed, stage);
    if Lists(completed, capability) {
      var i :| 0 <= i < |completed| && Strip(completed[i]) == capability;
      assert after[i] == completed[i];
    }
    if capability == stage {
      assert stage in after;
      var i :| 0 <= i < |after| && after[i] == stage;
    }
  }

  /** Completing a stage opens nothing, and closes it wherever it was planned. */
  lemma {:induction false} CompletionCloses(completed: seq<string>, planned: seq<string>, stage: string)
    requires Strip(stage) == stage
    ensures OpenCount(AddOnce(completed, stage), planned) <= OpenCount(completed, planned)
    ensures stage != "" && !Lists(completed, stage) && Lists(planned, stage) ==>
      OpenCount(AddOnce(completed, stage), planned) < OpenCount(completed, planned)
  {
    if planned != [] {
      CompletionCloses(completed, planned[1..], stage);
      DoneGrows(completed, stage, Strip(planned[0]));
      if Lists(planned, stage) && Strip(planned[0]) != stage {
        var i :| 0 <= i < |planned| && Strip(planned[i]) == stage;
        assert planned[1..][i - 1] == planned[i];
      }
    }
  }

  // Turns between councils

  /** The checkpoint is up to date, as every continued turn leaves it. */
  predicate InStep(s: State) {
    s.execution.checkpoint.completed == s.workflow.completed && s.execution.pending == []
  }

  /** The next turn asks for a council, whatever else it sees. */
  predicate Calls(s: State) {
    s.services.contract.None? || s.execution.checkpoint.reason.Some?
  }

  function OpenIn(s: State): nat {
    if s.services.contract.None? then 0 else OpenCount(s.workflow.completed, s.services.contract.value)
  }

  lemma CallsDeliberates(s: State)
    requires Calls(s) && s.execution.pending == [] && !Waiting(s.workflow.status)
    ensures forall view :: DeliberationReason(s, view).Some?
  {
  }

  /** A state that has no reason to deliberate is running, or not yet. */
  lemma NoReasonMeansRunning(s: State, view: View)
    requires DeliberationReason(s, view).None? && s.execution.pending == []
    ensures s.services.contract.Some? && !s.workflow.status.NeedsRecovery? && !s.workflow.status.ReadyToFinalize?
    ensures Waiting(s.workflow.status) || !Saw(s, Failure)
  {
  }

  /** What executing a contract's capability can leave: a failure that calls the council, an
      end, or the stage completed. */
  lemma CapabilityActed(config: Config, s: State, capability: string, turn: Turn)
    requires s.execution.checkpoint.reason.None? && s.execution.pending == [] && s.services.contract.Some?
    requires Acted(config, s, RunNext(capability), turn).Some?
    ensures var d := Acted(config, s, RunNext(capability), turn).value;
      && InStep(d) && d.services.contract == s.services.contract && !Waiting(d.workflow.status)
      && (Open(d) && !Calls(d) ==> d.workflow.completed == AddOnce(s.workflow.completed, capability))
  {
    var r := RunNext(capability).request;
    var done := Executed(config, s, r, turn.tooling).value;
    RunEffect(config, s, r, turn.tooling);
    assert Text(r.target) == capability;
  }

  lemma RunEffect(config: Config, s: State, r: A.Request, tooling: Tooling)
    requires r.family == "run_capability" && !r.submit && !r.wait && Executed(config, s, r, tooling).Some?
    ensures var d := Executed(config, s, r, tooling).value;
      (|| d.workflow.status.Failed?
       || d.workflow.status.NeedsRecovery?
       || (d.workflow.status.Running? && d.workflow.completed == AddOnce(s.workflow.completed, Text(r.target))))
  {
  }

  /** A turn that follows the contract closes one of its capabilities, or the next turn
      deliberates. */
  lemma ContractAdvances(config: Config, s: State, turn: Turn)
    requires InStep(s) && DeliberationReason(s, turn.before).None?
    requires !Terminal(s.workflow.status) && !AtBoundary(s)
    ensures Proceeded(config, s, turn).Continue? ==>
      var n := Proceeded(config, s, turn).state;
      InStep(n) && !Waiting(n.workflow.status) && (Calls(n) || OpenIn(n) < OpenIn(s))
  {
    NoReasonMeansRunning(s, turn.before);
    var contract := s.services.contract.value;
    NextIsOpen(s.workflow.completed, contract);
    var next := NextAfter(s.workflow.completed, contract);
    var p := Activated(s);
    if next.Some? && Acted(config, p, RunNext(next.value), turn).Some? {
      CapabilityActed(config, p, next.value, turn);
      CompletionCloses(s.workflow.completed, contract, next.value);
    }
  }

  /** Every turn goes on, and none of them deliberates. */
  predicate FollowsContract(config: Config, s: State, turns: seq<Turn>)
    decreases |turns|
  {
    turns == []
    || (DeliberationReason(s, turns[0].before).None? && !Terminal(s.workflow.status) && !AtBoundary(s)
        && Proceeded(config, s, turns[0]).Continue?
        && FollowsContract(config, Proceeded(config, s, turns[0]).state, turns[1..]))
  }

  lemma CallingStops(config: Config, s: State, turns: seq<Turn>)
    requires Calls(s) && s.execution.pending == [] && !Waiting(s.workflow.status)
    requires FollowsContract(config, s, turns)
    ensures turns == []
  {
    CallsDeliberates(s);
  }

  /** The council is never away for long: without it at most as many turns go on as the
      contract has open capabilities, and one more. */
  lemma {:induction false} CouncilReturns(config: Config, s: State, turns: seq<Turn>)
    requires InStep(s) && FollowsContract(config, s, turns)
    ensures |turns| <= OpenIn(s) + 1
    decreases |turns|
  {
    if turns != [] {
      ContractAdvances(config, s, turns[0]);
      var n := Proceeded(config, s, turns[0]).state;
      CouncilReturns(config, n, turns[1..]);
      if Calls(n) {
        CallingStops(config, n, turns[1..]);
      }
    }
  }

  // Failures

  /** Whatever was executed and failed without ending the run, the next turn calls a failure
      council. */
  lemma FailureIsDeliberated(config: Config, s: State, turn: Turn, p: State, d: State, view: View)
    requires s.execution.pending == []
    ensures
      && Planned(s, turn) == Some(p) && p.execution.current.Some? && p.services.contract.Some?
      && Acted(config, p, p.execution.current.value, turn) == Some(d)
      && Saw(d, Failure) && !Waiting(d.workflow.status) ==>
        DeliberationReason(d, view) == Some(FailureSeen) && FailureCouncil(d, FailureSeen)
  {
    if Planned(s, turn) == Some(p) && p.execution.current.Some? && p.services.contract.Some?
      && Acted(config, p, p.execution.current.value, turn) == Some(d)
    {
      ActionIsFresh(s, turn);
      ReasonCarriesOver(config, p, p.execution.current.value, turn, view);
    }
  }

  /** A planned action comes with a checkpoint that has no reason. */
  lemma ActionIsFresh(s: State, turn: Turn)
    requires Planned(s, turn).Some? && Planned(s, turn).value.execution.current.Some?
    ensures Planned(s, turn).value.execution.checkpoint.reason.None?
  {
  }

  lemma ReasonCarriesOver(config: Config, s: State, a: A.Action, turn: Turn, view: View)
    requires s.execution.checkpoint.reason.None? && s.execution.pending == [] && s.services.contract.Some?
    requires Acted(config, s, a, turn).Some?
    ensures var d := Acted(config, s, a, turn).value;
      Saw(d, Failure) && !Waiting(d.workflow.status) ==> DeliberationReason(d, view) == Some(FailureSeen)
  {
    if a.request.family == "escalate_human" {
      FailureReason(Escalated(s, Text(a.request.target), turn.human), turn.after, view);
    } else {
      FailureReason(ExecutedAndCounted(config, s, a.request, turn.tooling).value, turn.after, view);
    }
  }

  lemma FailureReason(d: State, after: View, view: View)
    requires d.services.contract.Some? && d.execution.pending == [] && d.execution.checkpoint.reason.None?
    ensures var checked := Checked(d, DeliberationReason(d, after));
      Saw(d, Failure) && !Waiting(d.workflow.status) ==> DeliberationReason(checked, view) == Some(FailureSeen)
  {
  }

  // An order from outside

  /** An override to skip or abort ends a run that was going on, in the same call, with its
      report. */
  lemma OverrideEndsRun(saved: State, call: Call)
    requires Unfinished(Started(saved, call)) && call.turns != [] && call.event.Some?
    requires Overrides(call.event.value)
    requires !Duplicate(Started(saved, call), call.event.value)
    ensures var end := Driven(saved, call);
      && end.Returned? && Finished(end.state)
      && end.state.workflow.status == if call.event.value.order == "skip_material" then Skipped else Aborted
  {
    var s, e := Started(saved, call), call.event.value;
    var injected := Injected(s, e);
    EntryMark(s, e);
    EntryEmptiesQueue(injected);
    OverrideEnters(s, e);
    assert Turned(call.config, injected, call.turns[0]) == Break(Entered(injected));
  }

  lemma OverrideEnters(s: State, e: Event)
    requires s.execution.pending == [] && Overrides(e)
    ensures Entered(Injected(s, e)).workflow.status == if e.order == "skip_material" then Skipped else Aborted
  {
    assert Injected(s, e).execution.pending == [e];
  }

  // What the council accepted

  /** The legality check of the council is the one the executor makes, on the state the
      council sees. */
  ghost predicate ChecksAlike(config: Config, s: State, legal: A.Request -> bool, otherwise: A.Request -> bool) {
    forall r :: legal(r) <==> Allowed(config, s, r, otherwise(r))
  }

  /** What the guardrail reads is this state. Without an observed capability the one that
      fails is the next pending task's, which may be any. */
  ghost predicate StandsFor(config: Config, s: State, standing: A.Standing) {
    && (ObservedTarget(s) != "" ==> standing.failingCapability == Strip(ObservedTarget(s)))
    && standing.latestFailed == Saw(s, Failure)
    && (standing.failingCapability != "" ==>
          standing.retriesUsed == Retry.CountOf(s.workflow.retries, standing.failingCapability))
    && standing.retryBudget == config.retryBudget
    && standing.waitingExternal == s.workflow.status.WaitingExternal?
  }

  /** The council of the turn judges by the state of the run: its guardrail reads it, it finds
      legal only what the executor's check would allow, and a retry only after a failure. */
  ghost predicate Informed(config: Config, s: State, turn: Turn) {
    var desk, seen := turn.council.desk, ObservedState(s);
    && StandsFor(config, seen, desk.standing)
    && forall r :: desk.legal(r) ==>
         Allowed(config, seen, r, true) && (r.family == "retry_capability" ==> Saw(seen, Failure))
  }

  /** The council of this turn selects an action. */
  ghost predicate CouncilSelects(s: State, turn: Turn, a: A.Action) {
    var c := turn.council;
    && DeliberationReason(s, turn.before).Some?
    && A.Selects(A.Arbitrated(c.desk, c.proposals, c.critiques, c.preferences, c.reply))
    && A.Arbitrated(c.desk, c.proposals, c.critiques, c.preferences, c.reply).record.action.value == a
  }

  lemma SelectionPlanned(s: State, turn: Turn, a: A.Action)
    requires CouncilSelects(s, turn, a)
    ensures Planned(s, turn) == Some(ActionSelected(ObservedState(s), a, turn.planned))
  {
  }

  lemma SelectionIsAllowedAlike(config: Config, s: State, a: A.Action, planned: seq<string>, r: A.Request,
      otherwiseLegal: bool)
    ensures Allowed(config, ActionSelected(s, a, planned), r, otherwiseLegal) <==> Allowed(config, s, r, otherwiseLegal)
  {
  }

  lemma RefusalShows(config: Config, s: State, r: A.Request, tooling: Tooling)
    requires Executed(config, s, r, tooling).Some?
    ensures Executed(config, s, r, tooling).value.workflow.status.Failed?
      <==> !Allowed(config, s, r, tooling.otherwiseLegal)
  {
  }

  /** The council selects the action, on the check that the executor will make of it. */
  ghost predicate SelectsAlike(config: Config, s: State, turn: Turn, a: A.Action, otherwise: A.Request -> bool) {
    && CouncilSelects(s, turn, a)
    && ChecksAlike(config, ObservedState(s), turn.council.desk.legal, otherwise)
    && turn.tooling.otherwiseLegal == otherwise(a.request)
  }

  /** The executor refuses a selected action, and so fails the run, exactly when the council's
      own check had not accepted it. */
  lemma RefusedIffNotAccepted(config: Config, s: State, turn: Turn, a: A.Action, otherwise: A.Request -> bool)
    requires s.execution.pending == []
    ensures var p := ActionSelected(ObservedState(s), a, turn.planned);
      SelectsAlike(config, s, turn, a, otherwise) ==>
        && Planned(s, turn) == Some(p)
        && (Executed(config, p, a.request, turn.tooling).Some? ==>
              (Executed(config, p, a.request, turn.tooling).value.workflow.status.Failed?
               <==> !turn.council.desk.legal(a.request)))
  {
    var p := ActionSelected(ObservedState(s), a, turn.planned);
    if SelectsAlike(config, s, turn, a, otherwise) {
      SelectionPlanned(s, turn, a);
      SelectionIsAllowedAlike(config, ObservedState(s), a, turn.planned, a.request, turn.tooling.otherwiseLegal);
      if Executed(config, p, a.request, turn.tooling).Some? {
        RefusalShows(config, p, a.request, turn.tooling);
      }
    }
  }

  /** With distinct proposal ids an action the council selects is never refused as illegal:
      it is performed. */
  lemma SelectedActionIsPerformed(config: Config, s: State, turn: Turn, a: A.Action, otherwise: A.Request -> bool)
    requires s.execution.pending == [] && A.DistinctIds(turn.council.proposals)
    ensures var p := ActionSelected(ObservedState(s), a, turn.planned);
      SelectsAlike(config, s, turn, a, otherwise) ==>
        && Planned(s, turn) == Some(p)
        && Allowed(config, p, a.request, turn.tooling.otherwiseLegal)
        && Executed(config, p, a.request, turn.tooling) == Performed(config, p, a.request, turn.tooling)
  {
    if SelectsAlike(config, s, turn, a, otherwise) {
      var c := turn.council;
      var viable := A.SelectedActionIsLegal(c.desk, c.proposals, c.critiques, c.preferences, c.reply);
      SelectionPlanned(s, turn, a);
      SelectionIsAllowedAlike(config, ObservedState(s), a, turn.planned, a.request, turn.tooling.otherwiseLegal);
    }
  }
}
