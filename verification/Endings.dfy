/** When a call of drive ends the run, from every state that any history can leave
    (mobility_agent/runtime/agentic_controller.py:2126-2181, 2204-2397). */
module Endings {
  import opened Channels
  import opened Runtime
  import opened Runs
  import opened Sessions
  import opened Reports
  import opened Scenarios
  import A = Arbitration

  // What any history leaves

  /** The queue is empty, and the run has its report marked or can go on. */
  ghost predicate Left(s: State) {
    s.execution.pending == [] && (ReportMarked(s) || Open(s))
  }

  lemma FreshIsLeft()
    ensures Left(INITIAL)
  {
  }

  /** Whatever the calls, events included, every state between them is of this kind. */
  lemma {:induction false} HistoriesLeave(s: State, calls: seq<Call>)
    requires Left(s) && Played(s, calls).Some?
    ensures Left(Played(s, calls).value)
    decreases |calls|
  {
    if calls != [] {
      FreshIsLeft();
      if !Refused(Started(s, calls[0]), calls[0].event) {
        CallReports(s, calls[0]);
      }
      HistoriesLeave(Driven(s, calls[0]).state, calls[1..]);
    }
  }

  // Entering a call

  /** The run is over, or goes on and is not asked to end. */
  ghost predicate Decided(s: State) {
    s.execution.pending == [] && (Terminal(s.workflow.status) || Open(s))
  }

  lemma EventDecides(s: State, e: Event)
    requires s.execution.pending == [] && !s.services.terminationRequested
    ensures Decided(Entered(Injected(s, e))) && EndsInOrder(Entered(Injected(s, e)))
  {
    assert Injected(s, e).execution.pending == [e];
    EntryEmptiesQueue(Injected(s, e));
    ConsumptionDecides(Injected(s, e));
  }

  lemma ConsumptionDecides(s: State)
    requires s.execution.pending != [] && !s.services.terminationRequested
    ensures !Consumed(s).workflow.status.ReadyToFinalize? && EndsInOrder(Consumed(s))
  {
  }

  lemma OverrideTerminates(s: State, e: Event)
    requires s.execution.pending == [] && Overrides(e) && !Duplicate(s, e)
    ensures Terminal(Entered(Injected(s, e)).workflow.status)
  {
    assert Injected(s, e).execution.pending == [e];
  }

  // Where the call ends the run

  /** What a loop returns that entered unmarked and decided. */
  ghost predicate Concludes(config: Config, entered: State, r: State) {
    if Terminal(r.workflow.status) then ReportMarked(r) && r.log.reports == entered.log.reports + 1
    else Waiting(r.workflow.status) && !config.fullAutonomy && Open(r) && r.log.reports == entered.log.reports
  }

  lemma BreakConcludes(config: Config, entered: State, last: State)
    requires Aside(entered, last) && InOrder(config, Break(last)) && !ReportMarked(entered)
    ensures Concludes(config, entered, Finalized(last))
  {
  }

  lemma {:induction false} LoopConcludes(config: Config, s: State, turns: seq<Turn>)
    requires |s.execution.pending| <= 1 && Decided(Entered(s)) && EndsInOrder(Entered(s))
    requires !ReportMarked(Entered(s)) && Looped(config, s, turns).Returned?
    ensures Concludes(config, Entered(s), Looped(config, s, turns).state)
    decreases |turns|
  {
    var flow := Turned(config, s, turns[0]);
    TurnStandsAside(config, s, turns[0]);
    ProceedingInOrder(config, Entered(s), turns[0]);
    if flow.Continue? {
      LoopConcludes(config, flow.state, turns[1..]);
    } else {
      BreakConcludes(config, Entered(s), flow.state);
    }
  }

  lemma OverLoopReturns(config: Config, s: State, turns: seq<Turn>)
    requires Terminal(Entered(s).workflow.status) && Looped(config, s, turns).Returned?
    ensures Looped(config, s, turns).state.workflow.status == Entered(s).workflow.status
  {
  }

  /** What a call returns, from any state a history leaves. A refused event changes nothing; a
      mark keeps the report from being written; otherwise a run that is not asked to end is
      over, with one more report, or waits where waiting is allowed. */
  lemma CallLeaves(saved: State, call: Call)
    requires Left(Started(saved, call)) && Driven(saved, call).Returned?
    ensures var s, r := Started(saved, call), Driven(saved, call).state;
      && Left(r)
      && (if Refused(s, call.event) then r == s
          else if MarkedAfter(s, call.event) then ReportMarked(r) && r.log.reports == s.log.reports
          else !s.services.terminationRequested ==> Concludes(call.config, s, r))
  {
    var s := Started(saved, call);
    if !Refused(s, call.event) {
      CallReports(saved, call);
      if !MarkedAfter(s, call.event) && !s.services.terminationRequested {
        UnmarkedCallConcludes(s, call);
      }
    }
  }

  lemma UnmarkedCallConcludes(s: State, call: Call)
    requires Left(s) && !MarkedAfter(s, call.event) && !s.services.terminationRequested
    requires var start := if call.event.Some? then Injected(s, call.event.value) else s;
      Looped(call.config, start, call.turns).Returned?
    ensures var start := if call.event.Some? then Injected(s, call.event.value) else s;
      Concludes(call.config, s, Looped(call.config, start, call.turns).state)
  {
    if call.event.Some? {
      EntryMark(s, call.event.value);
      EventDecides(s, call.event.value);
      LoopConcludes(call.config, Injected(s, call.event.value), call.turns);
    } else {
      LoopConcludes(call.config, s, call.turns);
    }
  }

  // Where it can leave the run unended

  predicate EndsRun(s: State, call: Call) {
    Driven(s, call).Returned? ==> Terminal(Driven(s, call).state.workflow.status)
  }

  /** Under full autonomy a call whose event leaves the report marked can return the run ready
      to finalize, without a report. */
  lemma MarkedRunStaysUnended(config: Config, s: State, event: Option<Event>)
    requires config.fullAutonomy && s.execution.pending == [] && !Terminal(s.workflow.status)
    requires !Refused(s, event) && MarkedAfter(s, event) && (event.Some? ==> !Overrides(event.value))
    ensures var end := Driven(s, Call(config, false, event, [TurnOf(READY), TurnOf(READY)]));
      end.Returned? && end.state.workflow.status.ReadyToFinalize? && end.state.log.reports == s.log.reports
  {
    if event.Some? {
      EntryMark(s, event.value);
      EventGoesOn(s, event.value);
      var last := ReadyLoopReturns(config, Injected(s, event.value));
    } else {
      var last := ReadyLoopReturns(config, s);
    }
  }

  const UNTROUBLED: A.Standing := A.Standing("", false, 0, 2, false, false)

  /** A council that repairs without a target, and sits whenever it may. */
  function RepairTurn(config: Config): Turn {
    Picks(config.render, UNTROUBLED, REPAIR, Success).(before := View(false, false, true))
  }

  lemma RepairTurnStops(config: Config, s: State) returns (last: State)
    requires s.execution.pending == [] && !Waiting(s.workflow.status) && !Terminal(s.workflow.status)
    requires s.services.terminationRequested
    ensures Proceeded(config, s, RepairTurn(config)) == Break(last) && Repaired(s, last)
  {
    ResolvedHasReason(s);
    last := RepairStops(config, s, UNTROUBLED, RepairTurn(config));
  }

  lemma ResolvedHasReason(s: State)
    requires s.execution.pending == [] && !Waiting(s.workflow.status)
    ensures DeliberationReason(s, View(false, false, true)).Some?
  {
  }

  lemma RecoveredAsks(config: Config, s: State)
    ensures Aside(s, Recovered(config, s)) && Recovered(config, s).workflow.status.NeedsRecovery?
    ensures Recovered(config, s).services == s.services
  {
  }

  /** Two such turns end a loop of a run asked to end, but not the run. */
  lemma RepairLoopReturns(config: Config, s: State) returns (last: State)
    requires config.fullAutonomy && |s.execution.pending| <= 1
    requires !Terminal(Entered(s).workflow.status) && Entered(s).services.terminationRequested
    ensures Looped(config, s, [RepairTurn(config), RepairTurn(config)]) == Returned(Finalized(last))
    ensures last.workflow.status.NeedsRecovery?
  {
    var turn, entered := RepairTurn(config), Entered(s);
    EntryEmptiesQueue(s);
    if AtBoundary(entered) {
      RecoveredAsks(config, entered);
      last := RepairTurnStops(config, Recovered(config, entered));
      SecondTurnReturns(config, s, turn, last);
    } else {
      last := RepairTurnStops(config, entered);
      FirstTurnReturns(config, s, turn, last);
    }
  }

  lemma RecoveryStays(last: State)
    requires last.workflow.status.NeedsRecovery?
    ensures Finalized(last).workflow.status.NeedsRecovery?
  {
  }

  /** So can a call of a run asked to end whose event unmarks the report: it writes a report,
      and leaves the run in need of recovery. */
  lemma AskedRunStaysUnended(config: Config, s: State, event: Option<Event>)
    requires config.fullAutonomy && s.execution.pending == [] && !Terminal(s.workflow.status)
    requires !Refused(s, event) && s.services.terminationRequested && (event.Some? ==> !Overrides(event.value))
    ensures var end := Driven(s, Call(config, false, event, [RepairTurn(config), RepairTurn(config)]));
      end.Returned? && end.state.workflow.status.NeedsRecovery?
  {
    if event.Some? {
      EventGoesOn(s, event.value);
      var last := RepairLoopReturns(config, Injected(s, event.value));
      RecoveryStays(last);
    } else {
      var last := RepairLoopReturns(config, s);
      RecoveryStays(last);
    }
  }

  // Exactly when

  /** Every call with this event, or without one, ends the run: it is over, or takes up an
      override that ends it, or is neither marked nor asked to end. */
  predicate Bound(s: State, event: Option<Event>) {
    || Terminal(s.workflow.status)
    || (!Refused(s, event)
        && ((event.Some? && Overrides(event.value))
            || (!MarkedAfter(s, event) && !s.services.terminationRequested)))
  }

  lemma BoundCallEnds(s: State, call: Call)
    requires call.config.fullAutonomy && !call.anew && Left(s) && Bound(s, call.event)
    ensures EndsRun(s, call)
  {
    if Driven(s, call).Returned? && !Refused(s, call.event) {
      if Terminal(s.workflow.status) {
        OverLoopReturns(call.config, s, call.turns);
      } else if call.event.Some? && Overrides(call.event.value) {
        OverrideTerminates(s, call.event.value);
        OverLoopReturns(call.config, Injected(s, call.event.value), call.turns);
      } else {
        CallLeaves(s, call);
      }
    }
  }

  /** Under full autonomy, from any state a history can leave: every call with this event, or
      without one, that returns ends the run, exactly if the run is over already, or the event
      is an accepted override that ends it, or the call is accepted and the run is then neither
      marked as reported nor was asked to end. */
  lemma AutonomousCallsEnd(config: Config, s: State, event: Option<Event>)
    requires config.fullAutonomy && Left(s)
    ensures (forall turns :: EndsRun(s, Call(config, false, event, turns))) <==> Bound(s, event)
  {
    if Bound(s, event) {
      forall turns
        ensures EndsRun(s, Call(config, false, event, turns))
      {
        BoundCallEnds(s, Call(config, false, event, turns));
      }
    } else {
      var ready, repair := [TurnOf(READY), TurnOf(READY)], [RepairTurn(config), RepairTurn(config)];
      if !Refused(s, event) {
        if MarkedAfter(s, event) {
          MarkedRunStaysUnended(config, s, event);
        } else {
          AskedRunStaysUnended(config, s, event);
        }
      }
      assert !EndsRun(s, Call(config, false, event, ready)) || !EndsRun(s, Call(config, false, event, repair));
    }
  }
}
