/** With which status a call of drive ends a run (mobility_agent/graph/runtime_nodes.py:1345-1399,
    1491-1514, 1971-2027; mobility_agent/runtime/agentic_controller.py:1452-1533, 1727-1837,
    1915-1949, 2204-2397). */
module Outcomes {
  import opened Channels
  import opened Runtime
  import opened Runs
  import opened Scenarios
  import A = Arbitration

  // What ends a run, and as what

  /** The council of the turn sits, for this reason, and selects nothing. */
  ghost predicate FindsNothing(s: State, turn: Turn, reason: Reason, record: A.Record) {
    var c := turn.council;
    && DeliberationReason(s, turn.before) == Some(reason)
    && A.Arbitrated(c.desk, c.proposals, c.critiques, c.preferences, c.reply) == A.Recorded(record)
    && record.action.None? && !(FailureCouncil(ObservedState(s), reason) && turn.relaxEvidence)
  }

  /** What becomes of the run then: it is completed when the record says that it is ready, or
      when a council about validation has a report that is; such a council skips it otherwise,
      and any other one fails it. */
  ghost predicate NothingEndsAs(reason: Reason, record: A.Record, validation: Validation, status: RunStatus) {
    && !record.waiting
    && status ==
         if record.ready || (AboutValidation(reason) && validation in {AlreadyReady, Validated(true)}) then Completed
         else if AboutValidation(reason) then Skipped
         else Failed
  }

  /** The turn comes to execute this action, in this state. */
  ghost predicate Executes(s: State, turn: Turn, p: State, r: A.Request) {
    && Planned(s, turn) == Some(p) && p.execution.current.Some? && p.execution.current.value.request == r
  }

  /** A legal finalize completes the run and a legal abort aborts it; an action that is not
      legal fails it. */
  ghost predicate ActionEndsAs(config: Config, p: State, r: A.Request, tooling: Tooling, status: RunStatus) {
    && r.family != "escalate_human" && ChannelsSeen(config, r).Some?
    && if !Allowed(config, p, r, tooling.otherwiseLegal) then status == Failed
       else || (r.family == "finalize_material" && status == Completed)
            || (r.family == "abort_material" && status == Aborted)
  }

  /** A person completes, skips or aborts the run; one who is asked in vain skips it, unless
      the answer on record aborts. */
  ghost predicate PersonEndsAs(r: A.Request, human: Human, status: RunStatus) {
    && r.family == "escalate_human"
    && (|| (human.action == "complete_material" && !human.timedOut && status == Completed)
        || (human.action == "skip_material" && status == Skipped)
        || (human.action == "abort_task" && status == Failed)
        || (human.timedOut && human.action !in {"skip_material", "abort_task"} && status == Skipped))
  }

  /** A turn that starts in this state ends the run with this status. */
  ghost predicate EndsAs(config: Config, s: State, turn: Turn, status: RunStatus) {
    if Terminal(s.workflow.status) then status == s.workflow.status
    else
      && !AtBoundary(s)
      && (|| (exists reason, record ::
                FindsNothing(s, turn, reason, record) && NothingEndsAs(reason, record, turn.validation, status))
          || (exists p, r ::
                Executes(s, turn, p, r)
                && (ActionEndsAs(config, p, r, turn.tooling, status) || PersonEndsAs(r, turn.human, status))))
  }

  // How the loop breaks

  /** The status that the loop leaves for the report to close. */
  ghost predicate Closable(last: State, status: RunStatus) {
    && TerminalOrFinalizable(last) && Terminal(status)
    && (last.workflow.status == status || (last.workflow.status.ReadyToFinalize? && status == Completed))
  }

  ghost predicate BreaksAs(flow: Flow, status: RunStatus) {
    flow.Break? && Closable(flow.state, status)
  }

  lemma NothingBreaks(config: Config, s: State, turn: Turn, reason: Reason, record: A.Record, status: RunStatus)
    requires !Terminal(s.workflow.status) && !AtBoundary(s) && s.execution.pending == []
    requires FindsNothing(s, turn, reason, record) && NothingEndsAs(reason, record, turn.validation, status)
    ensures BreaksAs(Proceeded(config, s, turn), status)
  {
    assert Planned(s, turn) == Some(NothingSelected(ObservedState(s), reason, record, turn.validation));
  }

  lemma ActionBreaks(config: Config, p: State, a: A.Action, turn: Turn, status: RunStatus)
    requires ActionEndsAs(config, p, a.request, turn.tooling, status)
    ensures Acted(config, p, a, turn).Some? && Closable(Acted(config, p, a, turn).value, status)
  {
  }

  lemma PersonBreaks(config: Config, p: State, a: A.Action, turn: Turn, status: RunStatus)
    requires PersonEndsAs(a.request, turn.human, status)
    ensures Acted(config, p, a, turn).Some? && Closable(Acted(config, p, a, turn).value, status)
  {
  }

  lemma ExecutionBreaks(config: Config, s: State, turn: Turn, p: State, r: A.Request, status: RunStatus)
    requires !Terminal(s.workflow.status) && !AtBoundary(s) && Executes(s, turn, p, r)
    requires ActionEndsAs(config, p, r, turn.tooling, status) || PersonEndsAs(r, turn.human, status)
    ensures BreaksAs(Proceeded(config, s, turn), status)
  {
    var a := p.execution.current.value;
    if r.family == "escalate_human" {
      PersonBreaks(config, p, a, turn, status);
    } else {
      ActionBreaks(config, p, a, turn, status);
    }
    PickedActionStops(config, s, turn, p, a, Acted(config, p, a, turn).value);
  }

  lemma TurnBreaks(config: Config, s: State, turn: Turn, status: RunStatus)
    requires s.execution.pending == [] && EndsAs(config, s, turn, status)
    ensures BreaksAs(Proceeded(config, s, turn), status)
  {
    if !Terminal(s.workflow.status) {
      if reason, record :|
        FindsNothing(s, turn, reason, record) && NothingEndsAs(reason, record, turn.validation, status) {
        NothingBreaks(config, s, turn, reason, record, status);
      } else {
        var p, r :| Executes(s, turn, p, r)
          && (ActionEndsAs(config, p, r, turn.tooling, status) || PersonEndsAs(r, turn.human, status));
        ExecutionBreaks(config, s, turn, p, r, status);
      }
    }
  }

  // How the call ends

  /** The run is over with this status, its report newly written. */
  ghost predicate OverAs(s: State, end: End, status: RunStatus) {
    && end.Returned? && end.state.workflow.status == status && ReportMarked(end.state)
    && end.state.log.reports == s.log.reports + 1
  }

  lemma ClosingKeepsStatus(entered: State, last: State, status: RunStatus)
    requires Aside(entered, last) && !ReportMarked(entered) && Closable(last, status)
    ensures OverAs(entered, Returned(Finalized(last)), status)
  {
  }

  lemma LastTurnEndsAs(config: Config, s: State, turn: Turn, status: RunStatus)
    requires |s.execution.pending| <= 1 && !ReportMarked(Entered(s)) && EndsAs(config, Entered(s), turn, status)
    ensures OverAs(Entered(s), Looped(config, s, [turn]), status)
  {
    EntryEmptiesQueue(s);
    TurnStandsAside(config, s, turn);
    TurnBreaks(config, Entered(s), turn, status);
    ClosingKeepsStatus(Entered(s), Turned(config, s, turn).state, status);
  }

  lemma {:induction false} WentAside(config: Config, s: State, turns: seq<Turn>, d: State)
    requires |s.execution.pending| <= 1 && WentOn(config, s, turns) == Some(d)
    ensures |d.execution.pending| <= 1 && Aside(Entered(s), Entered(d))
    decreases |turns|
  {
    if turns != [] {
      EntryEmptiesQueue(s);
      TurnStandsAside(config, s, turns[0]);
      WentAside(config, Turned(config, s, turns[0]).state, turns[1..], d);
    }
  }

  lemma LoopEndsAs(config: Config, s: State, init: seq<Turn>, turn: Turn, d: State, status: RunStatus)
    requires |s.execution.pending| <= 1 && !ReportMarked(Entered(s))
    requires WentOn(config, s, init) == Some(d) && EndsAs(config, Entered(d), turn, status)
    ensures OverAs(Entered(s), Looped(config, s, init + [turn]), status)
  {
    WentAside(config, s, init, d);
    LeadsOn(config, s, init, d, [turn]);
    LastTurnEndsAs(config, d, turn, status);
  }

  /** What the report makes of the state the loop broke with: when that is unmarked and the run
      is over, ready or asked to end, an open or ready status becomes completed and any other
      stays, its stage is marked, and it is counted; otherwise nothing is changed. */
  ghost predicate ClosedAs(last: State, r: State) {
    if ReportMarked(last) || !TerminalOrFinalizable(last) then r == last
    else
      && r.workflow.status
         == (if last.workflow.status in {ReadyToFinalize, Running, Pending} then Completed else last.workflow.status)
      && ReportMarked(r) && r.log.reports == last.log.reports + 1 && r.log.consumed == last.log.consumed
      && r.workflow.completed == last.workflow.completed && r.services == last.services
      && r.execution == last.execution.(checkpoint := Checkpoint(last.workflow.completed, None))
      && forall stage :: stage != FINAL_REPORT ==>
           && (stage in r.workflow.stageStatus <==> stage in last.workflow.stageStatus)
           && (stage in last.workflow.stageStatus ==>
                 r.workflow.stageStatus[stage] == last.workflow.stageStatus[stage])
  }

  /** Whatever the loop breaks with, this is how the call returns it. */
  lemma LoopIsClosed(config: Config, s: State, init: seq<Turn>, turn: Turn, d: State, last: State)
    requires WentOn(config, s, init) == Some(d) && Turned(config, d, turn) == Break(last)
    ensures var end := Looped(config, s, init + [turn]);
      end.Returned? && ClosedAs(last, end.state)
  {
    LeadsOn(config, s, init, d, [turn]);
  }

  lemma EntryKeepsCount(s: State)
    ensures Entered(s).log.reports == s.log.reports
  {
  }

  /** A call that is accepted, leaves the report unmarked and goes on to a turn that ends the run
      returns with that very status and one more report: what the council found ready, a legal
      finalize or a person completed is completed; what was skipped, aborted or failed stays so. */
  lemma CallEndsAs(s: State, config: Config, event: Option<Event>, init: seq<Turn>, turn: Turn, d: State,
      status: RunStatus)
    requires s.execution.pending == [] && !Refused(s, event) && !MarkedAfter(s, event)
    requires var start := if event.Some? then Injected(s, event.value) else s; WentOn(config, start, init) == Some(d)
    requires EndsAs(config, Entered(d), turn, status)
    ensures OverAs(s, Driven(s, Call(config, false, event, init + [turn])), status)
  {
    var start := if event.Some? then Injected(s, event.value) else s;
    if event.Some? {
      EntryMark(s, event.value);
    }
    EntryKeepsCount(start);
    LoopEndsAs(config, start, init, turn, d, status);
  }

  /** The last turn finds the run ready, or finalizes it legally. */
  ghost predicate Completes(config: Config, s: State, turn: Turn) {
    && !Terminal(s.workflow.status) && !AtBoundary(s)
    && (|| (exists reason, record :: FindsNothing(s, turn, reason, record) && record.ready && !record.waiting)
        || (exists p, r :: Executes(s, turn, p, r) && r.family == "finalize_material" && ChannelsSeen(config, r).Some?
              && Allowed(config, p, r, turn.tooling.otherwiseLegal)))
  }

  /** In particular from any unfinished run an accepted event that does not forge the report's
      mark, or none, and a last turn that finds the run ready or finalizes it, complete it. */
  lemma ReadyRunIsCompleted(s: State, config: Config, event: Option<Event>, init: seq<Turn>, turn: Turn, d: State)
    requires Unfinished(s) && (event.Some? ==> !Refused(s, event) && !Forges(s, event.value))
    requires var start := if event.Some? then Injected(s, event.value) else s; WentOn(config, start, init) == Some(d)
    requires Completes(config, Entered(d), turn)
    ensures OverAs(s, Driven(s, Call(config, false, event, init + [turn])), Completed)
  {
    CompletionEnds(config, Entered(d), turn);
    CallEndsAs(s, config, event, init, turn, d, Completed);
  }

  lemma CompletionEnds(config: Config, s: State, turn: Turn)
    requires Completes(config, s, turn)
    ensures EndsAs(config, s, turn, Completed)
  {
    if reason, record :| FindsNothing(s, turn, reason, record) && record.ready && !record.waiting {
      assert NothingEndsAs(reason, record, turn.validation, Completed);
    } else {
      var p, r :| Executes(s, turn, p, r) && r.family == "finalize_material" && ChannelsSeen(config, r).Some?
        && Allowed(config, p, r, turn.tooling.otherwiseLegal);
      assert ActionEndsAs(config, p, r, turn.tooling, Completed);
    }
  }
}
