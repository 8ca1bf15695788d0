/** The final report and the end of a run over every sequence of calls, with the events that
    mark or unmark the report's own stage
    (mobility_agent/runtime/agentic_controller.py:1915-1949, 2126-2202, 2332-2396). */
module Reports {
  import opened Channels
  import opened Runtime
  import opened Runs
  import opened Sessions
  import opened Progress
  import opened Scenarios
  import A = Arbitration

  // What a call does to the report

  /** From a state entered with its event taken up: a marked run keeps its mark and gets no
      report; an unmarked one gets one report with its mark, or goes on without either. */
  ghost predicate ReportsFrom(entered: State, r: State) {
    && r.execution.pending == []
    && (if ReportMarked(entered) then ReportMarked(r) && r.log.reports == entered.log.reports
        else if ReportMarked(r) then r.log.reports == entered.log.reports + 1
        else r.log.reports == entered.log.reports && Open(r))
  }

  lemma FinishReports(entered: State, last: State)
    requires Aside(entered, last) && entered.execution.pending == []
    ensures ReportsFrom(entered, Finalized(last))
  {
  }

  lemma ReportsAlong(entered: State, next: State, r: State)
    requires Aside(entered, next) && ReportsFrom(next, r)
    ensures ReportsFrom(entered, r)
  {
  }

  lemma {:induction false} LoopReports(config: Config, s: State, turns: seq<Turn>)
    requires |s.execution.pending| <= 1 && Looped(config, s, turns).Returned?
    ensures ReportsFrom(Entered(s), Looped(config, s, turns).state)
    decreases |turns|
  {
    EntryEmptiesQueue(s);
    TurnStandsAside(config, s, turns[0]);
    var flow := Turned(config, s, turns[0]);
    if flow.Continue? {
      LoopReports(config, flow.state, turns[1..]);
      ReportsAlong(Entered(s), flow.state, Looped(config, flow.state, turns[1..]).state);
    } else {
      FinishReports(Entered(s), flow.state);
    }
  }

  /** A call that is not refused leaves a mark exactly by the events of the report's stage or
      by writing the report, which it does at most once and never over a mark. */
  lemma CallReports(saved: State, call: Call)
    requires Started(saved, call).execution.pending == [] && Driven(saved, call).Returned?
    requires !Refused(Started(saved, call), call.event)
    ensures var s, r := Started(saved, call), Driven(saved, call).state;
      && r.execution.pending == []
      && (if MarkedAfter(s, call.event) then ReportMarked(r) && r.log.reports == s.log.reports
          else if ReportMarked(r) then r.log.reports == s.log.reports + 1
          else r.log.reports == s.log.reports && Open(r))
  {
    var s := Started(saved, call);
    if call.event.Some? {
      EntryMark(s, call.event.value);
      LoopReports(call.config, Injected(s, call.event.value), call.turns);
    } else {
      LoopReports(call.config, s, call.turns);
    }
  }

  // Every history

  /** The queue is empty, and a run that has ended carries the report's mark. */
  ghost predicate Kept(s: State) {
    s.execution.pending == [] && (Terminal(s.workflow.status) ==> ReportMarked(s))
  }

  lemma {:induction false} CallsKeep(s: State, calls: seq<Call>)
    requires Kept(s) && Played(s, calls).Some?
    ensures Kept(Played(s, calls).value)
    decreases |calls|
  {
    if calls != [] {
      assert Kept(INITIAL);
      if !Refused(Started(s, calls[0]), calls[0].event) {
        CallReports(s, calls[0]);
      }
      CallsKeep(Driven(s, calls[0]).state, calls[1..]);
    }
  }

  /** A terminal status is absorbing in every history, whatever events it contained. */
  lemma EndIsAbsorbing(calls: seq<Call>, later: seq<Call>)
    requires forall call :: call in later ==> !call.anew && call.turns != []
    ensures var s := Played(INITIAL, calls);
      s.Some? && Terminal(s.value.workflow.status) ==> Played(s.value, later) == s
  {
    var s := Played(INITIAL, calls);
    if s.Some? && Terminal(s.value.workflow.status) {
      CallsKeep(INITIAL, calls);
      EndIsFinal(s.value, later);
    }
  }

  /** The call accepts an event that unmarks the report in a run that has one. */
  predicate Reopens(s: State, call: Call) {
    call.event.Some? && !Refused(s, call.event) && Unmarks(s, call.event.value) && s.log.reports > 0
  }

  predicate NeverReopened(s: State, calls: seq<Call>)
    decreases |calls|
  {
    calls == []
    || (!Reopens(Started(s, calls[0]), calls[0])
        && (Driven(s, calls[0]).Returned? ==> NeverReopened(Driven(s, calls[0]).state, calls[1..])))
  }

  ghost predicate OneReport(s: State) {
    s.execution.pending == [] && (s.log.reports == 0 || (s.log.reports == 1 && ReportMarked(s)))
  }

  lemma {:induction false} CallsReportOnce(s: State, calls: seq<Call>)
    requires OneReport(s) && NeverReopened(s, calls) && Played(s, calls).Some?
    ensures OneReport(Played(s, calls).value)
    decreases |calls|
  {
    if calls != [] {
      assert OneReport(INITIAL);
      if !Refused(Started(s, calls[0]), calls[0].event) {
        CallReports(s, calls[0]);
      }
      CallsReportOnce(Driven(s, calls[0]).state, calls[1..]);
    }
  }

  /** Forged marks included, the report is written at most once in every history in which no
      accepted event reopens a reported run. */
  lemma ReportedOnceForAll(calls: seq<Call>)
    requires NeverReopened(INITIAL, calls) && Played(INITIAL, calls).Some?
    ensures Played(INITIAL, calls).value.log.reports <= 1
  {
    CallsReportOnce(INITIAL, calls);
  }

  // When a report can be written

  /** A council that finds everything resolved, with nothing to propose. */
  const READY: Council := Council(
    A.Desk(j => "", r => true, A.Standing("", false, 0, 2, false, true)), [], [], [],
      A.Reply("", None, false, false, false))

  const IDLE: Tooling := Tooling(true, Sampling.Points([], map[]), [], Success, false, "job")

  function TurnOf(council: Council): Turn {
    Turn(View(false, false, true), council, false, map[], NotComputed, [], IDLE, Human("", false, ""),
      View(false, false, true))
  }

  lemma ReadyIsNoop()
    ensures A.Arbitrated(READY.desk, READY.proposals, READY.critiques, READY.preferences, READY.reply)
      == A.Recorded(A.Noop(false, true))
  {
  }

  lemma ReadyReason(s: State)
    requires s.execution.pending == [] && !Waiting(s.workflow.status)
    ensures DeliberationReason(s, TurnOf(READY).before).Some?
  {
  }

  lemma ReadySettles(s: State, reason: Reason)
    requires s.execution.pending == []
    ensures var p := Deliberated(s, reason, TurnOf(READY));
      && p.Some? && p.value.execution.current.None? && p.value.workflow.status.ReadyToFinalize?
  {
    ReadyIsNoop();
  }

  /** In a run that has not ended and does not wait, the ready council ends the loop. */
  lemma ReadyStops(config: Config, s: State)
    requires s.execution.pending == [] && !Waiting(s.workflow.status) && !Terminal(s.workflow.status)
    ensures var flow := Proceeded(config, s, TurnOf(READY));
      flow.Break? && flow.state.workflow.status.ReadyToFinalize? && Aside(s, flow.state)
  {
    ReadyReason(s);
    ReadySettles(s, DeliberationReason(s, TurnOf(READY).before).value);
    ProceedingStandsAside(config, s, TurnOf(READY));
  }

  /** Under full autonomy two such turns end any loop: a run that waits is recovered first. */
  lemma ReadyLoopReturns(config: Config, s: State) returns (last: State)
    requires config.fullAutonomy && |s.execution.pending| <= 1
    ensures Looped(config, s, [TurnOf(READY), TurnOf(READY)]) == Returned(Finalized(last))
    ensures Aside(Entered(s), last)
    ensures if Terminal(Entered(s).workflow.status) then last == Entered(s) else last.workflow.status.ReadyToFinalize?
  {
    var turn, entered := TurnOf(READY), Entered(s);
    EntryEmptiesQueue(s);
    if Terminal(entered.workflow.status) {
      last := entered;
    } else if AtBoundary(entered) {
      last := RecoveredStops(config, entered);
      SecondTurnReturns(config, s, turn, last);
      return;
    } else {
      ReadyStops(config, entered);
      last := Proceeded(config, entered, turn).state;
    }
    FirstTurnReturns(config, s, turn, last);
  }

  lemma RecoveredStops(config: Config, s: State) returns (last: State)
    requires s.execution.pending == []
    ensures Proceeded(config, Recovered(config, s), TurnOf(READY)) == Break(last)
    ensures Aside(s, last) && last.workflow.status.ReadyToFinalize?
  {
    var recovered := Recovered(config, s);
    ReadyStops(config, recovered);
    last := Proceeded(config, recovered, TurnOf(READY)).state;
  }

  lemma FirstTurnReturns(config: Config, s: State, turn: Turn, last: State)
    requires Turned(config, s, turn) == Break(last)
    ensures Looped(config, s, [turn, turn]) == Returned(Finalized(last))
  {
  }

  lemma SecondTurnReturns(config: Config, s: State, turn: Turn, last: State)
    requires config.fullAutonomy && AtBoundary(Entered(s)) && !Terminal(Entered(s).workflow.status)
    requires Proceeded(config, Recovered(config, Entered(s)), turn) == Break(last)
    ensures Looped(config, s, [turn, turn]) == Returned(Finalized(last))
  {
    var recovered := Recovered(config, Entered(s));
    assert [turn, turn][1..] == [turn];
    assert Turned(config, s, turn) == Continue(recovered);
    assert Entered(recovered) == recovered;
    OneTurnReturns(config, recovered, turn, last);
  }

  lemma OneTurnReturns(config: Config, s: State, turn: Turn, last: State)
    requires Turned(config, s, turn) == Break(last)
    ensures Looped(config, s, [turn]) == Returned(Finalized(last))
  {
  }

  ghost predicate WritesReport(s: State, call: Call) {
    Driven(s, call).Returned? && Driven(s, call).state.log.reports > s.log.reports
  }

  /** A call with this event, or without one, can write a report exactly when the event is
      accepted and leaves the report's stage unmarked. */
  lemma ReportPossibleIff(s: State, event: Option<Event>)
    requires s.execution.pending == []
    ensures (exists config, turns :: WritesReport(s, Call(config, false, event, turns)))
      <==> !Refused(s, event) && !MarkedAfter(s, event)
  {
    forall config, turns | WritesReport(s, Call(config, false, event, turns))
      ensures !Refused(s, event) && !MarkedAfter(s, event)
    {
      if !Refused(s, event) {
        CallReports(s, Call(config, false, event, turns));
      }
    }
    if !Refused(s, event) && !MarkedAfter(s, event) {
      var config := AUTONOMOUS;
      var turns := [TurnOf(READY), TurnOf(READY)];
      var started := if event.Some? then Injected(s, event.value) else s;
      if event.Some? { EntryMark(s, event.value); }
      var last := ReadyLoopReturns(config, started);
      assert Driven(s, Call(config, false, event, turns)) == Returned(Finalized(last));
      assert WritesReport(s, Call(config, false, event, turns));
    }
  }

  const AUTONOMOUS: Config := Config(j => "", true, true, 0, 0)

  /** In a run that has its report marked, a further report is possible exactly by an
      accepted event that reports the stage "final_report" as failed. */
  lemma SecondReportIff(s: State, event: Option<Event>)
    requires s.execution.pending == [] && s.log.reports > 0 && ReportMarked(s)
    ensures (exists config, turns :: WritesReport(s, Call(config, false, event, turns)))
      <==> event.Some? && !Refused(s, event) && Unmarks(s, event.value)
  {
    ReportPossibleIff(s, event);
  }

  // Forged marks

  /** In any run that has not ended, an accepted event that forges the mark lets a call return
      ready to finalize, without a report. */
  lemma ForgedRunStaysUnreported(config: Config, s: State, e: Event)
    requires config.fullAutonomy && Unfinished(s) && !Duplicate(s, e) && Forges(s, e)
    ensures var end := Driven(s, Call(config, false, Some(e), [TurnOf(READY), TurnOf(READY)]));
      end.Returned? && end.state.workflow.status.ReadyToFinalize? && ReportMarked(end.state)
        && end.state.log.reports == 0
  {
    EntryMark(s, e);
    EventGoesOn(s, e);
    var last := ReadyLoopReturns(config, Injected(s, e));
  }

  lemma EventGoesOn(s: State, e: Event)
    requires s.execution.pending == [] && !Overrides(e)
    ensures !Terminal(Entered(Injected(s, e)).workflow.status)
    ensures Entered(Injected(s, e)).services == s.services
  {
    assert Injected(s, e).execution.pending == [e];
  }

  // Two reports

  function ForgedDone(id: string): Event {
    Event(id, "job_completed", "", FINAL_REPORT, "", "")
  }

  function ForgedFailed(id: string): Event {
    Event(id, "job_failed", "", FINAL_REPORT, "", "")
  }

  const PATIENT: Config := Config(j => "", false, true, 0, 0)

  /** Asked to end, but marked. */
  ghost predicate Stuck(s: State, ids: seq<string>) {
    && s.services.terminationRequested && !Terminal(s.workflow.status) && ReportMarked(s)
    && s.execution.pending == [] && s.execution.consumedIds == ids && s.workflow.retries == map[]
  }

  /** A run that has not begun. */
  ghost predicate Blank(s: State) {
    && s.workflow.status.Pending? && s.services == Services(false, None) && s.log.reports == 0
    && s.execution.pending == [] && s.execution.consumedIds == [] && s.execution.jobs == []
    && s.workflow.retries == map[]
  }

  lemma ForgedEntry(start: State, id: string) returns (entered: State)
    requires Blank(start) && id != ""
    ensures entered == Entered(Injected(start, ForgedDone(id)))
    ensures Going(entered) && !Saw(entered, Failure) && entered.workflow.retries == map[]
    ensures entered.execution.consumedIds == [id] && ReportMarked(entered) && entered.log.reports == 0
  {
    var e := ForgedDone(id);
    entered := Entered(Injected(start, e));
    StripTrims(FINAL_REPORT);
    EntryMark(start, e);
    EventGoesOn(start, e);
    EntryConsumes(start, e);
    EntryEmptiesQueue(Injected(start, e));
    ForgedRuns(start, e);
  }

  lemma ForgedRuns(start: State, e: Event)
    requires Blank(start) && e == ForgedDone(e.id)
    ensures var entered := Entered(Injected(start, e));
      && entered.workflow.status == Running && entered.execution.jobs == [] && !Saw(entered, Failure)
      && entered.workflow.retries == map[]
  {
    assert Injected(start, e).execution.pending == [e];
  }

  /** All stages are run, and the run is finalized. */
  lemma StagesThenFinalize(s: State) returns (turns: seq<Turn>, last: State)
    requires Going(s) && !Saw(s, Failure) && ReportMarked(s)
    ensures turns != [] && Looped(PATIENT, s, turns) == Returned(last) && AllInformed(PATIENT, s, turns)
    ensures Aside(s, last) && last.workflow.status.ReadyToFinalize? && last.services.terminationRequested
    ensures last.workflow.retries == s.workflow.retries
    ensures forall stage :: stage in PIPELINE ==> stage in last.workflow.completed
  {
    PipelineIsStages();
    var before, d := StagesRun(PATIENT, s, PIPELINE);
    last := FinalizeStops(PATIENT, d);
    var turn := Picking(PATIENT, d, FINALIZE, Success);
    LastTurn(PATIENT, d, turn, last);
    LeadsOn(PATIENT, s, before, d, [turn]);
    turns := before + [turn];
  }

  /** The stages are run and the run is finalized, all under the forged mark. */
  lemma FinalizeWithMark(start: State, id: string) returns (call: Call, s: State)
    requires Blank(start) && id != ""
    ensures !call.anew && call.event == Some(ForgedDone(id))
    ensures Driven(start, call) == Returned(s) && AllInformed(call.config, LoopStart(start, call), call.turns)
    ensures Stuck(s, [id]) && s.log.reports == 0
    ensures forall stage :: stage in PIPELINE ==> stage in s.workflow.completed
  {
    var entered := ForgedEntry(start, id);
    var turns;
    turns, s := StagesThenFinalize(entered);
    EntryFirst(PATIENT, Injected(start, ForgedDone(id)), turns);
    call := Call(PATIENT, false, Some(ForgedDone(id)), turns);
  }

  lemma PipelineIsStages()
    ensures forall stage :: stage in PIPELINE ==> stage in STAGE_ORDER
  {
  }

  lemma LastTurn(config: Config, s: State, turn: Turn, last: State)
    requires s.execution.pending == [] && Informed(config, s, turn) && Proceeded(config, s, turn) == Break(last)
    ensures Looped(config, s, [turn]) == Returned(Finalized(last)) && AllInformed(config, s, [turn])
  {
  }

  /** In a run asked to end, whose counts are empty, a council that judges by the state
      answers a failure with a repair. */
  lemma RepairAnswers(s: State) returns (last: State)
    requires s.workflow.status.NeedsRecovery? && s.services.terminationRequested && s.execution.pending == []
    requires s.workflow.retries == map[]
    ensures var turn := Picking(PATIENT, s, REPAIR, Success);
      Informed(PATIENT, s, turn) && Proceeded(PATIENT, s, turn) == Break(last) && Repaired(s, last)
  {
    RepairIsAllowed(PATIENT, ObservedState(s));
    PickingIsInformed(PATIENT, s, REPAIR, Success);
    RecoveryHasReason(s, QUIET);
    last := RepairStops(PATIENT, s, StandingOf(PATIENT, ObservedState(s)), Picking(PATIENT, s, REPAIR, Success));
  }

  /** An event that reports the report's stage as failed lets a stuck run write a report,
      again and again. */
  lemma UnmarkingReports(s: State, ids: seq<string>, id: string) returns (r: State)
    requires Stuck(s, ids) && id != "" && id !in ids && !Duplicate(s, ForgedFailed(id))
    ensures Driven(s, UnmarkCall(s, id)) == Returned(r)
    ensures AllInformed(PATIENT, LoopStart(s, UnmarkCall(s, id)), UnmarkCall(s, id).turns)
    ensures Stuck(r, ids + [id]) && r.log.reports == s.log.reports + 1 && r.workflow.status.NeedsRecovery?
  {
    var entered := UnmarkedEntry(s, ids, id);
    var turn := Picking(PATIENT, entered, REPAIR, Success);
    var last := RepairAnswers(entered);
    r := Finalized(last);
    LastTurn(PATIENT, entered, turn, last);
    EntryFirst(PATIENT, Injected(s, ForgedFailed(id)), [turn]);
  }

  lemma RecoveryHasReason(s: State, view: View)
    requires s.workflow.status.NeedsRecovery?
    ensures DeliberationReason(s, view).Some?
  {
  }

  lemma UnmarkedEntry(s: State, ids: seq<string>, id: string) returns (entered: State)
    requires Stuck(s, ids) && id != "" && id !in ids
    ensures entered == Entered(Injected(s, ForgedFailed(id)))
    ensures entered.workflow.status.NeedsRecovery? && entered.services == s.services && entered.execution.pending == []
    ensures entered.execution.consumedIds == ids + [id] && !ReportMarked(entered)
      && entered.log.reports == s.log.reports && entered.workflow.retries == map[]
  {
    var e := ForgedFailed(id);
    entered := Entered(Injected(s, e));
    StripTrims(FINAL_REPORT);
    EntryMark(s, e);
    EventGoesOn(s, e);
    EntryConsumes(s, e);
    EntryEmptiesQueue(Injected(s, e));
    FailureRecovers(s, e);
  }

  lemma FailureRecovers(s: State, e: Event)
    requires s.execution.pending == [] && e == ForgedFailed(e.id)
    ensures Entered(Injected(s, e)).workflow.status.NeedsRecovery?
    ensures Entered(Injected(s, e)).workflow.retries == s.workflow.retries
  {
    assert Injected(s, e).execution.pending == [e];
  }

  /** The event, and a council that answers it with a repair. */
  function UnmarkCall(s: State, id: string): Call {
    var e := ForgedFailed(id);
    Call(PATIENT, false, Some(e), [Picking(PATIENT, Entered(Injected(s, e)), REPAIR, Success)])
  }

  ghost predicate Plain(ids: seq<string>) {
    forall i :: 0 <= i < |ids| ==> Trimmed(ids[i])
  }

  /** The calls lead to a stuck run with so many reports, by councils that judge by the
      state. */
  ghost predicate Reached(start: State, calls: seq<Call>, s: State, ids: seq<string>, reports: nat) {
    && Played(start, calls) == Some(s) && CallsInformed(start, calls)
    && Stuck(s, ids) && Plain(ids) && s.log.reports == reports
  }

  lemma MarkedHistory(start: State, id: string) returns (call: Call, s: State)
    requires Blank(start) && id != "" && Trimmed(id)
    ensures !call.anew && call.event == Some(ForgedDone(id)) && Reached(start, [call], s, [id], 0)
    ensures forall stage :: stage in PIPELINE ==> stage in s.workflow.completed
  {
    call, s := FinalizeWithMark(start, id);
    OnePlayed(start, call);
  }

  lemma PlainIsFresh(s: State, ids: seq<string>, e: Event)
    requires Plain(ids) && s.execution.consumedIds == ids && e.id !in ids
    ensures !Duplicate(s, e)
  {
    forall i | 0 <= i < |ids|
      ensures Strip(ids[i]) != e.id
    {
      StripTrims(ids[i]);
    }
  }

  lemma PlainWith(ids: seq<string>, id: string)
    requires Plain(ids) && Trimmed(id)
    ensures Plain(ids + [id])
  {
  }

  /** One more unmarking event, one more report. */
  lemma AnotherReport(start: State, calls: seq<Call>, s: State, ids: seq<string>, reports: nat, id: string)
    returns (r: State)
    requires Reached(start, calls, s, ids, reports) && id != "" && Trimmed(id) && id !in ids
    ensures Reached(start, calls + [UnmarkCall(s, id)], r, ids + [id], reports + 1) && r.workflow.status.NeedsRecovery?
  {
    PlainIsFresh(s, ids, ForgedFailed(id));
    PlainWith(ids, id);
    r := UnmarkingReports(s, ids, id);
    PlayedOn(start, calls, UnmarkCall(s, id));
    OnePlayed(s, UnmarkCall(s, id));
  }

  lemma TwoMoreReports(start: State, calls: seq<Call>, first: State, ids: seq<string>, b: string, c: string)
    returns (second: State, s: State)
    requires Reached(start, calls, first, ids, 0)
    requires b != "" && c != "" && Trimmed(b) && Trimmed(c) && b !in ids && c !in ids + [b]
    ensures Reached(start, calls + [UnmarkCall(first, b)] + [UnmarkCall(second, c)], s, ids + [b] + [c], 2)
    ensures s.workflow.status.NeedsRecovery?
  {
    second := AnotherReport(start, calls, first, ids, 0, b);
    s := AnotherReport(start, calls + [UnmarkCall(first, b)], second, ids + [b], 1, c);
  }

  /** "At most once" is false of forged histories: three calls, with any three event ids, write
      two reports, and the run has not ended. The first call runs all stages and finalizes; every
      council judges by the state of the run. */
  lemma TwoReports(a: string, b: string, c: string)
    returns (begin: Call, first: State, second: State, s: State)
    requires a != "" && b != "" && c != "" && Trimmed(a) && Trimmed(b) && Trimmed(c)
    requires a != b && a != c && b != c
    ensures !begin.anew && begin.event == Some(ForgedDone(a)) && Played(INITIAL, [begin]) == Some(first)
    ensures forall stage :: stage in PIPELINE ==> stage in first.workflow.completed
    ensures var calls := [begin] + [UnmarkCall(first, b)] + [UnmarkCall(second, c)];
      Played(INITIAL, calls) == Some(s) && CallsInformed(INITIAL, calls)
    ensures s.log.reports == 2 && s.workflow.status.NeedsRecovery?
  {
    begin, first := MarkedHistory(INITIAL, a);
    second, s := TwoMoreReports(INITIAL, [begin], first, [a], b, c);
  }

  lemma {:induction false} PlayedOn(s: State, calls: seq<Call>, c: Call)
    ensures Played(s, calls + [c]) == if Played(s, calls).Some? then Played(Played(s, calls).value, [c]) else None
    ensures CallsInformed(s, calls) && (Played(s, calls).Some? ==> CallsInformed(Played(s, calls).value, [c])) ==>
      CallsInformed(s, calls + [c])
    decreases |calls|
  {
    if calls == [] {
      assert calls + [c] == [c];
    } else {
      assert (calls + [c])[1..] == calls[1..] + [c];
      if Driven(s, calls[0]).Returned? {
        PlayedOn(Driven(s, calls[0]).state, calls[1..], c);
      }
    }
  }

  lemma OnePlayed(s: State, c: Call)
    ensures Played(s, [c]) == if Driven(s, c).Returned? then Some(Driven(s, c).state) else None
    ensures CallsInformed(s, [c]) <==> AllInformed(c.config, LoopStart(s, c), c.turns)
  {
    assert [c][1..] == [];
  }
}
