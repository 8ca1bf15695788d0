/** Sequences of calls of drive on one material
    (mobility_agent/runtime/agentic_controller.py:2037-2181, 2204-2397). */
module Sessions {
  import opened Channels
  import opened Runtime
  import opened Runs

  /** The state after the calls, when each of them returns. */
  function Played(s: State, calls: seq<Call>): Option<State>
    decreases |calls|
  {
    if calls == [] then Some(s)
    else match Driven(s, calls[0])
      case Returned(next) => Played(next, calls[1..])
      case _ => None
  }

  /** No call is handed an event that forges the mark of the final report. */
  predicate Honest(s: State, calls: seq<Call>)
    decreases |calls|
  {
    calls == []
    || (!ForgedBy(Started(s, calls[0]), calls[0])
        && (Driven(s, calls[0]).Returned? ==> Honest(Driven(s, calls[0]).state, calls[1..])))
  }

  // The end of a run

  lemma InitialIsAtRest()
    ensures AtRest(INITIAL)
  {
  }

  /** After any calls the run has ended with exactly one report, or can go on and has none. */
  lemma {:induction false} CallsRest(s: State, calls: seq<Call>)
    requires AtRest(s) && Honest(s, calls) && Played(s, calls).Some?
    ensures AtRest(Played(s, calls).value)
    decreases |calls|
  {
    if calls != [] {
      CallSettles(s, calls[0]);
      CallsRest(Driven(s, calls[0]).state, calls[1..]);
    }
  }

  /** A run that has ended is not changed by any later call that does not start it anew, and
      such a call returns. */
  lemma {:induction false} EndIsFinal(s: State, calls: seq<Call>)
    requires Terminal(s.workflow.status) && ReportMarked(s) && s.execution.pending == []
    requires forall call :: call in calls ==> !call.anew && call.turns != []
    ensures Played(s, calls) == Some(s)
    decreases |calls|
  {
    if calls != [] {
      EndedCallReturns(s, calls[0]);
      EndIsFinal(s, calls[1..]);
    }
  }

  lemma EndedCallReturns(s: State, call: Call)
    requires Terminal(s.workflow.status) && ReportMarked(s) && s.execution.pending == []
    requires !call.anew && call.turns != []
    ensures Driven(s, call) == Returned(s)
  {
    if call.event.None? {
      assert Turned(call.config, s, call.turns[0]) == Break(s);
      StopReturns(call.config, s, call.turns);
    }
  }

  /** Without forged marks the report is written exactly when the run ends. */
  lemma HonestRunsReportOnce(calls: seq<Call>)
    requires Honest(INITIAL, calls) && Played(INITIAL, calls).Some?
    ensures var s := Played(INITIAL, calls).value;
      s.log.reports <= 1 && (s.log.reports == 1 <==> Terminal(s.workflow.status))
  {
    InitialIsAtRest();
    CallsRest(INITIAL, calls);
  }

  // Consuming events

  lemma {:induction false} LoopConsumes(config: Config, s: State, turns: seq<Turn>)
    requires |s.execution.pending| <= 1
    ensures Looped(config, s, turns).Returned? ==>
      var r := Looped(config, s, turns).state;
      && r.execution.pending == [] && r.log.consumed == Entered(s).log.consumed
      && r.execution.consumedIds == Entered(s).execution.consumedIds
    decreases |turns|
  {
    if turns != [] {
      EntryEmptiesQueue(s);
      TurnStandsAside(config, s, turns[0]);
      var flow := Turned(config, s, turns[0]);
      if flow.Continue? {
        LoopConsumes(config, flow.state, turns[1..]);
      }
    }
  }

  function ConsumedBy(s: State, call: Call): seq<string> {
    if call.event.Some? && !Refused(s, call.event) then [call.event.value.id] else []
  }

  lemma EntryConsumes(s: State, e: Event)
    requires s.execution.pending == []
    ensures var entered := Entered(Injected(s, e));
      && entered.log.consumed == s.log.consumed + [e.id]
      && entered.execution.consumedIds
        == (if e.id != "" then AddOnce(s.execution.consumedIds, e.id) else s.execution.consumedIds)
  {
    assert Injected(s, e).execution.pending == [e];
  }

  /** A call that returns leaves no pending event, and has consumed its own event exactly
      once unless it refused it. */
  lemma CallConsumes(saved: State, call: Call)
    requires Started(saved, call).execution.pending == [] && Driven(saved, call).Returned?
    ensures var s, r := Started(saved, call), Driven(saved, call).state;
      && r.execution.pending == []
      && r.log.consumed == s.log.consumed + ConsumedBy(s, call)
      && forall id :: id in r.execution.consumedIds <==>
           id in s.execution.consumedIds || (id != "" && id in ConsumedBy(s, call))
  {
    var s := Started(saved, call);
    if !Refused(s, call.event) {
      if call.event.Some? {
        EntryConsumes(s, call.event.value);
        LoopConsumes(call.config, Injected(s, call.event.value), call.turns);
      } else {
        LoopConsumes(call.config, s, call.turns);
      }
    }
  }

  /** The queue is empty, consumed ids are known, and no id without surrounding space was
      consumed twice. */
  ghost predicate Bookkept(s: State) {
    && s.execution.pending == []
    && (forall id :: id in s.log.consumed && id != "" ==> id in s.execution.consumedIds)
    && (forall id :: id != "" && Trimmed(id) ==> multiset(s.log.consumed)[id] <= 1)
  }

  /** A consumed id is refused while the run goes on exactly when it has no surrounding
      space. */
  lemma ResubmissionIsRefused(s: State, e: Event)
    requires !Terminal(s.workflow.status) && e.id != "" && e.id in s.execution.consumedIds
    ensures Refused(s, Some(e)) <==> Trimmed(e.id)
  {
    StripTrims(e.id);
    var ids := s.execution.consumedIds;
    var i :| 0 <= i < |ids| && ids[i] == e.id;
    forall k | 0 <= k < |ids|
      ensures Trimmed(Strip(ids[k]))
    {
      StripTrims(ids[k]);
    }
  }

  lemma CallKeepsBooks(saved: State, call: Call)
    requires Bookkept(Started(saved, call)) && Driven(saved, call).Returned?
    ensures Bookkept(Driven(saved, call).state)
  {
    CallConsumes(saved, call);
    var s := Started(saved, call);
    if ConsumedBy(s, call) != [] {
      var e := call.event.value;
      if e.id != "" && Trimmed(e.id) && e.id in s.log.consumed {
        ResubmissionIsRefused(s, e);
      }
    }
  }

  /** Over any sequence of calls, honest or not, the queue is empty at every return and each
      id without surrounding space is consumed at most once since the last fresh start. */
  lemma {:induction false} ConsumedAtMostOnce(s: State, calls: seq<Call>)
    requires Bookkept(s) && Played(s, calls).Some?
    ensures Bookkept(Played(s, calls).value)
    decreases |calls|
  {
    if calls != [] {
      assert Bookkept(INITIAL);
      CallKeepsBooks(s, calls[0]);
      ConsumedAtMostOnce(Driven(s, calls[0]).state, calls[1..]);
    }
  }

  /** An id with surrounding space is consumed each time it is sent while the run goes on. */
  lemma PaddedIdIsConsumedAgain(s: State, call: Call)
    requires s.execution.pending == [] && !Terminal(s.workflow.status) && !call.anew
    requires call.event.Some? && !Trimmed(call.event.value.id) && Driven(s, call).Returned?
    ensures multiset(Driven(s, call).state.log.consumed)[call.event.value.id]
      == multiset(s.log.consumed)[call.event.value.id] + 1
  {
    CallConsumes(s, call);
    forall k | 0 <= k < |s.execution.consumedIds|
      ensures Trimmed(Strip(s.execution.consumedIds[k]))
    {
      StripTrims(s.execution.consumedIds[k]);
    }
  }
}
