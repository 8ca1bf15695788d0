/** Refinement of the strain sampling plan (mobility_agent/graph/runtime_nodes.py:1412-1463,
    with the budget of mobility_agent/runtime/agent_tools.py:909-913). The points a
    refinement applies are arbitrary; floating-point numbers are modelled as reals. */
module Refinement {

  const SCALE := 1000000.0

  /** round(value, 6): to the nearest multiple of 1e-6, halves to the even one. */
  function Round6(value: real): real {
    var scaled := value * SCALE;
    var below := scaled.Floor;
    var part := scaled - below as real;
    var nearest := if part < 0.5 || (part == 0.5 && below % 2 == 0) then below else below + 1;
    nearest as real / SCALE
  }

  lemma RoundIsStable(value: real)
    ensures Round6(Round6(value)) == Round6(value)
  {
    var scaled := value * SCALE;
    var below := scaled.Floor;
    var part := scaled - below as real;
    var nearest := if part < 0.5 || (part == 0.5 && below % 2 == 0) then below else below + 1;
    assert nearest as real / SCALE * SCALE == nearest as real;
    assert (nearest as real).Floor == nearest;
  }

  ghost function Distance(a: real, b: real): real {
    if a < b then b - a else a - b
  }

  /** The rounded value is the multiple of a millionth next to the value, the even one where two
      are equally near. */
  lemma RoundIsNearest(value: real) returns (n: int)
    ensures Round6(value) * 1000000.0 == n as real
    ensures Distance(value * 1000000.0, n as real) <= 0.5
    ensures Distance(value * 1000000.0, n as real) == 0.5 ==> n % 2 == 0
  {
    var scaled := value * SCALE;
    var below := scaled.Floor;
    var part := scaled - below as real;
    n := if part < 0.5 || (part == 0.5 && below % 2 == 0) then below else below + 1;
    assert n as real / SCALE * SCALE == n as real;
  }

  ghost predicate StrictlyIncreasing(points: seq<real>) {
    forall i, j :: 0 <= i < j < |points| ==> points[i] < points[j]
  }

  function Placed(x: real, points: seq<real>): (r: seq<real>)
    requires StrictlyIncreasing(points)
    ensures StrictlyIncreasing(r)
    ensures forall y :: y in r <==> y == x || y in points
  {
    if points == [] || x < points[0] then [x] + points
    else if x == points[0] then points
    else
      var rest := Placed(x, points[1..]);
      assert points == [points[0]] + points[1..];
      assert forall i :: 0 <= i < |rest| ==> rest[i] in rest;
      [points[0]] + rest
  }

  /** sorted({round(v, 6) for v in values}) */
  function RoundedSorted(values: seq<real>): (r: seq<real>)
    ensures StrictlyIncreasing(r)
    ensures forall y :: y in r <==> exists i :: 0 <= i < |values| && Round6(values[i]) == y
  {
    if values == [] then []
    else
      var rest := RoundedSorted(values[..|values| - 1]);
      assert forall i :: 0 <= i < |values| - 1 ==> values[..|values| - 1][i] == values[i];
      Placed(Round6(values[|values| - 1]), rest)
  }

  lemma TailHolds(a: seq<real>, x: real)
    requires StrictlyIncreasing(a) && a != []
    ensures x in a[1..] <==> x in a && x != a[0]
  {
    assert a == [a[0]] + a[1..];
    if x in a[1..] {
      var i :| 0 <= i < |a| - 1 && a[1..][i] == x;
      assert a[i + 1] == x;
    }
  }

  /** Sorting a set gives one result, in whatever order the set is enumerated. */
  lemma {:induction false} OneIncreasingOrder(a: seq<real>, b: seq<real>)
    requires StrictlyIncreasing(a) && StrictlyIncreasing(b)
    requires forall x :: x in a <==> x in b
    ensures a == b
  {
    if a != [] { assert a[0] in a; }
    if b != [] { assert b[0] in b; }
    if a != [] {
      var i :| 0 <= i < |b| && b[i] == a[0];
      var j :| 0 <= j < |a| && a[j] == b[0];
      assert a[0] == b[0];
      forall x
        ensures x in a[1..] <==> x in b[1..]
      {
        TailHolds(a, x);
        TailHolds(b, x);
      }
      OneIncreasingOrder(a[1..], b[1..]);
    }
  }

  type Plan = map<string, seq<real>>

  /** The points a refinement applies, by direction in the order of the plan's dictionary. */
  datatype Points = Points(keys: seq<string>, at: Plan)

  function At(plan: Plan, channel: string): seq<real> {
    if channel in plan then plan[channel] else []
  }

  /** A direction of the plan after its points were merged with the applied ones. */
  function MergedAt(plan: Plan, applied: Plan, channel: string): seq<real> {
    RoundedSorted(At(plan, channel) + At(applied, channel))
  }

  function Extended(plan: Plan, applied: Plan, channels: seq<string>): Plan {
    if channels == [] then plan
    else
      var so := Extended(plan, applied, channels[..|channels| - 1]);
      WithPoints(so, channels[|channels| - 1], MergedAt(so, applied, channels[|channels| - 1]))
  }

  function WithPoints(plan: Plan, channel: string, points: seq<real>): Plan {
    if points == [] then plan else plan[channel := points]
  }

  lemma ExtendedNext(plan: Plan, applied: Plan, channels: seq<string>, i: nat)
    requires i < |channels|
    ensures var so := Extended(plan, applied, channels[..i]);
      Extended(plan, applied, channels[..i + 1]) == WithPoints(so, channels[i], MergedAt(so, applied, channels[i]))
  {
    assert channels[..i + 1][..i] == channels[..i];
  }

  /** A direction that is named and has points gets the merged ones; the others keep theirs. */
  function PointsAfter(plan: Plan, applied: Plan, channels: seq<string>, channel: string): seq<real> {
    var merged := MergedAt(plan, applied, channel);
    if channel in channels && merged != [] then merged else At(plan, channel)
  }

  method ExtendPlan(plan: Plan, applied: Plan, channels: seq<string>) returns (extended: Plan)
    ensures extended == Extended(plan, applied, channels)
    ensures forall c :: At(extended, c) == PointsAfter(plan, applied, channels, c)
  {
    extended := plan;
    for i := 0 to |channels|
      invariant extended == Extended(plan, applied, channels[..i])
    {
      ExtendedNext(plan, applied, channels, i);
      var merged := MergedAt(extended, applied, channels[i]);
      if merged != [] {
        extended := extended[channels[i] := merged];
      }
    }
    assert channels[..|channels|] == channels;
    ExtendedEverywhere(plan, applied, channels);
  }

  /** Of a refinement exactly the named directions with points are changed. */
  lemma ExtendedEverywhere(plan: Plan, applied: Plan, channels: seq<string>)
    ensures forall c :: At(Extended(plan, applied, channels), c) == PointsAfter(plan, applied, channels, c)
  {
    forall c: string
      ensures At(Extended(plan, applied, channels), c) == PointsAfter(plan, applied, channels, c)
    {
      ExtendedAt(plan, applied, channels, c);
    }
  }

  lemma RoundedMembers(values: seq<real>, y: real)
    ensures y in RoundedSorted(values) <==> exists v :: v in values && Round6(v) == y
  {
    if v :| v in values && Round6(v) == y {
      var i :| 0 <= i < |values| && values[i] == v;
    }
    if y in RoundedSorted(values) {
      var i :| 0 <= i < |values| && Round6(values[i]) == y;
      assert values[i] in values;
    }
  }

  /** Sorting in points already present adds nothing. */
  lemma MergingAgain(plan: seq<real>, applied: seq<real>)
    ensures var merged := RoundedSorted(plan + applied); RoundedSorted(merged + applied) == merged
  {
    var merged := RoundedSorted(plan + applied);
    forall y
      ensures y in RoundedSorted(merged + applied) <==> y in merged
    {
      AgainMembers(plan, applied, y);
    }
    OneIncreasingOrder(RoundedSorted(merged + applied), merged);
  }

  lemma AgainMembers(plan: seq<real>, applied: seq<real>, y: real)
    ensures var merged := RoundedSorted(plan + applied); y in RoundedSorted(merged + applied) <==> y in merged
  {
    var merged := RoundedSorted(plan + applied);
    RoundedMembers(merged + applied, y);
    RoundedMembers(plan + applied, y);
    if v :| v in merged + applied && Round6(v) == y {
      if v in merged {
        RoundedMembers(plan + applied, v);
        var w :| w in plan + applied && Round6(w) == v;
        RoundIsStable(w);
      } else {
        assert v in applied;
      }
    }
    if y in merged {
      var w :| w in plan + applied && Round6(w) == y;
      RoundIsStable(w);
      assert y in merged + applied;
    }
  }

  lemma {:induction false} ExtendedAt(plan: Plan, applied: Plan, channels: seq<string>, c: string)
    ensures var extended := Extended(plan, applied, channels);
      if c in channels && MergedAt(plan, applied, c) != [] then c in extended
        && extended[c] == MergedAt(plan, applied, c)
      else (c in extended <==> c in plan) && At(extended, c) == At(plan, c)
  {
    if channels != [] {
      var rest, last := channels[..|channels| - 1], channels[|channels| - 1];
      assert channels == rest + [last];
      ExtendedAt(plan, applied, rest, c);
      var so := Extended(plan, applied, rest);
      assert Extended(plan, applied, channels) == WithPoints(so, last, MergedAt(so, applied, last));
      if c == last && c in rest {
        MergingAgain(At(plan, c), At(applied, c));
      }
    }
  }

  /** Every touched direction is strictly increasing and keeps every earlier point, rounded. */
  lemma RefinementKeepsPoints(plan: Plan, applied: Plan, channels: seq<string>, channel: string)
    ensures var extended := Extended(plan, applied, channels);
      if channel in channels && At(plan, channel) + At(applied, channel) != [] then
        && StrictlyIncreasing(At(extended, channel))
        && (forall v :: v in At(plan, channel) + At(applied, channel) ==> Round6(v) in At(extended, channel))
        && (forall y :: y in At(extended, channel) ==>
              exists v :: v in At(plan, channel) + At(applied, channel) && Round6(v) == y)
      else At(extended, channel) == At(plan, channel)
  {
    ExtendedAt(plan, applied, channels, channel);
    var all := At(plan, channel) + At(applied, channel);
    var merged := MergedAt(plan, applied, channel);
    forall v | v in all
      ensures Round6(v) in merged
    {
      RoundedMembers(all, Round6(v));
    }
    forall y | y in merged
      ensures exists v :: v in all && Round6(v) == y
    {
      RoundedMembers(all, y);
    }
    if all != [] {
      assert all[0] in all;
      assert merged != [];
    }
  }

  // Several refinements

  /** Every point of the earlier plan is in the later one, as it was or rounded. */
  ghost predicate KeepsPoints(earlier: seq<real>, later: seq<real>) {
    later == earlier || (StrictlyIncreasing(later) && forall v :: v in earlier ==> Round6(v) in later)
  }

  lemma KeepsPointsTransitive(a: seq<real>, b: seq<real>, c: seq<real>)
    requires KeepsPoints(a, b) && KeepsPoints(b, c)
    ensures KeepsPoints(a, c)
  {
    forall v | v in a
      ensures Round6(v) == Round6(Round6(v))
    {
      RoundIsStable(v);
    }
  }

  /** The points one refinement applies, and the directions it names. */
  datatype Application = Application(applied: Plan, channels: seq<string>)

  function ExtendedAll(plan: Plan, applications: seq<Application>): Plan
    decreases |applications|
  {
    if applications == [] then plan
    else ExtendedAll(Extended(plan, applications[0].applied, applications[0].channels), applications[1..])
  }

  lemma {:induction false} ExtendedConcat(plan: Plan, first: seq<Application>, second: seq<Application>)
    ensures ExtendedAll(plan, first + second) == ExtendedAll(ExtendedAll(plan, first), second)
    decreases |first|
  {
    if first == [] {
      assert first + second == second;
    } else {
      assert (first + second)[1..] == first[1..] + second;
      ExtendedConcat(Extended(plan, first[0].applied, first[0].channels), first[1..], second);
    }
  }

  lemma {:induction false} AllKeepPoints(plan: Plan, applications: seq<Application>, channel: string)
    ensures KeepsPoints(At(plan, channel), At(ExtendedAll(plan, applications), channel))
    decreases |applications|
  {
    if applications != [] {
      var next := Extended(plan, applications[0].applied, applications[0].channels);
      RefinementKeepsPoints(plan, applications[0].applied, applications[0].channels, channel);
      AllKeepPoints(next, applications[1..], channel);
      KeepsPointsTransitive(At(plan, channel), At(next, channel), At(ExtendedAll(plan, applications), channel));
    }
  }
}
