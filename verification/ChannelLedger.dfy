/** Which transport subchannels and directions are still accepted
    (mobility_agent/runtime/channel_utils.py:8-83;
    mobility_agent/graph/runtime_nodes.py:1629-1662). */
module ChannelLedger {
  import opened Json
  import opened Dedupe
  import opened Channels

  const DIRECTIONS: seq<string> := ["x", "y"]
  const CARRIERS: seq<string> := ["electron", "hole"]

  /** canonical_subchannel, on valid arguments. */
  function Subchannel(direction: string, carrier: string): string {
    carrier + "_" + direction
  }

  /** default_subchannels */
  const FOUR: seq<string> :=
    [Subchannel("x", "electron"), Subchannel("x", "hole"), Subchannel("y", "electron"), Subchannel("y", "hole")]

  // Tokens

  /** str.split("_", 1), when there is an underscore. */
  function SplitOnce(s: string): Option<(string, string)> {
    if s == "" then None
    else if s[0] == '_' then Some(("", s[1..]))
    else match SplitOnce(s[1..])
      case None => None
      case Some(parts) => Some(([s[0]] + parts.0, parts.1))
  }

  function Normal(token: string): string {
    Lower(Strip(token))
  }

  /** direction_from_channel_token, with the carrier it found on the way. */
  function Parsed(value: string): Option<(string, string)> {
    match SplitOnce(value)
    case None => None
    case Some(parts) => if parts.0 in CARRIERS && parts.1 in DIRECTIONS then Some((parts.1, parts.0)) else None
  }

  /** What one entry of a list of targets stands for. */
  function Tokens(entry: string): seq<string> {
    var value := Normal(entry);
    if value in DIRECTIONS then [Subchannel(value, "electron"), Subchannel(value, "hole")]
    else match Parsed(value)
      case None => []
      case Some(found) => [Subchannel(found.0, found.1)]
  }

  function Expanded(entries: seq<string>): seq<string> {
    if entries == [] then [] else Expanded(entries[..|entries| - 1]) + Tokens(entries[|entries| - 1])
  }

  /** subchannel_tokens_from_targets */
  function TokensOf(entries: seq<string>): seq<string> {
    Deduped(Expanded(entries), Self)
  }

  method SubchannelTokens(entries: seq<string>) returns (tokens: seq<string>)
    ensures tokens == TokensOf(entries)
    ensures forall t :: t in tokens <==> exists i :: 0 <= i < |entries| && t in Tokens(entries[i])
  {
    tokens := [];
    for i := 0 to |entries|
      invariant tokens == Expanded(entries[..i])
    {
      assert entries[..i + 1][..i] == entries[..i];
      tokens := tokens + Tokens(entries[i]);
    }
    assert entries[..|entries|] == entries;
    forall t: string
      ensures t in TokensOf(entries) <==> exists i :: 0 <= i < |entries| && t in Tokens(entries[i])
    {
      TokenOrigin(entries, t);
    }
    tokens := DedupeKeepOrder(tokens, Self);
  }

  lemma MembersOfDeduped(items: seq<string>, x: string)
    ensures x in Deduped(items, Self) <==> x in items
  {
    MarkersOfDeduped(items, Self, {});
    var d := Deduped(items, Self);
    assert x in Markers(d, Self) <==> x in d by {
      if x in d { var i :| 0 <= i < |d| && d[i] == x; assert Self(d[i]) == x; }
    }
    assert x in Markers(items, Self) <==> x in items by {
      if x in items { var i :| 0 <= i < |items| && items[i] == x; assert Self(items[i]) == x; }
    }
  }

  lemma {:induction false} ExpandedOrigin(entries: seq<string>, t: string)
    ensures t in Expanded(entries) <==> exists i :: 0 <= i < |entries| && t in Tokens(entries[i])
  {
    if entries != [] {
      var rest := entries[..|entries| - 1];
      ExpandedOrigin(rest, t);
      assert forall i :: 0 <= i < |rest| ==> rest[i] == entries[i];
    }
  }

  lemma TokenOrigin(entries: seq<string>, t: string)
    ensures t in TokensOf(entries) <==> exists i :: 0 <= i < |entries| && t in Tokens(entries[i])
  {
    ExpandedOrigin(entries, t);
    MembersOfDeduped(Expanded(entries), t);
  }

  ghost predicate StandsFor(value: string, direction: string, carrier: string, t: string) {
    && direction in {"x", "y"} && carrier in {"electron", "hole"} && t == carrier + "_" + direction
    && (value == direction || value == carrier + "_" + direction)
  }

  /** What an entry stands for, in any case and with any surrounding space: a direction for
      both its carriers, a carrier and a direction joined by "_" for that one subchannel, and
      anything else for nothing. */
  lemma TokensMean(entry: string, t: string)
    ensures t in Tokens(entry) <==>
      exists direction, carrier :: StandsFor(Lower(Strip(entry)), direction, carrier, t)
  {
    var value := Lower(Strip(entry));
    if t in Tokens(entry) {
      if value in DIRECTIONS {
        assert StandsFor(value, value, "electron", t) || StandsFor(value, value, "hole", t);
      } else {
        var found := Parsed(value).value;
        SplitIsJoined(value);
        assert StandsFor(value, found.0, found.1, t);
      }
    }
    if direction, carrier :| StandsFor(value, direction, carrier, t) {
      if value != direction {
        assert value == Subchannel(direction, carrier);
        PartsAreNormal(direction, carrier);
        SplitJoins(carrier, direction);
      }
    }
  }

  lemma {:induction false} SplitIsJoined(s: string)
    ensures SplitOnce(s).Some? ==> s == SplitOnce(s).value.0 + "_" + SplitOnce(s).value.1
  {
    if s != "" && s[0] != '_' {
      SplitIsJoined(s[1..]);
    }
  }

  /** Every token is one of the four, whatever was written. */
  lemma TokensAreCanonical(entry: string, t: string)
    requires t in Tokens(entry)
    ensures t in FOUR
  {
  }

  lemma SplitJoins(carrier: string, direction: string)
    requires '_' !in carrier
    ensures SplitOnce(Subchannel(direction, carrier)) == Some((carrier, direction))
  {
    var s := Subchannel(direction, carrier);
    if carrier == "" {
      assert s == "_" + direction && s[1..] == direction;
    } else {
      SplitJoins(carrier[1..], direction);
      assert s[0] == carrier[0] && s[1..] == Subchannel(direction, carrier[1..]);
      assert [carrier[0]] + carrier[1..] == carrier;
    }
  }

  lemma PartsAreNormal(direction: string, carrier: string)
    requires direction in DIRECTIONS && carrier in CARRIERS
    ensures Normal(Subchannel(direction, carrier)) == Subchannel(direction, carrier)
    ensures Subchannel(direction, carrier) !in DIRECTIONS
  {
    var t := Subchannel(direction, carrier);
    StripTrims(t);
    assert t[0] == carrier[0] && t[|t| - 1] == direction[0];
    forall i | 0 <= i < |t|
      ensures LowerChar(t[i]) == t[i]
    {
    }
    assert Lower(t) == t;
  }

  lemma PartsStand(direction: string, carrier: string)
    requires direction in DIRECTIONS && carrier in CARRIERS
    ensures Tokens(Subchannel(direction, carrier)) == [Subchannel(direction, carrier)]
  {
    PartsAreNormal(direction, carrier);
    SplitJoins(carrier, direction);
  }

  /** A canonical subchannel stands for itself. */
  lemma CanonicalTokens(t: string)
    requires t in FOUR
    ensures Tokens(t) == [t]
  {
    PartsStand("x", "electron");
    PartsStand("x", "hole");
    PartsStand("y", "electron");
    PartsStand("y", "hole");
  }

  // Directions

  predicate Touches(tokens: seq<string>, direction: string) {
    Subchannel(direction, "electron") in tokens || Subchannel(direction, "hole") in tokens
  }

  predicate CoversAll(tokens: seq<string>, direction: string) {
    Subchannel(direction, "electron") in tokens && Subchannel(direction, "hole") in tokens
  }

  predicate IsAccepted(retained: seq<string>, direction: string) {
    Touches(TokensOf(retained), direction)
  }

  predicate IsRejected(retained: seq<string>, rejected: seq<string>, direction: string) {
    !IsAccepted(retained, direction) && CoversAll(TokensOf(rejected), direction)
  }

  /** derive_direction_acceptance */
  method DeriveAcceptance(retained: seq<string>, rejected: seq<string>)
      returns (accepted: seq<string>, refused: seq<string>)
    ensures forall d :: d in accepted <==> d in DIRECTIONS && IsAccepted(retained, d)
    ensures forall d :: d in refused <==> d in DIRECTIONS && IsRejected(retained, rejected, d)
    ensures NoRepeats(accepted, Self) && NoRepeats(refused, Self)
    ensures forall d :: !(d in accepted && d in refused)
  {
    var kept := SubchannelTokens(retained);
    var gone := SubchannelTokens(rejected);
    accepted, refused := [], [];
    for i := 0 to |DIRECTIONS|
      invariant forall d :: d in accepted <==> d in DIRECTIONS[..i] && IsAccepted(retained, d)
      invariant forall d :: d in refused <==> d in DIRECTIONS[..i] && IsRejected(retained, rejected, d)
    {
      var d := DIRECTIONS[i];
      assert DIRECTIONS[..i + 1] == DIRECTIONS[..i] + [d];
      if Touches(kept, d) {
        accepted := accepted + [d];
      } else if CoversAll(gone, d) {
        refused := refused + [d];
      }
    }
    ghost var found, lost := accepted, refused;
    forall d: string
      ensures d in Deduped(found, Self) <==> d in found
      ensures d in Deduped(lost, Self) <==> d in lost
    {
      MembersOfDeduped(found, d);
      MembersOfDeduped(lost, d);
    }
    MarkersOfDeduped(accepted, Self, {});
    MarkersOfDeduped(refused, Self, {});
    accepted := DedupeKeepOrder(accepted, Self);
    refused := DedupeKeepOrder(refused, Self);
  }

  // Skipping and invalidating channels

  datatype Report = Report(retained: seq<string>, rejected: seq<string>)

  function Without(items: seq<string>, gone: seq<string>): seq<string> {
    if items == [] then []
    else if items[0] in gone then Without(items[1..], gone)
    else [items[0]] + Without(items[1..], gone)
  }

  /** A skip_channel or invalidate_channel action on a material with a validation report. */
  function Excluded(report: Report, targets: seq<string>): Report {
    var targeted := TokensOf(targets);
    Report(Without(report.retained, targeted), Deduped(report.rejected + targeted, Self))
  }

  method ExcludeChannels(report: Report, targets: seq<string>) returns (after: Report)
    ensures after == Excluded(report, targets)
  {
    var targeted := SubchannelTokens(targets);
    var retained := [];
    for i := 0 to |report.retained|
      invariant retained + Without(report.retained[i..], targeted) == Without(report.retained, targeted)
    {
      assert report.retained[i..][1..] == report.retained[i + 1..];
      if report.retained[i] !in targeted {
        retained := retained + [report.retained[i]];
      }
    }
    var rejected := DedupeKeepOrder(report.rejected + targeted, Self);
    after := Report(retained, rejected);
  }

  function ExcludedAll(report: Report, actions: seq<seq<string>>): Report
    decreases |actions|
  {
    if actions == [] then report else ExcludedAll(Excluded(report, actions[0]), actions[1..])
  }

  /** Each of the four subchannels is retained or rejected, once, and nothing else is. */
  ghost predicate Partition(report: Report) {
    && Distinct(report.retained) && Distinct(report.rejected)
    && (forall t :: t in FOUR <==> t in report.retained || t in report.rejected)
    && (forall t :: !(t in report.retained && t in report.rejected))
  }

  lemma {:induction false} WithoutIs(items: seq<string>, gone: seq<string>)
    ensures forall t :: t in Without(items, gone) <==> t in items && t !in gone
    ensures Distinct(items) ==> Distinct(Without(items, gone))
  {
    if items != [] {
      WithoutIs(items[1..], gone);
      assert items == [items[0]] + items[1..];
      if Distinct(items) {
        assert Distinct(items[1..]);
        assert items[0] !in items[1..];
      }
    }
  }

  lemma DedupedIsDistinct(items: seq<string>)
    ensures Distinct(Deduped(items, Self))
  {
    MarkersOfDeduped(items, Self, {});
    var d := Deduped(items, Self);
    forall i, j | 0 <= i < j < |d|
      ensures d[i] != d[j]
    {
      assert Self(d[i]) != Self(d[j]);
    }
  }

  lemma ExclusionKeepsPartition(report: Report, targets: seq<string>)
    requires Partition(report)
    ensures Partition(Excluded(report, targets))
    ensures forall t :: t in Excluded(report, targets).retained <==> t in report.retained && t !in TokensOf(targets)
  {
    var targeted := TokensOf(targets);
    WithoutIs(report.retained, targeted);
    DedupedIsDistinct(report.rejected + targeted);
    forall t
      ensures t in Excluded(report, targets).rejected <==> t in report.rejected || t in targeted
      ensures t in targeted ==> t in FOUR
    {
      MembersOfDeduped(report.rejected + targeted, t);
      TokenOrigin(targets, t);
      if i :| 0 <= i < |targets| && t in Tokens(targets[i]) {
        TokensAreCanonical(targets[i], t);
      }
    }
  }

  /** A list of canonical subchannels stands for itself. */
  lemma CanonicalList(entries: seq<string>, t: string)
    requires forall e :: e in entries ==> e in FOUR
    ensures t in TokensOf(entries) <==> t in entries
  {
    TokenOrigin(entries, t);
    if i :| 0 <= i < |entries| && t in Tokens(entries[i]) {
      CanonicalTokens(entries[i]);
    }
    if t in entries {
      CanonicalTokens(t);
      var i :| 0 <= i < |entries| && entries[i] == t;
    }
  }

  lemma DirectionsSplit(report: Report, direction: string)
    requires Partition(report) && direction in DIRECTIONS
    ensures IsAccepted(report.retained, direction) <==> Touches(report.retained, direction)
    ensures IsRejected(report.retained, report.rejected, direction) <==> !IsAccepted(report.retained, direction)
  {
    var electron, hole := Subchannel(direction, "electron"), Subchannel(direction, "hole");
    CanonicalList(report.retained, electron);
    CanonicalList(report.retained, hole);
    CanonicalList(report.rejected, electron);
    CanonicalList(report.rejected, hole);
    assert electron in FOUR && hole in FOUR;
  }

  /** From a report whose retained and rejected subchannels partition the four, any sequence
      of actions with any target texts keeps the partition, keeps every direction either
      accepted or rejected, and never accepts a direction again. */
  lemma {:induction false} LedgerIsKept(report: Report, actions: seq<seq<string>>)
    requires Partition(report)
    ensures var after := ExcludedAll(report, actions);
      && Partition(after)
      && (forall t :: t in after.retained ==> t in report.retained)
      && (forall d :: d in DIRECTIONS ==>
            && (IsAccepted(after.retained, d) <==> !IsRejected(after.retained, after.rejected, d))
            && (IsAccepted(after.retained, d) ==> IsAccepted(report.retained, d)))
    decreases |actions|
  {
    if actions != [] {
      ExclusionKeepsPartition(report, actions[0]);
      LedgerIsKept(Excluded(report, actions[0]), actions[1..]);
    }
    var after := ExcludedAll(report, actions);
    forall d | d in DIRECTIONS
      ensures IsAccepted(after.retained, d) <==> !IsRejected(after.retained, after.rejected, d)
      ensures IsAccepted(after.retained, d) ==> IsAccepted(report.retained, d)
    {
      DirectionsSplit(after, d);
      DirectionsSplit(report, d);
    }
  }

  lemma NotCanonical(e: string, targeted: seq<string>, direction: string)
    requires Touches(Tokens(e), direction) && CoversAll(targeted, direction) && e !in targeted
    ensures e !in FOUR
  {
    if e in FOUR {
      CanonicalTokens(e);
    }
  }

  /** Without the partition: a direction whose subchannels were both excluded is accepted
      still, exactly when it is retained in a spelling that is not canonical. */
  lemma SpellingSurvives(report: Report, targets: seq<string>, direction: string)
    requires direction in DIRECTIONS && CoversAll(TokensOf(targets), direction)
    ensures IsAccepted(Excluded(report, targets).retained, direction)
       <==> exists e :: e in report.retained && e !in FOUR && Touches(Tokens(e), direction)
  {
    var targeted := TokensOf(targets);
    var after := Excluded(report, targets).retained;
    WithoutIs(report.retained, targeted);
    var electron, hole := Subchannel(direction, "electron"), Subchannel(direction, "hole");
    TokenOrigin(after, electron);
    TokenOrigin(after, hole);
    if IsAccepted(after, direction) {
      var i :| 0 <= i < |after| && Touches(Tokens(after[i]), direction);
      NotCanonical(after[i], targeted, direction);
    }
    if e :| e in report.retained && e !in FOUR && Touches(Tokens(e), direction) {
      if e in targeted {
        TokenOrigin(targets, e);
        var i :| 0 <= i < |targets| && e in Tokens(targets[i]);
        TokensAreCanonical(targets[i], e);
      }
      var i :| 0 <= i < |after| && after[i] == e;
    }
  }
}
