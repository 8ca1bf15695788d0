/** The target channels of skip and invalidate actions: the orchestrator's canonical form of
    the parameters (mobility_agent/agents/orchestrator.py:35-68), the legality check's reading
    of them (mobility_agent/runtime/agent_tools.py:791-816, 869) and the executor's
    (mobility_agent/graph/runtime_nodes.py:750-763). */
module Channels {
  import opened Json

  datatype Option<T> = None | Some(value: T)

  type Params = map<string, Json>

  /** str() of a value that is not a string; any rendering will do. */
  type Rendering = Json -> string

  // Python text and truth

  /** The characters str.strip removes. */
  predicate IsSpace(c: char) {
    var u := c as int;
    || 9 <= u <= 13 || 28 <= u <= 32 || u == 133 || u == 160 || u == 5760
    || 8192 <= u <= 8202 || u == 8232 || u == 8233 || u == 8239 || u == 8287 || u == 12288
  }

  function StripLeft(s: string): string {
    if s != "" && IsSpace(s[0]) then StripLeft(s[1..]) else s
  }

  function StripRight(s: string): string {
    if s != "" && IsSpace(s[|s| - 1]) then StripRight(s[..|s| - 1]) else s
  }

  function Strip(s: string): string {
    StripRight(StripLeft(s))
  }

  ghost predicate Trimmed(s: string) {
    s != "" ==> !IsSpace(s[0]) && !IsSpace(s[|s| - 1])
  }

  lemma {:induction false} StripLeftStarts(s: string)
    ensures StripLeft(s) != "" ==> !IsSpace(StripLeft(s)[0])
  {
    if s != "" && IsSpace(s[0]) {
      StripLeftStarts(s[1..]);
    }
  }

  lemma {:induction false} StripRightEnds(s: string)
    ensures var r := StripRight(s); r <= s && (r != "" ==> !IsSpace(r[|r| - 1]))
  {
    if s != "" && IsSpace(s[|s| - 1]) {
      StripRightEnds(s[..|s| - 1]);
    }
  }

  /** Stripping reaches a trimmed text, and a trimmed text is its own stripping. */
  lemma StripTrims(s: string)
    ensures Trimmed(Strip(s))
    ensures Trimmed(s) <==> Strip(s) == s
    ensures Strip(Strip(s)) == Strip(s)
  {
    StripLeftStarts(s);
    StripRightEnds(StripLeft(s));
  }

  /** Stripping takes away surrounding space and nothing else. */
  lemma StripKeepsMiddle(s: string) returns (i: nat, j: nat)
    ensures i <= j <= |s| && Strip(s) == s[i..j]
    ensures (forall k :: 0 <= k < i ==> IsSpace(s[k])) && (forall k :: j <= k < |s| ==> IsSpace(s[k]))
  {
    i := StripLeftDrops(s);
    var n := StripRightKeeps(s[i..]);
    j := i + n;
    assert s[i..][..n] == s[i..j];
    forall k | j <= k < |s|
      ensures IsSpace(s[k])
    {
      assert s[i..][k - i] == s[k];
    }
  }

  lemma {:induction false} StripLeftDrops(s: string) returns (i: nat)
    ensures i <= |s| && StripLeft(s) == s[i..] && forall k :: 0 <= k < i ==> IsSpace(s[k])
  {
    if s != "" && IsSpace(s[0]) {
      var n := StripLeftDrops(s[1..]);
      i := n + 1;
      forall k | 0 < k < i
        ensures IsSpace(s[k])
      {
        assert s[1..][k - 1] == s[k];
      }
    } else {
      i := 0;
    }
  }

  lemma {:induction false} StripRightKeeps(s: string) returns (n: nat)
    ensures n <= |s| && StripRight(s) == s[..n] && forall k :: n <= k < |s| ==> IsSpace(s[k])
  {
    if s != "" && IsSpace(s[|s| - 1]) {
      n := StripRightKeeps(s[..|s| - 1]);
      forall k | n <= k < |s| - 1
        ensures IsSpace(s[k])
      {
        assert s[..|s| - 1][k] == s[k];
      }
    } else {
      n := |s|;
    }
  }

  /** str.lower, for the letters of ASCII. */
  function LowerChar(c: char): char {
    if 'A' <= c <= 'Z' then ((c as int) + 32) as char else c
  }

  function Lower(s: string): string {
    seq(|s|, i requires 0 <= i < |s| => LowerChar(s[i]))
  }

  /** Each capital becomes the small letter at its place in the alphabet, and every other
      character stays. */
  lemma LowerMeans(s: string, i: nat)
    requires i < |s|
    ensures |Lower(s)| == |s|
    ensures 'A' <= s[i] <= 'Z' ==> Lower(s)[i] as int - 'a' as int == s[i] as int - 'A' as int
    ensures !('A' <= s[i] <= 'Z') ==> Lower(s)[i] == s[i]
  {
  }

  predicate Truthy(j: Json) {
    match j
    case Null => false
    case Bool(b) => b
    case Num(n) => n != 0.0
    case Str(s) => s != ""
    case List(items) => items != []
    case Dict(keys, _) => keys != []
  }

  function Show(render: Rendering, j: Json): string {
    if j.Str? then j.s else render(j)
  }

  /** dict.get */
  function Get(params: Params, key: string): Json {
    if key in params then params[key] else Null
  }

  // Reading the channels

  predicate IsChannelFamily(family: string) {
    family == "invalidate_channel" || family == "skip_channel"
  }

  const ALIASES := ["channels_to_invalidate", "channels_to_skip", "channels", "target_directions", "directions"]

  /** The aliases the orchestrator and the legality check look at: the family's own, then the
      shared ones. */
  function AliasesOf(family: string): seq<string> {
    [if family == "invalidate_channel" then "channels_to_invalidate" else "channels_to_skip",
     "channels", "target_directions", "directions"]
  }

  function FirstPresent(params: Params, keys: seq<string>): Json {
    if keys == [] then Null
    else if Get(params, keys[0]) != Null then Get(params, keys[0])
    else FirstPresent(params, keys[1..])
  }

  function SingleChannel(params: Params): Json {
    var single := if Truthy(Get(params, "channel")) then Get(params, "channel") else Get(params, "target_channel");
    if Truthy(single) then List([single]) else List([])
  }

  function RawChannels(params: Params, aliases: seq<string>): Json {
    if Get(params, "target_channels") != Null then Get(params, "target_channels")
    else if FirstPresent(params, aliases) != Null then FirstPresent(params, aliases)
    else SingleChannel(params)
  }

  /** list(raw or []) after a string was put in a list; None is Python's TypeError. */
  function Elements(raw: Json): Option<seq<Json>> {
    match raw
    case Str(_) => Some([raw])
    case List(items) => Some(items)
    case Dict(keys, _) => Some(Strings(keys))
    case _ => if Truthy(raw) then None else Some([])
  }

  function Strings(names: seq<string>): seq<Json> {
    if names == [] then [] else [Str(names[0])] + Strings(names[1..])
  }

  function Names(render: Rendering, items: seq<Json>): seq<string> {
    if items == [] then []
    else
      var name := Strip(Show(render, items[0]));
      if name == "" then Names(render, items[1..]) else [name] + Names(render, items[1..])
  }

  /** The channel names the parameters give when read with these aliases. */
  function ReadChannels(render: Rendering, params: Params, aliases: seq<string>): Option<seq<string>> {
    match Elements(RawChannels(params, aliases))
    case None => None
    case Some(items) => Some(Names(render, items))
  }

  function WithoutAliases(params: Params): Params {
    map k | k in params && k !in ALIASES :: params[k]
  }

  /** The parameters with these names as their target channels, when there are any. */
  function Named(params: Params, names: seq<string>): Params {
    if names != [] then params["target_channels" := List(Strings(names))] else params
  }

  /** The specification of _canonicalize_action_parameters; None when it raises. */
  function Canonical(render: Rendering, family: string, params: Params): Option<Params> {
    if !IsChannelFamily(family) then Some(params)
    else match ReadChannels(render, params, AliasesOf(family))
      case None => None
      case Some(names) =>
        Some(WithoutAliases(Named(params, names)))
  }

  method CanonicalizeActionParameters(render: Rendering, family: string, params: Params)
      returns (normalized: Option<Params>)
    ensures normalized == Canonical(render, family, params)
  {
    if !IsChannelFamily(family) {
      return Some(params);
    }
    var channels := ReadChannels(render, params, AliasesOf(family));
    if channels.None? {
      return None;
    }
    var result := params;
    if channels.value != [] {
      result := result["target_channels" := List(Strings(channels.value))];
    }
    result := PopAliases(result);
    normalized := Some(result);
  }

  method PopAliases(params: Params) returns (result: Params)
    ensures result == WithoutAliases(params)
  {
    result := params;
    for i := 0 to |ALIASES|
      invariant result == map k | k in params && k !in ALIASES[..i] :: params[k]
    {
      result := result - {ALIASES[i]};
      assert ALIASES[..i + 1] == ALIASES[..i] + [ALIASES[i]];
    }
    assert ALIASES[..|ALIASES|] == ALIASES;
  }

  /** What _canonicalize_channel_action_parameters leaves to the legality check, which then
      asks whether list(parameters.get("target_channels") or []) is empty. */
  function LegalityHasTargets(render: Rendering, family: string, params: Params): Option<bool> {
    match ReadChannels(render, params, AliasesOf(family))
    case None => None
    case Some(names) => Some(names != [] || Truthy(Get(params, "target_channels")))
  }

  /** _selected_target_channels reads all aliases, whatever the family. */
  function ExecutorTargets(render: Rendering, params: Params): Option<seq<string>> {
    ReadChannels(render, params, ALIASES)
  }

  // What is read

  /** The key is the first of the list that is given. */
  ghost predicate FirstGiven(params: Params, keys: seq<string>, i: nat) {
    i < |keys| && Get(params, keys[i]) != Null && forall j :: 0 <= j < i ==> Get(params, keys[j]) == Null
  }

  ghost predicate NoneGiven(params: Params, keys: seq<string>) {
    forall j :: 0 <= j < |keys| ==> Get(params, keys[j]) == Null
  }

  lemma {:induction false} FirstGivenIsPresent(params: Params, keys: seq<string>, i: nat)
    ensures FirstGiven(params, keys, i) ==> FirstPresent(params, keys) == Get(params, keys[i])
    ensures NoneGiven(params, keys) ==> FirstPresent(params, keys) == Null
  {
    if keys != [] && Get(params, keys[0]) == Null {
      FirstGivenIsPresent(params, keys[1..], if i > 0 then i - 1 else 0);
    }
  }

  lemma {:induction false} NamesConcat(render: Rendering, a: seq<Json>, b: seq<Json>)
    ensures Names(render, a + b) == Names(render, a) + Names(render, b)
  {
    if a == [] {
      assert a + b == b;
    } else {
      assert (a + b)[1..] == a[1..] + b;
      NamesConcat(render, a[1..], b);
    }
  }

  /** The names are those of the parts in order; one value gives its stripped text, if that is
      not blank. */
  lemma NamesAreTexts(render: Rendering, a: seq<Json>, b: seq<Json>, item: Json)
    ensures Names(render, a + [item] + b) == Names(render, a)
      + (var text := if item.Str? then item.s else render(item); if Strip(text) == "" then [] else [Strip(text)])
      + Names(render, b)
  {
    NamesConcat(render, a + [item], b);
    NamesConcat(render, a, [item]);
    OneText(render, item);
  }

  lemma OneText(render: Rendering, item: Json)
    ensures Names(render, [item])
      == var text := if item.Str? then item.s else render(item); if Strip(text) == "" then [] else [Strip(text)]
  {
    var none: seq<Json> := [];
    assert [item][1..] == none && Names(render, none) == [];
  }

  /** The target channels are read where they are given, otherwise the first alias that is,
      otherwise the single channel, by either of its names. A text is one entry, a list gives
      its items and a dictionary its keys; any other value that is not empty raises. */
  lemma ChannelsAreReadFrom(render: Rendering, params: Params, aliases: seq<string>, i: nat)
    ensures Get(params, "target_channels") != Null ==>
      ReadChannels(render, params, aliases) == Entries(render, Get(params, "target_channels"))
    ensures Get(params, "target_channels") == Null && FirstGiven(params, aliases, i) ==>
      ReadChannels(render, params, aliases) == Entries(render, Get(params, aliases[i]))
    ensures Get(params, "target_channels") == Null && NoneGiven(params, aliases) ==>
      var one, other := Get(params, "channel"), Get(params, "target_channel");
      ReadChannels(render, params, aliases)
      == Some(Names(render, if Truthy(one) then [one] else if Truthy(other) then [other] else []))
  {
    FirstGivenIsPresent(params, aliases, i);
    EntriesAreRead(render, RawChannels(params, aliases));
  }

  lemma EntriesAreRead(render: Rendering, raw: Json)
    ensures Entries(render, raw)
      == if Elements(raw).Some? then Some(Names(render, Elements(raw).value)) else None
  {
    if raw.Dict? {
      StringsAre(raw.keys);
    }
  }

  /** The entries of a value that is given. */
  ghost function Entries(render: Rendering, raw: Json): Option<seq<string>> {
    if raw.Str? then Some(Names(render, [raw]))
    else if raw.List? then Some(Names(render, raw.items))
    else if raw.Dict? then Some(Names(render, seq(|raw.keys|, i requires 0 <= i < |raw.keys| => Str(raw.keys[i]))))
    else if Truthy(raw) then None
    else Some([])
  }

  /** Canonical parameters hold the channels that were read under one key, no alias, and
      everything else as it was. */
  lemma CanonicalMeans(render: Rendering, family: string, params: Params)
    requires IsChannelFamily(family) && Canonical(render, family, params).Some?
    ensures var q, names := Canonical(render, family, params).value, ReadChannels(render, params, AliasesOf(family));
      && names.Some?
      && (forall alias :: alias in ALIASES ==> alias !in q)
      && (names.value != [] ==>
            Get(q, "target_channels")
            == List(seq(|names.value|, i requires 0 <= i < |names.value| => Str(names.value[i]))))
      && (names.value == [] ==> Get(q, "target_channels") == Get(params, "target_channels"))
      && (forall k :: k !in ALIASES && k != "target_channels" ==>
            (k in q <==> k in params) && Get(q, k) == Get(params, k))
  {
    StringsAre(ReadChannels(render, params, AliasesOf(family)).value);
  }

  lemma {:induction false} StringsAre(names: seq<string>)
    ensures Strings(names) == seq(|names|, i requires 0 <= i < |names| => Str(names[i]))
  {
    if names != [] {
      StringsAre(names[1..]);
    }
  }

  // Canonicalization settles

  lemma {:induction false} NamesAreSettled(render: Rendering, items: seq<Json>)
    ensures Names(render, Strings(Names(render, items))) == Names(render, items)
  {
    if items != [] {
      NamesAreSettled(render, items[1..]);
      StripTrims(Show(render, items[0]));
    }
  }

  lemma {:induction false} NothingPresent(params: Params, keys: seq<string>)
    requires forall k :: k in keys ==> k !in params
    ensures FirstPresent(params, keys) == Null
  {
    if keys != [] {
      NothingPresent(params, keys[1..]);
    }
  }

  lemma AliasesGone(render: Rendering, params: Params, family: string)
    ensures FirstPresent(WithoutAliases(params), AliasesOf(family)) == Null
    ensures FirstPresent(WithoutAliases(params), ALIASES) == Null
    ensures Get(WithoutAliases(params), "target_channels") == Get(params, "target_channels")
    ensures SingleChannel(WithoutAliases(params)) == SingleChannel(params)
  {
    NothingPresent(WithoutAliases(params), AliasesOf(family));
    NothingPresent(WithoutAliases(params), ALIASES);
  }

  /** The first application drops an alias that gives no name, and with it what hid a single
      channel from being read. */
  predicate HidesSingle(render: Rendering, family: string, params: Params) {
    && IsChannelFamily(family)
    && Get(params, "target_channels") == Null
    && FirstPresent(params, AliasesOf(family)) != Null
    && ReadChannels(render, params, AliasesOf(family)) == Some([])
    && Names(render, SingleChannel(params).items) != []
  }

  /** What the canonical form reads: its own channels when the first application found names
      or had target channels to look at, the single channel otherwise. */
  lemma ReadingCanonical(render: Rendering, family: string, params: Params)
    requires IsChannelFamily(family) && Canonical(render, family, params).Some?
    ensures var q := Canonical(render, family, params).value;
      var names := ReadChannels(render, params, AliasesOf(family)).value;
      && ReadChannels(render, q, AliasesOf(family)) == ExecutorTargets(render, q)
      && ExecutorTargets(render, q) ==
           Some(if HidesSingle(render, family, params) then Names(render, SingleChannel(params).items) else names)
      && Get(q, "target_channels") == if names != [] then List(Strings(names)) else Get(params, "target_channels")
  {
    var names := ReadChannels(render, params, AliasesOf(family)).value;
    var full := Named(params, names);
    AliasesGone(render, full, family);
    NamesAreSettled(render, Elements(RawChannels(params, AliasesOf(family))).value);
  }

  /** Canonicalization succeeds on its own output, and from the second application on it
      changes nothing. It already changes nothing on its first output exactly when no alias
      hid a single channel. */
  lemma CanonicalSettles(render: Rendering, family: string, params: Params)
    requires Canonical(render, family, params).Some?
    ensures var q := Canonical(render, family, params).value;
      var again := Canonical(render, family, q);
      && again.Some?
      && Canonical(render, family, again.value) == again
      && (again.value == q <==> !HidesSingle(render, family, params))
  {
    if IsChannelFamily(family) {
      var q := Canonical(render, family, params).value;
      ReadingCanonical(render, family, params);
      SecondForm(render, family, params, q);
      NothingHidden(render, family, params, q);
      SecondForm(render, family, q, Canonical(render, family, q).value);
    }
  }

  lemma AliasesStayGone(full: Params, q: Params, names: seq<string>)
    requires q == WithoutAliases(full)
    ensures WithoutAliases(Named(q, names)) == Named(q, names)
  {
  }

  /** The second canonical form is the first exactly unless a single channel was hidden. */
  lemma SecondForm(render: Rendering, family: string, params: Params, q: Params)
    requires IsChannelFamily(family) && Canonical(render, family, params) == Some(q)
    ensures Canonical(render, family, q).Some?
    ensures Canonical(render, family, q).value == q <==> !HidesSingle(render, family, params)
  {
    ReadingCanonical(render, family, params);
    var first, names := ReadChannels(render, params, AliasesOf(family)).value,
      ReadChannels(render, q, AliasesOf(family)).value;
    AliasesStayGone(Named(params, first), q, names);
    assert Canonical(render, family, q) == Some(Named(q, names));
    NamedIsSame(q, names);
  }

  lemma NamedIsSame(q: Params, names: seq<string>)
    ensures Named(q, names) == q <==> names == [] || Get(q, "target_channels") == List(Strings(names))
  {
    if Get(q, "target_channels") == List(Strings(names)) {
      assert q["target_channels" := List(Strings(names))] == q;
    }
    assert Get(q["target_channels" := List(Strings(names))], "target_channels") == List(Strings(names));
  }

  /** A canonical form hides no single channel: its aliases are gone. */
  lemma NothingHidden(render: Rendering, family: string, params: Params, q: Params)
    requires IsChannelFamily(family) && Canonical(render, family, params) == Some(q)
    ensures !HidesSingle(render, family, q)
  {
    var names := ReadChannels(render, params, AliasesOf(family)).value;
    var full := Named(params, names);
    AliasesGone(render, full, family);
  }

  lemma StringsOfNames(names: seq<string>)
    ensures names != [] ==> Strings(names) != []
  {
  }

  lemma CanonicalIsNotIdempotent(render: Rendering)
    ensures var params: Params := map["channels" := List([]), "channel" := Str("x")];
      var q := Canonical(render, "skip_channel", params);
      q.Some? && Canonical(render, "skip_channel", q.value) != q
  {
    var params: Params := map["channels" := List([]), "channel" := Str("x")];
    assert FirstPresent(params, AliasesOf("skip_channel")) == List([]);
    assert SingleChannel(params) == List([Str("x")]);
    OneName(render, "x");
    CanonicalSettles(render, "skip_channel", params);
  }

  // The two readings

  /** The target channels look given but none of them has a name. */
  predicate BlankTargets(render: Rendering, params: Params) {
    && Truthy(Get(params, "target_channels"))
    && Elements(Get(params, "target_channels")).Some?
    && Names(render, Elements(Get(params, "target_channels")).value) == []
  }

  /** On canonical parameters the executor reads the channels the legality check reads, and
      the check's verdict that there are some is right exactly when the given target channels
      are not all blank: then the check lets through what the executor finds empty. */
  lemma ReadingsCoincide(render: Rendering, family: string, params: Params)
    requires IsChannelFamily(family) && Canonical(render, family, params).Some?
    ensures var q := Canonical(render, family, params).value;
      && ExecutorTargets(render, q).Some?
      && ReadChannels(render, q, AliasesOf(family)) == ExecutorTargets(render, q)
      && (LegalityHasTargets(render, family, q) == Some(ExecutorTargets(render, q).value != [])
          <==> !BlankTargets(render, params))
  {
    var q := Canonical(render, family, params).value;
    ReadingCanonical(render, family, params);
    var names := ReadChannels(render, params, AliasesOf(family)).value;
    if Get(params, "target_channels") != Null {
      assert !HidesSingle(render, family, params);
    } else {
      StringsOfNames(names);
    }
  }

  /** A list of one empty name passes the check and leaves the executor nothing to do. */
  lemma BlankTargetsPass(render: Rendering, family: string)
    requires IsChannelFamily(family)
    ensures var params: Params := map["target_channels" := List([Str("")])];
      var q := Canonical(render, family, params).value;
      && Canonical(render, family, params).Some?
      && LegalityHasTargets(render, family, q) == Some(true)
      && ExecutorTargets(render, q) == Some([])
  {
    var params: Params := map["target_channels" := List([Str("")])];
    StripTrims("");
    assert [Str("")][1..] == [];
    assert Names(render, [Str("")]) == [];
    ReadingsCoincide(render, family, params);
    assert Canonical(render, family, params).value == params;
  }

  lemma OneName(render: Rendering, name: string)
    requires name != "" && Trimmed(name)
    ensures Names(render, [Str(name)]) == [name]
  {
    StripTrims(name);
    assert [Str(name)][1..] == [];
  }

  /** On raw parameters the two read different channels. */
  lemma RawReadingsDiffer(render: Rendering)
    ensures var params: Params := map["channels_to_skip" := Str("x"), "channels" := Str("y")];
      && ReadChannels(render, params, AliasesOf("invalidate_channel")) == Some(["y"])
      && ExecutorTargets(render, params) == Some(["x"])
  {
    var params: Params := map["channels_to_skip" := Str("x"), "channels" := Str("y")];
    var keys := AliasesOf("invalidate_channel");
    assert Get(params, keys[0]) == Null && keys[1..][0] == "channels";
    assert FirstPresent(params, keys) == Str("y");
    assert Get(params, ALIASES[0]) == Null && ALIASES[1..][0] == "channels_to_skip";
    assert FirstPresent(params, ALIASES) == Str("x");
    OneName(render, "x");
    OneName(render, "y");
    assert RawChannels(params, keys) == Str("y") && RawChannels(params, ALIASES) == Str("x");
  }
}
