/** Compaction of a payload before it is shown to a model
    (mobility_agent/agents/base.py:298-338, 439-463), for JSON values. How a value too deep
    to be shown is serialized is a parameter. */
module Compaction {
  import opened Json

  const STRING_CHARS := 4000
  const DICT_ITEMS := 20
  const LIST_ITEMS := 6
  const DEPTH := 5
  const PREVIEW_CHARS := 800
  const HEAD := 2
  const TAIL := LIST_ITEMS - HEAD
  const EXAMPLES := 8

  type Dump = Json -> string

  // Text

  function Decimal(n: nat): string {
    if n < 10 then [('0' as int + n) as char] else Decimal(n / 10) + [('0' as int + n % 10) as char]
  }

  function Suffix(remaining: nat): string {
    "\n...[truncated " + Decimal(remaining) + " chars]"
  }

  /** _truncate_text */
  function Truncated(s: string, limit: nat): string {
    if |s| <= limit then s else s[..limit] + Suffix(|s| - limit)
  }

  // Compaction

  function Number(n: nat): Json {
    Num(n as real)
  }

  /** A dictionary built by assigning the entries in order. */
  function Assigned(d: Json, key: string, value: Json): Json
    requires d.Dict?
  {
    Dict(if key in d.keys then d.keys else d.keys + [key], d.fields[key := value])
  }

  function Names(keys: seq<string>): Json {
    List(seq(|keys|, i requires 0 <= i < |keys| => Str(keys[i])))
  }

  function Kind(j: Json): string {
    if j.List? then "list" else "dict"
  }

  function Preview(dump: Dump, j: Json): Json {
    Dict(["_summary", "preview"],
         map["_summary" := Dict(["kind", "serialized_chars"],
           map["kind" := Str(Kind(j)), "serialized_chars" := Number(|dump(j)|)]),
             "preview" := Str(Truncated(dump(j), PREVIEW_CHARS))])
  }

  function ListSummary(total: nat): Json {
    Dict(["kind", "total_items", "kept_head", "kept_tail"],
         map["kind" := Str("list"), "total_items" := Number(total), "kept_head" := Number(HEAD),
           "kept_tail" := Number(TAIL)])
  }

  function DictSummary(keys: seq<string>): Json
    requires |keys| > DICT_ITEMS
  {
    var last := if |keys| < DICT_ITEMS + EXAMPLES then |keys| else DICT_ITEMS + EXAMPLES;
    Dict(["kind", "total_keys", "kept_keys", "omitted_key_examples"],
         map["kind" := Str("dict"), "total_keys" := Number(|keys|), "kept_keys" := Names(keys[..DICT_ITEMS]),
             "omitted_key_examples" := Names(keys[DICT_ITEMS..last])])
  }

  /** _compact_for_llm */
  function Compact(dump: Dump, j: Json, depth: nat): Json
    requires WellFormed(j)
    decreases if depth < DEPTH then DEPTH - depth else 0, 2
  {
    match j
    case Str(s) => Str(Truncated(s, STRING_CHARS))
    case List(_) => if depth >= DEPTH then Preview(dump, j) else CompactList(dump, j, depth)
    case Dict(_, _) => if depth >= DEPTH then Preview(dump, j) else CompactDict(dump, j, depth)
    case _ => j
  }

  function CompactItems(dump: Dump, items: seq<Json>, depth: nat): (r: seq<Json>)
    requires forall x :: x in items ==> WellFormed(x)
    requires depth < DEPTH
    ensures |r| == |items|
    decreases DEPTH - depth, 0
  {
    seq(|items|, i requires 0 <= i < |items| => Compact(dump, items[i], depth + 1))
  }

  /** _compact_list */
  function CompactList(dump: Dump, j: Json, depth: nat): Json
    requires j.List? && WellFormed(j) && depth < DEPTH
    decreases DEPTH - depth, 1
  {
    if |j.items| <= LIST_ITEMS then List(CompactItems(dump, j.items, depth))
    else
      Excerpt(ListSummary(|j.items|),
              List(CompactItems(dump, j.items[..HEAD], depth)),
              List(CompactItems(dump, j.items[|j.items| - TAIL..], depth)))
  }

  function Excerpt(summary: Json, head: Json, tail: Json): Json {
    Dict(["_summary", "head", "tail"], map["_summary" := summary, "head" := head, "tail" := tail])
  }

  function CompactFields(dump: Dump, j: Json, keys: seq<string>, depth: nat): (r: Json)
    requires j.Dict? && WellFormed(j) && depth < DEPTH
    requires forall k :: k in keys ==> k in j.fields
    ensures r.Dict? && r.keys == keys && forall k :: k in r.fields <==> k in keys
    decreases DEPTH - depth, 0
  {
    Dict(keys, map k | k in keys :: Compact(dump, j.fields[k], depth + 1))
  }

  /** _compact_dict */
  function CompactDict(dump: Dump, j: Json, depth: nat): Json
    requires j.Dict? && WellFormed(j) && depth < DEPTH
    decreases DEPTH - depth, 1
  {
    if |j.keys| <= DICT_ITEMS then CompactFields(dump, j, j.keys, depth)
    else Assigned(CompactFields(dump, j, j.keys[..DICT_ITEMS], depth), "_summary", DictSummary(j.keys))
  }

  // What is kept

  /** The number a text of digits spells. */
  ghost function Spelled(s: string): int {
    if s == "" then 0 else 10 * Spelled(s[..|s| - 1]) + (s[|s| - 1] as int - '0' as int)
  }

  lemma {:induction false} DecimalSpells(n: nat)
    ensures Spelled(Decimal(n)) == n
  {
    var s := Decimal(n);
    if n >= 10 {
      DecimalSpells(n / 10);
      assert s[..|s| - 1] == Decimal(n / 10);
    } else {
      assert s[..0] == "";
    }
  }

  /** A text that is too long keeps its beginning, and says how many characters it lost. */
  lemma LongTextsAreCut(dump: Dump, s: string, depth: nat) returns (digits: string)
    requires |s| > 4000
    ensures Compact(dump, Str(s), depth) == Str(s[..4000] + "\n...[truncated " + digits + " chars]")
    ensures Spelled(digits) == |s| - 4000
  {
    digits := Decimal(|s| - 4000);
    DecimalSpells(|s| - 4000);
    var mark := "\n...[truncated ";
    assert s[..4000] + (mark + digits + " chars]") == s[..4000] + mark + digits + " chars]";
  }

  /** A list above the depth keeps its items, and a long one the first two and the last four
      with the number of all. */
  lemma ListsKeep(dump: Dump, j: Json, depth: nat)
    requires j.List? && WellFormed(j) && depth < 5
    ensures var r, n := Compact(dump, j, depth), |j.items|;
      if n <= 6 then
        r.List? && |r.items| == n && forall i :: 0 <= i < n ==> r.items[i] == Compact(dump, j.items[i], depth + 1)
      else
        && r.Dict? && r.keys == ["_summary", "head", "tail"]
        && r.fields.Keys == {"_summary", "head", "tail"}
        && r.fields["head"]
           == List([Compact(dump, j.items[0], depth + 1), Compact(dump, j.items[1], depth + 1)])
        && r.fields["tail"]
           == List([Compact(dump, j.items[n - 4], depth + 1), Compact(dump, j.items[n - 3], depth + 1),
                    Compact(dump, j.items[n - 2], depth + 1), Compact(dump, j.items[n - 1], depth + 1)])
        && r.fields["_summary"].Dict? && "total_items" in r.fields["_summary"].fields
        && r.fields["_summary"].fields["total_items"] == Num(n as real)
  {
    if |j.items| > 6 {
      var head, tail := j.items[..HEAD], j.items[|j.items| - TAIL..];
      assert CompactItems(dump, head, depth) == [Compact(dump, head[0], depth + 1), Compact(dump, head[1], depth + 1)];
      assert CompactItems(dump, tail, depth)
        == [Compact(dump, tail[0], depth + 1), Compact(dump, tail[1], depth + 1),
            Compact(dump, tail[2], depth + 1), Compact(dump, tail[3], depth + 1)];
    } else {
      assert Compact(dump, j, depth) == CompactList(dump, j, depth);
      ItemsKeep(dump, j.items, depth);
    }
  }

  lemma ItemsKeep(dump: Dump, items: seq<Json>, depth: nat)
    requires (forall x :: x in items ==> WellFormed(x)) && depth < DEPTH
    ensures forall i :: 0 <= i < |items| ==> CompactItems(dump, items, depth)[i] == Compact(dump, items[i], depth + 1)
  {
  }

  /** A dictionary above the depth keeps its entries, and a long one those of its first twenty
      keys beside a summary that counts all and names the next eight. */
  lemma DictionariesKeep(dump: Dump, j: Json, depth: nat, i: nat)
    requires j.Dict? && WellFormed(j) && depth < 5 && i < |j.keys|
    ensures var r, n := Compact(dump, j, depth), |j.keys|;
      && r.Dict?
      && (i < 20 && (n > 20 ==> j.keys[i] != "_summary") ==>
            j.keys[i] in r.fields && r.fields[j.keys[i]] == Compact(dump, j.fields[j.keys[i]], depth + 1))
      && (n <= 20 ==> r.keys == j.keys)
      && (n > 20 ==> "_summary" in r.fields && Summarizes(r.fields["_summary"], j.keys))
  {
    if |j.keys| > 20 {
      assert Compact(dump, j, depth)
        == Assigned(CompactFields(dump, j, j.keys[..20], depth), "_summary", DictSummary(j.keys));
      assert i < 20 ==> j.keys[..20][i] == j.keys[i];
      SummaryOfKeys(j.keys);
    } else {
      assert Compact(dump, j, depth) == CompactFields(dump, j, j.keys, depth);
    }
  }

  /** The summary counts the keys, and names the first twenty and the next eight. */
  ghost predicate Summarizes(summary: Json, keys: seq<string>)
    requires |keys| > 20
  {
    && summary.Dict?
    && summary.fields == map[
         "kind" := Str("dict"), "total_keys" := Num(|keys| as real), "kept_keys" := Names(keys[..20]),
         "omitted_key_examples" := Names(keys[20..if |keys| < 28 then |keys| else 28])]
  }

  lemma SummaryOfKeys(keys: seq<string>)
    requires |keys| > 20
    ensures Summarizes(DictSummary(keys), keys)
  {
  }

  /** A container at the depth is shown as the beginning of its text. */
  lemma DeepContainersPreview(dump: Dump, j: Json, depth: nat)
    requires (j.List? || j.Dict?) && WellFormed(j) && depth >= 5
    ensures var r := Compact(dump, j, depth);
      && r.Dict? && r.fields.Keys == {"_summary", "preview"}
      && r.fields["preview"] == Str(Truncated(dump(j), 800))
      && r.fields["_summary"].Dict?
      && r.fields["_summary"].fields == map[
           "kind" := Str(if j.List? then "list" else "dict"), "serialized_chars" := Num(|dump(j)| as real)]
  {
  }

  // Measures

  function Arity(j: Json): nat {
    match j
    case List(items) => |items|
    case Dict(keys, _) => |keys|
    case _ => 0
  }

  function Child(j: Json, i: nat): (c: Json)
    requires WellFormed(j) && i < Arity(j)
    ensures c < j && WellFormed(c)
  {
    match j
    case List(items) => items[i]
    case Dict(keys, fields) => fields[keys[i]]
  }

  ghost predicate AtMostHigh(j: Json, height: nat)
    requires WellFormed(j)
  {
    height > 0 && forall i :: 0 <= i < Arity(j) ==> AtMostHigh(Child(j, i), height - 1)
  }

  function Nodes(j: Json): nat
    requires WellFormed(j)
    decreases j, Arity(j) + 1
  {
    1 + NodesBefore(j, Arity(j))
  }

  /** The nodes under the first n children. */
  function NodesBefore(j: Json, n: nat): nat
    requires WellFormed(j) && n <= Arity(j)
    decreases j, n
  {
    if n == 0 then 0 else NodesBefore(j, n - 1) + Nodes(Child(j, n - 1))
  }

  /** Within the limit, or cut within it and marked. */
  ghost predicate Short(s: string) {
    |s| <= STRING_CHARS || exists kept, n :: IsCut(s, kept, n)
  }

  ghost predicate IsCut(s: string, kept: nat, n: nat) {
    kept <= STRING_CHARS && kept <= |s| && s == s[..kept] + Suffix(n)
  }

  /** Every text is short, or one of the names. */
  ghost predicate TextsShort(j: Json, names: set<string>)
    requires WellFormed(j)
  {
    (j.Str? ==> Short(j.s) || j.s in names) && forall i :: 0 <= i < Arity(j) ==> TextsShort(Child(j, i), names)
  }

  ghost predicate KeysIn(j: Json, names: set<string>)
    requires WellFormed(j)
  {
    (j.Dict? ==> forall k :: k in j.keys ==> k in names) && forall i :: 0 <= i < Arity(j) ==> KeysIn(Child(j, i), names)
  }

  // The bounds

  /** A level of nesting becomes at most two. */
  function HeightLimit(depth: nat): nat {
    if depth >= DEPTH then 3 else 3 + 2 * (DEPTH - depth)
  }

  /** Per level: twenty entries, and a summary with the names of twenty-eight at most. */
  function SizeLimit(depth: nat): nat
    decreases if depth < DEPTH then DEPTH - depth else 0
  {
    if depth >= DEPTH then 5 else 34 + 20 * SizeLimit(depth + 1)
  }

  ghost predicate Bounded(j: Json, height: nat, size: nat, names: set<string>) {
    WellFormed(j) && AtMostHigh(j, height) && Nodes(j) <= size && TextsShort(j, names)
  }

  lemma {:induction false} HigherIsWeaker(j: Json, height: nat, more: nat)
    requires WellFormed(j) && AtMostHigh(j, height) && height <= more
    ensures AtMostHigh(j, more)
    decreases j
  {
    forall i | 0 <= i < Arity(j)
      ensures AtMostHigh(Child(j, i), more - 1)
    {
      HigherIsWeaker(Child(j, i), height - 1, more - 1);
    }
  }

  lemma Looser(j: Json, height: nat, more: nat, size: nat, larger: nat, names: set<string>)
    requires Bounded(j, height, size, names) && height <= more && size <= larger
    ensures Bounded(j, more, larger, names)
  {
    HigherIsWeaker(j, height, more);
  }

  function Times(n: nat, each: nat): nat {
    if n == 0 then 0 else Times(n - 1, each) + each
  }

  lemma {:induction false} TimesGrows(n: nat, more: nat, each: nat)
    requires n <= more
    ensures Times(n, each) <= Times(more, each) == more * each
  {
    if more > 0 {
      TimesGrows(if n < more then n else n - 1, more - 1, each);
      assert (more - 1) * each + each == more * each;
    }
  }

  lemma {:induction false} NodesAdd(j: Json, n: nat, each: nat)
    requires WellFormed(j) && n <= Arity(j)
    requires forall i :: 0 <= i < n ==> Nodes(Child(j, i)) <= each
    ensures NodesBefore(j, n) <= Times(n, each)
    decreases n
  {
    if n > 0 {
      NodesAdd(j, n - 1, each);
    }
  }

  /** Containers of bounded children. */
  lemma ContainerBounded(j: Json, height: nat, each: nat, names: set<string>)
    requires WellFormed(j) && !j.Str?
    requires forall i :: 0 <= i < Arity(j) ==> Bounded(Child(j, i), height, each, names)
    ensures Bounded(j, height + 1, 1 + Times(Arity(j), each), names)
  {
    NodesAdd(j, Arity(j), each);
  }

  lemma LeafBounded(j: Json, names: set<string>)
    requires Arity(j) == 0
    requires j.Str? ==> Short(j.s) || j.s in names
    requires !j.Dict?
    ensures Bounded(j, 1, 1, names)
  {
  }

  lemma NamesBounded(keys: seq<string>, names: set<string>)
    requires forall k :: k in keys ==> k in names
    ensures Bounded(Names(keys), 2, 1 + |keys|, names)
  {
    var j := Names(keys);
    forall i | 0 <= i < Arity(j)
      ensures Bounded(Child(j, i), 1, 1, names)
    {
      LeafBounded(Child(j, i), names);
    }
    TimesGrows(|keys|, |keys|, 1);
    ContainerBounded(j, 1, 1, names);
  }

  lemma TruncatedIsShort(s: string, limit: nat)
    requires limit <= STRING_CHARS
    ensures Short(Truncated(s, limit))
  {
    if |s| > limit {
      var t := Truncated(s, limit);
      assert t[..limit] == s[..limit];
      assert IsCut(t, limit, |s| - limit);
    }
  }

  /** The small dictionaries: two to four entries that are leaves or lists of names. */
  lemma PreviewBounded(dump: Dump, j: Json, names: set<string>)
    requires j.List? || j.Dict?
    ensures Bounded(Preview(dump, j), 3, 5, names)
  {
    var p := Preview(dump, j);
    var summary := Child(p, 0);
    LeafBounded(Child(summary, 0), names);
    LeafBounded(Child(summary, 1), names);
    ContainerBounded(summary, 1, 1, names);
    TimesGrows(2, 2, 1);
    TruncatedIsShort(dump(j), PREVIEW_CHARS);
    LeafBounded(Child(p, 1), names);
    HigherIsWeaker(Child(p, 1), 1, 2);
    PairNodes(p);
  }

  lemma PairNodes(j: Json)
    requires WellFormed(j) && Arity(j) == 2
    ensures Nodes(j) == 1 + Nodes(Child(j, 0)) + Nodes(Child(j, 1))
  {
    assert NodesBefore(j, 1) == NodesBefore(j, 0) + Nodes(Child(j, 0));
  }

  lemma TripleNodes(j: Json)
    requires WellFormed(j) && Arity(j) == 3
    ensures Nodes(j) == 1 + Nodes(Child(j, 0)) + Nodes(Child(j, 1)) + Nodes(Child(j, 2))
  {
    assert NodesBefore(j, 1) == NodesBefore(j, 0) + Nodes(Child(j, 0));
    assert NodesBefore(j, 2) == NodesBefore(j, 1) + Nodes(Child(j, 1));
  }

  lemma ListSummaryBounded(total: nat, names: set<string>)
    ensures Bounded(ListSummary(total), 2, 5, names)
  {
    var j := ListSummary(total);
    LeafBounded(Child(j, 0), names);
    LeafBounded(Child(j, 1), names);
    LeafBounded(Child(j, 2), names);
    LeafBounded(Child(j, 3), names);
    ContainerBounded(j, 1, 1, names);
    TimesGrows(4, 4, 1);
  }

  lemma DictSummaryBounded(keys: seq<string>, names: set<string>)
    requires |keys| > DICT_ITEMS && forall k :: k in keys ==> k in names
    ensures Bounded(DictSummary(keys), 3, 33, names)
  {
    var j := DictSummary(keys);
    var last := if |keys| < DICT_ITEMS + EXAMPLES then |keys| else DICT_ITEMS + EXAMPLES;
    SummaryChildren(keys, last);
    ShallowLeaf(Child(j, 0), names);
    ShallowLeaf(Child(j, 1), names);
    NamesBounded(keys[..DICT_ITEMS], names);
    NamesBounded(keys[DICT_ITEMS..last], names);
    FourBounded(j, names);
  }

  lemma SummaryChildren(keys: seq<string>, last: nat)
    requires |keys| > DICT_ITEMS
    requires last == if |keys| < DICT_ITEMS + EXAMPLES then |keys| else DICT_ITEMS + EXAMPLES
    ensures var j := DictSummary(keys);
      && j.Dict? && WellFormed(j) && Arity(j) == 4
      && Child(j, 0) == Str("dict") && Child(j, 1) == Number(|keys|)
      && Child(j, 2) == Names(keys[..DICT_ITEMS]) && Child(j, 3) == Names(keys[DICT_ITEMS..last])
  {
  }

  /** Two leaves and two lists of names. */
  lemma FourBounded(j: Json, names: set<string>)
    requires j.Dict? && WellFormed(j) && Arity(j) == 4
    requires Bounded(Child(j, 0), 2, 1, names) && Bounded(Child(j, 1), 2, 1, names)
    requires Bounded(Child(j, 2), 2, 1 + DICT_ITEMS, names) && Bounded(Child(j, 3), 2, 1 + EXAMPLES, names)
    ensures Bounded(j, 3, 33, names)
  {
    FourNodes(j);
    forall i | 0 <= i < Arity(j)
      ensures AtMostHigh(Child(j, i), 2) && TextsShort(Child(j, i), names)
    {
      assert i == 0 || i == 1 || i == 2 || i == 3;
    }
  }

  lemma ShallowLeaf(j: Json, names: set<string>)
    requires Arity(j) == 0 && !j.Dict? && (j.Str? ==> Short(j.s) || j.s in names)
    ensures Bounded(j, 2, 1, names)
  {
    LeafBounded(j, names);
    HigherIsWeaker(j, 1, 2);
  }

  lemma FourNodes(j: Json)
    requires WellFormed(j) && Arity(j) == 4
    ensures Nodes(j) == 1 + Nodes(Child(j, 0)) + Nodes(Child(j, 1)) + Nodes(Child(j, 2)) + Nodes(Child(j, 3))
  {
    assert NodesBefore(j, 1) == NodesBefore(j, 0) + Nodes(Child(j, 0));
    assert NodesBefore(j, 2) == NodesBefore(j, 1) + Nodes(Child(j, 1));
    assert NodesBefore(j, 3) == NodesBefore(j, 2) + Nodes(Child(j, 2));
  }

  /** What the entries of a dictionary may take, one of them its summary. */
  ghost function Allowance(keys: seq<string>, each: nat): nat {
    if keys == [] then 0
    else Allowance(keys[..|keys| - 1], each) + if keys[|keys| - 1] == "_summary" then 33 else each
  }

  lemma {:induction false} NodesAllowed(j: Json, n: nat, each: nat)
    requires j.Dict? && WellFormed(j) && n <= Arity(j)
    requires forall i :: 0 <= i < n ==> Nodes(Child(j, i)) <= if j.keys[i] == "_summary" then 33 else each
    ensures NodesBefore(j, n) <= Allowance(j.keys[..n], each)
    decreases n
  {
    if n > 0 {
      NodesAllowed(j, n - 1, each);
      assert j.keys[..n][..n - 1] == j.keys[..n - 1];
    }
  }

  lemma {:induction false} AllowanceIs(keys: seq<string>, each: nat)
    requires Distinct(keys)
    ensures Allowance(keys, each) <= Times(|keys|, each) + 33
    ensures "_summary" !in keys ==> Allowance(keys, each) <= Times(|keys|, each)
  {
    if keys != [] {
      var rest, last := keys[..|keys| - 1], keys[|keys| - 1];
      AllowanceIs(rest, each);
      assert last !in rest;
    }
  }

  // Compaction is bounded

  ghost predicate ItemsWithin(dump: Dump, items: seq<Json>, depth: nat, names: set<string>)
    requires forall x :: x in items ==> WellFormed(x)
  {
    forall i :: 0 <= i < |items| ==>
      Bounded(Compact(dump, items[i], depth + 1), HeightLimit(depth + 1), SizeLimit(depth + 1), names)
  }

  lemma ItemsBounded(dump: Dump, items: seq<Json>, depth: nat, names: set<string>)
    requires (forall x :: x in items ==> WellFormed(x)) && depth < DEPTH
    requires ItemsWithin(dump, items, depth, names)
    ensures Bounded(
      List(CompactItems(dump, items, depth)), HeightLimit(depth + 1) + 1,
        1 + Times(|items|, SizeLimit(depth + 1)), names)
  {
    var j := List(CompactItems(dump, items, depth));
    ContainerBounded(j, HeightLimit(depth + 1), SizeLimit(depth + 1), names);
  }

  lemma PartWithin(dump: Dump, items: seq<Json>, from: nat, to: nat, depth: nat, names: set<string>)
    requires (forall x :: x in items ==> WellFormed(x)) && from <= to <= |items|
    requires ItemsWithin(dump, items, depth, names)
    ensures (forall x :: x in items[from..to] ==> WellFormed(x)) && ItemsWithin(dump, items[from..to], depth, names)
  {
  }

  lemma ExcerptChildren(summary: Json, head: Json, tail: Json)
    requires WellFormed(summary) && WellFormed(head) && WellFormed(tail)
    ensures var r := Excerpt(summary, head, tail);
      WellFormed(r) && Arity(r) == 3 && Child(r, 0) == summary && Child(r, 1) == head && Child(r, 2) == tail
  {
  }

  lemma LongListIs(dump: Dump, j: Json, depth: nat)
    requires j.List? && WellFormed(j) && depth < DEPTH && |j.items| > LIST_ITEMS
    ensures CompactList(dump, j, depth)
      == Excerpt(ListSummary(|j.items|), CompactPart(dump, j.items, 0, HEAD, depth),
                 CompactPart(dump, j.items, |j.items| - TAIL, |j.items|, depth))
  {
    assert j.items[..HEAD] == j.items[0..HEAD] && j.items[|j.items| - TAIL..] == j.items[|j.items| - TAIL..|j.items|];
  }

  ghost function CompactPart(dump: Dump, items: seq<Json>, from: nat, to: nat, depth: nat): Json
    requires (forall x :: x in items ==> WellFormed(x)) && depth < DEPTH && from <= to <= |items|
  {
    List(CompactItems(dump, items[from..to], depth))
  }

  lemma PartBounded(dump: Dump, items: seq<Json>, from: nat, to: nat, depth: nat, names: set<string>)
    requires (forall x :: x in items ==> WellFormed(x)) && depth < DEPTH && from <= to <= |items|
    requires ItemsWithin(dump, items, depth, names)
    ensures Bounded(CompactPart(dump, items, from, to, depth), HeightLimit(depth + 1) + 1,
                    1 + Times(to - from, SizeLimit(depth + 1)), names)
  {
    PartWithin(dump, items, from, to, depth, names);
    ItemsBounded(dump, items[from..to], depth, names);
  }

  lemma LongListBounded(dump: Dump, j: Json, depth: nat, names: set<string>)
    requires j.List? && WellFormed(j) && depth < DEPTH && |j.items| > LIST_ITEMS
    requires ItemsWithin(dump, j.items, depth, names)
    ensures Bounded(CompactList(dump, j, depth), HeightLimit(depth), SizeLimit(depth), names)
  {
    var n := |j.items|;
    LongListIs(dump, j, depth);
    PartBounded(dump, j.items, 0, HEAD, depth, names);
    PartBounded(dump, j.items, n - TAIL, n, depth, names);
    ListSummaryBounded(n, names);
    PartsBounded(CompactList(dump, j, depth), ListSummary(n), CompactPart(dump, j.items, 0, HEAD, depth),
                 CompactPart(dump, j.items, n - TAIL, n, depth), depth, names);
  }

  lemma PartsBounded(r: Json, summary: Json, head: Json, tail: Json, depth: nat, names: set<string>)
    requires r == Excerpt(summary, head, tail) && depth < DEPTH && Bounded(summary, 2, 5, names)
    requires Bounded(head, HeightLimit(depth + 1) + 1, 1 + Times(HEAD, SizeLimit(depth + 1)), names)
    requires Bounded(tail, HeightLimit(depth + 1) + 1, 1 + Times(TAIL, SizeLimit(depth + 1)), names)
    ensures Bounded(r, HeightLimit(depth), SizeLimit(depth), names)
  {
    var height, each := HeightLimit(depth + 1) + 1, SizeLimit(depth + 1);
    HigherIsWeaker(summary, 2, height);
    TimesGrows(HEAD, HEAD, each);
    TimesGrows(TAIL, TAIL, each);
    ExcerptBounded(summary, head, tail, height, 1 + Times(HEAD, each), 1 + Times(TAIL, each), SizeLimit(depth), names);
  }

  lemma ExcerptBounded(summary: Json, head: Json, tail: Json, height: nat, first: nat, last: nat, size: nat,
      names: set<string>)
    requires Bounded(summary, height, 5, names) && Bounded(head, height, first, names)
      && Bounded(tail, height, last, names)
    requires 6 + first + last <= size
    ensures Bounded(Excerpt(summary, head, tail), height + 1, size, names)
  {
    var r := Excerpt(summary, head, tail);
    ExcerptChildren(summary, head, tail);
    TripleNodes(r);
    forall i | 0 <= i < Arity(r)
      ensures AtMostHigh(Child(r, i), height) && TextsShort(Child(r, i), names)
    {
      assert i == 0 || i == 1 || i == 2;
    }
  }

  lemma ListBounded(dump: Dump, j: Json, depth: nat, names: set<string>)
    requires j.List? && WellFormed(j) && depth < DEPTH
    requires ItemsWithin(dump, j.items, depth, names)
    ensures Bounded(CompactList(dump, j, depth), HeightLimit(depth), SizeLimit(depth), names)
  {
    if |j.items| <= LIST_ITEMS {
      ItemsBounded(dump, j.items, depth, names);
      TimesGrows(|j.items|, LIST_ITEMS, SizeLimit(depth + 1));
      Looser(CompactList(dump, j, depth), HeightLimit(depth + 1) + 1, HeightLimit(depth),
             1 + Times(|j.items|, SizeLimit(depth + 1)), SizeLimit(depth), names);
    } else {
      LongListBounded(dump, j, depth, names);
    }
  }

  /** Assigning the summary to a dictionary of bounded entries, in place of one of them or
      after them. */
  lemma AssignedBounded(d: Json, summary: Json, height: nat, each: nat, names: set<string>)
    requires d.Dict? && WellFormed(d) && FieldsWithin(d, height, each, names)
    requires Bounded(summary, height, 33, names)
    ensures Bounded(Assigned(d, "_summary", summary), height + 1, 34 + Times(|d.keys|, each), names)
  {
    AssignedWellFormed(d, "_summary", summary);
    AssignedNodes(d, summary, each);
  }

  ghost predicate FieldsWithin(d: Json, height: nat, each: nat, names: set<string>)
    requires d.Dict?
  {
    forall k :: k in d.fields ==> Bounded(d.fields[k], height, each, names)
  }

  ghost predicate FieldNodesWithin(d: Json, each: nat)
    requires d.Dict?
  {
    forall k :: k in d.fields ==> WellFormed(d.fields[k]) && Nodes(d.fields[k]) <= each
  }

  lemma AssignedNodes(d: Json, summary: Json, each: nat)
    requires d.Dict? && WellFormed(d) && WellFormed(summary) && Nodes(summary) <= 33 && FieldNodesWithin(d, each)
    ensures WellFormed(Assigned(d, "_summary", summary))
    ensures Nodes(Assigned(d, "_summary", summary)) <= 34 + Times(|d.keys|, each)
  {
    var r := Assigned(d, "_summary", summary);
    AssignedWellFormed(d, "_summary", summary);
    NodesAllowed(r, Arity(r), each);
    assert r.keys[..Arity(r)] == r.keys;
    AllowanceIs(d.keys, each);
    if "_summary" !in d.keys {
      assert r.keys[..|r.keys| - 1] == d.keys;
    }
  }

  lemma AssignedWellFormed(d: Json, key: string, value: Json)
    requires d.Dict? && WellFormed(d) && WellFormed(value)
    ensures WellFormed(Assigned(d, key, value))
    ensures var r := Assigned(d, key, value);
      && (forall k :: k in r.keys ==> r.fields[k] == if k == key then value else d.fields[k])
      && (forall k :: k in r.keys && k != key ==> k in d.keys)
  {
  }

  lemma FieldsBounded(dump: Dump, j: Json, keys: seq<string>, depth: nat, names: set<string>)
    requires j.Dict? && WellFormed(j) && depth < DEPTH && Distinct(keys) && forall k :: k in keys ==> k in j.fields
    requires EntriesBounded(dump, j, depth, names)
    ensures var r := CompactFields(dump, j, keys, depth);
      && WellFormed(r) && FieldsWithin(r, HeightLimit(depth + 1), SizeLimit(depth + 1), names)
      && Bounded(r, HeightLimit(depth + 1) + 1, 1 + Times(|keys|, SizeLimit(depth + 1)), names)
  {
    var r := CompactFields(dump, j, keys, depth);
    assert FieldsWithin(r, HeightLimit(depth + 1), SizeLimit(depth + 1), names);
    ContainerBounded(r, HeightLimit(depth + 1), SizeLimit(depth + 1), names);
  }

  ghost predicate EntriesBounded(dump: Dump, j: Json, depth: nat, names: set<string>)
    requires j.Dict? && WellFormed(j)
  {
    forall k :: k in j.fields ==>
      Bounded(Compact(dump, j.fields[k], depth + 1), HeightLimit(depth + 1), SizeLimit(depth + 1), names)
  }

  lemma LongDictBounded(dump: Dump, j: Json, depth: nat, names: set<string>)
    requires j.Dict? && WellFormed(j) && depth < DEPTH && |j.keys| > DICT_ITEMS
    requires forall k :: k in j.keys ==> k in names
    requires EntriesBounded(dump, j, depth, names)
    ensures Bounded(CompactDict(dump, j, depth), HeightLimit(depth), SizeLimit(depth), names)
  {
    FieldsBounded(dump, j, j.keys[..DICT_ITEMS], depth, names);
    SummarizedBounded(CompactFields(dump, j, j.keys[..DICT_ITEMS], depth), j.keys, depth, names);
  }

  /** Twenty bounded entries and a summary of all keys. */
  lemma SummarizedBounded(d: Json, keys: seq<string>, depth: nat, names: set<string>)
    requires d.Dict? && WellFormed(d) && depth < DEPTH && |d.keys| == DICT_ITEMS < |keys|
    requires FieldsWithin(d, HeightLimit(depth + 1), SizeLimit(depth + 1), names)
    requires forall k :: k in keys ==> k in names
    ensures Bounded(Assigned(d, "_summary", DictSummary(keys)), HeightLimit(depth), SizeLimit(depth), names)
  {
    var height, each := HeightLimit(depth + 1), SizeLimit(depth + 1);
    DictSummaryBounded(keys, names);
    HigherIsWeaker(DictSummary(keys), 3, height);
    AssignedBounded(d, DictSummary(keys), height, each, names);
    TimesGrows(DICT_ITEMS, DICT_ITEMS, each);
    Looser(Assigned(d, "_summary", DictSummary(keys)), height + 1, HeightLimit(depth), 34 + Times(DICT_ITEMS, each),
           SizeLimit(depth), names);
  }

  lemma ShortDictBounded(dump: Dump, j: Json, depth: nat, names: set<string>)
    requires j.Dict? && WellFormed(j) && depth < DEPTH && |j.keys| <= DICT_ITEMS
    requires EntriesBounded(dump, j, depth, names)
    ensures Bounded(CompactDict(dump, j, depth), HeightLimit(depth), SizeLimit(depth), names)
  {
    var height, each := HeightLimit(depth + 1), SizeLimit(depth + 1);
    FieldsBounded(dump, j, j.keys, depth, names);
    TimesGrows(|j.keys|, DICT_ITEMS, each);
    Looser(CompactFields(dump, j, j.keys, depth), height + 1, HeightLimit(depth), 1 + Times(|j.keys|, each),
      SizeLimit(depth), names);
  }

  /** Compaction yields a JSON value again, at most thirteen levels high and with at most
      SizeLimit(0) nodes, whatever it is given; its texts are cut or short, except for the
      names of keys that a summary lists. */
  lemma {:induction false} CompactBounded(dump: Dump, j: Json, depth: nat, names: set<string>)
    requires WellFormed(j) && KeysIn(j, names)
    ensures Bounded(Compact(dump, j, depth), HeightLimit(depth), SizeLimit(depth), names)
    decreases j
  {
    match j
    case Str(s) =>
      TruncatedIsShort(s, STRING_CHARS);
      LeafBounded(Compact(dump, j, depth), names);
      HigherIsWeaker(Compact(dump, j, depth), 1, HeightLimit(depth));
    case List(items) =>
      if depth >= DEPTH {
        PreviewBounded(dump, j, names);
      } else {
        forall i | 0 <= i < |items|
          ensures Bounded(Compact(dump, items[i], depth + 1), HeightLimit(depth + 1), SizeLimit(depth + 1), names)
        {
          assert Child(j, i) == items[i];
          CompactBounded(dump, items[i], depth + 1, names);
        }
        ListBounded(dump, j, depth, names);
      }
    case Dict(keys, fields) =>
      if depth >= DEPTH {
        PreviewBounded(dump, j, names);
      } else {
        forall k | k in fields
          ensures Bounded(Compact(dump, fields[k], depth + 1), HeightLimit(depth + 1), SizeLimit(depth + 1), names)
        {
          var i :| 0 <= i < |keys| && keys[i] == k;
          assert Child(j, i) == fields[k];
          CompactBounded(dump, fields[k], depth + 1, names);
        }
        if |keys| <= DICT_ITEMS {
          ShortDictBounded(dump, j, depth, names);
        } else {
          LongDictBounded(dump, j, depth, names);
        }
      }
    case _ =>
      LeafBounded(j, names);
      HigherIsWeaker(j, 1, HeightLimit(depth));
  }

  /** The bounds in numbers. */
  lemma LimitsInNumbers()
    ensures HeightLimit(0) == 13 && SizeLimit(0) == 21726314
  {
    assert SizeLimit(4) == 134 && SizeLimit(3) == 2714 && SizeLimit(2) == 54314 && SizeLimit(1) == 1086314;
  }

  // What is left alone

  /** Within all limits: short texts, few items, and containers only above the depth. */
  ghost predicate Fits(j: Json, depth: nat)
    requires WellFormed(j)
  {
    match j
    case Str(s) => |s| <= STRING_CHARS
    case List(items) =>
      depth < DEPTH && |items| <= LIST_ITEMS && forall i :: 0 <= i < |items| ==> Fits(items[i], depth + 1)
    case Dict(keys, fields) =>
      depth < DEPTH && |keys| <= DICT_ITEMS && forall k :: k in fields ==> Fits(fields[k], depth + 1)
    case _ => true
  }

  lemma {:induction false} FittingIsUnchanged(dump: Dump, j: Json, depth: nat)
    requires WellFormed(j) && Fits(j, depth)
    ensures Compact(dump, j, depth) == j
    decreases j
  {
    match j
    case List(items) =>
      forall i | 0 <= i < |items|
        ensures Compact(dump, items[i], depth + 1) == items[i]
      {
        FittingIsUnchanged(dump, items[i], depth + 1);
      }
      assert CompactItems(dump, items, depth) == items;
    case Dict(keys, fields) =>
      forall k | k in fields
        ensures Compact(dump, fields[k], depth + 1) == fields[k]
      {
        FittingIsUnchanged(dump, fields[k], depth + 1);
      }
      assert CompactFields(dump, j, keys, depth).fields == fields;
    case _ =>
  }

  // Cutting a text twice

  lemma {:induction false} DecimalLength(n: nat)
    ensures 0 < |Decimal(n)| <= n / 10 + 1
    ensures |Decimal(n)| == 1 <==> n < 10
    ensures |Decimal(n)| == 2 <==> 10 <= n < 100
  {
    if n >= 10 {
      DecimalLength(n / 10);
    }
  }

  lemma {:induction false} DecimalInjective(m: nat, n: nat)
    requires Decimal(m) == Decimal(n)
    ensures m == n
  {
    DecimalLength(m);
    DecimalLength(n);
    var a, b := Decimal(m), Decimal(n);
    assert a[|a| - 1] == b[|b| - 1];
    assert m % 10 == n % 10;
    if m >= 10 {
      assert a[..|a| - 1] == Decimal(m / 10) && b[..|b| - 1] == Decimal(n / 10);
      DecimalInjective(m / 10, n / 10);
    }
  }

  /** A cut text is cut again and reports the length of the mark instead, unless the mark
      happens to report that: exactly 24 characters too many. */
  lemma CuttingSettles(s: string, limit: nat)
    ensures Truncated(Truncated(s, limit), limit) == Truncated(s, limit) <==> |s| <= limit || |s| == limit + 24
  {
    if |s| > limit {
      var n := |s| - limit;
      var t := Truncated(s, limit);
      DecimalLength(n);
      var again := 22 + |Decimal(n)|;
      assert |t| == limit + again && t[..limit] == s[..limit];
      assert Truncated(t, limit) == s[..limit] + Suffix(again);
      if Truncated(t, limit) == t {
        SuffixInjective(again, n);
        assert n == 24;
      }
    }
  }

  lemma SuffixInjective(m: nat, n: nat)
    requires Suffix(m) == Suffix(n)
    ensures m == n
  {
    var a, b := Suffix(m), Suffix(n);
    assert a[15..|a| - 7] == Decimal(m) && b[15..|b| - 7] == Decimal(n);
    DecimalInjective(m, n);
  }
}
