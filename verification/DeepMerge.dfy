/** The path-sensitive merge of JSON state trees (mobility_agent/graph/state.py:669-684). */
module DeepMerge {
  import opened Dedupe
  import opened Json

  /** How dedupe_keep_order identifies a list item. */
  type Marker = Json -> string

  function ChildPath(path: string, key: string): string {
    if path == "" then key else path + "." + key
  }

  /** The specification of deep_merge. At a path in `append` two lists are joined and
      deduplicated; elsewhere the update replaces the base, except that two dictionaries
      merge key by key. A value met only on one side is copied as it is, so a list at a
      missing key is not deduplicated. */
  function Merged(base: Json, updates: Json, append: set<string>, marker: Marker, path: string): Json
    decreases updates
  {
    if base.Dict? && updates.Dict? then
      Dict(Deduped(base.keys + updates.keys, Self),
           map k | k in base.fields.Keys + updates.fields.Keys ::
             if k !in updates.fields then base.fields[k]
             else if k !in base.fields then updates.fields[k]
             else Merged(base.fields[k], updates.fields[k], append, marker, ChildPath(path, k)))
    else if base.List? && updates.List? && path in append then
      List(Deduped(base.items + updates.items, marker))
    else updates
  }

  /** The first n entries of an update, in its own order. */
  ghost function FirstEntries(updates: Json, n: nat): Json
    requires updates.Dict? && n <= |updates.keys|
    requires forall k :: k in updates.keys <==> k in updates.fields
  {
    Dict(updates.keys[..n], map k | k in updates.keys[..n] :: updates.fields[k])
  }

  method DeepMerge(base: Json, updates: Json, append: set<string>, marker: Marker, path: string) returns (merged: Json)
    requires WellFormed(base) && WellFormed(updates)
    ensures merged == Merged(base, updates, append, marker, path)
    decreases updates, 1
  {
    if base.Dict? && updates.Dict? {
      merged := MergeEntries(base, updates, append, marker, path);
    } else if base.List? && updates.List? && path in append {
      var items := DedupeKeepOrder(base.items + updates.items, marker);
      merged := List(items);
    } else {
      merged := updates;
    }
  }

  method MergeEntries(base: Json, updates: Json, append: set<string>, marker: Marker, path: string)
      returns (merged: Json)
    requires WellFormed(base) && WellFormed(updates) && base.Dict? && updates.Dict?
    ensures merged == Merged(base, updates, append, marker, path)
    decreases updates, 0
  {
    merged := base;
    NothingMerged(base, updates, append, marker, path);
    for i := 0 to |updates.keys|
      invariant merged == Merged(base, FirstEntries(updates, i), append, marker, path)
    {
      var key := updates.keys[i];
      EntryMerged(base, updates, i, append, marker, path);
      if key in merged.fields {
        var value := DeepMerge(merged.fields[key], updates.fields[key], append, marker, ChildPath(path, key));
        merged := Dict(merged.keys, merged.fields[key := value]);
      } else {
        merged := Dict(merged.keys + [key], merged.fields[key := updates.fields[key]]);
      }
    }
    AllEntries(updates);
  }

  lemma AllEntries(updates: Json)
    requires updates.Dict? && WellFormed(updates)
    ensures FirstEntries(updates, |updates.keys|) == updates
  {
    assert updates.keys[..|updates.keys|] == updates.keys;
  }

  lemma NothingMerged(base: Json, updates: Json, append: set<string>, marker: Marker, path: string)
    requires WellFormed(base) && WellFormed(updates) && base.Dict? && updates.Dict?
    ensures Merged(base, FirstEntries(updates, 0), append, marker, path) == base
  {
    DedupeFixedPoint(base.keys, Self, {});
    assert base.keys + updates.keys[..0] == base.keys;
    var m := Merged(base, FirstEntries(updates, 0), append, marker, path);
    assert m.fields == base.fields;
  }

  function EntryValue(base: Json, updates: Json, key: string, append: set<string>, marker: Marker, path: string): Json
    requires base.Dict? && updates.Dict? && key in updates.fields
  {
    if key in base.fields then Merged(base.fields[key], updates.fields[key], append, marker, ChildPath(path, key))
    else updates.fields[key]
  }

  /** What the next entry of the update does to the entries merged so far. The key has not
      been met before, so what it is merged with is still the base's value. */
  lemma EntryMerged(base: Json, updates: Json, i: nat, append: set<string>, marker: Marker, path: string)
    requires WellFormed(base) && WellFormed(updates) && base.Dict? && updates.Dict? && i < |updates.keys|
    ensures var key := updates.keys[i];
      var so := Merged(base, FirstEntries(updates, i), append, marker, path);
      && (key in so.fields <==> key in base.fields)
      && (key in base.fields ==> so.fields[key] == base.fields[key])
      && Merged(base, FirstEntries(updates, i + 1), append, marker, path)
         == Dict(so.keys + (if key in base.fields then [] else [key]),
                 so.fields[key := EntryValue(base, updates, key, append, marker, path)])
  {
    var key := updates.keys[i];
    var so := Merged(base, FirstEntries(updates, i), append, marker, path);
    var next := Merged(base, FirstEntries(updates, i + 1), append, marker, path);
    assert updates.keys[..i + 1] == updates.keys[..i] + [key];
    assert key !in updates.keys[..i];
    KeysGrow(base.keys, updates.keys, i);
    FieldsGrow(base, updates, i, append, marker, path);
  }

  lemma FieldsGrow(base: Json, updates: Json, i: nat, append: set<string>, marker: Marker, path: string)
    requires WellFormed(base) && WellFormed(updates) && base.Dict? && updates.Dict? && i < |updates.keys|
    ensures var key := updates.keys[i];
      Merged(base, FirstEntries(updates, i + 1), append, marker, path).fields
      == Merged(base, FirstEntries(updates, i), append, marker, path).fields[
           key := EntryValue(base, updates, key, append, marker, path)]
  {
    var key := updates.keys[i];
    var before, after := FirstEntries(updates, i), FirstEntries(updates, i + 1);
    EntriesGrow(updates, i);
    var so, next := Merged(base, before, append, marker, path), Merged(base, after, append, marker, path);
    var fields := so.fields[key := EntryValue(base, updates, key, append, marker, path)];
    assert next.fields.Keys == base.fields.Keys + after.fields.Keys == fields.Keys;
    forall k | k in fields
      ensures next.fields[k] == fields[k]
    {
    }
    assert next.fields == fields;
  }

  lemma EntriesGrow(updates: Json, i: nat)
    requires WellFormed(updates) && updates.Dict? && i < |updates.keys|
    ensures FirstEntries(updates, i + 1).fields == FirstEntries(updates, i).fields[
      updates.keys[i] := updates.fields[updates.keys[i]]]
    ensures updates.keys[i] !in FirstEntries(updates, i).fields
  {
    assert updates.keys[..i + 1] == updates.keys[..i] + [updates.keys[i]];
  }

  lemma KeysGrow(base: seq<string>, updates: seq<string>, i: nat)
    requires Distinct(updates) && i < |updates|
    ensures Deduped(base + updates[..i + 1], Self)
         == Deduped(base + updates[..i], Self) + if updates[i] in base then [] else [updates[i]]
  {
    assert base + updates[..i + 1] == base + updates[..i] + [updates[i]];
    AppendKey(base + updates[..i], updates[i]);
  }

  lemma {:induction false} MergedWellFormed(base: Json, updates: Json, append: set<string>, marker: Marker,
      path: string)
    requires WellFormed(base) && WellFormed(updates)
    ensures WellFormed(Merged(base, updates, append, marker, path))
    decreases updates
  {
    if base.Dict? && updates.Dict? {
      var m := Merged(base, updates, append, marker, path);
      MarkersOfDeduped(base.keys + updates.keys, Self, {});
      forall k
        ensures k in m.keys <==> k in m.fields
      {
        AppendKey(base.keys + updates.keys, k);
      }
      forall k | k in m.fields
        ensures WellFormed(m.fields[k])
      {
        if k in updates.fields && k in base.fields {
          MergedWellFormed(base.fields[k], updates.fields[k], append, marker, ChildPath(path, k));
        }
      }
    } else if base.List? && updates.List? && path in append {
      DedupedItems(base.items + updates.items, marker, {});
    }
  }

  lemma AppendKey(keys: seq<string>, key: string)
    ensures Deduped(keys + [key], Self) == Deduped(keys, Self) + if key in Deduped(keys, Self) then [] else [key]
    ensures key in Deduped(keys, Self) <==> key in keys
  {
    DedupeConcat(keys, [key], Self, {});
    MarkersOfDeduped(keys, Self, {});
    DedupedItems(keys, Self, {});
    if key in keys {
      var i :| 0 <= i < |keys| && keys[i] == key;
      assert Self(keys[i]) in Markers(keys, Self);
      assert key in Markers(Deduped(keys, Self), Self);
      var d := Deduped(keys, Self);
      var j :| 0 <= j < |d| && Self(d[j]) == key;
    }
  }

  lemma {:induction false} DedupedItems<T, M>(a: seq<T>, marker: T -> M, seen: set<M>)
    ensures forall x :: x in DedupeFrom(a, marker, seen) ==> x in a
  {
    if a != [] {
      DedupedItems(a[1..], marker, if marker(a[0]) in seen then seen else seen + {marker(a[0])});
    }
  }

  // What a merge holds at a path

  /** The value can be followed along these keys. */
  predicate Has(j: Json, keys: seq<string>)
    decreases |keys|
  {
    keys == [] || (j.Dict? && keys[0] in j.fields && Has(j.fields[keys[0]], keys[1..]))
  }

  function At(j: Json, keys: seq<string>): Json
    requires Has(j, keys)
    decreases |keys|
  {
    if keys == [] then j else At(j.fields[keys[0]], keys[1..])
  }

  /** The keys joined by dots. */
  function Joined(keys: seq<string>): string {
    if keys == [] then ""
    else if |keys| == 1 then keys[0]
    else keys[0] + "." + Joined(keys[1..])
  }

  /** The name of a path: its keys joined by dots, where empty keys at the start leave no dot. */
  function Dotted(keys: seq<string>): string {
    if keys != [] && keys[0] == "" then Dotted(keys[1..]) else Joined(keys)
  }

  function NameBelow(path: string, keys: seq<string>): string {
    if path == "" then Dotted(keys) else if keys == [] then path else path + "." + Joined(keys)
  }

  lemma NameSteps(path: string, keys: seq<string>)
    requires keys != []
    ensures NameBelow(ChildPath(path, keys[0]), keys[1..]) == NameBelow(path, keys)
  {
    var rest := keys[1..];
    if path == "" {
      if keys[0] != "" && rest != [] {
        assert Joined(keys) == keys[0] + "." + Joined(rest);
      }
    } else if rest != [] {
      assert path + "." + keys[0] + "." + Joined(rest) == path + "." + (keys[0] + "." + Joined(rest));
    }
  }

  /** The update goes down these keys through dictionaries until it has no such key. */
  predicate LeavesOpen(updates: Json, keys: seq<string>)
    decreases |keys|
  {
    && keys != [] && updates.Dict?
    && (keys[0] in updates.fields ==> LeavesOpen(updates.fields[keys[0]], keys[1..]))
  }

  /** The base's items without repeats, and after them the update's that are new. */
  ghost predicate Appended(base: seq<Json>, updates: seq<Json>, items: seq<Json>, marker: Marker) {
    && Markers(items, marker) == Markers(base, marker) + Markers(updates, marker)
    && NoRepeats(items, marker)
    && Deduped(base, marker) <= items
    && forall x :: x in items ==> x in base || x in updates
  }

  /** What becomes of two values that meet. */
  ghost predicate Meets(base: Json, updates: Json, merged: Json, listed: bool, marker: Marker) {
    if base.Dict? && updates.Dict? then
      && merged.Dict? && merged.fields.Keys == base.fields.Keys + updates.fields.Keys
      && Deduped(base.keys, Self) <= merged.keys
    else if base.List? && updates.List? && listed then
      merged.List? && Appended(base.items, updates.items, merged.items, marker)
    else merged == updates
  }

  lemma ListsAppend(base: seq<Json>, updates: seq<Json>, marker: Marker)
    ensures Appended(base, updates, Deduped(base + updates, marker), marker)
  {
    MarkersOfDeduped(base + updates, marker, {});
    MarkersConcat(base, updates, marker);
    DedupeConcat(base, updates, marker, {});
    DedupedItems(base + updates, marker, {});
  }

  /** What a merge holds along any keys: where base and update meet in lists, they are joined
      exactly when the dotted name of the keys is an append path; otherwise the update's value
      stands wherever it has one, and the base's wherever the update leaves it alone. */
  lemma {:induction false} MergedAt(base: Json, updates: Json, append: set<string>, marker: Marker, path: string,
      keys: seq<string>)
    ensures var m := Merged(base, updates, append, marker, path);
      if Has(updates, keys) then
        && Has(m, keys)
        && (if Has(base, keys)
            then Meets(At(base, keys), At(updates, keys), At(m, keys), NameBelow(path, keys) in append, marker)
            else At(m, keys) == At(updates, keys))
      else
        && (Has(m, keys) <==> Has(base, keys) && LeavesOpen(updates, keys))
        && (Has(m, keys) ==> At(m, keys) == At(base, keys))
    decreases |keys|
  {
    if keys == [] {
      if base.List? && updates.List? {
        ListsAppend(base.items, updates.items, marker);
      }
      if base.Dict? && updates.Dict? {
        DedupeConcat(base.keys, updates.keys, Self, {});
      }
    } else {
      NameSteps(path, keys);
      if base.Dict? && updates.Dict? && keys[0] in base.fields && keys[0] in updates.fields {
        MergedAt(base.fields[keys[0]], updates.fields[keys[0]], append, marker, ChildPath(path, keys[0]), keys[1..]);
      }
    }
  }

  /** In particular for a whole state, whose own path is empty: a list at nested keys is
      appended to exactly when the keys, joined by dots, name an append path. */
  lemma NestedListsAppend(base: Json, updates: Json, append: set<string>, marker: Marker, keys: seq<string>)
    requires Has(base, keys) && Has(updates, keys) && At(base, keys).List? && At(updates, keys).List?
    ensures var m := Merged(base, updates, append, marker, "");
      && Has(m, keys)
      && (if Dotted(keys) in append
          then At(m, keys).List? && Appended(At(base, keys).items, At(updates, keys).items, At(m, keys).items, marker)
          else At(m, keys) == At(updates, keys))
  {
    MergedAt(base, updates, append, marker, "", keys);
  }

  // Associativity

  /** v can be merged after u or into u alike: it never puts a dictionary where u had
      something else, nor a list at an append path where u had something else. */
  ghost predicate Composable(u: Json, v: Json, append: set<string>, path: string)
    decreases v
  {
    match v
    case Dict(_, fields) =>
      && u.Dict?
      && forall k :: k in fields && k in u.fields ==>
           Composable(u.fields[k], fields[k], append, ChildPath(path, k))
    case List(_) => path in append ==> u.List?
    case _ => true
  }

  ghost predicate AssociatesAt(b: Json, u: Json, v: Json, append: set<string>, marker: Marker, path: string) {
    Merged(Merged(b, u, append, marker, path), v, append, marker, path)
    == Merged(b, Merged(u, v, append, marker, path), append, marker, path)
  }

  lemma ListsAssociate(b: Json, u: Json, v: Json, append: set<string>, marker: Marker, path: string)
    requires b.List? && u.List? && v.List? && path in append
    ensures AssociatesAt(b, u, v, append, marker, path)
  {
    DedupeAssociates(b.items + u.items, v.items, marker);
    DedupeAssociates(b.items, u.items + v.items, marker);
    assert b.items + u.items + v.items == b.items + (u.items + v.items);
  }

  lemma {:induction false} MergeAssociates(b: Json, u: Json, v: Json, append: set<string>, marker: Marker, path: string)
    requires Composable(u, v, append, path)
    ensures AssociatesAt(b, u, v, append, marker, path)
    decreases v
  {
    if v.Dict? {
      if b.Dict? {
        KeysAssociate(b.keys, u.keys, v.keys);
        var l := Merged(Merged(b, u, append, marker, path), v, append, marker, path);
        var r := Merged(b, Merged(u, v, append, marker, path), append, marker, path);
        forall k | k in l.fields
          ensures l.fields[k] == r.fields[k]
        {
          if k in b.fields && k in u.fields && k in v.fields {
            MergeAssociates(b.fields[k], u.fields[k], v.fields[k], append, marker, ChildPath(path, k));
          }
        }
        assert l.fields == r.fields;
      }
    } else if v.List? && path in append && b.List? {
      ListsAssociate(b, u, v, append, marker, path);
    }
  }

  lemma KeysAssociate(a: seq<string>, b: seq<string>, c: seq<string>)
    ensures Deduped(Deduped(a + b, Self) + c, Self) == Deduped(a + Deduped(b + c, Self), Self)
  {
    DedupeAssociates(a + b, c, Self);
    DedupeAssociates(a, b + c, Self);
    assert a + b + c == a + (b + c);
  }

  function LongerThanAll(keys: seq<string>): (newKey: string)
    ensures newKey !in keys
    ensures forall k :: k in keys ==> |k| < |newKey|
  {
    if keys == [] then "x" else LongerThanAll(keys[1..]) + keys[0]
  }

  lemma ListBreaks(u: Json, v: Json, append: set<string>, marker: Marker, path: string) returns (b: Json)
    requires v.List? && !u.List? && path in append
    ensures WellFormed(b) && !AssociatesAt(b, u, v, append, marker, path)
  {
    var x := if v.items != [] && v.items[0] == Null then Bool(true) else Null;
    b := List([x]);
    assert Merged(b, v, append, marker, path).items[0] == x;
  }

  lemma DictBreaks(u: Json, v: Json, append: set<string>, marker: Marker, path: string) returns (b: Json)
    requires WellFormed(v) && v.Dict? && !u.Dict?
    ensures WellFormed(b) && !AssociatesAt(b, u, v, append, marker, path)
  {
    var newKey := LongerThanAll(v.keys);
    b := Dict([newKey], map[newKey := Null]);
    assert newKey in Merged(b, v, append, marker, path).fields;
  }

  /** The base that tells the two merge orders apart when v does not compose after u. */
  lemma {:induction false} NotComposableBreaks(u: Json, v: Json, append: set<string>, marker: Marker, path: string)
    returns (b: Json)
    requires WellFormed(u) && WellFormed(v)
    requires !Composable(u, v, append, path)
    ensures WellFormed(b) && !AssociatesAt(b, u, v, append, marker, path)
    decreases v
  {
    if v.List? {
      b := ListBreaks(u, v, append, marker, path);
    } else if !u.Dict? {
      b := DictBreaks(u, v, append, marker, path);
    } else {
      var k :| k in v.fields && k in u.fields && !Composable(u.fields[k], v.fields[k], append, ChildPath(path, k));
      var inner := NotComposableBreaks(u.fields[k], v.fields[k], append, marker, ChildPath(path, k));
      b := Dict([k], map[k := inner]);
      var l := Merged(Merged(b, u, append, marker, path), v, append, marker, path);
      var r := Merged(b, Merged(u, v, append, marker, path), append, marker, path);
      assert l.fields[k] != r.fields[k];
    }
  }

  /** Two updates may be merged with each other first, whatever they are later merged into,
      exactly when the second composes after the first. */
  lemma AssociativeIffComposable(u: Json, v: Json, append: set<string>, marker: Marker, path: string)
    requires WellFormed(u) && WellFormed(v)
    ensures (forall b :: WellFormed(b) ==> AssociatesAt(b, u, v, append, marker, path))
       <==> Composable(u, v, append, path)
  {
    if Composable(u, v, append, path) {
      forall b | WellFormed(b)
        ensures AssociatesAt(b, u, v, append, marker, path)
      {
        MergeAssociates(b, u, v, append, marker, path);
      }
    } else {
      var b := NotComposableBreaks(u, v, append, marker, path);
    }
  }

  /** The order matters when a scalar comes between two dictionaries. */
  lemma MergeOrderMatters(append: set<string>, marker: Marker, path: string)
    ensures !AssociatesAt(Dict(["a"], map["a" := Null]), Null, Dict([], map[]), append, marker, path)
  {
    var none: Json := Dict([], map[]);
    var b := Dict(["a"], map["a" := Null]);
    assert "a" in Merged(b, none, append, marker, path).fields;
    assert Merged(Null, none, append, marker, path) == none;
  }

  // Idempotence

  /** No list at an append path of the update repeats a marker. */
  ghost predicate RepeatFree(u: Json, append: set<string>, marker: Marker, path: string) {
    match u
    case Dict(_, fields) => forall k :: k in fields ==> RepeatFree(fields[k], append, marker, ChildPath(path, k))
    case List(items) => path in append ==> NoRepeats(items, marker)
    case _ => true
  }

  ghost predicate AbsorbedAt(b: Json, u: Json, append: set<string>, marker: Marker, path: string) {
    Merged(Merged(b, u, append, marker, path), u, append, marker, path) == Merged(b, u, append, marker, path)
  }

  lemma SameKeysTwice(keys: seq<string>)
    requires Distinct(keys)
    ensures Deduped(keys + keys, Self) == keys
  {
    DedupeFixedPoint(keys, Self, {});
    DedupeAbsorbs([], keys, Self);
    assert [] + keys == keys;
  }

  /** An update merged into itself is itself exactly when it is repeat-free. */
  lemma {:induction false} SelfMerge(u: Json, append: set<string>, marker: Marker, path: string)
    requires WellFormed(u)
    ensures Merged(u, u, append, marker, path) == u <==> RepeatFree(u, append, marker, path)
  {
    if u.Dict? {
      var m := Merged(u, u, append, marker, path);
      SameKeysTwice(u.keys);
      forall k | k in u.fields
        ensures m.fields[k] == u.fields[k] <==> RepeatFree(u.fields[k], append, marker, ChildPath(path, k))
      {
        SelfMerge(u.fields[k], append, marker, ChildPath(path, k));
      }
      if RepeatFree(u, append, marker, path) {
        assert m.fields == u.fields;
      } else {
        var k :| k in u.fields && !RepeatFree(u.fields[k], append, marker, ChildPath(path, k));
        assert m.fields[k] != u.fields[k];
      }
    } else if u.List? && path in append {
      DedupeAbsorbs([], u.items, marker);
      assert [] + u.items == u.items;
      DedupeAssociates(u.items, u.items, marker);
      DedupeFixedPoint(u.items, marker, {});
    }
  }

  lemma {:induction false} MergeAbsorbs(b: Json, u: Json, append: set<string>, marker: Marker, path: string)
    requires WellFormed(b) && WellFormed(u)
    requires RepeatFree(u, append, marker, path)
    ensures AbsorbedAt(b, u, append, marker, path)
    decreases u
  {
    if u.Dict? && b.Dict? {
      var m := Merged(b, u, append, marker, path);
      var mm := Merged(m, u, append, marker, path);
      DedupeAbsorbs(b.keys, u.keys, Self);
      forall k | k in mm.fields
        ensures mm.fields[k] == m.fields[k]
      {
        if k in u.fields {
          if k in b.fields {
            MergeAbsorbs(b.fields[k], u.fields[k], append, marker, ChildPath(path, k));
          } else {
            SelfMerge(u.fields[k], append, marker, ChildPath(path, k));
          }
        }
      }
      assert mm.fields == m.fields;
    } else if u.List? && b.List? && path in append {
      DedupeAbsorbs(b.items, u.items, marker);
    } else {
      SelfMerge(u, append, marker, path);
    }
  }

  /** A list with a repeat arrives as it is and loses the repeat the second time. */
  lemma SecondApplicationChanges(append: set<string>, marker: Marker, path: string)
    requires path in append
    ensures !AbsorbedAt(Null, List([Null, Null]), append, marker, path)
  {
    var u := List([Null, Null]);
    assert !NoRepeats(u.items, marker) by {
      assert marker(u.items[0]) == marker(u.items[1]);
    }
    SelfMerge(u, append, marker, path);
    assert Merged(Null, u, append, marker, path) == u;
  }

  /** Applying an update a second time changes nothing, whatever it was first applied to,
      exactly when its append lists repeat no marker: a list that arrives at a missing key
      is copied with its repeats and only the second application removes them. */
  lemma IdempotentIffRepeatFree(u: Json, append: set<string>, marker: Marker, path: string)
    requires WellFormed(u)
    ensures (forall b :: WellFormed(b) ==> AbsorbedAt(b, u, append, marker, path))
      <==> RepeatFree(u, append, marker, path)
  {
    if RepeatFree(u, append, marker, path) {
      forall b | WellFormed(b)
        ensures AbsorbedAt(b, u, append, marker, path)
      {
        MergeAbsorbs(b, u, append, marker, path);
      }
    } else {
      SelfMerge(u, append, marker, path);
      assert Merged(Null, u, append, marker, path) == u;
      assert WellFormed(Null) && !AbsorbedAt(Null, u, append, marker, path);
    }
  }
}
