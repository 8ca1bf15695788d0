/** The search for a relaxation failure in an arbitrary object graph
    (mobility_agent/policy/engine.py:161-179). Containers are recognised by identity in one
    set shared by the whole search, so a shared or cyclic structure is entered once; values
    more than eight edges from the root are not looked at. */
module RelaxSearch {

  type Id = nat

  datatype Value =
    | Ref(id: Id)
    | Text(s: string)
    | Scalar

  datatype Object =
    | Mapping(values: seq<Value>)
    | Sequence(items: seq<Value>)

  type Heap = Id -> Object

  /** The two leaf tests: of a string, and of a mapping's own error and stage entries. */
  datatype Labels = Labels(text: string -> bool, mapping: Id -> bool)

  const MAX_DEPTH := 8

  function Children(heap: Heap, v: Value): seq<Value> {
    match v
    case Ref(id) => (match heap(id) case Mapping(values) => values case Sequence(items) => items)
    case _ => []
  }

  predicate Testable(heap: Heap, v: Value) {
    v.Text? || (v.Ref? && heap(v.id).Mapping?)
  }

  predicate Fails(heap: Heap, labels: Labels, v: Value) {
    match v
    case Text(s) => labels.text(s)
    case Ref(id) => heap(id).Mapping? && labels.mapping(id)
    case Scalar => false
  }

  function Remaining(depth: nat): nat {
    if depth <= MAX_DEPTH then MAX_DEPTH + 1 - depth else 0
  }

  /** The edges that may still be followed from a value met at this depth. */
  function EdgesLeft(depth: nat): nat {
    if depth <= MAX_DEPTH then MAX_DEPTH - depth else 0
  }

  /** What the search answers, and the containers it has entered when it does. */
  function Search(heap: Heap, labels: Labels, v: Value, depth: nat, seen: set<Id>): (bool, set<Id>)
    decreases Remaining(depth), 0
  {
    if depth > MAX_DEPTH then (false, seen)
    else match v
      case Ref(id) =>
        if id in seen then (false, seen)
        else if Fails(heap, labels, v) then (true, seen + {id})
        else SearchAny(heap, labels, Children(heap, v), depth + 1, seen + {id})
      case _ => (Fails(heap, labels, v), seen)
  }

  function SearchAny(heap: Heap, labels: Labels, vs: seq<Value>, depth: nat, seen: set<Id>): (bool, set<Id>)
    decreases Remaining(depth), 1 + |vs|
  {
    if vs == [] then (false, seen)
    else
      var first := Search(heap, labels, vs[0], depth, seen);
      if first.0 then first else SearchAny(heap, labels, vs[1..], depth, first.1)
  }

  /** The `seen` set that all the recursive calls of one search update. */
  class SeenSet {
    var ids: set<Id>

    constructor ()
      ensures ids == {}
    {
      ids := {};
    }
  }

  method PayloadHasRelaxFailure(heap: Heap, labels: Labels, v: Value, depth: nat, seen: SeenSet) returns (found: bool)
    modifies seen
    ensures (found, seen.ids) == Search(heap, labels, v, depth, old(seen.ids))
    decreases Remaining(depth)
  {
    if depth > MAX_DEPTH {
      return false;
    }
    if v.Ref? {
      if v.id in seen.ids {
        return false;
      }
      seen.ids := seen.ids + {v.id};
      if Fails(heap, labels, v) {
        return true;
      }
      var vs := Children(heap, v);
      ghost var start := seen.ids;
      for i := 0 to |vs|
        invariant SearchAny(heap, labels, vs, depth + 1, start) == SearchAny(heap, labels, vs[i..], depth + 1, seen.ids)
      {
        assert vs[i..][1..] == vs[i + 1..];
        found := PayloadHasRelaxFailure(heap, labels, vs[i], depth + 1, seen);
        if found {
          return true;
        }
      }
      return false;
    }
    return Fails(heap, labels, v);
  }

  // Walks

  /** What a container holds at some position, a mapping among its values: the edges of the
      graph, apart from how the search lists them. */
  ghost predicate HasEdge(heap: Heap, v: Value, c: Value) {
    && v.Ref?
    && match heap(v.id)
       case Mapping(values) => exists i :: 0 <= i < |values| && values[i] == c
       case Sequence(items) => exists i :: 0 <= i < |items| && items[i] == c
  }

  lemma ChildrenAreEdges(heap: Heap, v: Value)
    ensures forall c :: c in Children(heap, v) <==> HasEdge(heap, v, c)
  {
  }

  ghost predicate IsWalk(heap: Heap, v: Value, walk: seq<Value>)
    decreases |walk|
  {
    walk != [] ==> HasEdge(heap, v, walk[0]) && IsWalk(heap, walk[0], walk[1..])
  }

  function End(v: Value, walk: seq<Value>): Value {
    if walk == [] then v else walk[|walk| - 1]
  }

  /** A failing value at the end of some walk of at most n edges. */
  ghost predicate FailureWithin(heap: Heap, labels: Labels, v: Value, n: nat) {
    exists walk :: IsWalk(heap, v, walk) && |walk| <= n && Fails(heap, labels, End(v, walk))
  }

  ghost predicate NoWalkLonger(heap: Heap, v: Value, n: nat) {
    forall walk :: IsWalk(heap, v, walk) ==> |walk| <= n
  }

  lemma WalkFromParent(heap: Heap, v: Value, child: Value, walk: seq<Value>)
    requires child in Children(heap, v) && IsWalk(heap, child, walk)
    ensures IsWalk(heap, v, [child] + walk) && End(v, [child] + walk) == End(child, walk)
  {
    assert ([child] + walk)[1..] == walk;
  }

  lemma ShorterBelow(heap: Heap, v: Value, child: Value, n: nat)
    requires child in Children(heap, v) && NoWalkLonger(heap, v, n)
    ensures n > 0 && NoWalkLonger(heap, child, n - 1)
  {
    WalkFromParent(heap, v, child, []);
    forall walk | IsWalk(heap, child, walk)
      ensures |walk| <= n - 1
    {
      WalkFromParent(heap, v, child, walk);
    }
  }

  // What is examined when nothing fails

  /** The values a search without failures tests or enters, and the containers entered. It
      depends on the shape of the graph alone. */
  ghost function Examined(heap: Heap, v: Value, depth: nat, seen: set<Id>): (set<Value>, set<Id>)
    decreases Remaining(depth), 0
  {
    if depth > MAX_DEPTH || (v.Ref? && v.id in seen) then ({}, seen)
    else if v.Ref? then
      var below := ExaminedAll(heap, Children(heap, v), depth + 1, seen + {v.id});
      ({v} + below.0, below.1)
    else ({v}, seen)
  }

  ghost function ExaminedAll(heap: Heap, vs: seq<Value>, depth: nat, seen: set<Id>): (set<Value>, set<Id>)
    decreases Remaining(depth), 1 + |vs|
  {
    if vs == [] then ({}, seen)
    else
      var first := Examined(heap, vs[0], depth, seen);
      var rest := ExaminedAll(heap, vs[1..], depth, first.1);
      (first.0 + rest.0, rest.1)
  }

  ghost predicate SomeFails(heap: Heap, labels: Labels, vs: set<Value>) {
    exists v :: v in vs && Fails(heap, labels, v)
  }

  lemma {:induction false} SearchIsExamination(heap: Heap, labels: Labels, v: Value, depth: nat, seen: set<Id>)
    ensures Search(heap, labels, v, depth, seen).0 == SomeFails(heap, labels, Examined(heap, v, depth, seen).0)
    ensures !Search(heap, labels, v, depth, seen).0 ==>
      Search(heap, labels, v, depth, seen).1 == Examined(heap, v, depth, seen).1
    decreases Remaining(depth), 0
  {
    if depth <= MAX_DEPTH {
      if v.Ref? {
        if v.id !in seen {
          SearchAnyIsExamination(heap, labels, Children(heap, v), depth + 1, seen + {v.id});
          assert v in Examined(heap, v, depth, seen).0;
        }
      } else {
        assert v in Examined(heap, v, depth, seen).0;
      }
    }
  }

  lemma {:induction false} SearchAnyIsExamination(heap: Heap, labels: Labels, vs: seq<Value>, depth: nat, seen: set<Id>)
    ensures SearchAny(heap, labels, vs, depth, seen).0 == SomeFails(heap, labels, ExaminedAll(heap, vs, depth, seen).0)
    ensures !SearchAny(heap, labels, vs, depth, seen).0 ==>
      SearchAny(heap, labels, vs, depth, seen).1 == ExaminedAll(heap, vs, depth, seen).1
    decreases Remaining(depth), 1 + |vs|
  {
    if vs != [] {
      SearchIsExamination(heap, labels, vs[0], depth, seen);
      var first := Search(heap, labels, vs[0], depth, seen);
      if !first.0 {
        SearchAnyIsExamination(heap, labels, vs[1..], depth, first.1);
      }
    }
  }

  /** Everything examined lies within the edges that are left. */
  lemma {:induction false} ExaminedIsNear(heap: Heap, v: Value, depth: nat, seen: set<Id>, x: Value)
      returns (walk: seq<Value>)
    requires x in Examined(heap, v, depth, seen).0
    ensures depth <= MAX_DEPTH
    ensures IsWalk(heap, v, walk) && |walk| <= MAX_DEPTH - depth && End(v, walk) == x
    decreases Remaining(depth), 0
  {
    walk := [];
    if x != v {
      var child, below := ExaminedAllIsNear(heap, Children(heap, v), depth + 1, seen + {v.id}, x);
      WalkFromParent(heap, v, child, below);
      walk := [child] + below;
    }
  }

  lemma {:induction false} ExaminedAllIsNear(heap: Heap, vs: seq<Value>, depth: nat, seen: set<Id>, x: Value)
    returns (child: Value, walk: seq<Value>)
    requires x in ExaminedAll(heap, vs, depth, seen).0
    ensures depth <= MAX_DEPTH && child in vs
    ensures IsWalk(heap, child, walk) && |walk| <= MAX_DEPTH - depth && End(child, walk) == x
    decreases Remaining(depth), 1 + |vs|
  {
    var first := Examined(heap, vs[0], depth, seen);
    if x in first.0 {
      child := vs[0];
      walk := ExaminedIsNear(heap, vs[0], depth, seen, x);
    } else {
      child, walk := ExaminedAllIsNear(heap, vs[1..], depth, first.1, x);
    }
  }

  /** True is never a false alarm: some failing value lies within eight edges. */
  lemma SearchIsSound(heap: Heap, labels: Labels, root: Value)
    requires Search(heap, labels, root, 0, {}).0
    ensures FailureWithin(heap, labels, root, MAX_DEPTH)
  {
    SearchIsExamination(heap, labels, root, 0, {});
    var x :| x in Examined(heap, root, 0, {}).0 && Fails(heap, labels, x);
    var walk := ExaminedIsNear(heap, root, 0, {}, x);
  }

  // When nothing is missed

  /** Every testable value within eight edges of the root is examined. */
  ghost predicate Covers(heap: Heap, root: Value) {
    forall walk :: IsWalk(heap, root, walk) && |walk| <= MAX_DEPTH && Testable(heap, End(root, walk)) ==>
      End(root, walk) in Examined(heap, root, 0, {}).0
  }

  /** Whether the shared `seen` set makes the search miss a failure is a matter of the
      graph's shape: it agrees with the bounded search over all walks, for every outcome of
      the leaf tests, exactly when it examines every testable value within eight edges. */
  lemma ExactIffCovers(heap: Heap, root: Value)
    ensures (forall labels :: Search(heap, labels, root, 0, {}).0 <==> FailureWithin(heap, labels, root, MAX_DEPTH))
       <==> Covers(heap, root)
  {
    if Covers(heap, root) {
      forall labels
        ensures Search(heap, labels, root, 0, {}).0 <==> FailureWithin(heap, labels, root, MAX_DEPTH)
      {
        SearchIsExamination(heap, labels, root, 0, {});
        if Search(heap, labels, root, 0, {}).0 {
          SearchIsSound(heap, labels, root);
        }
      }
    } else {
      var walk :| IsWalk(heap, root, walk) && |walk| <= MAX_DEPTH && Testable(heap, End(root, walk))
        && End(root, walk) !in Examined(heap, root, 0, {}).0;
      var x := End(root, walk);
      var labels := Labels((s: string) => x == Text(s), (id: Id) => x == Ref(id));
      SearchIsExamination(heap, labels, root, 0, {});
      assert FailureWithin(heap, labels, root, MAX_DEPTH) && !Search(heap, labels, root, 0, {}).0;
    }
  }

  /** x was entered (a container) or looked at (anything else). */
  ghost predicate Met(x: Value, examined: set<Value>, seen: set<Id>) {
    if x.Ref? then x.id in seen else x in examined
  }

  /** The containers entered between two points were examined together with all that hangs
      on them. */
  ghost predicate Explored(heap: Heap, before: set<Id>, after: set<Id>, examined: set<Value>) {
    && before <= after
    && forall id :: id in after && id !in before ==>
         Ref(id) in examined && forall c :: c in Children(heap, Ref(id)) ==> Met(c, examined, after)
  }

  lemma {:induction false} ShallowIsExplored(heap: Heap, v: Value, depth: nat, seen: set<Id>)
    requires depth <= MAX_DEPTH && NoWalkLonger(heap, v, EdgesLeft(depth))
    ensures var e := Examined(heap, v, depth, seen);
      Explored(heap, seen, e.1, e.0) && Met(v, e.0, e.1)
    decreases Remaining(depth), 0
  {
    if v.Ref? && v.id !in seen {
      forall c | c in Children(heap, v)
        ensures depth < MAX_DEPTH && NoWalkLonger(heap, c, EdgesLeft(depth + 1))
      {
        ShorterBelow(heap, v, c, EdgesLeft(depth));
      }
      assert Children(heap, v) != [] ==> Children(heap, v)[0] in Children(heap, v);
      ShallowAllExplored(heap, Children(heap, v), depth + 1, seen + {v.id});
    }
  }

  lemma {:induction false} ShallowAllExplored(heap: Heap, vs: seq<Value>, depth: nat, seen: set<Id>)
    requires vs != [] ==> depth <= MAX_DEPTH
    requires forall c :: c in vs ==> NoWalkLonger(heap, c, EdgesLeft(depth))
    ensures var e := ExaminedAll(heap, vs, depth, seen);
      Explored(heap, seen, e.1, e.0) && forall c :: c in vs ==> Met(c, e.0, e.1)
    decreases Remaining(depth), 1 + |vs|
  {
    if vs != [] {
      var first := Examined(heap, vs[0], depth, seen);
      var rest := ExaminedAll(heap, vs[1..], depth, first.1);
      assert vs[0] in vs;
      ShallowIsExplored(heap, vs[0], depth, seen);
      ShallowAllExplored(heap, vs[1..], depth, first.1);
      forall c | c in vs
        ensures Met(c, first.0 + rest.0, rest.1)
      {
        assert c == vs[0] || c in vs[1..];
      }
    }
  }

  lemma {:induction false} ExploredReaches(heap: Heap, v: Value, walk: seq<Value>, examined: set<Value>, seen: set<Id>)
    requires Explored(heap, {}, seen, examined) && Met(v, examined, seen)
    requires IsWalk(heap, v, walk)
    ensures End(v, walk) in examined
    decreases |walk|
  {
    if walk != [] {
      assert v.Ref?;
      ExploredReaches(heap, walk[0], walk[1..], examined, seen);
    }
  }

  /** On a graph without walks longer than eight edges, shared substructure included, the
      search answers whether any reachable value fails: skipping what was already entered
      and cutting at depth eight lose nothing. */
  lemma ShallowSearchIsExact(heap: Heap, labels: Labels, root: Value)
    requires NoWalkLonger(heap, root, MAX_DEPTH)
    ensures Search(heap, labels, root, 0, {}).0
       <==> exists walk :: IsWalk(heap, root, walk) && Fails(heap, labels, End(root, walk))
    ensures Covers(heap, root)
  {
    var e := Examined(heap, root, 0, {});
    ShallowIsExplored(heap, root, 0, {});
    forall walk | IsWalk(heap, root, walk)
      ensures End(root, walk) in e.0
    {
      ExploredReaches(heap, root, walk, e.0, e.1);
    }
    SearchIsExamination(heap, labels, root, 0, {});
    if Search(heap, labels, root, 0, {}).0 {
      SearchIsSound(heap, labels, root);
    }
  }

  // The tree search that never skips

  function TreeSearch(heap: Heap, labels: Labels, v: Value, depth: nat): bool
    decreases Remaining(depth), 0
  {
    depth <= MAX_DEPTH && (Fails(heap, labels, v) || TreeSearchAny(heap, labels, Children(heap, v), depth + 1))
  }

  function TreeSearchAny(heap: Heap, labels: Labels, vs: seq<Value>, depth: nat): bool
    decreases Remaining(depth), 1 + |vs|
  {
    vs != [] && (TreeSearch(heap, labels, vs[0], depth) || TreeSearchAny(heap, labels, vs[1..], depth))
  }

  ghost predicate FailureBelow(heap: Heap, labels: Labels, vs: seq<Value>, n: nat) {
    exists c :: c in vs && FailureWithin(heap, labels, c, n)
  }

  lemma FailureWithinUnfolds(heap: Heap, labels: Labels, v: Value, n: nat)
    ensures FailureWithin(heap, labels, v, n)
       <==> Fails(heap, labels, v) || (n > 0 && FailureBelow(heap, labels, Children(heap, v), n - 1))
  {
    if Fails(heap, labels, v) {
      assert IsWalk(heap, v, []) && End(v, []) == v;
    }
    if n > 0 && FailureBelow(heap, labels, Children(heap, v), n - 1) {
      var c :| c in Children(heap, v) && FailureWithin(heap, labels, c, n - 1);
      var walk :| IsWalk(heap, c, walk) && |walk| <= n - 1 && Fails(heap, labels, End(c, walk));
      WalkFromParent(heap, v, c, walk);
    }
    if FailureWithin(heap, labels, v, n) {
      var walk :| IsWalk(heap, v, walk) && |walk| <= n && Fails(heap, labels, End(v, walk));
      if walk != [] {
        assert End(walk[0], walk[1..]) == End(v, walk);
        assert FailureWithin(heap, labels, walk[0], n - 1);
      }
    }
  }

  lemma {:induction false} TreeSearchIsBounded(heap: Heap, labels: Labels, v: Value, depth: nat)
    ensures TreeSearch(heap, labels, v, depth)
       <==> depth <= MAX_DEPTH && FailureWithin(heap, labels, v, EdgesLeft(depth))
    decreases Remaining(depth), 0
  {
    if depth <= MAX_DEPTH {
      TreeSearchAnyIsBounded(heap, labels, Children(heap, v), depth + 1);
      FailureWithinUnfolds(heap, labels, v, EdgesLeft(depth));
    }
  }

  lemma {:induction false} TreeSearchAnyIsBounded(heap: Heap, labels: Labels, vs: seq<Value>, depth: nat)
    ensures TreeSearchAny(heap, labels, vs, depth)
       <==> depth <= MAX_DEPTH && FailureBelow(heap, labels, vs, EdgesLeft(depth))
    decreases Remaining(depth), 1 + |vs|
  {
    if vs != [] {
      TreeSearchIsBounded(heap, labels, vs[0], depth);
      TreeSearchAnyIsBounded(heap, labels, vs[1..], depth);
      assert forall c :: c in vs <==> c == vs[0] || c in vs[1..];
    }
  }

  /** Where the search covers the graph, it is the naive tree search. */
  lemma SearchRefinesTreeSearch(heap: Heap, labels: Labels, root: Value)
    ensures Search(heap, labels, root, 0, {}).0 ==> TreeSearch(heap, labels, root, 0)
    ensures Covers(heap, root) ==> Search(heap, labels, root, 0, {}).0 == TreeSearch(heap, labels, root, 0)
  {
    TreeSearchIsBounded(heap, labels, root, 0);
    ExactIffCovers(heap, root);
    if Search(heap, labels, root, 0, {}).0 {
      SearchIsSound(heap, labels, root);
    }
  }

  // A failure in dictionaries

  /** A dictionary in a dictionary in a list, with the failing text as a value. */
  function NestedMappings(id: Id): Object {
    if id == 0 then Sequence([Scalar, Ref(1)])
    else if id == 1 then Mapping([Scalar, Ref(2)])
    else Mapping([Text("RELAX_FAILED")])
  }

  /** The values of dictionaries are searched, to any nesting the depth allows. */
  lemma FoundInMappings(labels: Labels)
    requires labels.text("RELAX_FAILED")
    ensures Search(NestedMappings, labels, Ref(0), 0, {}).0
  {
    var heap := NestedMappings;
    var text := Text("RELAX_FAILED");
    forall walk | IsWalk(heap, Ref(0), walk)
      ensures |walk| <= MAX_DEPTH
    {
      MappingsAreShallow(Ref(0), walk);
    }
    WalkFromParent(heap, Ref(2), text, []);
    WalkFromParent(heap, Ref(1), Ref(2), [text]);
    WalkFromParent(heap, Ref(0), Ref(1), [Ref(2)] + [text]);
    ShallowSearchIsExact(heap, labels, Ref(0));
    assert Fails(heap, labels, End(Ref(0), [Ref(1)] + ([Ref(2)] + [text])));
  }

  lemma {:induction false} MappingsAreShallow(v: Value, walk: seq<Value>)
    requires IsWalk(NestedMappings, v, walk) && (v.Ref? ==> v.id <= 2)
    ensures |walk| <= if v.Ref? then 3 - v.id else 0
    decreases |walk|
  {
    if walk != [] {
      MappingsAreShallow(walk[0], walk[1..]);
    }
  }

  // A failure that is missed

  /** A chain 0, 1, ..., 8 whose first container also holds the last one directly. */
  function ChainWithShortcut(id: Id): Object {
    if id == 0 then Sequence([Ref(1), Ref(8)])
    else if id < 8 then Sequence([Ref(id + 1)])
    else Sequence([Text("RELAX_FAILED")])
  }

  /** The containers of the chain from id on. */
  ghost function ChainFrom(id: Id): set<Id>
    decreases 9 - id
  {
    if id > 8 then {} else {id} + ChainFrom(id + 1)
  }

  lemma {:induction false} ChainIsEntered(labels: Labels, id: Id, seen: set<Id>)
    requires 1 <= id <= 8 && forall i :: id <= i <= 8 ==> i !in seen
    ensures Search(ChainWithShortcut, labels, Ref(id), id, seen) == (false, seen + ChainFrom(id))
    decreases 8 - id
  {
    var heap := ChainWithShortcut;
    var vs := Children(heap, Ref(id));
    var entered := seen + {id};
    var below := if id < 8 then (false, entered + ChainFrom(id + 1)) else (false, entered);
    assert Search(heap, labels, vs[0], id + 1, entered) == below by {
      if id < 8 { ChainIsEntered(labels, id + 1, entered); }
    }
    assert SearchAny(heap, labels, vs, id + 1, entered) == below;
    assert below.1 == seen + ChainFrom(id);
  }

  /** The failing text is two edges from the root, yet the search denies it: the container
      that holds it is first entered at depth eight, where its contents are out of bounds,
      and is skipped when it is met again at depth one. */
  lemma MissedFailure(labels: Labels)
    requires labels.text("RELAX_FAILED")
    ensures !Search(ChainWithShortcut, labels, Ref(0), 0, {}).0
    ensures FailureWithin(ChainWithShortcut, labels, Ref(0), 2)
  {
    var heap := ChainWithShortcut;
    var root: set<Id> := {} + {0};
    ChainIsEntered(labels, 1, root);
    var after := root + ChainFrom(1);
    ChainHolds(1);
    var vs := Children(heap, Ref(0));
    assert vs[0] == Ref(1) && vs[1..] == [Ref(8)] && vs[1..][1..] == [];
    assert Search(heap, labels, vs[1..][0], 1, after) == (false, after);
    assert SearchAny(heap, labels, vs[1..], 1, after) == (false, after);
    assert SearchAny(heap, labels, vs, 1, root) == (false, after);
    assert Search(heap, labels, Ref(0), 0, {}) == SearchAny(heap, labels, vs, 1, root);
    var text := Text("RELAX_FAILED");
    WalkFromParent(heap, Ref(8), text, []);
    WalkFromParent(heap, Ref(0), Ref(8), [text]);
    assert Fails(heap, labels, End(Ref(0), [Ref(8)] + [text]));
  }

  lemma {:induction false} ChainHolds(id: Id)
    requires id <= 8
    ensures 8 in ChainFrom(id)
    decreases 8 - id
  {
    if id < 8 { ChainHolds(id + 1); }
  }
}
