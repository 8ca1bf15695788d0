/** Order-preserving removal of repeated items, the list discipline under the whole state
    (mobility_agent/utils.py:10-27).

    An item is identified by its marker: the item itself when it is hashable, its repr
    otherwise. Nothing here depends on which marker is used, so it is a parameter; in
    particular two different items may share one. */
module Dedupe {

  ghost function Markers<T, M>(items: seq<T>, marker: T -> M): set<M> {
    set i | 0 <= i < |items| :: marker(items[i])
  }

  function DedupeFrom<T, M(==)>(items: seq<T>, marker: T -> M, seen: set<M>): seq<T> {
    if items == [] then []
    else if marker(items[0]) in seen then DedupeFrom(items[1..], marker, seen)
    else [items[0]] + DedupeFrom(items[1..], marker, seen + {marker(items[0])})
  }

  /** The specification of dedupe_keep_order. */
  function Deduped<T, M(==)>(items: seq<T>, marker: T -> M): seq<T> {
    DedupeFrom(items, marker, {})
  }

  /** No earlier item carries the marker of item i. */
  ghost predicate IsFirst<T, M>(items: seq<T>, marker: T -> M, i: nat)
    requires i < |items|
  {
    forall j :: 0 <= j < i ==> marker(items[j]) != marker(items[i])
  }

  /** Reference definition: the items at the positions that are the first of their marker. */
  ghost function FirstsBefore<T, M(!new)>(items: seq<T>, marker: T -> M, n: nat): seq<T>
    requires n <= |items|
  {
    if n == 0 then []
    else FirstsBefore(items, marker, n - 1) + if IsFirst(items, marker, n - 1) then [items[n - 1]] else []
  }

  ghost predicate NoRepeats<T, M>(items: seq<T>, marker: T -> M) {
    forall i, j :: 0 <= i < j < |items| ==> marker(items[i]) != marker(items[j])
  }

  method DedupeKeepOrder<T, M(==, !new)>(items: seq<T>, marker: T -> M) returns (result: seq<T>)
    ensures result == Deduped(items, marker)
    ensures result == FirstsBefore(items, marker, |items|)
  {
    var seen: set<M> := {};
    result := [];
    for i := 0 to |items|
      invariant seen == Markers(items[..i], marker)
      invariant result == DedupeFrom(items[..i], marker, {})
      invariant result == FirstsBefore(items, marker, i)
    {
      var m := marker(items[i]);
      assert items[..i + 1] == items[..i] + [items[i]];
      DedupeConcat(items[..i], [items[i]], marker, {});
      assert m in seen <==> !IsFirst(items, marker, i) by {
        if m in seen {
          var j :| 0 <= j < i && marker(items[..i][j]) == m;
          assert marker(items[j]) == marker(items[i]);
        } else {
          assert forall j :: 0 <= j < i ==> items[..i][j] == items[j];
        }
      }
      MarkersConcat(items[..i], [items[i]], marker);
      if m !in seen {
        seen := seen + {m};
        result := result + [items[i]];
      }
    }
    assert items[..|items|] == items;
  }

  /** What is kept are the firsts of their marker. */
  lemma {:induction false} DedupedAreFirsts<T, M(!new)>(items: seq<T>, marker: T -> M, n: nat)
    requires n <= |items|
    ensures Deduped(items[..n], marker) == FirstsBefore(items, marker, n)
  {
    if n > 0 {
      DedupedAreFirsts(items, marker, n - 1);
      var before, last := items[..n - 1], items[n - 1];
      assert items[..n] == before + [last];
      DedupeConcat(before, [last], marker, {});
      assert marker(last) in Markers(before, marker) <==> !IsFirst(items, marker, n - 1) by {
        if marker(last) in Markers(before, marker) {
          var j :| 0 <= j < n - 1 && marker(before[j]) == marker(last);
          assert marker(items[j]) == marker(items[n - 1]);
        } else {
          assert forall j :: 0 <= j < n - 1 ==> before[j] == items[j];
        }
      }
      assert [last][1..] == [];
    }
  }

  lemma MarkersConcat<T, M>(a: seq<T>, b: seq<T>, marker: T -> M)
    ensures Markers(a + b, marker) == Markers(a, marker) + Markers(b, marker)
  {
    forall m | m in Markers(a, marker) + Markers(b, marker)
      ensures m in Markers(a + b, marker)
    {
      if m in Markers(a, marker) {
        var i :| 0 <= i < |a| && marker(a[i]) == m;
        assert (a + b)[i] == a[i];
      } else {
        var i :| 0 <= i < |b| && marker(b[i]) == m;
        assert (a + b)[|a| + i] == b[i];
      }
    }
  }

  lemma MarkersSplit<T, M>(a: seq<T>, marker: T -> M)
    requires a != []
    ensures Markers(a, marker) == {marker(a[0])} + Markers(a[1..], marker)
  {
    assert a == [a[0]] + a[1..];
    MarkersConcat([a[0]], a[1..], marker);
  }

  lemma {:induction false} DedupeConcat<T, M>(a: seq<T>, b: seq<T>, marker: T -> M, seen: set<M>)
    ensures DedupeFrom(a + b, marker, seen)
         == DedupeFrom(a, marker, seen) + DedupeFrom(b, marker, seen + Markers(a, marker))
  {
    if a == [] {
      assert a + b == b;
      assert seen + Markers(a, marker) == seen;
    } else {
      var m := marker(a[0]);
      assert (a + b)[1..] == a[1..] + b;
      MarkersSplit(a, marker);
      var seen' := if m in seen then seen else seen + {m};
      DedupeConcat(a[1..], b, marker, seen');
      assert seen' + Markers(a[1..], marker) == seen + Markers(a, marker);
    }
  }

  /** Two passes remove what one pass with both sets of seen markers removes. */
  lemma {:induction false} DedupeTwice<T, M>(a: seq<T>, marker: T -> M, first: set<M>, second: set<M>)
    ensures DedupeFrom(DedupeFrom(a, marker, first), marker, second) == DedupeFrom(a, marker, first + second)
  {
    if a != [] {
      var m := marker(a[0]);
      if m in first {
        DedupeTwice(a[1..], marker, first, second);
      } else {
        DedupeTwice(a[1..], marker, first + {m}, if m in second then second else second + {m});
        if m in second {
          assert first + {m} + second == first + second;
        } else {
          assert first + {m} + (second + {m}) == first + second + {m};
        }
      }
    }
  }

  lemma {:induction false} MarkersOfDeduped<T, M>(a: seq<T>, marker: T -> M, seen: set<M>)
    ensures Markers(DedupeFrom(a, marker, seen), marker) == Markers(a, marker) - seen
    ensures NoRepeats(DedupeFrom(a, marker, seen), marker)
  {
    if a != [] {
      var m := marker(a[0]);
      MarkersSplit(a, marker);
      if m in seen {
        MarkersOfDeduped(a[1..], marker, seen);
      } else {
        var rest := DedupeFrom(a[1..], marker, seen + {m});
        MarkersOfDeduped(a[1..], marker, seen + {m});
        var d := DedupeFrom(a, marker, seen);
        MarkersSplit(d, marker);
        assert d[1..] == rest;
        forall i, j | 0 <= i < j < |d|
          ensures marker(d[i]) != marker(d[j])
        {
          assert marker(rest[j - 1]) in Markers(rest, marker);
          assert d[j] == rest[j - 1];
          if i > 0 { assert d[i] == rest[i - 1]; }
        }
      }
    }
  }

  /** The law the append fields of the state rest on: it does not matter whether the left
      part, the right part or neither was deduplicated before the lists were joined. */
  lemma DedupeAssociates<T, M>(a: seq<T>, b: seq<T>, marker: T -> M)
    ensures Deduped(Deduped(a, marker) + b, marker) == Deduped(a + b, marker)
    ensures Deduped(a + Deduped(b, marker), marker) == Deduped(a + b, marker)
  {
    var d := Deduped(a, marker);
    DedupeConcat(a, b, marker, {});
    DedupeConcat(d, b, marker, {});
    DedupeTwice(a, marker, {}, {});
    MarkersOfDeduped(a, marker, {});
    DedupeConcat(a, Deduped(b, marker), marker, {});
    DedupeTwice(b, marker, {}, {} + Markers(a, marker));
    var none: set<M> := {};
    assert none + none == none;
    assert none + Markers(d, marker) == none + Markers(a, marker);
    assert none + (none + Markers(a, marker)) == none + Markers(a, marker);
  }

  /** A list survives unchanged exactly when no marker occurs twice in it. */
  lemma {:induction false} DedupeFixedPoint<T, M>(a: seq<T>, marker: T -> M, seen: set<M>)
    ensures DedupeFrom(a, marker, seen) == a <==> NoRepeats(a, marker) && Markers(a, marker) !! seen
  {
    MarkersOfDeduped(a, marker, seen);
    if NoRepeats(a, marker) && Markers(a, marker) !! seen {
      if a != [] {
        MarkersSplit(a, marker);
        assert marker(a[0]) !in Markers(a[1..], marker) by {
          forall i | 0 <= i < |a[1..]|
            ensures marker(a[1..][i]) != marker(a[0])
          {
            assert a[1..][i] == a[i + 1];
          }
        }
        assert NoRepeats(a[1..], marker) by {
          forall i, j | 0 <= i < j < |a[1..]|
            ensures marker(a[1..][i]) != marker(a[1..][j])
          {
            assert a[1..][i] == a[i + 1] && a[1..][j] == a[j + 1];
          }
        }
        DedupeFixedPoint(a[1..], marker, seen + {marker(a[0])});
      }
    }
  }

  /** Appending a list a second time adds nothing. */
  lemma DedupeAbsorbs<T, M>(a: seq<T>, b: seq<T>, marker: T -> M)
    ensures Deduped(Deduped(a + b, marker) + b, marker) == Deduped(a + b, marker)
  {
    DedupeAssociates(a + b, b, marker);
    DedupeConcat(a + b, b, marker, {});
    MarkersConcat(a, b, marker);
    DedupeAllSeen(b, marker, {} + Markers(a + b, marker));
  }

  lemma {:induction false} DedupeAllSeen<T, M>(a: seq<T>, marker: T -> M, seen: set<M>)
    requires Markers(a, marker) <= seen
    ensures DedupeFrom(a, marker, seen) == []
  {
    if a != [] {
      MarkersSplit(a, marker);
      DedupeAllSeen(a[1..], marker, seen);
    }
  }
}
