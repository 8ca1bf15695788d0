/** Unwrapping of MongoDB Extended JSON (mobility_agent/runtime/normalize.py:6-42). How
    float() reads a text and str() renders a value are parameters. */
module ExtendedJson {
  import opened Json
  import opened Channels
  import opened Compaction

  const NUMBER_KEYS: set<string> := {"$numberDouble", "$numberInt", "$numberLong", "$numberDecimal"}
  const OID := "$oid"
  const DATE := "$date"

  datatype Reader = Reader(parse: string -> Option<real>, render: Rendering)

  /** float(v), or v itself when that fails; it fails for None and for containers. */
  function AsNumber(reader: Reader, v: Json): Json {
    match v
    case Str(s) => (match reader.parse(s) case Some(n) => Num(n) case None => v)
    case Bool(b) => Num(if b then 1.0 else 0.0)
    case _ => v
  }

  predicate IsWrapper(j: Json) {
    j.Dict? && |j.keys| == 1 && j.keys[0] in NUMBER_KEYS + {OID, DATE}
  }

  /** normalize_mongo_extended_json */
  function Unwrapped(reader: Reader, j: Json): Json
    requires WellFormed(j)
    decreases j
  {
    match j
    case List(items) => List(seq(|items|, i requires 0 <= i < |items| => Unwrapped(reader, items[i])))
    case Dict(keys, fields) =>
      if |keys| == 1 && keys[0] in NUMBER_KEYS then AsNumber(reader, fields[keys[0]])
      else if |keys| == 1 && keys[0] == OID then Str(Show(reader.render, fields[keys[0]]))
      else if |keys| == 1 && keys[0] == DATE then Unwrapped(reader, fields[keys[0]])
      else Dict(keys, map k | k in fields :: Unwrapped(reader, fields[k]))
    case _ => j
  }

  /** A wrapper around a payload. */
  function Wrapped(key: string, payload: Json): Json {
    Dict([key], map[key := payload])
  }

  /** What the wrappers stand for: a number text for the number it spells, and for itself when
      it spells none; a number for itself; an object id for its text; a date for its unwrapped
      payload. */
  lemma WrappersMean(reader: Reader, key: string, payload: Json)
    requires WellFormed(payload)
    ensures WellFormed(Wrapped(key, payload))
    ensures var value := Unwrapped(reader, Wrapped(key, payload));
      && (key in {"$numberDouble", "$numberInt", "$numberLong", "$numberDecimal"} ==>
            && (payload.Str? && reader.parse(payload.s).Some? ==> value == Num(reader.parse(payload.s).value))
            && (payload.Str? && reader.parse(payload.s).None? ==> value == payload)
            && (payload.Num? || payload.Null? ==> value == payload)
            && (payload.Bool? ==> value == Num(if payload.b then 1.0 else 0.0)))
      && (key == "$oid" ==> value == Str(if payload.Str? then payload.s else reader.render(payload)))
      && (key == "$date" ==> value == Unwrapped(reader, payload))
  {
    assert Wrapped(key, payload).fields[key] == payload;
  }

  /** Everywhere else the value below the same keys and positions is unwrapped. */
  lemma TheRestIsUnwrapped(reader: Reader, j: Json)
    requires WellFormed(j) && !IsWrapper(j)
    ensures SameShape(reader, j, Unwrapped(reader, j))
  {
    forall i | 0 <= i < Arity(j)
      ensures WellFormed(Unwrapped(reader, Child(j, i)))
    {
      UnwrappedWellFormed(reader, Child(j, i));
    }
    ShapeKept(reader, j);
  }

  /** No wrapper at any depth. */
  ghost predicate Clean(j: Json)
    requires WellFormed(j)
  {
    !IsWrapper(j) && forall i :: 0 <= i < Arity(j) ==> Clean(Child(j, i))
  }

  /** What cannot be read as a number is handed on as it is: at every number wrapper that is
      reached it must be clean. Scalar payloads always are. */
  ghost predicate PayloadsClean(j: Json)
    requires WellFormed(j)
  {
    if !IsWrapper(j) then forall i :: 0 <= i < Arity(j) ==> PayloadsClean(Child(j, i))
    else if j.keys[0] in NUMBER_KEYS then Clean(Child(j, 0))
    else if j.keys[0] == DATE then PayloadsClean(Child(j, 0))
    else true
  }

  ghost predicate SameShape(reader: Reader, j: Json, u: Json)
    requires WellFormed(j)
  {
    && WellFormed(u) && Arity(u) == Arity(j) && !IsWrapper(u)
    && (j.Dict? <==> u.Dict?) && (j.Dict? ==> u.keys == j.keys)
    && forall i :: 0 <= i < Arity(j) ==> Child(u, i) == Unwrapped(reader, Child(j, i))
  }

  /** Everything but a wrapper keeps its shape. */
  lemma ShapeKept(reader: Reader, j: Json)
    requires WellFormed(j) && !IsWrapper(j)
    requires forall i :: 0 <= i < Arity(j) ==> WellFormed(Unwrapped(reader, Child(j, i)))
    ensures SameShape(reader, j, Unwrapped(reader, j))
  {
    var u := Unwrapped(reader, j);
    if j.List? {
      assert forall i :: 0 <= i < Arity(j) ==> u.items[i] == Unwrapped(reader, Child(j, i));
    }
    if j.Dict? {
      forall k | k in j.fields
        ensures WellFormed(u.fields[k])
      {
        var i :| 0 <= i < |j.keys| && j.keys[i] == k;
        assert Child(j, i) == j.fields[k];
      }
    }
  }

  lemma {:induction false} UnwrappedWellFormed(reader: Reader, j: Json)
    requires WellFormed(j)
    ensures WellFormed(Unwrapped(reader, j))
    decreases j
  {
    forall i | 0 <= i < Arity(j)
      ensures WellFormed(Unwrapped(reader, Child(j, i)))
    {
      UnwrappedWellFormed(reader, Child(j, i));
    }
    if !IsWrapper(j) {
      ShapeKept(reader, j);
    } else {
      assert Child(j, 0) == j.fields[j.keys[0]];
    }
  }

  /** The result is free of wrappers exactly when the payloads of the number wrappers allow
      it. */
  lemma {:induction false} CleanIffPayloadsClean(reader: Reader, j: Json)
    requires WellFormed(j)
    ensures WellFormed(Unwrapped(reader, j))
    ensures Clean(Unwrapped(reader, j)) <==> PayloadsClean(j)
    decreases j
  {
    UnwrappedWellFormed(reader, j);
    forall i | 0 <= i < Arity(j)
      ensures WellFormed(Unwrapped(reader, Child(j, i)))
      ensures Clean(Unwrapped(reader, Child(j, i))) <==> PayloadsClean(Child(j, i))
    {
      CleanIffPayloadsClean(reader, Child(j, i));
    }
    if !IsWrapper(j) {
      ShapeKept(reader, j);
    } else {
      assert Child(j, 0) == j.fields[j.keys[0]];
    }
  }

  lemma {:induction false} NodesCompare(a: Json, b: Json, n: nat)
    requires WellFormed(a) && WellFormed(b) && n <= Arity(a) && n <= Arity(b)
    requires forall i :: 0 <= i < n ==> Nodes(Child(a, i)) <= Nodes(Child(b, i))
    ensures NodesBefore(a, n) <= NodesBefore(b, n)
    decreases n
  {
    if n > 0 {
      NodesCompare(a, b, n - 1);
    }
  }

  /** Unwrapping never grows a value, and every wrapper shrinks it. */
  lemma {:induction false} UnwrappedShrinks(reader: Reader, j: Json)
    requires WellFormed(j)
    ensures WellFormed(Unwrapped(reader, j))
    ensures Nodes(Unwrapped(reader, j)) <= Nodes(j)
    ensures IsWrapper(j) ==> Nodes(Unwrapped(reader, j)) < Nodes(j)
    decreases j
  {
    UnwrappedWellFormed(reader, j);
    forall i | 0 <= i < Arity(j)
      ensures WellFormed(Unwrapped(reader, Child(j, i)))
      ensures Nodes(Unwrapped(reader, Child(j, i))) <= Nodes(Child(j, i))
    {
      UnwrappedShrinks(reader, Child(j, i));
    }
    if !IsWrapper(j) {
      ShapeKept(reader, j);
      NodesCompare(Unwrapped(reader, j), j, Arity(j));
    } else {
      var payload := Child(j, 0);
      assert payload == j.fields[j.keys[0]];
      assert Nodes(j) == 1 + (NodesBefore(j, 0) + Nodes(payload));
      assert Nodes(AsNumber(reader, payload)) <= Nodes(payload);
    }
  }

  /** The fixed points are the clean values. */
  lemma {:induction false} FixedIffClean(reader: Reader, j: Json)
    requires WellFormed(j)
    ensures Unwrapped(reader, j) == j <==> Clean(j)
    decreases j
  {
    if IsWrapper(j) {
      UnwrappedShrinks(reader, j);
    } else {
      forall i | 0 <= i < Arity(j)
        ensures WellFormed(Unwrapped(reader, Child(j, i)))
        ensures Unwrapped(reader, Child(j, i)) == Child(j, i) <==> Clean(Child(j, i))
      {
        UnwrappedWellFormed(reader, Child(j, i));
        FixedIffClean(reader, Child(j, i));
      }
      ShapeKept(reader, j);
      if Clean(j) && (j.List? || j.Dict?) {
        ChildrenDecide(j, Unwrapped(reader, j));
      }
    }
  }

  lemma ChildrenDecide(a: Json, b: Json)
    requires WellFormed(a) && WellFormed(b) && (a.List? || a.Dict?)
    requires Arity(a) == Arity(b) && (a.List? <==> b.List?) && (a.Dict? <==> b.Dict?) && (a.Dict? ==> a.keys == b.keys)
    requires forall i :: 0 <= i < Arity(a) ==> Child(a, i) == Child(b, i)
    ensures a == b
  {
    if a.List? {
      assert forall i :: 0 <= i < |a.items| ==> a.items[i] == Child(a, i) == Child(b, i) == b.items[i];
    } else {
      forall k | k in a.fields
        ensures a.fields[k] == b.fields[k]
      {
        var i :| 0 <= i < |a.keys| && a.keys[i] == k;
        assert Child(a, i) == Child(b, i);
      }
      assert a.fields.Keys == b.fields.Keys by {
        assert forall k :: k in a.fields <==> k in a.keys;
        assert forall k :: k in b.fields <==> k in b.keys;
      }
      assert a.fields == b.fields;
    }
  }

  /** Unwrapping is idempotent exactly on the values it leaves without wrappers. */
  lemma IdempotentIffPayloadsClean(reader: Reader, j: Json)
    requires WellFormed(j)
    ensures WellFormed(Unwrapped(reader, j))
    ensures Unwrapped(reader, Unwrapped(reader, j)) == Unwrapped(reader, j) <==> PayloadsClean(j)
  {
    CleanIffPayloadsClean(reader, j);
    FixedIffClean(reader, Unwrapped(reader, j));
  }

  /** Number payloads that are scalars always allow it. */
  ghost predicate ScalarNumbers(j: Json)
    requires WellFormed(j)
  {
    && (IsWrapper(j) && j.keys[0] in NUMBER_KEYS ==> Arity(Child(j, 0)) == 0 && !Child(j, 0).Dict?)
    && forall i :: 0 <= i < Arity(j) ==> ScalarNumbers(Child(j, i))
  }

  lemma {:induction false} ScalarsUnwrap(reader: Reader, j: Json)
    requires WellFormed(j) && ScalarNumbers(j)
    ensures PayloadsClean(j)
    decreases j
  {
    forall i | 0 <= i < Arity(j)
      ensures PayloadsClean(Child(j, i))
    {
      ScalarsUnwrap(reader, Child(j, i));
    }
  }
}
