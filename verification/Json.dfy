/** JSON documents and the matching rule that decides whether a command's
    output satisfies a check. */
module Json {
  import opened Wrappers

  /** A parsed document. Numbers keep Python's distinction between `int` and `float`. */
  datatype Json =
    | Null
    | Bool(flag: bool)
    | Int(number: int)
    | Float(value: real)
    | Str(text: string)
    | Arr(items: seq<Json>)
    | Obj(fields: map<string, Json>)

  /** Explicit object fields must match; every wanted list record must be matched
      by some item; an empty wanted list accepts only an empty list; anything
      else must have the same type and value. */
  predicate Matches(value: Json, expected: Json)
    decreases expected
  {
    match expected
    case Obj(wanted) =>
      value.Obj? && forall k | k in wanted :: k in value.fields && Matches(value.fields[k], wanted[k])
    case Arr(wanted) =>
      value.Arr? &&
      if wanted == [] then value.items == []
      else forall w | w in wanted :: exists item | item in value.items :: Matches(item, w)
    case _ => value == expected
  }

  /** Every document satisfies itself as an expectation. */
  lemma {:induction false} MatchesReflexive(v: Json)
    ensures Matches(v, v)
  {
    match v
    case Obj(fields) =>
      forall k | k in fields ensures Matches(fields[k], fields[k]) {
        MatchesReflexive(fields[k]);
      }
    case Arr(items) =>
      forall w | w in items ensures exists item | item in items :: Matches(item, w) {
        MatchesReflexive(w);
      }
    case _ =>
  }

  /** A document that satisfies a stronger expectation satisfies every weaker one. */
  lemma {:induction false} MatchesTransitive(a: Json, b: Json, c: Json)
    requires Matches(a, b) && Matches(b, c)
    ensures Matches(a, c)
    decreases c
  {
    match c
    case Obj(wanted) =>
      forall k | k in wanted ensures k in a.fields && Matches(a.fields[k], wanted[k]) {
        MatchesTransitive(a.fields[k], b.fields[k], wanted[k]);
      }
    case Arr(wanted) =>
      if wanted != [] {
        forall w | w in wanted ensures exists item | item in a.items :: Matches(item, w) {
          var middle :| middle in b.items && Matches(middle, w);
          var item :| item in a.items && Matches(item, middle);
          MatchesTransitive(item, middle, w);
        }
      }
    case _ =>
  }

  /** Matching is not symmetric and does not determine the document: an extra
      field or an extra list record is always accepted. */
  lemma MatchesAllowsExtras(v: map<string, Json>, k: string, extra: Json, items: seq<Json>)
    requires k !in v && items != []
    ensures Matches(Obj(v[k := extra]), Obj(v)) && !Matches(Obj(v), Obj(v[k := extra]))
    ensures Matches(Arr(items + [extra]), Arr(items))
  {
    forall j | j in v ensures Matches(v[j], v[j]) {
      MatchesReflexive(v[j]);
    }
    forall w | w in items ensures exists item | item in items + [extra] :: Matches(item, w) {
      MatchesReflexive(w);
      assert w in items + [extra];
    }
    assert k in v[k := extra];
  }

  // ---- matching, told by what stands at each path of object fields ----

  function Lookup(v: Json, path: seq<string>): Option<Json> {
    if path == [] then Some(v)
    else if v.Obj? && path[0] in v.fields then Lookup(v.fields[path[0]], path[1..])
    else None
  }

  /** What the expectation asks of a value where it stands: an object, a list that is empty or
      has a matching item for every wanted one, or exactly this value. */
  ghost predicate Fits(value: Json, wanted: Json) {
    if wanted.Obj? then value.Obj?
    else if wanted.Arr? then
      && value.Arr? && (wanted.items == [] ==> value.items == [])
      && forall w | w in wanted.items :: exists item | item in value.items :: Matches(item, w)
    else value == wanted
  }

  ghost predicate FitsEverywhere(value: Json, expected: Json) {
    forall path | Lookup(expected, path).Some? ::
      Lookup(value, path).Some? && Fits(Lookup(value, path).value, Lookup(expected, path).value)
  }

  lemma {:induction false} MatchesDown(value: Json, expected: Json, path: seq<string>)
    requires Matches(value, expected) && Lookup(expected, path).Some?
    ensures Lookup(value, path).Some? && Fits(Lookup(value, path).value, Lookup(expected, path).value)
    decreases |path|
  {
    if path != [] {
      MatchesDown(value.fields[path[0]], expected.fields[path[0]], path[1..]);
    }
  }

  /** A document matches exactly if, wherever the expectation's objects lead, it has what is
      asked for there: every text, number, flag and null as it is. */
  lemma {:induction false} MatchesByPath(value: Json, expected: Json)
    ensures Matches(value, expected) <==> FitsEverywhere(value, expected)
    decreases expected
  {
    if Matches(value, expected) {
      forall path | Lookup(expected, path).Some?
        ensures Lookup(value, path).Some? && Fits(Lookup(value, path).value, Lookup(expected, path).value)
      {
        MatchesDown(value, expected, path);
      }
    }
    if FitsEverywhere(value, expected) {
      assert Lookup(expected, []) == Some(expected) && Lookup(value, []) == Some(value);
      if expected.Obj? {
        forall k | k in expected.fields ensures k in value.fields && Matches(value.fields[k], expected.fields[k]) {
          FieldFits(value, expected, k);
          MatchesByPath(value.fields[k], expected.fields[k]);
        }
      }
    }
  }

  lemma FieldFits(value: Json, expected: Json, k: string)
    requires FitsEverywhere(value, expected) && expected.Obj? && k in expected.fields
    ensures value.Obj? && k in value.fields && FitsEverywhere(value.fields[k], expected.fields[k])
  {
    assert Lookup(expected, []).Some?;
    assert [k][1..] == [];
    assert Lookup(expected, [k]).Some?;
    forall path | Lookup(expected.fields[k], path).Some?
      ensures Lookup(value.fields[k], path).Some?
              && Fits(Lookup(value.fields[k], path).value, Lookup(expected.fields[k], path).value)
    {
      assert ([k] + path)[1..] == path;
      assert Lookup(expected, [k] + path) == Lookup(expected.fields[k], path);
    }
  }
}
