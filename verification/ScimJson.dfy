// SCIM resources as JSON values.

module ScimJson {
  datatype Json = Null | Bool(b: bool) | Num(n: int) | Str(s: string) | Arr(items: seq<Json>) | Obj(fields: map<string,
    Json>)

  function StripNulls(v: Json): Json {
    match v
    case Arr(items) => Arr(seq(|items|, i requires 0 <= i < |items| => StripNulls(items[i])))
    case Obj(fields) => Obj(map k | k in fields && fields[k] != Null :: StripNulls(fields[k]))
    case Null => v
    case Bool(_) => v
    case Num(_) => v
    case Str(_) => v
  }

  /** No object in the value holds a null; arrays may. */
  predicate Clean(v: Json) {
    match v
    case Arr(items) => forall i :: 0 <= i < |items| ==> Clean(items[i])
    case Obj(fields) => forall k :: k in fields ==> fields[k] != Null && Clean(fields[k])
    case Null => true
    case Bool(_) => true
    case Num(_) => true
    case Str(_) => true
  }

  /** Stripping leaves no null field, and changes exactly the values that had one. */
  lemma {:induction false} StripsExactlyTheNulls(v: Json)
    ensures Clean(StripNulls(v))
    ensures StripNulls(v) == v <==> Clean(v)
    ensures StripNulls(v) == Null <==> v == Null
  {
    match v
    case Arr(items) =>
      forall i | 0 <= i < |items|
        ensures Clean(StripNulls(items[i])) && (StripNulls(items[i]) == items[i] <==> Clean(items[i]))
      {
        StripsExactlyTheNulls(items[i]);
      }
      var stripped := StripNulls(v).items;
      assert forall i :: 0 <= i < |items| ==> stripped[i] == StripNulls(items[i]);
    case Obj(fields) =>
      forall k | k in fields && fields[k] != Null
        ensures Clean(StripNulls(fields[k])) && (StripNulls(fields[k]) == fields[k] <==> Clean(fields[k]))
        ensures StripNulls(fields[k]) != Null
      {
        StripsExactlyTheNulls(fields[k]);
      }
      var stripped := StripNulls(v).fields;
      assert forall k :: k in stripped ==> k in fields && stripped[k] == StripNulls(fields[k]);
      if stripped == fields {
        assert forall k :: k in fields ==> k in stripped && stripped[k] == fields[k];
      }
    case Null =>
    case Bool(_) =>
    case Num(_) =>
    case Str(_) =>
  }

  type Body = map<string, Json>

  datatype Kind = Users | Groups
}
