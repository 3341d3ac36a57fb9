/** The answers the tools build from a reply: the one-value answer of a creation, the flag
    answer of a mutation, and the counted list answers with their `limit` cut. */
module Envelopes {
  import opened Wrappers
  import opened Json
  import opened PyOps
  import opened Protocol
  import opened Client

  /** A reply's first element, or `absent` when the reply is empty, under `key`. */
  function FirstOrEnvelope(v: Json, key: string, absent: Json, extra: Fields): (r: Result<Json>)
    ensures r.Ok? ==> IsEnvelope(r.value) && Succeeded(r.value)
    ensures !Truthy(v) ==> r == Ok(Success([(key, absent)] + extra))
    ensures v.JArr? && v.items != [] ==> r == Ok(Success([(key, v.items[0])] + extra))
  {
    var first :- FirstOr(v, absent);
    Ok(Success([(key, first)] + extra))
  }

  /** A mutation's envelope: `success` is the remote flag, and the message follows it. */
  function MutationEnvelope(flag: Json, echo: Fields, yes: string, no: string): (r: Result<Json>)
    ensures r.Ok? && IsEnvelope(r.value)
    ensures Succeeded(r.value) <==> Truthy(flag)
    ensures r.value.fields[1..] == echo + [("message", JStr(if Truthy(flag) then yes else no))]
  {
    Ok(Reported(Truthy(flag), echo + [("message", Pick(Truthy(flag), yes, no))]))
  }

  /** `if limit > 0: items = items[:limit]`. */
  function Cut(v: Json, limit: int): (r: Result<Json>)
    ensures limit <= 0 ==> r == Ok(v)
    ensures v.JArr? ==> r == Ok(JArr(Limited(v.items, limit)))
    ensures limit > 0 && !v.JArr? && !v.JStr? ==> r.Err?
    ensures v.JStr? ==> r == Ok(JStr(Limited(v.s, limit)))
  {
    if limit > 0 then SliceTo(v, limit) else Ok(v)
  }

  /** `if limit > 0 and items: items = items[:limit]`: an empty answer is left alone. */
  function CutIfAny(v: Json, limit: int): (r: Result<Json>)
    ensures limit <= 0 || !Truthy(v) ==> r == Ok(v)
    ensures v.JArr? ==> r == Ok(JArr(Limited(v.items, limit)))
    ensures limit > 0 && Truthy(v) && !v.JArr? && !v.JStr? ==> r.Err?
    ensures v.JStr? ==> r == Ok(JStr(Limited(v.s, limit)))
  {
    if limit > 0 && Truthy(v) then SliceTo(v, limit) else Ok(v)
  }

  /** The `count` entry of an answer is the length of what it lists under `key`. */
  predicate CountMatches(j: Json, key: string)
  {
    j.JObj? && Lookup(j.fields, key).Some? && Len(Lookup(j.fields, key).value).Ok? &&
    Lookup(j.fields, "count") == Some(JInt(Len(Lookup(j.fields, key).value).value))
  }

  /** `{"success": True, "count": len(items), key: items}` after the unguarded cut: the
      answer of the task and CRM list tools. A dict reply fails the cut when `limit` is
      positive, and None, a bool or an int fail `len` or the cut. */
  function CountedList(v: Json, key: string, limit: int): (r: Result<Json>)
    requires key != "success" && key != "count"
    ensures r.Ok? ==> IsEnvelope(r.value) && Succeeded(r.value) && CountMatches(r.value, key)
    ensures v.JArr? ==> r == Ok(Success([("count", JInt(|Limited(v.items, limit)|)), (key, JArr(Limited(v.items, limit)))]))
    ensures v.JObj? ==> (r.Err? <==> limit > 0)
    ensures v.JNull? || v.JBool? || v.JInt? ==> r.Err?
  {
    var shown :- Cut(v, limit);
    var n :- Len(shown);
    var fields := [("success", JBool(true)), ("count", JInt(n)), (key, shown)];
    assert Lookup(fields[1..][1..], key) == Some(shown);
    assert Lookup(fields[1..], key) == Some(shown);
    Ok(Success([("count", JInt(n)), (key, shown)]))
  }

  /** `len(items) if items else 0` and `items if items else []` after the guarded cut: the
      count and the list of the project list tools. */
  function GuardedList(v: Json, limit: int): (r: Result<(int, Json)>)
    ensures r.Ok? ==> Len(r.value.1) == Ok(r.value.0)
    ensures !Truthy(v) ==> r == Ok((0, JArr([])))
    ensures v.JArr? ==> r == Ok((|Limited(v.items, limit)|, JArr(Limited(v.items, limit))))
    ensures v.JObj? && Truthy(v) ==> (r.Err? <==> limit > 0)
    ensures (v.JBool? || v.JInt?) && Truthy(v) ==> r.Err?
  {
    var shown :- CutIfAny(v, limit);
    var n :- if Truthy(shown) then Len(shown) else Ok(0);
    Ok((n, if Truthy(shown) then shown else JArr([])))
  }
}
