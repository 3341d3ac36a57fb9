/** The Python operations the tools apply to values whose shape they do not check
    (`x[0]`, `len(x)`, `x[:n]`, `x.get(k, d)`, `k in x`, `x[k]`, `x[k] = v`, `x.pop(k)`,
    `{**d, **x}`, `int(x)`), each giving the value or the text of the exception Python
    raises. */
module PyOps {
  import opened Wrappers
  import opened Text
  import opened Json

  /** `s[:n]` for a positive `n`. */
  function Take<T>(s: seq<T>, n: int): (r: seq<T>)
    requires n > 0
    ensures |r| == if n < |s| then n else |s|
    ensures r <= s
  {
    if n < |s| then s[..n] else s
  }

  /** A tool's `limit` argument: a positive limit keeps that many items, zero or a
      negative limit keeps them all. */
  function Limited<T>(s: seq<T>, limit: int): (r: seq<T>)
    ensures r <= s
    ensures limit > 0 ==> |r| == if limit < |s| then limit else |s|
    ensures limit <= 0 ==> r == s
  {
    if limit > 0 then Take(s, limit) else s
  }

  /** `x[0]`. */
  function Index0(x: Json): Result<Json>
  {
    match x
    case JArr(items) => if items == [] then Err("list index out of range") else Ok(items[0])
    case JStr(s) => if s == [] then Err("string index out of range") else Ok(JStr([s[0]]))
    case JObj(_) => Err("0")
    case _ => Err("'" + TypeName(x) + "' object is not subscriptable")
  }

  /** `len(x)`. */
  function Len(x: Json): Result<int>
  {
    match x
    case JArr(items) => Ok(|items|)
    case JStr(s) => Ok(|s|)
    case JObj(fields) => Ok(|fields|)
    case _ => Err("object of type '" + TypeName(x) + "' has no len()")
  }

  /** `x[:n]` for a positive `n`. */
  function SliceTo(x: Json, n: int): Result<Json>
    requires n > 0
  {
    match x
    case JArr(items) => Ok(JArr(Take(items, n)))
    case JStr(s) => Ok(JStr(Take(s, n)))
    case JObj(_) => Err("unhashable type: 'slice'")
    case _ => Err("'" + TypeName(x) + "' object is not subscriptable")
  }

  /** `x.get(key, default)`. */
  function DictGet(x: Json, key: string, default: Json): Result<Json>
  {
    if x.JObj? then
      var v := Lookup(x.fields, key);
      Ok(if v.Some? then v.value else default)
    else Err("'" + TypeName(x) + "' object has no attribute 'get'")
  }

  /** `key in x` for a string key. */
  function Contains(x: Json, key: string): Result<bool>
  {
    match x
    case JObj(fields) => Ok(HasKey(fields, key))
    case JArr(items) => Ok(JStr(key) in items)
    case JStr(s) => Ok(Occurs(key, s))
    case _ => Err("argument of type '" + TypeName(x) + "' is not iterable")
  }

  /** `x[key]` for a string key. */
  function GetItem(x: Json, key: string): Result<Json>
  {
    match x
    case JObj(fields) =>
      var v := Lookup(fields, key);
      if v.Some? then Ok(v.value) else Err("'" + key + "'")
    case JArr(_) => Err("list indices must be integers or slices, not str")
    case JStr(_) => Err("string indices must be integers, not 'str'")
    case _ => Err("'" + TypeName(x) + "' object is not subscriptable")
  }

  /** `x[key] = v`, giving the updated container. */
  function SetItem(x: Json, key: string, v: Json): Result<Json>
  {
    match x
    case JObj(fields) => Ok(JObj(Put(fields, key, v)))
    case JArr(_) => Err("list indices must be integers or slices, not str")
    case _ => Err("'" + TypeName(x) + "' object does not support item assignment")
  }

  /** `x.pop(key)`, giving the popped value and the container after. */
  function Pop(x: Json, key: string): Result<(Json, Json)>
  {
    match x
    case JObj(fields) =>
      var v := Lookup(fields, key);
      if v.Some? then Ok((v.value, JObj(Remove(fields, key)))) else Err("'" + key + "'")
    case JArr(_) => Err("'str' object cannot be interpreted as an integer")
    case _ => Err("'" + TypeName(x) + "' object has no attribute 'pop'")
  }

  /** `{**base, **x}`. */
  function Spread(base: Fields, x: Json): Result<Json>
  {
    if x.JObj? then Ok(JObj(PutAll(base, x.fields)))
    else Err("'" + TypeName(x) + "' object is not a mapping")
  }

  /** `int(x)`, or None where Python raises TypeError or ValueError. */
  function IntOf(x: Json): Option<int>
  {
    match x
    case JInt(i) => Some(i)
    case JBool(b) => Some(if b then 1 else 0)
    case JStr(s) => ParseInt(s)
    case _ => None
  }

  /** The ValueError text of `int(s)` on a string that is not a numeral. */
  function BadIntLiteral(s: string): string
  {
    "invalid literal for int() with base 10: '" + s + "'"
  }
}
