/** JSON values as Python holds them after `json.loads`: None, bool, int, str, list and
    dict. A dict is an association list in insertion order, as Python keeps it. */
module Json {
  import opened Wrappers
  import opened Text

  datatype Json =
    | JNull
    | JBool(b: bool)
    | JInt(i: int)
    | JStr(s: string)
    | JArr(items: seq<Json>)
    | JObj(fields: seq<(string, Json)>)

  type Fields = seq<(string, Json)>

  /** Python truthiness: None, False, 0, "", [] and {} are false, everything else true. */
  predicate Truthy(j: Json)
  {
    match j
    case JNull => false
    case JBool(b) => b
    case JInt(i) => i != 0
    case JStr(s) => s != []
    case JArr(items) => items != []
    case JObj(fields) => fields != []
  }

  /** Truthiness of an optional Python string argument. */
  predicate Given(s: Option<string>)
  {
    s.Some? && s.value != []
  }

  /** Python's `type(x).__name__`. */
  function TypeName(j: Json): string
  {
    match j
    case JNull => "NoneType"
    case JBool(_) => "bool"
    case JInt(_) => "int"
    case JStr(_) => "str"
    case JArr(_) => "list"
    case JObj(_) => "dict"
  }

  // ---------------------------------------------------------------- dictionaries

  /** `d.get(k)`: the value stored under `k`, if any. */
  function Lookup(d: Fields, k: string): Option<Json>
    decreases |d|
  {
    if d == [] then None
    else if d[0].0 == k then Some(d[0].1)
    else Lookup(d[1..], k)
  }

  predicate HasKey(d: Fields, k: string)
  {
    Lookup(d, k).Some?
  }

  /** `d[k] = v`: an existing key keeps its place, a new key goes last. */
  function Put(d: Fields, k: string, v: Json): Fields
    decreases |d|
  {
    if d == [] then [(k, v)]
    else if d[0].0 == k then [(k, v)] + d[1..]
    else [d[0]] + Put(d[1..], k, v)
  }

  /** `d.pop(k)` without the popped value. */
  function Remove(d: Fields, k: string): Fields
    decreases |d|
  {
    if d == [] then []
    else if d[0].0 == k then Remove(d[1..], k)
    else [d[0]] + Remove(d[1..], k)
  }

  /** `{**d, **f}`: the entries of `f` stored into `d` one by one. */
  function PutAll(d: Fields, f: Fields): Fields
    decreases |f|
  {
    if f == [] then d else PutAll(Put(d, f[0].0, f[0].1), f[1..])
  }

  /** What `json.loads` and dict literals always produce: no key twice. */
  predicate DistinctKeys(d: Fields)
  {
    forall i, j :: 0 <= i < j < |d| ==> d[i].0 != d[j].0
  }

  /** After `d[k] = v`, `k` holds `v` and every other key is untouched. */
  lemma {:induction false} LookupPut(d: Fields, k: string, v: Json, k': string)
    ensures Lookup(Put(d, k, v), k') == if k' == k then Some(v) else Lookup(d, k')
    decreases |d|
  {
    if d != [] && d[0].0 != k {
      LookupPut(d[1..], k, v, k');
      assert Put(d, k, v)[1..] == Put(d[1..], k, v);
    }
  }

  /** After `d.pop(k)`, `k` is gone and every other key is untouched. */
  lemma {:induction false} LookupRemove(d: Fields, k: string, k': string)
    ensures Lookup(Remove(d, k), k') == if k' == k then None else Lookup(d, k')
    decreases |d|
  {
    if d != [] {
      LookupRemove(d[1..], k, k');
      if d[0].0 != k {
        assert Remove(d, k)[1..] == Remove(d[1..], k);
      }
    }
  }

  /** Storing a key the dict does not hold appends it at the end. */
  lemma {:induction false} PutNewKey(d: Fields, k: string, v: Json)
    requires !HasKey(d, k)
    ensures Put(d, k, v) == d + [(k, v)]
    decreases |d|
  {
    if d != [] {
      PutNewKey(d[1..], k, v);
      assert [d[0]] + (d[1..] + [(k, v)]) == d + [(k, v)];
    }
  }

  /** Looking up in two runs of entries: the first run's entry, else the second's. */
  lemma {:induction false} LookupAppend(d: Fields, e: Fields, k: string)
    ensures Lookup(d + e, k) == if HasKey(d, k) then Lookup(d, k) else Lookup(e, k)
    decreases |d|
  {
    if d != [] {
      assert (d + e)[0] == d[0];
      assert (d + e)[1..] == d[1..] + e;
      LookupAppend(d[1..], e, k);
    } else {
      assert d + e == e;
    }
  }

  /** A dict built by `if value: d[key] = value` over keys in a fixed order, each key new:
      the entries whose value is present, in that order. */
  function Present(entries: seq<(string, Option<Json>)>): Fields
    decreases |entries|
  {
    if entries == [] then []
    else (if entries[0].1.Some? then [(entries[0].0, entries[0].1.value)] else []) + Present(entries[1..])
  }

  /** The first present value listed under `k`. */
  function FirstPresent(entries: seq<(string, Option<Json>)>, k: string): Option<Json>
    decreases |entries|
  {
    if entries == [] then None
    else if entries[0].0 == k && entries[0].1.Some? then entries[0].1
    else FirstPresent(entries[1..], k)
  }

  /** Looking a key up in the built dict finds the first present value listed under it. */
  lemma {:induction false} LookupPresent(entries: seq<(string, Option<Json>)>, k: string)
    ensures Lookup(Present(entries), k) == FirstPresent(entries, k)
    decreases |entries|
  {
    if entries != [] {
      var head: Fields := if entries[0].1.Some? then [(entries[0].0, entries[0].1.value)] else [];
      LookupAppend(head, Present(entries[1..]), k);
      LookupPresent(entries[1..], k);
    }
  }

  /** Under a key listed once, the first present value is the one listed. */
  lemma {:induction false} FirstPresentAt(entries: seq<(string, Option<Json>)>, i: int)
    requires 0 <= i < |entries|
    requires forall j :: 0 <= j < |entries| && j != i ==> entries[j].0 != entries[i].0
    ensures FirstPresent(entries, entries[i].0) == entries[i].1
    decreases i
  {
    if i > 0 {
      var rest := entries[1..];
      assert rest[i - 1] == entries[i];
      forall j | 0 <= j < |rest| && j != i - 1 ensures rest[j].0 != rest[i - 1].0 {
        assert rest[j] == entries[j + 1];
      }
      FirstPresentAt(rest, i - 1);
    } else if entries[0].1.None? {
      forall j | 0 <= j < |entries[1..]| ensures entries[1..][j].0 != entries[0].0 {
        assert entries[1..][j] == entries[j + 1];
      }
      FirstPresentAbsent(entries[1..], entries[0].0);
    }
  }

  lemma {:induction false} FirstPresentAbsent(entries: seq<(string, Option<Json>)>, k: string)
    requires forall j :: 0 <= j < |entries| ==> entries[j].0 != k
    ensures FirstPresent(entries, k) == None
    decreases |entries|
  {
    if entries != [] {
      forall j | 0 <= j < |entries[1..]| ensures entries[1..][j].0 != k {
        assert entries[1..][j] == entries[j + 1];
      }
      FirstPresentAbsent(entries[1..], k);
    }
  }

  /** In `{**d, **f}` the entries of `f` win; keys `f` lacks keep their value from `d`. */
  lemma {:induction false} LookupPutAll(d: Fields, f: Fields, k: string)
    requires DistinctKeys(f)
    ensures Lookup(PutAll(d, f), k) == if HasKey(f, k) then Lookup(f, k) else Lookup(d, k)
    decreases |f|
  {
    if f != [] {
      assert DistinctKeys(f[1..]) by {
        forall i, j | 0 <= i < j < |f[1..]| ensures f[1..][i].0 != f[1..][j].0 {
          assert f[1..][i] == f[i + 1] && f[1..][j] == f[j + 1];
        }
      }
      LookupPutAll(Put(d, f[0].0, f[0].1), f[1..], k);
      LookupPut(d, f[0].0, f[0].1, k);
      if k == f[0].0 {
        assert !HasKey(f[1..], k) by {
          NotInTail(f, k);
        }
      }
    }
  }

  lemma {:induction false} NotInTail(f: Fields, k: string)
    requires f != [] && DistinctKeys(f) && f[0].0 == k
    ensures !HasKey(f[1..], k)
  {
    var t := f[1..];
    forall i | 0 <= i < |t| ensures t[i].0 != k {
      assert t[i] == f[i + 1];
    }
    AbsentKey(t, k);
  }

  /** A key that no entry carries is not held. */
  lemma {:induction false} AbsentKey(d: Fields, k: string)
    requires forall i :: 0 <= i < |d| ==> d[i].0 != k
    ensures !HasKey(d, k)
    decreases |d|
  {
    if d != [] {
      assert d[0].0 != k;
      forall i | 0 <= i < |d[1..]| ensures d[1..][i].0 != k {
        assert d[1..][i] == d[i + 1];
      }
      AbsentKey(d[1..], k);
    }
  }

  // ---------------------------------------------------------------- str() and repr()

  /** `str(x)` for a JSON value. */
  function Str(j: Json): string
  {
    if j.JStr? then j.s else Repr(j)
  }

  /** `repr(x)` for a JSON value (strings quoted with `'`, without escapes). */
  function Repr(j: Json): string
    decreases j
  {
    match j
    case JNull => "None"
    case JBool(b) => if b then "True" else "False"
    case JInt(i) => IntToString(i)
    case JStr(s) => "'" + s + "'"
    case JArr(items) => "[" + Joined(seq(|items|, i requires 0 <= i < |items| => Repr(items[i]))) + "]"
    case JObj(fields) => "{" + Joined(seq(|fields|, i requires 0 <= i < |fields| => "'" + fields[i].0 + "': " + Repr(fields[i].1))) + "}"
  }

  /** `", ".join(parts)`. */
  function Joined(parts: seq<string>): string
    decreases |parts|
  {
    if |parts| == 0 then ""
    else if |parts| == 1 then parts[0]
    else parts[0] + ", " + Joined(parts[1..])
  }

  /** An integer and its decimal string have the same `str`; two integers share a `str`
      only when they are equal. */
  lemma StrOfInt(m: int, n: int)
    ensures Str(JInt(m)) == Str(JStr(IntToString(m)))
    ensures Str(JInt(m)) == Str(JInt(n)) <==> m == n
  {
    if Str(JInt(m)) == Str(JInt(n)) {
      IntToStringInjective(m, n);
    }
  }
}
