/** Calendar section ids: how one raw value (from the filter's `section` entry or the
    `sections` argument) becomes a list of ids, and how the merged list is deduplicated by
    string form, first occurrence kept. */
module Sections {
  import opened Wrappers
  import opened Text
  import opened Json
  import opened Protocol

  // ---------------------------------------------------------------- one raw value

  /** A trimmed token: an all-digit token is the integer it spells, anything else stays text. */
  function Token(item: string): Json
  {
    if IsDigits(item) then JInt(DigitsValue(item)) else JStr(item)
  }

  /** The tokens of comma-separated parts: each part stripped, empty ones dropped. */
  function Tokens(parts: seq<string>): (r: seq<Json>)
    ensures |r| <= |parts|
    ensures forall i :: 0 <= i < |r| ==> IsToken(r[i])
    ensures |parts| == 1 ==> r == if Strip(parts[0]) != [] then [Token(Strip(parts[0]))] else []
    decreases |parts|
  {
    if parts == [] then []
    else
      var item := Strip(parts[0]);
      (if item != [] then [Token(item)] else []) + Tokens(parts[1..])
  }

  /** Every part that is not blank gives its token. */
  lemma {:induction false} TokensKeep(parts: seq<string>, i: int)
    requires 0 <= i < |parts| && Strip(parts[i]) != []
    ensures Token(Strip(parts[i])) in Tokens(parts)
    decreases i
  {
    if i > 0 {
      assert parts[1..][i - 1] == parts[i];
      TokensKeep(parts[1..], i - 1);
    }
  }

  /** The tokens of two runs of parts are the tokens of each, in order: together with the
      one-part case, this pins down `Tokens` completely. */
  lemma {:induction false} TokensAppend(a: seq<string>, b: seq<string>)
    ensures Tokens(a + b) == Tokens(a) + Tokens(b)
    decreases |a|
  {
    if a == [] {
      assert a + b == b;
    } else {
      var h, t := a[0], a[1..];
      calc {
        Tokens(a + b);
        { assert a + b == [h] + (t + b); TokensCons(h, t + b); }
        Tokens([h]) + Tokens(t + b);
        { TokensAppend(t, b); }
        Tokens([h]) + (Tokens(t) + Tokens(b));
        (Tokens([h]) + Tokens(t)) + Tokens(b);
        { assert a == [h] + t; TokensCons(h, t); }
        Tokens(a) + Tokens(b);
      }
    }
  }

  /** One unfolding of `Tokens`, stated for a first part and the rest. */
  lemma TokensCons(p: string, rest: seq<string>)
    ensures Tokens([p] + rest) == Tokens([p]) + Tokens(rest)
  {
    var parts := [p] + rest;
    assert parts[0] == p && parts[1..] == rest;
    assert [p][1..] == [];
  }

  /** What a comma list yields: a non-negative integer, or non-empty text with no space at
      either end that is not all digits. */
  predicate IsToken(j: Json)
  {
    (j.JInt? && j.i >= 0) ||
    (j.JStr? && j.s != [] && !IsSpace(j.s[0]) && !IsSpace(j.s[|j.s| - 1]) && !IsDigits(j.s))
  }

  /** The comma-list reading of a string that is not JSON: every non-blank piece between
      commas gives its token; without a comma, the whole text is the one piece. */
  function CommaItems(raw: string): (r: seq<Json>)
    ensures |r| <= |Split(raw, ',')|
    ensures forall i :: 0 <= i < |r| ==> IsToken(r[i])
    ensures forall i :: 0 <= i < |Split(raw, ',')| && Strip(Split(raw, ',')[i]) != [] ==>
      Token(Strip(Split(raw, ',')[i])) in r
    ensures ',' !in raw ==> r == if Strip(raw) != [] then [Token(Strip(raw))] else []
  {
    var parts := Split(raw, ',');
    SplitWithoutSep(raw, ',');
    assert forall i :: 0 <= i < |parts| && Strip(parts[i]) != [] ==> Token(Strip(parts[i])) in Tokens(parts) by {
      forall i | 0 <= i < |parts| && Strip(parts[i]) != [] ensures Token(Strip(parts[i])) in Tokens(parts) {
        TokensKeep(parts, i);
      }
    }
    Tokens(parts)
  }

  /** `_normalize_sections(raw)`: None gives no ids, a list is taken as it is, an int or a bool
      is one id, a string is read as JSON (a list as it is, anything else as one id) or,
      when it is not JSON, as a comma list; a dict gives no ids. */
  function NormalizeSections(loads: Loads, raw: Json): (r: seq<Json>)
    ensures raw.JNull? || raw.JObj? ==> r == []
    ensures raw.JArr? ==> r == raw.items
    ensures raw.JInt? ==> r == [raw]
    ensures raw.JBool? ==> r == [JInt(if raw.b then 1 else 0)]
    ensures raw.JStr? && loads(raw.s).Ok? && loads(raw.s).value.JArr? ==> r == loads(raw.s).value.items
    ensures raw.JStr? && loads(raw.s).Ok? && !loads(raw.s).value.JArr? ==> r == [loads(raw.s).value]
    ensures raw.JStr? && loads(raw.s).Err? ==> r == CommaItems(raw.s)
  {
    match raw
    case JNull => []
    case JArr(items) => items
    case JInt(_) => [raw]
    case JBool(b) => [JInt(if b then 1 else 0)]
    case JStr(s) =>
      var parsed := loads(s);
      if parsed.Ok? then
        if parsed.value.JArr? then parsed.value.items else [parsed.value]
      else CommaItems(s)
    case JObj(_) => []
  }

  /** A digit-only token is read back as the integer it spells. */
  lemma TokenOfNumeral(n: nat)
    ensures Token(NatToString(n)) == JInt(n)
  {
    DigitsValueOfNatToString(n);
  }

  /** One token per item, in order. */
  function TokenList(items: seq<string>): (r: seq<Json>)
    ensures |r| == |items|
    decreases |items|
  {
    if items == [] then [] else [Token(items[0])] + TokenList(items[1..])
  }

  /** An item a comma list gives back as it is: non-empty, trimmed and comma-free. */
  predicate Bare(item: string)
  {
    item != [] && Strip(item) == item && ',' !in item
  }

  /** Comma-joining bare items, then reading the comma list, gives one token per item, in
      order. */
  lemma CommaItemsOfJoin(items: seq<string>)
    requires |items| >= 1
    requires forall i :: 0 <= i < |items| ==> Bare(items[i])
    ensures CommaItems(Join(items, ',')) == TokenList(items)
  {
    SplitJoin(items, ',');
    TokensOfClean(items);
  }

  lemma {:induction false} TokensOfClean(items: seq<string>)
    requires forall i :: 0 <= i < |items| ==> Bare(items[i])
    ensures Tokens(items) == TokenList(items)
    decreases |items|
  {
    if items != [] {
      var rest := items[1..];
      forall i | 0 <= i < |rest| ensures Bare(rest[i]) {
        assert rest[i] == items[i + 1];
      }
      TokensOfClean(rest);
      assert Bare(items[0]);
    }
  }

  // ---------------------------------------------------------------- deduplication

  /** The string forms of the values. */
  function Strs(xs: seq<Json>): set<string>
    decreases |xs|
  {
    if xs == [] then {} else {Str(xs[0])} + Strs(xs[1..])
  }

  /** The values whose string form is not yet in `seen`, each string form once, first
      occurrence kept. */
  function UniqueFrom(xs: seq<Json>, seen: set<string>): (r: seq<Json>)
    decreases |xs|
  {
    if xs == [] then []
    else if Str(xs[0]) in seen then UniqueFrom(xs[1..], seen)
    else [xs[0]] + UniqueFrom(xs[1..], seen + {Str(xs[0])})
  }

  /** Order-preserving deduplication by string form. */
  function Unique(xs: seq<Json>): seq<Json>
  {
    UniqueFrom(xs, {})
  }

  /** No two values share a string form. */
  predicate DistinctStrs(xs: seq<Json>)
  {
    forall i, j :: 0 <= i < j < |xs| ==> Str(xs[i]) != Str(xs[j])
  }

  /** The result skips what was seen, repeats no string form, and covers every string form
      of the input that was not seen. */
  lemma {:induction false} UniqueFromProperties(xs: seq<Json>, seen: set<string>)
    ensures var r := UniqueFrom(xs, seen);
      DistinctStrs(r) && Strs(r) == Strs(xs) - seen && Strs(r) !! seen
    decreases |xs|
  {
    if xs != [] {
      var x := xs[0];
      if Str(x) in seen {
        UniqueFromProperties(xs[1..], seen);
      } else {
        var seen' := seen + {Str(x)};
        var rest := UniqueFrom(xs[1..], seen');
        UniqueFromProperties(xs[1..], seen');
        var r := [x] + rest;
        StrsCons(x, rest);
        forall i, j | 0 <= i < j < |r| ensures Str(r[i]) != Str(r[j]) {
          if i == 0 {
            InStrs(rest, j - 1);
          }
        }
      }
    }
  }

  lemma StrsCons(x: Json, xs: seq<Json>)
    ensures Strs([x] + xs) == {Str(x)} + Strs(xs)
  {
    assert ([x] + xs)[1..] == xs;
  }

  lemma {:induction false} InStrs(xs: seq<Json>, i: int)
    requires 0 <= i < |xs|
    ensures Str(xs[i]) in Strs(xs)
    decreases i
  {
    if i > 0 {
      InStrs(xs[1..], i - 1);
    }
  }

  /** The merged section list never repeats a string form and loses none. */
  lemma UniqueProperties(xs: seq<Json>)
    ensures DistinctStrs(Unique(xs))
    ensures Strs(Unique(xs)) == Strs(xs)
  {
    UniqueFromProperties(xs, {});
  }

  /** Appending one value: it is kept exactly when its string form is new. Together with
      `Unique([]) == []` this pins the function down: first occurrences, in input order. */
  lemma {:induction false} UniqueFromSnoc(xs: seq<Json>, seen: set<string>, x: Json)
    ensures UniqueFrom(xs + [x], seen) ==
      if Str(x) in seen + Strs(xs) then UniqueFrom(xs, seen) else UniqueFrom(xs, seen) + [x]
    decreases |xs|
  {
    if xs == [] {
      assert xs + [x] == [x];
    } else {
      assert (xs + [x])[0] == xs[0];
      assert (xs + [x])[1..] == xs[1..] + [x];
      StrsCons(xs[0], xs[1..]);
      assert xs == [xs[0]] + xs[1..];
      if Str(xs[0]) in seen {
        UniqueFromSnoc(xs[1..], seen, x);
      } else {
        UniqueFromSnoc(xs[1..], seen + {Str(xs[0])}, x);
      }
    }
  }

  lemma UniqueSnoc(xs: seq<Json>, x: Json)
    ensures Unique(xs + [x]) == if Str(x) in Strs(xs) then Unique(xs) else Unique(xs) + [x]
  {
    UniqueFromSnoc(xs, {}, x);
    assert {} + Strs(xs) == Strs(xs);
  }

  /** Values already distinct and unseen pass through unchanged. */
  lemma {:induction false} UniqueFromOfDistinct(xs: seq<Json>, seen: set<string>)
    requires DistinctStrs(xs) && Strs(xs) !! seen
    ensures UniqueFrom(xs, seen) == xs
    decreases |xs|
  {
    if xs != [] {
      InStrs(xs, 0);
      var rest := xs[1..];
      StrsCons(xs[0], rest);
      assert xs == [xs[0]] + rest;
      forall i | 0 <= i < |rest| ensures Str(rest[i]) != Str(xs[0]) {
        assert rest[i] == xs[i + 1];
      }
      assert Str(xs[0]) !in Strs(rest) by {
        if Str(xs[0]) in Strs(rest) {
          var i := StrsWitness(rest, Str(xs[0]));
        }
      }
      assert DistinctStrs(rest) by {
        forall i, j | 0 <= i < j < |rest| ensures Str(rest[i]) != Str(rest[j]) {
          assert rest[i] == xs[i + 1] && rest[j] == xs[j + 1];
        }
      }
      UniqueFromOfDistinct(rest, seen + {Str(xs[0])});
    }
  }

  /** A string form in `Strs(xs)` belongs to some position. */
  lemma {:induction false} StrsWitness(xs: seq<Json>, s: string) returns (i: int)
    requires s in Strs(xs)
    ensures 0 <= i < |xs| && Str(xs[i]) == s
    decreases |xs|
  {
    if Str(xs[0]) == s {
      i := 0;
    } else {
      var k := StrsWitness(xs[1..], s);
      i := k + 1;
    }
  }

  /** Deduplicating twice changes nothing. */
  lemma UniqueIdempotent(xs: seq<Json>)
    ensures Unique(Unique(xs)) == Unique(xs)
  {
    UniqueProperties(xs);
    UniqueFromOfDistinct(Unique(xs), {});
  }

  /** Ids `[a, b]` from the filter merged with the comma list `"b,c"`: the repeated `b` is
      dropped and the new `c` appended, giving `[a, b, c]` (`[21, 44]` and `"44,99"` give
      `[21, 44, 99]`). */
  lemma MergeExample(loads: Loads, a: nat, b: nat, c: nat)
    requires a != b && b != c && a != c
    requires loads(NatToString(b) + "," + NatToString(c)).Err?
    ensures Unique(NormalizeSections(loads, JArr([JInt(a), JInt(b)])) +
                   NormalizeSections(loads, JStr(NatToString(b) + "," + NatToString(c))))
      == [JInt(a), JInt(b), JInt(c)]
  {
    CommaPair(b, c);
    StrOfInt(a, b);
    StrOfInt(b, c);
    StrOfInt(a, c);
    MergeOfThree(JInt(a), JInt(b), JInt(c));
  }

  /** The comma list `"b,c"` of two numerals reads back as the two integers. */
  lemma CommaPair(b: nat, c: nat)
    ensures CommaItems(NatToString(b) + "," + NatToString(c)) == [JInt(b), JInt(c)]
  {
    DigitsValueOfNatToString(b);
    DigitsValueOfNatToString(c);
    CommaDigits(NatToString(b), NatToString(c));
    JoinPair(NatToString(b), NatToString(c));
  }

  lemma CommaDigits(x: string, y: string)
    requires IsDigits(x) && IsDigits(y)
    ensures CommaItems(Join([x, y], ',')) == [JInt(DigitsValue(x)), JInt(DigitsValue(y))]
  {
    var items := [x, y];
    BareDigits(x);
    BareDigits(y);
    CommaItemsOfJoin(items);
    assert TokenList(items) == [Token(x)] + TokenList([y]);
    assert TokenList([y]) == [Token(y)] + TokenList([]);
  }

  /** A numeral is a bare item. */
  lemma BareDigits(x: string)
    requires IsDigits(x)
    ensures Bare(x)
  {
    StripDigits(x);
    NoCommaInDigits(x);
  }

  lemma NoCommaInDigits(x: string)
    requires IsDigits(x)
    ensures ',' !in x
  {
  }

  lemma JoinPair(x: string, y: string)
    ensures Join([x, y], ',') == x + "," + y
  {
    assert [x, y][1..] == [y];
  }

  /** `Unique([x, y, y, z])` for three values with distinct string forms. */
  lemma MergeOfThree(x: Json, y: Json, z: Json)
    requires Str(x) != Str(y) && Str(y) != Str(z) && Str(x) != Str(z)
    ensures Unique([x, y] + [y, z]) == [x, y, z]
  {
    var xs := [x, y] + [y, z];
    assert xs[1..] == [y, y, z] && xs[1..][1..] == [y, z] && xs[1..][1..][1..] == [z];
    assert UniqueFrom([z], {Str(x), Str(y)}) == [z];
    assert UniqueFrom([y, z], {Str(x), Str(y)}) == [z];
    assert [y, y, z][1..] == [y, z] && {Str(x)} + {Str(y)} == {Str(x), Str(y)};
    assert UniqueFrom([y, y, z], {Str(x)}) == [y] + [z];
    assert {} + {Str(x)} == {Str(x)};
    assert UniqueFrom(xs, {}) == [x] + [y, z];
  }
}
