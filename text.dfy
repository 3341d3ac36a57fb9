/** The handful of Python `str` operations the tools rely on, over `seq<char>`:
    `split(",")`, `strip()`, `isdigit()`, `int(...)`, `str(int)`, `lower()`,
    `rstrip("/")` and the `in` test between two strings. */
module Text {
  import opened Wrappers

  /** `s.split(sep)` for a one-character separator: never empty, and no piece holds `sep`. */
  function Split(s: string, sep: char): (parts: seq<string>)
    ensures |parts| >= 1
    ensures forall i :: 0 <= i < |parts| ==> sep !in parts[i]
    decreases |s|
  {
    if s == [] then [[]]
    else
      var rest := Split(s[1..], sep);
      if s[0] == sep then [[]] + rest
      else [[s[0]] + rest[0]] + rest[1..]
  }

  /** `sep.join(parts)` for a one-character separator. */
  function Join(parts: seq<string>, sep: char): string
    decreases |parts|
  {
    if |parts| == 0 then []
    else if |parts| == 1 then parts[0]
    else parts[0] + [sep] + Join(parts[1..], sep)
  }

  /** Splitting and joining again gives the original text back. */
  lemma {:induction false} JoinSplit(s: string, sep: char)
    ensures Join(Split(s, sep), sep) == s
    decreases |s|
  {
    if s != [] {
      var rest := Split(s[1..], sep);
      JoinSplit(s[1..], sep);
      if s[0] == sep {
        assert Split(s, sep) == [[]] + rest;
        assert Join([[]] + rest, sep) == [] + [sep] + Join(rest, sep);
        assert [sep] + s[1..] == s;
      } else if |rest| == 1 {
        assert Split(s, sep) == [[s[0]] + rest[0]];
        assert [s[0]] + s[1..] == s;
      } else {
        var parts := [[s[0]] + rest[0]] + rest[1..];
        assert parts[1..] == rest[1..];
        assert Join(rest, sep) == rest[0] + [sep] + Join(rest[1..], sep);
        assert Join(parts, sep) == ([s[0]] + rest[0]) + [sep] + Join(rest[1..], sep);
        assert [s[0]] + s[1..] == s;
      }
    }
  }

  /** A text without the separator is one piece. */
  lemma SplitWithoutSep(s: string, sep: char)
    ensures sep !in s ==> Split(s, sep) == [s]
  {
    if sep !in s {
      SplitPrefix(s, [], sep);
      assert s + [] == s;
    }
  }

  /** A prefix without the separator glues onto the first piece of what follows. */
  lemma {:induction false} SplitPrefix(a: string, r: string, sep: char)
    requires sep !in a
    ensures Split(a + r, sep) == [a + Split(r, sep)[0]] + Split(r, sep)[1..]
    decreases |a|
  {
    if a != [] {
      var x := a + r;
      assert x[0] == a[0] && x[0] != sep;
      assert x[1..] == a[1..] + r;
      SplitPrefix(a[1..], r, sep);
      var rest := Split(x[1..], sep);
      assert Split(x, sep) == [[x[0]] + rest[0]] + rest[1..];
      assert rest[0] == a[1..] + Split(r, sep)[0];
      assert rest[1..] == Split(r, sep)[1..];
      assert [a[0]] + (a[1..] + Split(r, sep)[0]) == a + Split(r, sep)[0];
    } else {
      assert a + r == r;
      assert a + Split(r, sep)[0] == Split(r, sep)[0];
      assert [Split(r, sep)[0]] + Split(r, sep)[1..] == Split(r, sep);
    }
  }

  /** Joining pieces that hold no separator and splitting again gives the pieces back. */
  lemma {:induction false} SplitJoin(parts: seq<string>, sep: char)
    requires |parts| >= 1
    requires forall i :: 0 <= i < |parts| ==> sep !in parts[i]
    ensures Split(Join(parts, sep), sep) == parts
    decreases |parts|
  {
    if |parts| == 1 {
      SplitPrefix(parts[0], [], sep);
      assert parts[0] + [] == parts[0];
    } else {
      var tail := Join(parts[1..], sep);
      SplitJoin(parts[1..], sep);
      assert Join(parts, sep) == parts[0] + ([sep] + tail);
      SplitPrefix(parts[0], [sep] + tail, sep);
      assert Split([sep] + tail, sep) == [[]] + Split(tail, sep) by {
        assert ([sep] + tail)[1..] == tail;
      }
      var rest := Split(tail, sep);
      assert Split([sep] + tail, sep)[0] == [];
      assert Split([sep] + tail, sep)[1..] == rest;
      assert Split(Join(parts, sep), sep) == [parts[0] + []] + rest;
      assert parts[0] + [] == parts[0];
      assert parts == [parts[0]] + parts[1..];
    }
  }

  /** The characters Python's `str.strip()` removes, restricted to ASCII. */
  predicate IsSpace(c: char)
  {
    var n := c as int;
    n == 32 || (9 <= n <= 13) || (28 <= n <= 31)
  }

  /** `s.lstrip()`: the suffix left once the leading spaces are gone. */
  function TrimLeft(s: string): (r: string)
    ensures r == [] || !IsSpace(r[0])
    ensures |r| <= |s| && r == s[|s| - |r|..]
    ensures forall i :: 0 <= i < |s| - |r| ==> IsSpace(s[i])
    decreases |s|
  {
    if s != [] && IsSpace(s[0]) then TrimLeft(s[1..]) else s
  }

  /** `s.rstrip()`: the prefix left once the trailing spaces are gone. */
  function TrimRight(s: string): (r: string)
    ensures r == [] || !IsSpace(r[|r| - 1])
    ensures r <= s
    ensures forall i :: |r| <= i < |s| ==> IsSpace(s[i])
    decreases |s|
  {
    if s != [] && IsSpace(s[|s| - 1]) then TrimRight(s[..|s| - 1]) else s
  }

  /** `r` is the run of `s` starting at `a`, and everything of `s` outside it is space. */
  predicate SpaceFramed(s: string, a: int, r: string)
  {
    0 <= a && a + |r| <= |s| && s[a..a + |r|] == r &&
    (forall i :: 0 <= i < a ==> IsSpace(s[i])) &&
    (forall i :: a + |r| <= i < |s| ==> IsSpace(s[i]))
  }

  /** `s.strip()`: a run of `s` with no space at either end. */
  function Strip(s: string): (r: string)
    ensures r == [] || (!IsSpace(r[0]) && !IsSpace(r[|r| - 1]))
    ensures |r| <= |s|
  {
    var l := TrimLeft(s);
    var r := TrimRight(l);
    assert r != [] ==> r[0] == l[0];
    r
  }

  /** What `strip()` removes is spaces only: the result is the run of `s` between a space
      prefix and a space suffix. */
  lemma StripFramed(s: string)
    ensures exists a :: SpaceFramed(s, a, Strip(s))
  {
    var l := TrimLeft(s);
    var r := TrimRight(l);
    assert Strip(s) == r;
    TrimsFrame(s, l, r);
    assert SpaceFramed(s, |s| - |l|, r);
  }

  /** Trimming both ends keeps the run between the edge spaces. */
  lemma TrimsFrame(s: string, l: string, r: string)
    requires |l| <= |s| && l == s[|s| - |l|..] && forall i :: 0 <= i < |s| - |l| ==> IsSpace(s[i])
    requires r <= l && forall i :: |r| <= i < |l| ==> IsSpace(l[i])
    ensures SpaceFramed(s, |s| - |l|, r)
  {
    var a := |s| - |l|;
    assert s[a..] == l;
    assert s[a..a + |r|] == l[..|r|];
    forall i | a + |r| <= i < |s| ensures IsSpace(s[i]) {
      assert s[i] == l[i - a];
    }
  }

  predicate IsDigit(c: char) { '0' <= c <= '9' }

  /** `s.isdigit()` for ASCII text: non-empty and digits only. */
  predicate IsDigits(s: string)
  {
    |s| > 0 && forall i :: 0 <= i < |s| ==> IsDigit(s[i])
  }

  /** The value of a run of decimal digits (what `int(s)` gives for it). */
  function DigitsValue(s: string): nat
    requires forall i :: 0 <= i < |s| ==> IsDigit(s[i])
    decreases |s|
  {
    if s == [] then 0
    else
      assert IsDigit(s[|s| - 1]);
      DigitsValue(s[..|s| - 1]) * 10 + (s[|s| - 1] as int - '0' as int)
  }

  function DigitChar(d: nat): char
    requires d < 10
  {
    ('0' as int + d) as char
  }

  /** `str(n)` for a natural number: its shortest decimal numeral. */
  function NatToString(n: nat): (r: string)
    ensures IsDigits(r)
    ensures r[0] == '0' ==> n == 0 && r == "0"
    decreases n
  {
    if n < 10 then [DigitChar(n)]
    else
      var r := NatToString(n / 10) + [DigitChar(n % 10)];
      assert r[0] == NatToString(n / 10)[0];
      r
  }

  /** `str(n)` for any integer. */
  function IntToString(n: int): string
  {
    if n < 0 then "-" + NatToString(-n) else NatToString(n)
  }

  /** Reading back a rendered number gives the number. */
  lemma {:induction false} DigitsValueOfNatToString(n: nat)
    ensures DigitsValue(NatToString(n)) == n
    decreases n
  {
    if n >= 10 {
      DigitsValueOfNatToString(n / 10);
      var s := NatToString(n);
      assert s[..|s| - 1] == NatToString(n / 10);
    }
  }

  /** Rendering the value of a numeral without a leading zero gives the numeral back. */
  lemma {:induction false} NatToStringOfDigitsValue(s: string)
    requires IsDigits(s)
    requires s[0] != '0' || s == "0"
    ensures NatToString(DigitsValue(s)) == s
    decreases |s|
  {
    if |s| > 1 {
      var init := s[..|s| - 1];
      assert init[0] == s[0];
      NatToStringOfDigitsValue(init);
      var v := DigitsValue(init);
      assert NatToString(0) == "0";
      assert init[0] != '0';
      assert v != 0;
      var d := (s[|s| - 1] as int - '0' as int);
      assert (v * 10 + d) / 10 == v && (v * 10 + d) % 10 == d;
      assert s == init + [s[|s| - 1]];
    }
  }

  /** Distinct integers render differently, so `str` keeps integers apart. */
  lemma IntToStringInjective(m: int, n: int)
    requires IntToString(m) == IntToString(n)
    ensures m == n
  {
    if m < 0 && n < 0 {
      assert NatToString(-m) == IntToString(m)[1..] == IntToString(n)[1..] == NatToString(-n);
      DigitsValueOfNatToString(-m);
      DigitsValueOfNatToString(-n);
    } else if m >= 0 && n >= 0 {
      DigitsValueOfNatToString(m);
      DigitsValueOfNatToString(n);
    }
  }

  /** `int(s)` for a Python string: optional surrounding spaces, an optional sign and
      ASCII digits; None where Python raises ValueError. */
  function ParseInt(s: string): (r: Option<int>)
  {
    SignedValue(Strip(s))
  }

  /** The value of an optional sign followed by digits, with nothing around them. */
  function SignedValue(t: string): Option<int>
  {
    if |t| > 1 && (t[0] == '-' || t[0] == '+') && IsDigits(t[1..]) then
      Some(if t[0] == '-' then -(DigitsValue(t[1..]) as int) else DigitsValue(t[1..]))
    else if IsDigits(t) then Some(DigitsValue(t))
    else None
  }

  /** A run of digits has nothing to strip. */
  lemma StripDigits(s: string)
    requires IsDigits(s)
    ensures Strip(s) == s
  {
    assert !IsSpace(s[0]) && !IsSpace(s[|s| - 1]);
    assert TrimLeft(s) == s;
    assert TrimRight(s) == s;
  }

  /** A bare run of digits parses to its value. */
  lemma ParseIntOfDigits(s: string)
    requires IsDigits(s)
    ensures ParseInt(s) == Some(DigitsValue(s))
  {
    UnsignedValue(s);
    StripDigits(s);
  }

  /** Digits without a sign are read as they are. */
  lemma UnsignedValue(s: string)
    requires IsDigits(s)
    ensures SignedValue(s) == Some(DigitsValue(s))
  {
    assert IsDigit(s[0]);
  }

  /** `int(str(n)) == n` for every integer. */
  lemma ParseIntOfIntToString(n: int)
    ensures ParseInt(IntToString(n)) == Some(n)
  {
    if n < 0 {
      ParseIntOfNegative(n);
    } else {
      assert IntToString(n) == NatToString(n);
      ParseIntOfDigits(NatToString(n));
      DigitsValueOfNatToString(n);
    }
  }

  /** `int(str(n)) == n` for a negative integer. */
  lemma ParseIntOfNegative(n: int)
    requires n < 0
    ensures ParseInt("-" + NatToString(-n)) == Some(n)
  {
    var digits := NatToString(-n);
    StripNegative(digits);
    NegativeValue(digits);
    DigitsValueOfNatToString(-n);
  }

  /** A minus sign before digits is read as a negation. */
  lemma NegativeValue(digits: string)
    requires IsDigits(digits)
    ensures SignedValue("-" + digits) == Some(-(DigitsValue(digits) as int))
  {
    assert ("-" + digits)[1..] == digits;
  }

  /** A minus sign before digits has nothing to strip. */
  lemma StripNegative(digits: string)
    requires IsDigits(digits)
    ensures Strip("-" + digits) == "-" + digits
  {
    var s := "-" + digits;
    assert s[|s| - 1] == digits[|digits| - 1];
    assert IsDigit(s[|s| - 1]);
    assert TrimLeft(s) == s;
    assert TrimRight(s) == s;
  }

  /** `c.lower()` for ASCII letters. */
  function LowerChar(c: char): char
  {
    if 'A' <= c <= 'Z' then (c as int + 32) as char else c
  }

  /** `s.lower()` for ASCII text. */
  function Lower(s: string): (r: string)
    ensures |r| == |s|
    ensures forall i :: 0 <= i < |s| ==> r[i] == LowerChar(s[i])
  {
    seq(|s|, i requires 0 <= i < |s| => LowerChar(s[i]))
  }

  /** `s.rstrip(c)`: the longest prefix of `s` that does not end in `c`, and only `c`
      was dropped. */
  function RStrip(s: string, c: char): (r: string)
    ensures r <= s
    ensures r == [] || r[|r| - 1] != c
    ensures forall i :: |r| <= i < |s| ==> s[i] == c
    decreases |s|
  {
    if s != [] && s[|s| - 1] == c then RStrip(s[..|s| - 1], c) else s
  }

  /** `sub in s` for two strings. */
  predicate Occurs(sub: string, s: string)
    decreases |s|
  {
    sub <= s || (s != [] && Occurs(sub, s[1..]))
  }
}
