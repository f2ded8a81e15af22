/**
 * The few string operations of Python the model needs: `sub in s`,
 * `s.endswith(suffix)`, `s.split(sep)` for a non-empty separator and
 * `int(s)` of a string.
 */
module Strings {
  import opened Values

  /** `sub` occurs in `s` starting at index `j`. */
  predicate OccursAt(s: string, sub: string, j: int) {
    0 <= j && j + |sub| <= |s| && s[j..j + |sub|] == sub
  }

  /** Python's `sub in s`. */
  predicate Contains(s: string, sub: string) {
    exists j | 0 <= j <= |s| - |sub| :: OccursAt(s, sub, j)
  }

  /** Python's `s.endswith(suffix)`. */
  predicate EndsWith(s: string, suffix: string) {
    |suffix| <= |s| && s[|s| - |suffix|..] == suffix
  }

  /** Occurrences in `s[1..]` are those in `s` shifted by one. */
  lemma OccursShift(s: string, sub: string, j: int)
    requires 1 <= j && |s| >= 1
    ensures OccursAt(s, sub, j) <==> OccursAt(s[1..], sub, j - 1)
  {
    if j + |sub| <= |s| {
      assert s[1..][j - 1..j - 1 + |sub|] == s[j..j + |sub|];
    }
  }

  /** The index of the first occurrence of `sub` in `s` (Python's `s.find(sub)`, None for -1). */
  function Find(s: string, sub: string): (r: Option<nat>)
    ensures r.Some? ==> OccursAt(s, sub, r.value)
    ensures r.Some? ==> forall j :: 0 <= j < r.value ==> !OccursAt(s, sub, j)
    ensures r.None? ==> !Contains(s, sub)
    decreases |s|
  {
    if |sub| > |s| then
      None
    else if s[..|sub|] == sub then
      Some(0)
    else
      match Find(s[1..], sub)
      case None =>
        assert !Contains(s, sub) by {
          forall j | 1 <= j ensures !OccursAt(s, sub, j) { OccursShift(s, sub, j); }
        }
        None
      case Some(k) =>
        OccursShift(s, sub, k + 1);
        assert forall j :: 1 <= j < k + 1 ==> !OccursAt(s, sub, j) by {
          forall j | 1 <= j < k + 1 ensures !OccursAt(s, sub, j) { OccursShift(s, sub, j); }
        }
        Some(k + 1)
  }

  /** Python's `s.split(sep)` for a non-empty `sep`. */
  function Split(s: string, sep: string): (parts: seq<string>)
    requires |sep| > 0
    ensures |parts| >= 1
    decreases |s|
  {
    match Find(s, sep)
    case None => [s]
    case Some(i) => [s[..i]] + Split(s[i + |sep|..], sep)
  }

  /** `sep.join(parts)`. */
  function Join(parts: seq<string>, sep: string): string {
    if |parts| == 0 then "" else if |parts| == 1 then parts[0] else parts[0] + sep + Join(parts[1..], sep)
  }

  /** Joining the parts of a split gives the string back. */
  lemma {:induction false} JoinSplit(s: string, sep: string)
    requires |sep| > 0
    ensures Join(Split(s, sep), sep) == s
    decreases |s|
  {
    match Find(s, sep)
    case None =>
    case Some(i) =>
      var rest := s[i + |sep|..];
      var tail := Split(rest, sep);
      JoinSplit(rest, sep);
      assert Split(s, sep) == [s[..i]] + tail;
      assert Join([s[..i]] + tail, sep) == s[..i] + sep + Join(tail, sep) by {
        assert ([s[..i]] + tail)[1..] == tail;
      }
      assert s[i..i + |sep|] == sep;
      assert s == s[..i] + s[i..i + |sep|] + rest;
  }

  /** No part of a split contains the separator, and the split has two or more parts exactly when `sep in s`. */
  lemma {:induction false} SplitParts(s: string, sep: string)
    requires |sep| > 0
    ensures forall p :: p in Split(s, sep) ==> !Contains(p, sep)
    ensures |Split(s, sep)| >= 2 <==> Contains(s, sep)
    decreases |s|
  {
    match Find(s, sep)
    case None =>
    case Some(i) =>
      SplitParts(s[i + |sep|..], sep);
      assert !Contains(s[..i], sep) by {
        forall j | 0 <= j <= i - |sep| ensures !OccursAt(s[..i], sep, j) {
          if OccursAt(s[..i], sep, j) {
            assert s[..i][j..j + |sep|] == s[j..j + |sep|];
            assert OccursAt(s, sep, j);
            assert false;
          }
        }
      }
  }

  /** A one-character separator occurs in `s` exactly when `s` holds that character. */
  lemma ContainsChar(s: string, c: char)
    ensures Contains(s, [c]) <==> c in s
  {
    if c in s {
      var j :| 0 <= j < |s| && s[j] == c;
      assert OccursAt(s, [c], j);
    }
    if Contains(s, [c]) {
      var j :| 0 <= j <= |s| - 1 && OccursAt(s, [c], j);
      assert s[j..j + 1][0] == s[j];
    }
  }

  /** Splitting `a + [c] + b` at `c` where neither part holds `c` gives the two parts back. */
  lemma SplitAround(a: string, b: string, c: char)
    requires c !in a && c !in b
    ensures Contains(a + [c] + b, [c])
    ensures Split(a + [c] + b, [c]) == [a, b]
  {
    var s := a + [c] + b;
    assert s[|a|..|a| + 1] == [c];
    assert OccursAt(s, [c], |a|);
    forall j | 0 <= j < |a| ensures !OccursAt(s, [c], j) {
      assert s[j..j + 1] == [a[j]];
    }
    var k := Find(s, [c]).value;
    assert s[..k] == a;
    assert s[k + 1..] == b;
    ContainsChar(b, c);
    assert Find(b, [c]).None?;
  }

  /** The first part of a split is the text before the first occurrence of the separator. */
  lemma SplitHead(s: string, sep: string)
    requires |sep| > 0 && Contains(s, sep)
    ensures Split(s, sep)[0] == s[..Find(s, sep).value]
  {
  }

  // ----- int() of a string -----

  /** The ASCII characters `str.isspace` accepts: space, tab to carriage return, and 0x1c to 0x1f. */
  predicate IsSpace(c: char) {
    c == ' ' || 9 <= c as int <= 13 || 28 <= c as int <= 31
  }

  predicate IsBlank(s: string) {
    forall i :: 0 <= i < |s| ==> IsSpace(s[i])
  }

  predicate IsDigit(c: char) {
    '0' <= c <= '9'
  }

  /** `s.lstrip()`: the suffix of `s` after its leading whitespace. */
  function StripLeft(s: string): (r: string)
    ensures |r| <= |s| && r == s[|s| - |r|..]
    ensures IsBlank(s[..|s| - |r|])
    ensures r == [] || !IsSpace(r[0])
  {
    if s != [] && IsSpace(s[0]) then
      var r := StripLeft(s[1..]);
      assert s[..|s| - |r|] == [s[0]] + s[1..][..|s| - 1 - |r|];
      r
    else s
  }

  /** `s.rstrip()`: the prefix of `s` before its trailing whitespace. */
  function StripRight(s: string): (r: string)
    ensures |r| <= |s| && r == s[..|r|]
    ensures IsBlank(s[|r|..])
    ensures r == [] || !IsSpace(r[|r| - 1])
  {
    if s != [] && IsSpace(s[|s| - 1]) then
      var r := StripRight(s[..|s| - 1]);
      assert s[|r|..] == s[..|s| - 1][|r|..] + [s[|s| - 1]];
      r
    else s
  }

  /** Leading whitespace is dropped, whatever follows it. */
  lemma {:induction false} StripLeftBlank(a: string, x: string)
    requires IsBlank(a)
    ensures StripLeft(a + x) == StripLeft(x)
  {
    if a == [] {
      assert a + x == x;
    } else {
      assert (a + x)[0] == a[0];
      assert (a + x)[1..] == a[1..] + x;
      StripLeftBlank(a[1..], x);
    }
  }

  /** Trailing whitespace is dropped, whatever precedes it. */
  lemma {:induction false} StripRightBlank(x: string, b: string)
    requires IsBlank(b)
    ensures StripRight(x + b) == StripRight(x)
  {
    if b == [] {
      assert x + b == x;
    } else {
      assert (x + b)[|x + b| - 1] == b[|b| - 1];
      assert (x + b)[..|x + b| - 1] == x + b[..|b| - 1];
      StripRightBlank(x, b[..|b| - 1]);
    }
  }

  /** Decimal digits, grouped by single underscores: a digit, then digits each optionally preceded by `_`. */
  predicate DigitGroups(s: string) {
    && |s| > 0 && IsDigit(s[0]) && IsDigit(s[|s| - 1])
    && (forall i :: 0 <= i < |s| ==> IsDigit(s[i]) || s[i] == '_')
    && (forall i :: 0 < i < |s| && s[i] == '_' ==> s[i - 1] != '_')
  }

  /** The number the digits of `s` spell, underscores skipped. */
  function DigitsValue(s: string): nat
    requires forall i :: 0 <= i < |s| ==> IsDigit(s[i]) || s[i] == '_'
  {
    if s == [] then 0
    else
      var front := s[..|s| - 1];
      assert forall i :: 0 <= i < |front| ==> front[i] == s[i];
      var c := s[|s| - 1];
      if c == '_' then DigitsValue(front)
      else
        assert IsDigit(c);
        DigitsValue(front) * 10 + (c as int - '0' as int)
  }

  /**
   * `int(s)` in base 10: surrounding whitespace is stripped, an optional sign
   * may precede the digits; None where Python raises ValueError.
   */
  function ParseInt(s: string): Option<int> {
    var t := StripRight(StripLeft(s));
    if |t| > 0 && (t[0] == '+' || t[0] == '-') then
      if DigitGroups(t[1..]) then
        var n: int := DigitsValue(t[1..]);
        Some(if t[0] == '-' then -n else n)
      else None
    else if DigitGroups(t) then Some(DigitsValue(t))
    else None
  }

  /** The decimal digits of `n`, most significant first. */
  function ShowNat(n: nat): (s: string)
    ensures |s| > 0 && forall i :: 0 <= i < |s| ==> IsDigit(s[i])
  {
    if n < 10 then [('0' as int + n) as char]
    else ShowNat(n / 10) + [('0' as int + n % 10) as char]
  }

  /** `str(n)` of an integer. */
  function ShowInt(n: int): string {
    if n < 0 then "-" + ShowNat(-n) else ShowNat(n)
  }

  lemma {:induction false} DigitsValueShow(n: nat)
    ensures DigitsValue(ShowNat(n)) == n
  {
    if n >= 10 {
      var s := ShowNat(n);
      assert s[..|s| - 1] == ShowNat(n / 10);
      DigitsValueShow(n / 10);
    }
  }

  /** `int` reads back what `str` writes, with any whitespace around it. */
  lemma ParseIntShow(a: string, n: int, b: string)
    requires IsBlank(a) && IsBlank(b)
    ensures ParseInt(a + ShowInt(n) + b) == Some(n)
  {
    var x := ShowInt(n);
    assert StripRight(StripLeft(a + x + b)) == x by {
      ShowIntEnds(n);
      assert a + x + b == a + (x + b);
      StripLeftBlank(a, x + b);
      assert (x + b)[0] == x[0];
      StripRightBlank(x, b);
    }
    ParseIntShown(n);
  }

  /** `str(n)` neither starts nor ends with whitespace. */
  lemma ShowIntEnds(n: int)
    ensures |ShowInt(n)| > 0 && !IsSpace(ShowInt(n)[0]) && !IsSpace(ShowInt(n)[|ShowInt(n)| - 1])
  {
  }

  lemma ParseIntShown(n: int)
    ensures ParseInt(ShowInt(n)) == Some(n)
  {
    var x := ShowInt(n);
    ShowIntEnds(n);
    assert StripRight(StripLeft(x)) == x;
    if n < 0 {
      assert x[1..] == ShowNat(-n);
      DigitsValueShow(-n);
    } else {
      DigitsValueShow(n);
    }
  }

  /** A string with no decimal digit is no integer. */
  lemma ParseIntNeedsDigit(s: string)
    requires forall i :: 0 <= i < |s| ==> !IsDigit(s[i])
    ensures ParseInt(s) == None
  {
    var l := StripLeft(s);
    var t := StripRight(l);
    if |t| > 0 {
      assert t[0] == l[0] == s[|s| - |l|];
      assert !DigitGroups(t);
      if |t| > 1 {
        assert t[1..][0] == l[1] == s[|s| - |l| + 1];
        assert !DigitGroups(t[1..]);
      }
    }
  }
}
