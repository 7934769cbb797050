/**
 * The JavaScript string primitives the importers and block decorators rely on:
 * trim, case mapping, includes/indexOf, replace of the first occurrence,
 * split and join, and decimal numbers. Strings are sequences of Unicode scalar values.
 */
module Text {

  /** The ECMAScript WhiteSpace and LineTerminator code points, which String.prototype.trim removes. */
  predicate IsJsSpace(c: char) {
    c == '\t' || c == '\n' || c == '\U{B}' || c == '\U{C}' || c == '\r' || c == ' '
    || c == '\U{A0}' || c == '\U{1680}' || ('\U{2000}' <= c <= '\U{200A}')
    || c == '\U{2028}' || c == '\U{2029}' || c == '\U{202F}' || c == '\U{205F}'
    || c == '\U{3000}' || c == '\U{FEFF}'
  }

  function TrimStart(s: string): (r: string)
    ensures |r| <= |s| && r == s[|s| - |r|..]
    ensures forall i | 0 <= i < |s| - |r| :: IsJsSpace(s[i])
    ensures r != [] ==> !IsJsSpace(r[0])
  {
    if s != [] && IsJsSpace(s[0]) then TrimStart(s[1..]) else s
  }

  function TrimEnd(s: string): (r: string)
    ensures |r| <= |s| && r == s[..|r|]
    ensures forall i | |r| <= i < |s| :: IsJsSpace(s[i])
    ensures r != [] ==> !IsJsSpace(r[|r| - 1])
  {
    if s != [] && IsJsSpace(s[|s| - 1]) then TrimEnd(s[..|s| - 1]) else s
  }

  /** String.prototype.trim: drops the leading and the trailing white space and nothing else. */
  function Trim(s: string): (r: string)
    ensures |r| <= |s|
    ensures r != [] ==> !IsJsSpace(r[0]) && !IsJsSpace(r[|r| - 1])
  {
    TrimEnd(TrimStart(s))
  }

  lemma TrimKeepsInner(s: string)
    requires s != [] ==> !IsJsSpace(s[0]) && !IsJsSpace(s[|s| - 1])
    ensures Trim(s) == s
  {
  }

  /** Trimming twice is trimming once. */
  lemma TrimIdempotent(s: string)
    ensures Trim(Trim(s)) == Trim(s)
  {
    TrimKeepsInner(Trim(s));
  }

  /** The trimmed string is empty exactly when the input is all white space. */
  lemma TrimEmpty(s: string)
    ensures Trim(s) == [] <==> forall i | 0 <= i < |s| :: IsJsSpace(s[i])
  {
    var t := TrimStart(s);
    if Trim(s) == [] {
      assert |t| == 0;
    }
  }

  /** JavaScript `a || b` on strings: the empty string is falsy. */
  function OrElse(a: string, b: string): string {
    if a != "" then a else b
  }

  // ---------------------------------------------------------------------------
  // Case mapping

  /**
   * String.prototype.toLowerCase on one character, exact for A-Z and for the two
   * characters whose lower case contains an ASCII letter (U+0130 and the Kelvin sign).
   * Every other character is left as it is.
   */
  function LowerChar(c: char): (r: string)
    ensures |r| >= 1
  {
    if 'A' <= c <= 'Z' then [(c as int + 32) as char]
    else if c == '\U{130}' then ['i', '\U{307}']
    else if c == '\U{212A}' then ['k']
    else [c]
  }

  function Lower(s: string): (r: string)
    ensures |r| >= |s|
    ensures forall i | 0 <= i < |r| :: !('A' <= r[i] <= 'Z')
  {
    if s == [] then [] else LowerChar(s[0]) + Lower(s[1..])
  }

  lemma {:induction false} LowerAppend(a: string, b: string)
    ensures Lower(a + b) == Lower(a) + Lower(b)
  {
    if a != [] {
      assert (a + b)[1..] == a[1..] + b;
      LowerAppend(a[1..], b);
    } else {
      assert a + b == b;
    }
  }

  function UpperChar(c: char): char {
    if 'a' <= c <= 'z' then (c as int - 32) as char else c
  }

  /** String.prototype.toUpperCase on the ASCII letters. */
  function Upper(s: string): (r: string)
    ensures |r| == |s|
    ensures forall i | 0 <= i < |r| :: !('a' <= r[i] <= 'z')
    ensures forall i | 0 <= i < |s| :: !('a' <= s[i] <= 'z') ==> r[i] == s[i]
    ensures forall i | 0 <= i < |s| :: r[i] == UpperChar(s[i])
  {
    if s == [] then [] else [UpperChar(s[0])] + Upper(s[1..])
  }

  /** An upper-cased string is left unchanged by upper-casing again. */
  lemma UpperIdempotent(s: string)
    ensures Upper(Upper(s)) == Upper(s)
  {
  }

  // ---------------------------------------------------------------------------
  // Searching

  predicate StartsWith(s: string, p: string) {
    |p| <= |s| && s[..|p|] == p
  }

  predicate EndsWith(s: string, p: string) {
    |p| <= |s| && s[|s| - |p|..] == p
  }

  /** String.prototype.includes. */
  predicate Contains(s: string, t: string)
    decreases |s|
  {
    StartsWith(s, t) || (s != [] && Contains(s[1..], t))
  }

  /** String.prototype.indexOf: the first position where `t` occurs, or -1. */
  function IndexOf(s: string, t: string): (r: int)
    ensures r == -1 || 0 <= r <= |s| - |t|
    ensures r >= 0 ==> s[r..r + |t|] == t
    ensures r >= 0 ==> forall j | 0 <= j < r :: !StartsWith(s[j..], t)
    ensures r == -1 <==> !Contains(s, t)
    decreases |s|
  {
    if StartsWith(s, t) then 0
    else if s == [] then -1
    else
      var k := IndexOf(s[1..], t);
      if k < 0 then -1
      else
        assert forall j | 1 <= j < k + 1 :: s[j..] == s[1..][j - 1..];
        k + 1
  }

  lemma {:induction false} ContainsAt(s: string, t: string, i: nat)
    requires i + |t| <= |s| && s[i..i + |t|] == t
    ensures Contains(s, t)
  {
    if i > 0 {
      assert s[1..][i - 1..i - 1 + |t|] == t;
      ContainsAt(s[1..], t, i - 1);
    }
  }

  lemma {:induction false} ContainsInfix(a: string, t: string, b: string)
    ensures Contains(a + t + b, t)
  {
    assert (a + t + b)[|a|..|a| + |t|] == t;
    ContainsAt(a + t + b, t, |a|);
  }

  /** A one-character string occurs exactly when its character does. */
  lemma {:induction false} ContainsChar(s: string, ch: char)
    ensures Contains(s, [ch]) <==> ch in s
  {
    if s != [] {
      ContainsChar(s[1..], ch);
      assert s == [s[0]] + s[1..];
    }
  }

  /** `s.replace(t, '')` with a string pattern: removes the first occurrence of `t`, if any. */
  function RemoveFirst(s: string, t: string): (r: string)
    ensures !Contains(s, t) ==> r == s
    ensures Contains(s, t) ==> |r| == |s| - |t|
    ensures Contains(s, t) ==> s == r[..IndexOf(s, t)] + t + r[IndexOf(s, t)..]
  {
    var i := IndexOf(s, t);
    if i < 0 then s
    else
      assert s == s[..i] + s[i..i + |t|] + s[i + |t|..];
      s[..i] + s[i + |t|..]
  }

  /** A value written with one trailing percent sign loses exactly that sign. */
  lemma RemoveTrailingPercent(v: string)
    requires '%' !in v
    ensures RemoveFirst(v + "%", "%") == v
  {
    var s := v + "%";
    ContainsInfix(v, "%", "");
    assert v + "%" + "" == s;
    var i := IndexOf(s, "%");
    assert s[i] == '%';
    assert forall j | 0 <= j < |v| :: s[j] == v[j];
    assert i == |v|;
  }

  /** When `t`'s first character is not in `a`, the first `t` in `a + t + b` is the one after `a`. */
  lemma IndexOfInfix(a: string, t: string, b: string)
    requires t != [] && t[0] !in a
    ensures Contains(a + t + b, t) && IndexOf(a + t + b, t) == |a|
  {
    var s := a + t + b;
    ContainsInfix(a, t, b);
    var i := IndexOf(s, t);
    assert s[i] == t[0];
    assert forall j | 0 <= j < |a| :: s[j] == a[j];
    assert s[|a|..][..|t|] == t;
    assert StartsWith(s[|a|..], t);
  }

  /** When `t`'s first character is not in `a`, removing `t` from `a + t + b` leaves `a + b`. */
  lemma RemoveFirstInfix(a: string, t: string, b: string)
    requires t != [] && t[0] !in a
    ensures RemoveFirst(a + t + b, t) == a + b
  {
    var s := a + t + b;
    IndexOfInfix(a, t, b);
    assert s[..|a|] == a;
    assert s[|a| + |t|..] == b;
  }

  // ---------------------------------------------------------------------------
  // Split and join

  /** String.prototype.split with a one-character separator. */
  function Split(s: string, c: char): (r: seq<string>)
    ensures |r| >= 1
    ensures forall i | 0 <= i < |r| :: c !in r[i]
  {
    if s == [] then [[]]
    else
      var rest := Split(s[1..], c);
      if s[0] == c then [[]] + rest else [[s[0]] + rest[0]] + rest[1..]
  }

  /** Array.prototype.join. */
  function Join(parts: seq<string>, sep: string): string {
    if |parts| == 0 then ""
    else if |parts| == 1 then parts[0]
    else parts[0] + sep + Join(parts[1..], sep)
  }

  lemma JoinCons(x: string, parts: seq<string>, sep: string)
    requires |parts| >= 1
    ensures Join([x + parts[0]] + parts[1..], sep) == x + Join(parts, sep)
  {
    var q := [x + parts[0]] + parts[1..];
    assert q[1..] == parts[1..];
  }

  /** Joining the pieces of a split with the separator gives back the string. */
  lemma {:induction false} JoinSplit(s: string, c: char)
    ensures Join(Split(s, c), [c]) == s
  {
    if s != [] {
      var rest := Split(s[1..], c);
      JoinSplit(s[1..], c);
      if s[0] == c {
        assert ([[]] + rest)[1..] == rest;
        assert s == [c] + s[1..];
      } else {
        JoinCons([s[0]], rest, [c]);
      }
    }
  }

  /** Splitting a join of separator-free pieces gives back the pieces. */
  lemma {:induction false} SplitJoin(parts: seq<string>, c: char)
    requires |parts| >= 1
    requires forall i | 0 <= i < |parts| :: c !in parts[i]
    ensures Split(Join(parts, [c]), c) == parts
  {
    if |parts| == 1 {
      SplitPlain(parts[0], c);
    } else {
      SplitJoin(parts[1..], c);
      SplitPrefix(parts[0], Join(parts[1..], [c]), c);
      assert parts == [parts[0]] + parts[1..];
    }
  }

  lemma {:induction false} SplitPlain(s: string, c: char)
    requires c !in s
    ensures Split(s, c) == [s]
  {
    if s != [] {
      SplitPlain(s[1..], c);
      assert [s[0]] + s[1..] == s;
    }
  }

  lemma {:induction false} SplitPrefix(a: string, b: string, c: char)
    requires c !in a
    ensures Split(a + [c] + b, c) == [a] + Split(b, c)
  {
    var s := a + [c] + b;
    if a == [] {
      assert s[0] == c && s[1..] == b;
    } else {
      assert s[0] == a[0] && s[1..] == a[1..] + [c] + b;
      SplitPrefix(a[1..], b, c);
      assert [a[0]] + a[1..] == a;
    }
  }

  /** The first piece of a split is the part of the string before its first separator. */
  lemma {:induction false} SplitHead(s: string, c: char)
    ensures |Split(s, c)[0]| <= |s| && s[..|Split(s, c)[0]|] == Split(s, c)[0]
    ensures |Split(s, c)[0]| < |s| ==> s[|Split(s, c)[0]|] == c
  {
    if s != [] {
      SplitHead(s[1..], c);
      if s[0] != c {
        var h := Split(s[1..], c)[0];
        assert Split(s, c)[0] == [s[0]] + h;
        assert s[..|h| + 1] == [s[0]] + s[1..][..|h|];
      }
    }
  }

  /** The concatenation of `f(x)` over a sequence, in order (a `forEach` that appends to a string). */
  function ConcatMap<T>(xs: seq<T>, f: T -> string): string {
    if xs == [] then "" else ConcatMap(xs[..|xs| - 1], f) + f(xs[|xs| - 1])
  }

  lemma {:induction false} ConcatMapAppend<T>(xs: seq<T>, ys: seq<T>, f: T -> string)
    ensures ConcatMap(xs + ys, f) == ConcatMap(xs, f) + ConcatMap(ys, f)
  {
    if ys == [] {
      assert xs + ys == xs;
    } else {
      var zs := xs + ys;
      assert zs[..|zs| - 1] == xs + ys[..|ys| - 1];
      assert zs[|zs| - 1] == ys[|ys| - 1];
      ConcatMapAppend(xs, ys[..|ys| - 1], f);
    }
  }

  // ---------------------------------------------------------------------------
  // Decimal numbers

  predicate IsDigit(c: char) {
    '0' <= c <= '9'
  }

  function DigitChar(d: nat): char
    requires d < 10
  {
    ('0' as int + d) as char
  }

  /** Template-literal interpolation of a natural number: its decimal digits. */
  function NatToString(n: nat): (r: string)
    ensures |r| >= 1
    ensures forall i | 0 <= i < |r| :: IsDigit(r[i])
  {
    if n < 10 then [DigitChar(n)] else NatToString(n / 10) + [DigitChar(n % 10)]
  }

  /** The value of a string of decimal digits (parseInt of a digit run). */
  function DigitsValue(s: string): nat
    requires forall i | 0 <= i < |s| :: IsDigit(s[i])
  {
    if s == [] then 0 else DigitsValue(s[..|s| - 1]) * 10 + DigitValue(s[|s| - 1])
  }

  function DigitValue(c: char): nat
    requires IsDigit(c)
  {
    c as int - '0' as int
  }

  /** Reading back the decimal digits of a number gives the number. */
  lemma {:induction false} DigitsOfNat(n: nat)
    ensures DigitsValue(NatToString(n)) == n
  {
    var s := NatToString(n);
    if n >= 10 {
      DigitsOfNat(n / 10);
      assert s[..|s| - 1] == NatToString(n / 10);
    }
  }

  /** The longest prefix made of decimal digits. */
  function LeadingDigits(s: string): (r: string)
    ensures |r| <= |s| && r == s[..|r|]
    ensures forall i | 0 <= i < |r| :: IsDigit(r[i])
    ensures |r| < |s| ==> !IsDigit(s[|r|])
  {
    if s != [] && IsDigit(s[0]) then [s[0]] + LeadingDigits(s[1..]) else []
  }

  lemma {:induction false} LeadingDigitsAll(s: string, t: string)
    requires forall i | 0 <= i < |s| :: IsDigit(s[i])
    requires t == [] || !IsDigit(t[0])
    ensures LeadingDigits(s + t) == s
  {
    if s != [] {
      assert (s + t)[1..] == s[1..] + t;
      LeadingDigitsAll(s[1..], t);
    } else {
      assert s + t == t;
    }
  }

  /** `parseInt` of the first match of `/(\d+)/`, or 0 when the string has no digit. */
  function FirstNumber(s: string): nat {
    if s == [] then 0
    else if IsDigit(s[0]) then DigitsValue(LeadingDigits(s))
    else FirstNumber(s[1..])
  }

  /** A string without digits reads as 0. */
  lemma {:induction false} FirstNumberNone(s: string)
    requires forall i | 0 <= i < |s| :: !IsDigit(s[i])
    ensures FirstNumber(s) == 0
  {
    if s != [] {
      FirstNumberNone(s[1..]);
    }
  }

  /** The number written after a digit-free prefix and before a non-digit is the one read back. */
  lemma {:induction false} FirstNumberOf(prefix: string, n: nat, rest: string)
    requires forall i | 0 <= i < |prefix| :: !IsDigit(prefix[i])
    requires rest == [] || !IsDigit(rest[0])
    ensures FirstNumber(prefix + NatToString(n) + rest) == n
  {
    var s := prefix + NatToString(n) + rest;
    if prefix == [] {
      assert s == NatToString(n) + rest;
      LeadingDigitsAll(NatToString(n), rest);
      DigitsOfNat(n);
      assert IsDigit(s[0]);
    } else {
      assert s[1..] == prefix[1..] + NatToString(n) + rest;
      FirstNumberOf(prefix[1..], n, rest);
    }
  }
}
