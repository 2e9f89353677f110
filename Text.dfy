/** The string operations the application applies to user input:
    `trim`, `toLowerCase`, `endsWith`, `split` and `parseInt`, restricted to
    ASCII whitespace and ASCII letters. */
module Text {
  import opened Lists

  /** ASCII whitespace as `String.prototype.trim` removes it. */
  predicate IsSpace(c: char) {
    c == ' ' || c == '\t' || c == '\n' || c == '\r' || c == '\U{0B}' || c == '\U{0C}'
  }

  predicate AllSpace(s: string) {
    forall k :: 0 <= k < |s| ==> IsSpace(s[k])
  }

  /** Leading whitespace removed. */
  function TrimStart(s: string): (t: string)
    ensures |t| <= |s| && t == s[|s| - |t|..]
    ensures AllSpace(s[..|s| - |t|])
    ensures t != [] ==> !IsSpace(t[0])
  {
    if |s| > 0 && IsSpace(s[0]) then
      var t := TrimStart(s[1..]);
      assert s[..|s| - |t|] == [s[0]] + s[1..][..|s| - 1 - |t|];
      t
    else s
  }

  /** Trailing whitespace removed. */
  function TrimEnd(s: string): (t: string)
    ensures |t| <= |s| && t == s[..|t|]
    ensures AllSpace(s[|t|..])
    ensures t != [] ==> !IsSpace(t[|t| - 1])
  {
    if |s| > 0 && IsSpace(s[|s| - 1]) then
      var p := s[..|s| - 1];
      var t := TrimEnd(p);
      assert s[|t|..] == p[|t|..] + [s[|s| - 1]];
      t
    else s
  }

  /** `s.trim()`: the longest slice of `s` that neither starts nor ends with
      whitespace, everything cut off being whitespace. */
  function Trim(s: string): (t: string)
    ensures |t| <= |s|
    ensures t != [] ==> !IsSpace(t[0]) && !IsSpace(t[|t| - 1])
  {
    TrimEnd(TrimStart(s))
  }

  function LowerChar(c: char): char {
    if 'A' <= c <= 'Z' then (c as int - 'A' as int + 'a' as int) as char else c
  }

  /** `s.toLowerCase()` on ASCII letters. */
  function ToLower(s: string): (t: string)
    ensures |t| == |s|
    ensures forall k :: 0 <= k < |s| ==> t[k] == LowerChar(s[k])
  {
    seq(|s|, k requires 0 <= k < |s| => LowerChar(s[k]))
  }

  /** `email.trim().toLowerCase()`: the key under which an email is stored and
      compared (normalizeEmail, and the email half of a profile key). */
  function NormalizeEmail(email: string): (e: string)
    ensures |e| <= |email|
    ensures e != [] ==> !IsSpace(e[0]) && !IsSpace(e[|e| - 1])
  {
    ToLower(Trim(email))
  }

  /** Two strings of the same length that agree letter by letter once lower-cased. */
  predicate SameUpToCase(a: string, b: string) {
    |a| == |b| && forall k :: 0 <= k < |a| ==> LowerChar(a[k]) == LowerChar(b[k])
  }

  lemma LowerKeepsSpace(c: char)
    ensures IsSpace(LowerChar(c)) == IsSpace(c)
  {
  }

  lemma {:induction false} TrimStartSameUpToCase(a: string, b: string)
    requires SameUpToCase(a, b)
    ensures SameUpToCase(TrimStart(a), TrimStart(b))
    decreases |a|
  {
    if |a| > 0 {
      LowerKeepsSpace(a[0]);
      LowerKeepsSpace(b[0]);
      if IsSpace(a[0]) {
        assert SameUpToCase(a[1..], b[1..]);
        TrimStartSameUpToCase(a[1..], b[1..]);
      }
    }
  }

  lemma {:induction false} TrimEndSameUpToCase(a: string, b: string)
    requires SameUpToCase(a, b)
    ensures SameUpToCase(TrimEnd(a), TrimEnd(b))
    decreases |a|
  {
    if |a| > 0 {
      LowerKeepsSpace(a[|a| - 1]);
      LowerKeepsSpace(b[|b| - 1]);
      if IsSpace(a[|a| - 1]) {
        assert SameUpToCase(a[..|a| - 1], b[..|b| - 1]);
        TrimEndSameUpToCase(a[..|a| - 1], b[..|b| - 1]);
      }
    }
  }

  /** Emails that differ only in the case of their letters normalize equal. */
  lemma NormalizeIgnoresCase(a: string, b: string)
    requires SameUpToCase(a, b)
    ensures NormalizeEmail(a) == NormalizeEmail(b)
  {
    TrimStartSameUpToCase(a, b);
    TrimEndSameUpToCase(TrimStart(a), TrimStart(b));
  }

  lemma {:induction false} TrimStartPadding(ws: string, x: string)
    requires AllSpace(ws)
    ensures TrimStart(ws + x) == TrimStart(x)
    decreases |ws|
  {
    if ws != [] {
      var y := ws + x;
      assert y[0] == ws[0] && IsSpace(ws[0]);
      assert y[1..] == ws[1..] + x;
      assert TrimStart(y) == TrimStart(y[1..]);
      TrimStartPadding(ws[1..], x);
    } else {
      assert ws + x == x;
    }
  }

  lemma {:induction false} TrimEndPadding(x: string, ws: string)
    requires AllSpace(ws)
    ensures TrimEnd(x + ws) == TrimEnd(x)
    decreases |ws|
  {
    if ws != [] {
      var y := x + ws;
      assert y[|y| - 1] == ws[|ws| - 1] && IsSpace(ws[|ws| - 1]);
      assert y[..|y| - 1] == x + ws[..|ws| - 1];
      assert TrimEnd(y) == TrimEnd(y[..|y| - 1]);
      TrimEndPadding(x, ws[..|ws| - 1]);
    } else {
      assert x + ws == x;
    }
  }

  lemma {:induction false} TrimStartAppend(x: string, y: string)
    ensures TrimStart(x) != [] ==> TrimStart(x + y) == TrimStart(x) + y
    ensures TrimStart(x) == [] ==> TrimStart(x + y) == TrimStart(y)
    decreases |x|
  {
    if x == [] {
      assert x + y == y;
    } else if IsSpace(x[0]) {
      assert (x + y)[1..] == x[1..] + y;
      TrimStartAppend(x[1..], y);
    }
  }

  lemma TrimEndOfTrimmed(t: string)
    requires t != [] ==> !IsSpace(t[|t| - 1])
    ensures TrimEnd(t) == t
  {
  }

  /** Surrounding whitespace does not change a trimmed string. */
  lemma TrimIgnoresPadding(ws1: string, e: string, ws2: string)
    requires AllSpace(ws1) && AllSpace(ws2)
    ensures Trim(ws1 + e + ws2) == Trim(e)
  {
    assert ws1 + e + ws2 == ws1 + (e + ws2);
    TrimStartPadding(ws1, e + ws2);
    TrimStartAppend(e, ws2);
    if TrimStart(e) != [] {
      TrimEndPadding(TrimStart(e), ws2);
    } else {
      TrimStartPadding(ws2, []);
      assert ws2 + [] == ws2;
    }
  }

  /** Emails that differ only in surrounding whitespace normalize equal. */
  lemma NormalizeIgnoresPadding(ws1: string, e: string, ws2: string)
    requires AllSpace(ws1) && AllSpace(ws2)
    ensures NormalizeEmail(ws1 + e + ws2) == NormalizeEmail(e)
  {
    TrimIgnoresPadding(ws1, e, ws2);
  }

  lemma TrimOfTrimmed(t: string)
    requires t != [] ==> !IsSpace(t[0]) && !IsSpace(t[|t| - 1])
    ensures Trim(t) == t
  {
  }

  /** Normalizing an email twice gives the same key as normalizing it once. */
  lemma NormalizeIdempotent(email: string)
    ensures NormalizeEmail(NormalizeEmail(email)) == NormalizeEmail(email)
  {
    var t := Trim(email);
    var l := ToLower(t);
    if l != [] {
      LowerKeepsSpace(t[0]);
      LowerKeepsSpace(t[|t| - 1]);
    }
    TrimOfTrimmed(l);
    LowerIdempotent(t);
  }

  lemma LowerIdempotent(s: string)
    ensures ToLower(ToLower(s)) == ToLower(s)
  {
    var l := ToLower(s);
    assert forall k :: 0 <= k < |l| ==> LowerChar(l[k]) == l[k];
  }

  lemma {:induction false} TrimStartEmptyIff(s: string)
    ensures TrimStart(s) == [] <==> AllSpace(s)
  {
    if |s| > 0 && IsSpace(s[0]) {
      TrimStartEmptyIff(s[1..]);
      assert AllSpace(s) <==> AllSpace(s[1..]);
    }
  }

  lemma {:induction false} TrimEndKeepsFirst(u: string)
    requires u != [] && !IsSpace(u[0])
    ensures TrimEnd(u) != []
  {
    if IsSpace(u[|u| - 1]) {
      TrimEndKeepsFirst(u[..|u| - 1]);
    }
  }

  /** `trim()` yields the empty string exactly for all-whitespace input. */
  lemma TrimEmptyIffAllSpace(s: string)
    ensures Trim(s) == [] <==> AllSpace(s)
  {
    TrimStartEmptyIff(s);
    if TrimStart(s) != [] {
      TrimEndKeepsFirst(TrimStart(s));
    }
  }

  /** `s.endsWith(suffix)`. */
  predicate EndsWith(s: string, suffix: string) {
    |suffix| <= |s| && s[|s| - |suffix|..] == suffix
  }

  /** The pieces joined back with the separator between them. */
  function Join(parts: seq<string>, sep: char): string
    requires |parts| >= 1
  {
    if |parts| == 1 then parts[0] else parts[0] + [sep] + Join(parts[1..], sep)
  }

  /** `s.split(sep)` for a one-character separator: the pieces between
      separators, never empty as a list, none holding the separator, and their
      join with the separator is `s` again. */
  function Split(s: string, sep: char): (parts: seq<string>)
    ensures |parts| >= 1
    ensures forall k :: 0 <= k < |parts| ==> sep !in parts[k]
    ensures Join(parts, sep) == s
    decreases |s|
  {
    if sep !in s then [s]
    else
      var i := FirstIdx(s, sep);
      var rest := Split(s[i + 1..], sep);
      assert s == s[..i] + [sep] + s[i + 1..];
      [s[..i]] + rest
  }

  /** Splitting a join of separator-free pieces gives the pieces back. */
  lemma {:induction false} SplitJoin(parts: seq<string>, sep: char)
    requires |parts| >= 1
    requires forall k :: 0 <= k < |parts| ==> sep !in parts[k]
    ensures Split(Join(parts, sep), sep) == parts
    decreases |parts|
  {
    if |parts| > 1 {
      var s := Join(parts, sep);
      var p := parts[0];
      var rest := Join(parts[1..], sep);
      assert s == p + [sep] + rest;
      assert s[|p|] == sep;
      assert s[..|p|] == p;
      assert sep in s;
      var i := FirstIdx(s, sep);
      assert forall k :: 0 <= k < |p| ==> s[k] == p[k] != sep;
      assert forall k :: 0 <= k < i ==> s[..i][k] == s[k] != sep;
      assert i == |p|;
      assert s[i + 1..] == rest;
      SplitJoin(parts[1..], sep);
    }
  }

  predicate IsDigit(c: char) {
    '0' <= c <= '9'
  }

  function DigitValue(c: char): nat
    requires IsDigit(c)
  {
    c as int - '0' as int
  }

  /** The longest prefix of `s` made of decimal digits. */
  function LeadingDigits(s: string): (ds: string)
    ensures |ds| <= |s| && ds == s[..|ds|]
    ensures forall k :: 0 <= k < |ds| ==> IsDigit(ds[k])
    ensures |ds| < |s| ==> !IsDigit(s[|ds|])
  {
    if |s| > 0 && IsDigit(s[0]) then [s[0]] + LeadingDigits(s[1..]) else []
  }

  /** The value of a run of decimal digits, most significant first. */
  function DigitsValue(ds: string): nat
    requires forall k :: 0 <= k < |ds| ==> IsDigit(ds[k])
  {
    if ds == [] then 0 else 10 * DigitsValue(ds[..|ds| - 1]) + DigitValue(ds[|ds| - 1])
  }

  /** `parseInt(s) || 0`: leading whitespace skipped, an optional sign, then the
      longest run of decimal digits; without digits parseInt gives NaN and the
      `|| 0` turns that into 0. */
  function ParseIntOrZero(s: string): (n: int)
    ensures LeadingDigits(TrimStart(s)) != [] ==> n == DigitsValue(LeadingDigits(TrimStart(s)))
  {
    var t := TrimStart(s);
    if |t| > 0 && (t[0] == '-' || t[0] == '+') then
      var ds := LeadingDigits(t[1..]);
      if ds == [] then 0
      else if t[0] == '-' then -(DigitsValue(ds) as int)
      else DigitsValue(ds)
    else
      var ds := LeadingDigits(t);
      if ds == [] then 0 else DigitsValue(ds)
  }

  /** Blank and non-numeric inputs read 0, and a minus sign never reads positive. */
  lemma ParseIntOrZeroCases(s: string)
    ensures TrimStart(s) == [] ==> ParseIntOrZero(s) == 0
    ensures TrimStart(s) != [] && !IsDigit(TrimStart(s)[0]) && TrimStart(s)[0] != '-' && TrimStart(s)[0] != '+' ==> ParseIntOrZero(s) == 0
    ensures TrimStart(s) != [] && TrimStart(s)[0] == '-' ==> ParseIntOrZero(s) <= 0
  {
  }

  function DigitChar(d: nat): (c: char)
    requires d < 10
    ensures IsDigit(c) && DigitValue(c) == d
  {
    ('0' as int + d) as char
  }

  /** The decimal numeral of `n`, as a number input holds it. */
  function DecimalString(n: nat): (s: string)
    ensures s != []
    ensures forall k :: 0 <= k < |s| ==> IsDigit(s[k])
  {
    if n < 10 then [DigitChar(n)] else DecimalString(n / 10) + [DigitChar(n % 10)]
  }

  lemma {:induction false} DecimalValue(n: nat)
    ensures DigitsValue(DecimalString(n)) == n
  {
    if n >= 10 {
      var s := DecimalString(n);
      assert s[..|s| - 1] == DecimalString(n / 10);
      DecimalValue(n / 10);
    }
  }

  lemma {:induction false} LeadingDigitsOfDigits(s: string)
    requires forall k :: 0 <= k < |s| ==> IsDigit(s[k])
    ensures LeadingDigits(s) == s
  {
    if s != [] {
      LeadingDigitsOfDigits(s[1..]);
    }
  }

  /** A digit run with no sign reads as its value. */
  lemma ParseDigits(s: string)
    requires s != [] && forall k :: 0 <= k < |s| ==> IsDigit(s[k])
    ensures ParseIntOrZero(s) == DigitsValue(s)
  {
    LeadingDigitsOfDigits(s);
    assert !IsSpace(s[0]) && s[0] != '-' && s[0] != '+';
    assert TrimStart(s) == s;
  }

  /** A digit run after a minus sign reads as the negated value. */
  lemma ParseNegatedDigits(s: string)
    requires s != [] && forall k :: 0 <= k < |s| ==> IsDigit(s[k])
    ensures ParseIntOrZero("-" + s) == -(DigitsValue(s) as int)
  {
    var m := "-" + s;
    assert m[0] == '-' && m[1..] == s;
    LeadingDigitsOfDigits(s);
    ParseMinus(m);
  }

  /** Text that starts with a minus sign reads as its negated digit run. */
  lemma ParseMinus(t: string)
    requires t != [] && t[0] == '-'
    ensures ParseIntOrZero(t) == (if LeadingDigits(t[1..]) == [] then 0 else -(DigitsValue(LeadingDigits(t[1..])) as int))
  {
    assert TrimStart(t) == t;
  }

  /** Text that starts with a plus sign reads as its digit run. */
  lemma ParsePlus(t: string)
    requires t != [] && t[0] == '+'
    ensures ParseIntOrZero(t) == (if LeadingDigits(t[1..]) == [] then 0 else DigitsValue(LeadingDigits(t[1..])) as int)
  {
    assert TrimStart(t) == t;
  }

  /** parseInt reads back every decimal numeral, with or without a sign. */
  lemma ParseDecimal(n: nat)
    ensures ParseIntOrZero(DecimalString(n)) == n
    ensures ParseIntOrZero("-" + DecimalString(n)) == -(n as int)
    ensures ParseIntOrZero("+" + DecimalString(n)) == n
  {
    var d := DecimalString(n);
    DecimalValue(n);
    ParseDigits(d);
    ParseNegatedDigits(d);
    var m := "+" + d;
    assert m[0] == '+' && m[1..] == d;
    LeadingDigitsOfDigits(d);
    ParsePlus(m);
  }
}
