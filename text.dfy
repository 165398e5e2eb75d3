/**
 * The JavaScript string operations the core relies on: decimal rendering of
 * integers (template literals, `Array.join`), reading integer numerals
 * (the digit reading behind `Wkt.NumberOf`, and base-10 `parseInt`),
 * `String.split` with a string separator, `split(c)[0]`, `String.trim` and
 * the ASCII part of `toUpperCase`.
 */
module Text {
  import opened Wrappers

  // ---------------------------------------------------------------------
  // Decimal numerals

  predicate IsDigit(c: char) {
    '0' <= c <= '9'
  }

  predicate AllDigits(s: string) {
    forall i | 0 <= i < |s| :: IsDigit(s[i])
  }

  function DigitChar(d: nat): (c: char)
    requires d < 10
    ensures IsDigit(c)
  {
    ('0' as int + d) as char
  }

  /** The value of a digit string read left to right, as `Number` reads it. */
  function DigitsValue(s: string): nat
    requires AllDigits(s)
    decreases |s|
  {
    if |s| == 0 then 0
    else DigitsValue(s[..|s| - 1]) * 10 + (s[|s| - 1] as int - '0' as int)
  }

  /** `String(n)` for a non-negative integer. */
  function NatToString(n: nat): (s: string)
    ensures |s| > 0 && AllDigits(s)
    decreases n
  {
    if n < 10 then [DigitChar(n)] else NatToString(n / 10) + [DigitChar(n % 10)]
  }

  /** `String(i)` for an integer: a minus sign, then the digits of |i|. */
  function IntToString(i: int): string {
    if i < 0 then "-" + NatToString(-i) else NatToString(i)
  }

  /** An integer numeral: an optional minus sign followed by at least one digit. */
  function ParseInt(s: string): Option<int> {
    if |s| > 0 && s[0] == '-' then
      if |s| > 1 && AllDigits(s[1..]) then Some(0 - DigitsValue(s[1..])) else None
    else if |s| > 0 && AllDigits(s) then Some(DigitsValue(s) as int)
    else None
  }

  lemma {:induction false} DigitsValueOfNatToString(n: nat)
    ensures DigitsValue(NatToString(n)) == n
    decreases n
  {
    var s := NatToString(n);
    if n >= 10 {
      DigitsValueOfNatToString(n / 10);
      assert s[..|s| - 1] == NatToString(n / 10);
    }
  }

  /** Printing an integer and reading it back gives the integer again. */
  lemma ParseIntToString(i: int)
    ensures ParseInt(IntToString(i)) == Some(i)
  {
    if i < 0 {
      var s := IntToString(i);
      assert s[1..] == NatToString(-i);
      DigitsValueOfNatToString(-i);
    } else {
      DigitsValueOfNatToString(i);
    }
  }

  /** A printed integer never contains a space, a comma or a parenthesis. */
  lemma IntToStringAlphabet(i: int)
    ensures forall k | 0 <= k < |IntToString(i)| :: IntToString(i)[k] == '-' || IsDigit(IntToString(i)[k])
  {
  }

  /** `parseInt(s)` in base 10: leading white space, an optional sign, then the longest run of digits. */
  function ParseLeadingInt(s: string): Option<int> {
    ReadSigned(TrimStart(s))
  }

  /** An optional sign, then the longest run of digits. */
  function ReadSigned(t: string): Option<int> {
    if |t| > 0 && t[0] == '-' then
      match ReadDigits(t[1..])
      case None => None
      case Some(v) => Some(0 - v)
    else if |t| > 0 && t[0] == '+' then ReadDigits(t[1..])
    else ReadDigits(t)
  }

  /** The value of the longest run of digits `u` starts with; `None` when it starts with none. */
  function ReadDigits(u: string): Option<int> {
    var n := LeadingDigits(u);
    if n == 0 then None else Some(DigitsValue(u[..n]) as int)
  }

  /** The length of the run of digits `s` starts with. */
  function LeadingDigits(s: string): (n: nat)
    ensures n <= |s| && AllDigits(s[..n])
    ensures n < |s| ==> !IsDigit(s[n])
    decreases |s|
  {
    if |s| > 0 && IsDigit(s[0]) then
      var k := LeadingDigits(s[1..]);
      assert s[..k + 1] == [s[0]] + s[1..][..k];
      k + 1
    else 0
  }

  lemma {:induction false} LeadingDigitsAll(s: string)
    requires AllDigits(s)
    ensures LeadingDigits(s) == |s|
    decreases |s|
  {
    if |s| > 0 {
      LeadingDigitsAll(s[1..]);
    }
  }

  /** A string of digits reads as its value. */
  lemma ReadAllDigits(d: string)
    requires |d| > 0 && AllDigits(d)
    ensures ReadDigits(d) == Some(DigitsValue(d) as int)
  {
    LeadingDigitsAll(d);
    assert d[..|d|] == d;
  }

  /** Text that does not start with white space is its own `trimStart`. */
  lemma TrimStartSolid(t: string)
    requires |t| > 0 && !IsJsSpace(t[0])
    ensures TrimStart(t) == t
  {
  }

  /** `parseInt` of a run of digits. */
  lemma ParseDigits(d: string)
    requires |d| > 0 && AllDigits(d)
    ensures ParseLeadingInt(d) == Some(DigitsValue(d) as int)
  {
    TrimStartSolid(d);
    ReadAllDigits(d);
  }

  /** `parseInt` of a minus sign followed by a run of digits. */
  lemma ParseNegatedDigits(t: string)
    requires |t| > 1 && t[0] == '-' && AllDigits(t[1..])
    ensures ParseLeadingInt(t) == Some(0 - DigitsValue(t[1..]))
  {
    TrimStartSolid(t);
    ReadAllDigits(t[1..]);
    ReadNegative(t, DigitsValue(t[1..]));
  }

  /** After a minus sign, the digits read negated. */
  lemma ReadNegative(t: string, w: int)
    requires |t| > 0 && t[0] == '-' && ReadDigits(t[1..]) == Some(w)
    ensures ReadSigned(t) == Some(0 - w)
  {
  }

  /** Text that starts with neither white space, a sign nor a digit reads as NaN. */
  lemma ParseLeadingIntRejects(s: string)
    requires |s| > 0 && !IsJsSpace(s[0]) && !IsDigit(s[0]) && s[0] != '-' && s[0] != '+'
    ensures ParseLeadingInt(s) == None
  {
    assert TrimStart(s) == s;
  }

  /** Reading back a printed integer gives the integer; text that starts with neither a sign nor a digit is NaN. */
  lemma ParseLeadingIntRule(i: int, s: string)
    ensures ParseLeadingInt(IntToString(i)) == Some(i)
    ensures |s| > 0 && !IsJsSpace(s[0]) && !IsDigit(s[0]) && s[0] != '-' && s[0] != '+' ==> ParseLeadingInt(s) == None
  {
    if |s| > 0 && !IsJsSpace(s[0]) && !IsDigit(s[0]) && s[0] != '-' && s[0] != '+' {
      ParseLeadingIntRejects(s);
    }
    if i < 0 {
      var t := IntToString(i);
      assert t[1..] == NatToString(-i);
      ParseNegatedDigits(t);
      DigitsValueOfNatToString(-i);
    } else {
      ParseDigits(NatToString(i));
      DigitsValueOfNatToString(i);
    }
  }

  // ---------------------------------------------------------------------
  // join / split

  predicate Excludes(s: string, c: char) {
    forall i | 0 <= i < |s| :: s[i] != c
  }

  /** `parts.join(sep)`. */
  function Join(parts: seq<string>, sep: string): string {
    if |parts| == 0 then ""
    else if |parts| == 1 then parts[0]
    else parts[0] + sep + Join(parts[1..], sep)
  }

  /**
   * `s.split(sep)` with `acc` holding the part read so far: the leftmost
   * occurrence of `sep` ends a part and reading resumes after it.
   */
  function SplitFrom(s: string, sep: string, acc: string): (parts: seq<string>)
    requires |sep| > 0
    ensures |parts| > 0
    decreases |s|
  {
    if |s| == 0 then [acc]
    else if |sep| <= |s| && s[..|sep|] == sep then [acc] + SplitFrom(s[|sep|..], sep, "")
    else SplitFrom(s[1..], sep, acc + [s[0]])
  }

  /** `s.split(sep)`; splitting the empty string gives one empty part. */
  function Split(s: string, sep: string): seq<string>
    requires |sep| > 0
  {
    SplitFrom(s, sep, "")
  }

  lemma {:induction false} SplitSkips(p: string, t: string, sep: string, acc: string)
    requires |sep| > 0 && Excludes(p, sep[0])
    ensures SplitFrom(p + t, sep, acc) == SplitFrom(t, sep, acc + p)
    decreases |p|
  {
    if |p| == 0 {
      assert p + t == t && acc + p == acc;
    } else {
      var s := p + t;
      assert s[0] == p[0] != sep[0];
      assert s[1..] == p[1..] + t;
      SplitSkips(p[1..], t, sep, acc + [p[0]]);
      assert acc + [p[0]] + p[1..] == acc + p;
    }
  }

  /** Splitting a joined list gives the list back when no part holds the separator's first character. */
  lemma {:induction false} SplitJoin(parts: seq<string>, sep: string)
    requires |parts| > 0 && |sep| > 0
    requires forall k | 0 <= k < |parts| :: Excludes(parts[k], sep[0])
    ensures Split(Join(parts, sep), sep) == parts
  {
    if |parts| == 1 {
      SplitSkips(parts[0], "", sep, "");
      assert parts[0] + "" == parts[0] && "" + parts[0] == parts[0];
    } else {
      var rest := Join(parts[1..], sep);
      assert Join(parts, sep) == parts[0] + (sep + rest);
      SplitSkips(parts[0], sep + rest, sep, "");
      assert "" + parts[0] == parts[0];
      assert (sep + rest)[..|sep|] == sep && (sep + rest)[|sep|..] == rest;
      SplitJoin(parts[1..], sep);
    }
  }

  lemma {:induction false} JoinExcludes(parts: seq<string>, sep: string, c: char)
    requires Excludes(sep, c)
    requires forall k | 0 <= k < |parts| :: Excludes(parts[k], c)
    ensures Excludes(Join(parts, sep), c)
  {
    if |parts| > 1 {
      JoinExcludes(parts[1..], sep, c);
    }
  }

  // ---------------------------------------------------------------------
  // trim

  /** The characters `String.prototype.trim` removes: ECMAScript WhiteSpace and LineTerminator. */
  predicate IsJsSpace(c: char) {
    || c == '\t' || c == '\n' || c == '\U{000B}' || c == '\U{000C}' || c == '\r' || c == ' '
    || c == '\U{00A0}' || c == '\U{1680}' || ('\U{2000}' <= c <= '\U{200A}')
    || c == '\U{2028}' || c == '\U{2029}' || c == '\U{202F}' || c == '\U{205F}'
    || c == '\U{3000}' || c == '\U{FEFF}'
  }

  predicate IsBlank(s: string) {
    forall i | 0 <= i < |s| :: IsJsSpace(s[i])
  }

  function TrimStart(s: string): string
    decreases |s|
  {
    if |s| > 0 && IsJsSpace(s[0]) then TrimStart(s[1..]) else s
  }

  function TrimEnd(s: string): string
    decreases |s|
  {
    if |s| > 0 && IsJsSpace(s[|s| - 1]) then TrimEnd(s[..|s| - 1]) else s
  }

  function Trim(s: string): string {
    TrimEnd(TrimStart(s))
  }

  lemma {:induction false} TrimStartEmpty(s: string)
    ensures TrimStart(s) == "" <==> IsBlank(s)
    decreases |s|
  {
    if |s| > 0 && IsJsSpace(s[0]) {
      TrimStartEmpty(s[1..]);
      assert IsBlank(s) <==> IsBlank(s[1..]) by {
        if IsBlank(s[1..]) {
          forall i | 0 <= i < |s| ensures IsJsSpace(s[i]) {
            if i > 0 { assert s[i] == s[1..][i - 1]; }
          }
        }
      }
    }
  }

  lemma {:induction false} TrimEndKeepsFirst(s: string)
    requires |s| > 0 && !IsJsSpace(s[0])
    ensures |TrimEnd(s)| > 0
    decreases |s|
  {
    if IsJsSpace(s[|s| - 1]) {
      TrimEndKeepsFirst(s[..|s| - 1]);
    }
  }

  /** `s.trim()` is empty exactly when every character of `s` is white space. */
  lemma TrimEmptyIffBlank(s: string)
    ensures Trim(s) == "" <==> IsBlank(s)
  {
    TrimStartEmpty(s);
    var t := TrimStart(s);
    if t != "" {
      assert !IsJsSpace(t[0]) by { TrimStartFirst(s); }
      TrimEndKeepsFirst(t);
    }
  }

  lemma {:induction false} TrimStartFirst(s: string)
    requires TrimStart(s) != ""
    ensures !IsJsSpace(TrimStart(s)[0])
    decreases |s|
  {
    if |s| > 0 && IsJsSpace(s[0]) {
      TrimStartFirst(s[1..]);
    }
  }

  /** Trimming leaves a string alone when neither end is white space. */
  lemma TrimKeepsSolidEnds(s: string)
    requires |s| > 0 && !IsJsSpace(s[0]) && !IsJsSpace(s[|s| - 1])
    ensures Trim(s) == s
  {
  }

  // ---------------------------------------------------------------------
  // case and prefixes

  predicate IsUpperLetter(c: char) {
    'A' <= c <= 'Z'
  }

  /** `toUpperCase` on ASCII letters; other characters are left as they are. */
  function UpperChar(c: char): char {
    if 'a' <= c <= 'z' then (c as int - 32) as char else c
  }

  function Upper(s: string): (r: string)
    ensures |r| == |s|
    ensures forall i | 0 <= i < |s| :: r[i] == UpperChar(s[i])
  {
    seq(|s|, i requires 0 <= i < |s| => UpperChar(s[i]))
  }

  /** `s.split(c)[0]`: the text before the first `c`, or all of `s`. */
  function BeforeFirst(s: string, c: char): (r: string)
    ensures |r| <= |s| && r == s[..|r|]
    ensures Excludes(r, c)
    ensures |r| < |s| ==> s[|r|] == c
    decreases |s|
  {
    if |s| == 0 then ""
    else if s[0] == c then ""
    else [s[0]] + BeforeFirst(s[1..], c)
  }
}
