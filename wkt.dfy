/**
 * `geometryToWKT` and `wktToGeometry`: the Well-known Text printer and
 * parser for points, line strings and polygons (a subset of clause 7 of
 * ISO 19125-1, OGC Simple Features Access Part 1).
 *
 * Coordinates are JavaScript numbers; the model keeps the integers and NaN,
 * for which `String` and `Number` are exact inverses.
 */
module Wkt {
  import opened Wrappers
  import opened Text

  /** A coordinate value: an integer, or NaN. */
  datatype Num = Int(value: int) | NaN

  /**
   * An OpenLayers geometry by the coordinates handed to its constructor: a
   * point is one coordinate, a line string a list of coordinates, a polygon
   * a list of rings. `Unsupported` is any other geometry type.
   */
  datatype Geometry =
    | Point(coord: seq<Num>)
    | LineString(path: seq<seq<Num>>)
    | Polygon(rings: seq<seq<seq<Num>>>)
    | Unsupported

  // ---------------------------------------------------------------------
  // Numbers

  /** `String(n)`. */
  function NumText(n: Num): (s: string)
    ensures |s| > 0 && !IsJsSpace(s[0]) && !IsJsSpace(s[|s| - 1])
    ensures Excludes(s, ' ') && Excludes(s, ',') && Excludes(s, '(') && Excludes(s, ')')
  {
    match n
    case Int(i) => IntToStringAlphabet(i); IntToString(i)
    case NaN => "NaN"
  }

  /**
   * `Number(s)`: white space around the numeral is ignored, a blank string
   * is 0, a decimal integer with an optional sign is its value, anything
   * else is NaN.
   */
  function NumberOf(s: string): Num {
    var t := Trim(s);
    if t == "" then Int(0)
    else if |t| > 1 && t[0] == '+' && AllDigits(t[1..]) then Int(DigitsValue(t[1..]))
    else match ParseInt(t)
      case Some(i) => Int(i)
      case None => NaN
  }

  /** Printing a number and reading it back gives the number. */
  lemma NumberOfNumText(n: Num)
    ensures NumberOf(NumText(n)) == n
  {
    TrimKeepsSolidEnds(NumText(n));
    if n.Int? {
      ParseIntToString(n.value);
    }
  }

  // ---------------------------------------------------------------------
  // Printing

  function NumTexts(c: seq<Num>): (ts: seq<string>)
    ensures |ts| == |c| && forall i | 0 <= i < |c| :: ts[i] == NumText(c[i])
  {
    seq(|c|, i requires 0 <= i < |c| => NumText(c[i]))
  }

  /** `coord.join(' ')`. */
  function CoordText(c: seq<Num>): (s: string)
    ensures Excludes(s, ',') && Excludes(s, '(') && Excludes(s, ')')
  {
    var ts := NumTexts(c);
    JoinExcludes(ts, " ", ','); JoinExcludes(ts, " ", '('); JoinExcludes(ts, " ", ')');
    Join(ts, " ")
  }

  function CoordTexts(cs: seq<seq<Num>>): (ts: seq<string>)
    ensures |ts| == |cs| && forall i | 0 <= i < |cs| :: ts[i] == CoordText(cs[i])
  {
    seq(|cs|, i requires 0 <= i < |cs| => CoordText(cs[i]))
  }

  /** `coords.map(coord => coord.join(' ')).join(', ')`. */
  function PathText(cs: seq<seq<Num>>): (s: string)
    ensures Excludes(s, '(') && Excludes(s, ')')
  {
    var ts := CoordTexts(cs);
    JoinExcludes(ts, ", ", '('); JoinExcludes(ts, ", ", ')');
    Join(ts, ", ")
  }

  function RingTexts(rs: seq<seq<seq<Num>>>): (ts: seq<string>)
    ensures |ts| == |rs| && forall i | 0 <= i < |rs| :: ts[i] == "(" + PathText(rs[i]) + ")"
  {
    seq(|rs|, i requires 0 <= i < |rs| => "(" + PathText(rs[i]) + ")")
  }

  /** `geometryToWKT`; no geometry and an unsupported type print as "". */
  function ToWkt(g: Option<Geometry>): string {
    match g
    case None => ""
    case Some(Point(c)) => "POINT" + "(" + CoordText(c) + ")"
    case Some(LineString(cs)) => "LINESTRING" + "(" + PathText(cs) + ")"
    case Some(Polygon(rs)) => "POLYGON" + "(" + Join(RingTexts(rs), ", ") + ")"
    case Some(Unsupported) => ""
  }

  // ---------------------------------------------------------------------
  // Parsing

  /** `coordStr.split(' ').map(Number)`. */
  function ParseCoord(t: string): (c: seq<Num>)
    ensures |c| == |Split(t, " ")|
  {
    var parts := Split(t, " ");
    seq(|parts|, i requires 0 <= i < |parts| => NumberOf(parts[i]))
  }

  /** `t.split(', ').map(pair => pair.split(' ').map(Number))`. */
  function ParsePath(t: string): (cs: seq<seq<Num>>)
    ensures |cs| == |Split(t, ", ")|
  {
    var parts := Split(t, ", ");
    seq(|parts|, i requires 0 <= i < |parts| => ParseCoord(parts[i]))
  }

  /** `s.replace(/[()]/g, '')`. */
  function RemoveParens(s: string): (r: string)
    ensures Excludes(r, '(') && Excludes(r, ')')
    decreases |s|
  {
    if s == [] then []
    else (if s[0] == '(' || s[0] == ')' then [] else [s[0]]) + RemoveParens(s[1..])
  }

  /** The number of leading characters `[A-Z]` matches. */
  function LeadingUpper(s: string): (n: nat)
    ensures n <= |s|
    decreases |s|
  {
    if |s| > 0 && IsUpperLetter(s[0]) then 1 + LeadingUpper(s[1..]) else 0
  }

  /** The number of leading characters `\s` matches. */
  function LeadingSpaces(s: string): (n: nat)
    ensures n <= |s|
    decreases |s|
  {
    if |s| > 0 && IsJsSpace(s[0]) then 1 + LeadingSpaces(s[1..]) else 0
  }

  /** `wkt.replace(/^[A-Z]+\s*\(|\)$/g, '')`: drop a leading tag and '(' and one final ')'. */
  function StripFrame(s: string): string {
    var k := LeadingUpper(s);
    var m := k + LeadingSpaces(s[k..]);
    var a := if k > 0 && m < |s| && s[m] == '(' then s[m + 1..] else s;
    if |a| > 0 && a[|a| - 1] == ')' then a[..|a| - 1] else a
  }

  /** The length of a match of `/\),\s*\(/` at the start of `s`, or 0. */
  function RingSepLen(s: string): nat {
    if |s| >= 2 && s[0] == ')' && s[1] == ',' then
      var k := 2 + LeadingSpaces(s[2..]);
      if k < |s| && s[k] == '(' then k + 1 else 0
    else 0
  }

  /** `s.split(/\),\s*\(/)` with `acc` holding the part read so far. */
  function SplitRingsFrom(s: string, acc: string): (parts: seq<string>)
    ensures |parts| > 0
    decreases |s|
  {
    if |s| == 0 then [acc]
    else
      var n := RingSepLen(s);
      if n > 0 then [acc] + SplitRingsFrom(s[n..], "")
      else SplitRingsFrom(s[1..], acc + [s[0]])
  }

  /** `wkt.split('(')[0].toUpperCase()`. */
  function TypeTag(s: string): string {
    Upper(BeforeFirst(s, '('))
  }

  /** `wktToGeometry`; `None` stands for `null`. */
  function FromWkt(s: string): Option<Geometry> {
    if s == "" then None
    else
      var tag := TypeTag(s);
      var body := StripFrame(s);
      if tag == "POINT" then Some(Point(ParseCoord(body)))
      else if tag == "LINESTRING" then Some(LineString(ParsePath(body)))
      else if tag == "POLYGON" then
        var parts := SplitRingsFrom(body, "");
        Some(Polygon(seq(|parts|, i requires 0 <= i < |parts| => ParsePath(RemoveParens(parts[i])))))
      else None
  }

  // ---------------------------------------------------------------------
  // Rejection and the printed form

  /** The parser returns a geometry exactly for a non-empty text with one of the three tags, of that kind. */
  lemma ParseOutcome(s: string)
    ensures FromWkt(s).Some? <==> s != "" && TypeTag(s) in {"POINT", "LINESTRING", "POLYGON"}
    ensures FromWkt(s).Some? ==>
      && (FromWkt(s).value.Point? <==> TypeTag(s) == "POINT")
      && (FromWkt(s).value.LineString? <==> TypeTag(s) == "LINESTRING")
      && (FromWkt(s).value.Polygon? <==> TypeTag(s) == "POLYGON")
      && !FromWkt(s).value.Unsupported?
  {
  }

  /** The printer gives "" exactly for no geometry and for an unsupported type. */
  lemma PrintEmptyIffUnsupported(g: Option<Geometry>)
    ensures ToWkt(g) == "" <==> g.None? || g.value.Unsupported?
  {
  }

  lemma BeforeFirstAt(p: string, c: char, q: string)
    requires Excludes(p, c)
    ensures BeforeFirst(p + [c] + q, c) == p
  {
    var s := p + [c] + q;
    assert s[|p|] == c;
    assert forall i | 0 <= i < |p| :: s[i] == p[i];
  }

  lemma UpperKeepsUpper(s: string)
    requires forall i | 0 <= i < |s| :: IsUpperLetter(s[i]) || s[i] == ' '
    ensures Upper(s) == s
  {
  }

  lemma {:induction false} LeadingUpperOf(w: string, t: string)
    requires forall i | 0 <= i < |w| :: IsUpperLetter(w[i])
    requires |t| > 0 && !IsUpperLetter(t[0])
    ensures LeadingUpper(w + t) == |w|
    decreases |w|
  {
    if |w| > 0 {
      assert (w + t)[1..] == w[1..] + t;
      LeadingUpperOf(w[1..], t);
    } else {
      assert w + t == t;
    }
  }

  /** A tag printed before '(' is read back, and the frame strips to the body. */
  lemma FramedText(w: string, body: string)
    requires |w| > 0 && forall i | 0 <= i < |w| :: IsUpperLetter(w[i])
    ensures var s := w + "(" + body + ")";
      s != "" && TypeTag(s) == w && StripFrame(s) == body
  {
    var s := w + "(" + body + ")";
    assert s == w + ['('] + (body + ")");
    BeforeFirstAt(w, '(', body + ")");
    UpperKeepsUpper(w);
    assert s == w + ("(" + body + ")");
    LeadingUpperOf(w, "(" + body + ")");
    assert s[|w|..] == "(" + body + ")";
    assert LeadingSpaces(s[|w|..]) == 0;
    assert s[|w| + 1..] == body + ")";
  }

  // ---------------------------------------------------------------------
  // Round trip

  /** Every list the printer joins is non-empty: an empty list prints as "" and reads back as one 0. */
  predicate Printable(g: Geometry) {
    match g
    case Point(c) => |c| > 0
    case LineString(cs) => PathPrintable(cs)
    case Polygon(rs) => |rs| > 0 && forall i | 0 <= i < |rs| :: PathPrintable(rs[i])
    case Unsupported => false
  }

  predicate PathPrintable(cs: seq<seq<Num>>) {
    |cs| > 0 && forall i | 0 <= i < |cs| :: |cs[i]| > 0
  }

  lemma ParseCoordText(c: seq<Num>)
    requires |c| > 0
    ensures ParseCoord(CoordText(c)) == c
  {
    var ts := NumTexts(c);
    SplitJoin(ts, " ");
    forall i | 0 <= i < |c| ensures NumberOf(ts[i]) == c[i] {
      NumberOfNumText(c[i]);
    }
  }

  lemma ParsePathText(cs: seq<seq<Num>>)
    requires PathPrintable(cs)
    ensures ParsePath(PathText(cs)) == cs
  {
    var ts := CoordTexts(cs);
    SplitJoin(ts, ", ");
    forall i | 0 <= i < |cs| ensures ParseCoord(ts[i]) == cs[i] {
      ParseCoordText(cs[i]);
    }
  }

  lemma {:induction false} RemoveParensAppend(a: string, b: string)
    ensures RemoveParens(a + b) == RemoveParens(a) + RemoveParens(b)
    decreases |a|
  {
    if a == [] {
      assert a + b == b;
    } else {
      assert (a + b)[1..] == a[1..] + b;
      RemoveParensAppend(a[1..], b);
    }
  }

  lemma {:induction false} RemoveParensNone(s: string)
    requires Excludes(s, '(') && Excludes(s, ')')
    ensures RemoveParens(s) == s
    decreases |s|
  {
    if s != [] {
      RemoveParensNone(s[1..]);
      assert s == [s[0]] + s[1..];
    }
  }

  /** Text without ')' never holds a ring separator, so it stays in the current part. */
  lemma {:induction false} SplitRingsSkips(p: string, t: string, acc: string)
    requires Excludes(p, ')')
    ensures SplitRingsFrom(p + t, acc) == SplitRingsFrom(t, acc + p)
    decreases |p|
  {
    if |p| == 0 {
      assert p + t == t && acc + p == acc;
    } else {
      assert (p + t)[0] == p[0];
      assert (p + t)[1..] == p[1..] + t;
      SplitRingsSkips(p[1..], t, acc + [p[0]]);
      assert acc + [p[0]] + p[1..] == acc + p;
    }
  }

  /** The printed rings after the first '(': each path, ')', and ", (" before the next one. */
  function RingsTail(ps: seq<string>): string
    requires |ps| > 0
    decreases |ps|
  {
    if |ps| == 1 then ps[0] + ")" else ps[0] + ")" + ", (" + RingsTail(ps[1..])
  }

  lemma {:induction false} JoinedRings(ps: seq<string>, ts: seq<string>)
    requires |ps| > 0 && |ts| == |ps|
    requires forall i | 0 <= i < |ps| :: ts[i] == "(" + ps[i] + ")"
    ensures Join(ts, ", ") == "(" + RingsTail(ps)
    decreases |ps|
  {
    if |ps| > 1 {
      JoinedRings(ps[1..], ts[1..]);
    }
  }

  /** The last ring: its path and the final ')' form the last part. */
  lemma SplitRingsLast(p: string, acc: string)
    requires Excludes(p, ')')
    ensures SplitRingsFrom(p + ")", acc) == [acc + p + ")"]
  {
    SplitRingsSkips(p, ")", acc);
    assert RingSepLen(")") == 0;
    assert ")"[1..] == "";
  }

  /** A ring before another: ", (" after its ')' ends its part and opens the next. */
  lemma SplitRingsStep(p: string, rest: string, acc: string)
    requires Excludes(p, ')')
    ensures SplitRingsFrom(p + ")" + ", (" + rest, acc) == [acc + p] + SplitRingsFrom(rest, "")
  {
    var x := "), (" + rest;
    assert p + ")" + ", (" + rest == p + x;
    SplitRingsSkips(p, x, acc);
    assert x[2..] == " (" + rest;
    assert LeadingSpaces(x[2..]) == 1 by {
      assert (" (" + rest)[1..] == "(" + rest;
    }
    assert RingSepLen(x) == 4;
    assert x[4..] == rest;
  }

  /** Splitting the printed rings gives one part per ring, which is that ring's path once parentheses are removed. */
  lemma {:induction false} SplitRingsTail(ps: seq<string>, acc: string)
    requires |ps| > 0 && RemoveParens(acc) == ""
    requires forall i | 0 <= i < |ps| :: Excludes(ps[i], '(') && Excludes(ps[i], ')')
    ensures var parts := SplitRingsFrom(RingsTail(ps), acc);
      |parts| == |ps| && forall i | 0 <= i < |ps| :: RemoveParens(parts[i]) == ps[i]
    decreases |ps|
  {
    var parts := SplitRingsFrom(RingsTail(ps), acc);
    RemoveParensNone(ps[0]);
    RemoveParensAppend(acc, ps[0]);
    if |ps| == 1 {
      SplitRingsLast(ps[0], acc);
      RemoveParensAppend(acc + ps[0], ")");
    } else {
      var rest := RingsTail(ps[1..]);
      SplitRingsStep(ps[0], rest, acc);
      var tail := SplitRingsFrom(rest, "");
      assert parts == [acc + ps[0]] + tail;
      SplitRingsTail(ps[1..], "");
      forall i | 0 <= i < |ps| ensures RemoveParens(parts[i]) == ps[i] {
        if i > 0 {
          assert parts[i] == tail[i - 1];
        }
      }
    }
  }

  /** What the parser makes of a printed frame around `body`, for each of the three tags. */
  lemma ParsePointFrame(body: string)
    ensures FromWkt("POINT" + "(" + body + ")") == Some(Point(ParseCoord(body)))
  {
    FramedText("POINT", body);
  }

  lemma ParseLineStringFrame(body: string)
    ensures FromWkt("LINESTRING" + "(" + body + ")") == Some(LineString(ParsePath(body)))
  {
    FramedText("LINESTRING", body);
  }

  lemma ParsePolygonFrame(body: string)
    ensures var parts := SplitRingsFrom(body, "");
      FromWkt("POLYGON" + "(" + body + ")")
        == Some(Polygon(seq(|parts|, i requires 0 <= i < |parts| => ParsePath(RemoveParens(parts[i])))))
  {
    FramedText("POLYGON", body);
  }

  lemma PolygonRoundTrip(rs: seq<seq<seq<Num>>>)
    requires |rs| > 0 && forall i | 0 <= i < |rs| :: PathPrintable(rs[i])
    ensures FromWkt(ToWkt(Some(Polygon(rs)))) == Some(Polygon(rs))
  {
    var ts := RingTexts(rs);
    var ps := CoordPaths(rs);
    var body := Join(ts, ", ");
    JoinedRings(ps, ts);
    ParsePolygonFrame(body);
    assert SplitRingsFrom(body, "") == SplitRingsFrom(RingsTail(ps), "(") by {
      assert body[0] == '(' && body[1..] == RingsTail(ps);
      assert RingSepLen(body) == 0;
      assert "" + [body[0]] == "(";
    }
    assert RemoveParens("(") == "";
    SplitRingsTail(ps, "(");
    var parts := SplitRingsFrom(body, "");
    assert |parts| == |rs|;
    forall i | 0 <= i < |rs| ensures ParsePath(RemoveParens(parts[i])) == rs[i] {
      assert RemoveParens(parts[i]) == PathText(rs[i]);
      ParsePathText(rs[i]);
    }
    assert seq(|parts|, i requires 0 <= i < |parts| => ParsePath(RemoveParens(parts[i]))) == rs;
  }

  lemma PointRoundTrip(c: seq<Num>)
    requires |c| > 0
    ensures FromWkt(ToWkt(Some(Point(c)))) == Some(Point(c))
  {
    ParsePointFrame(CoordText(c));
    ParseCoordText(c);
  }

  lemma LineStringRoundTrip(cs: seq<seq<Num>>)
    requires PathPrintable(cs)
    ensures FromWkt(ToWkt(Some(LineString(cs)))) == Some(LineString(cs))
  {
    ParseLineStringFrame(PathText(cs));
    ParsePathText(cs);
  }

  /**
   * Parsing the printed text of a point, line string or polygon gives the
   * same kind with the same coordinates, when every printed list is
   * non-empty.
   */
  lemma RoundTrip(g: Geometry)
    requires Printable(g)
    ensures FromWkt(ToWkt(Some(g))) == Some(g)
  {
    match g
    case Point(c) => PointRoundTrip(c);
    case LineString(cs) => LineStringRoundTrip(cs);
    case Polygon(rs) => PolygonRoundTrip(rs);
  }

  function CoordPaths(rs: seq<seq<seq<Num>>>): (ps: seq<string>)
    ensures |ps| == |rs| && forall i | 0 <= i < |rs| :: ps[i] == PathText(rs[i])
  {
    seq(|rs|, i requires 0 <= i < |rs| => PathText(rs[i]))
  }

  lemma EmptyTextReadsZero()
    ensures ParseCoord("") == [Int(0)]
    ensures ParsePath("") == [[Int(0)]]
  {
    assert Split("", " ") == [""];
    assert Split("", ", ") == [""];
    assert Trim("") == "";
    assert NumberOf("") == Int(0);
  }

  /** Why the round trip needs non-empty lists: an empty point reads back as a single 0. */
  lemma EmptyPointReadsZero()
    ensures FromWkt(ToWkt(Some(Point([])))) == Some(Point([Int(0)]))
  {
    assert CoordText([]) == "";
    ParsePointFrame("");
    EmptyTextReadsZero();
  }

  /** An empty line string reads back as one coordinate holding a single 0. */
  lemma EmptyLineStringReadsZero()
    ensures FromWkt(ToWkt(Some(LineString([])))) == Some(LineString([[Int(0)]]))
  {
    assert PathText([]) == "";
    ParseLineStringFrame("");
    EmptyTextReadsZero();
  }

  /** A space between the tag and '(' makes the tag unknown, so the text is rejected. */
  lemma SpaceBeforeParenRejected(w: string, sp: string, rest: string)
    requires w in {"POINT", "LINESTRING", "POLYGON"}
    requires |sp| > 0 && forall i | 0 <= i < |sp| :: sp[i] == ' '
    ensures FromWkt(w + sp + "(" + rest) == None
  {
    var s := w + sp + "(" + rest;
    assert s == (w + sp) + ['('] + rest;
    BeforeFirstAt(w + sp, '(', rest);
    UpperKeepsUpper(w + sp);
    assert TypeTag(s) == w + sp;
    var tag := w + sp;
    assert tag[|tag| - 1] == ' ';
  }

  /**
   * The tag is matched without regard to case but only an upper-case tag is
   * stripped: a lower-case "point(" stays in front of the first number.
   */
  lemma LowerCaseTagKeepsPrefix(w: string, body: string)
    requires |w| > 0 && 'a' <= w[0] <= 'z' && Excludes(w, '(') && Upper(w) == "POINT"
    ensures FromWkt(w + "(" + body + ")") == Some(Point(ParseCoord(w + "(" + body)))
  {
    var s := w + "(" + body + ")";
    assert s == w + ['('] + (body + ")");
    BeforeFirstAt(w, '(', body + ")");
    assert LeadingUpper(s) == 0;
    assert s[..|s| - 1] == w + "(" + body;
  }
}
