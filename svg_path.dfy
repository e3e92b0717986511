/** The SVG path text of a rationale connector (components/RationaleOverlay.tsx:68)
    and the renderer's `d.split(' ')` that places the start dot
    (components/RationaleOverlay.tsx:129).

    JavaScript's number-to-string conversion is a parameter `fmt`; all the
    model asks of it is that its output never contains a space, which holds
    for every string `String(n)` produces. */
module SvgPath {
  import opened Types

  /** A cubic Bezier curve: start, two control points, end. */
  datatype Curve = Curve(start: Point, cp1: Point, cp2: Point, end: Point)

  ghost predicate NoSpaces(fmt: real -> string)
  {
    forall r: real :: ' ' !in fmt(r)
  }

  /** The template literal `M ${sx} ${sy} C ${cp1x} ${cp1y}, ${cp2x} ${cp2y}, ${tx} ${ty}`:
      its literal pieces and its interpolated numbers, in order. */
  function PathData(c: Curve, fmt: real -> string): (d: string)
    ensures StartsWith(d, "M ")
  {
    "M " + (fmt(c.start.x) + (" " + (fmt(c.start.y) +
    (" C " + (fmt(c.cp1.x) + (" " + (fmt(c.cp1.y) +
    (", " + (fmt(c.cp2.x) + (" " + (fmt(c.cp2.y) +
    (", " + (fmt(c.end.x) + (" " + fmt(c.end.y)))))))))))))))
  }

  /** The space-separated tokens of the path text, in order. */
  function PathTokens(c: Curve, fmt: real -> string): seq<string>
  {
    ["M", fmt(c.start.x), fmt(c.start.y),
     "C", fmt(c.cp1.x), fmt(c.cp1.y) + ",",
     fmt(c.cp2.x), fmt(c.cp2.y) + ",",
     fmt(c.end.x), fmt(c.end.y)]
  }

  /** Tokens joined by single spaces. */
  function Join(ts: seq<string>): string
  {
    if |ts| == 0 then ""
    else if |ts| == 1 then ts[0]
    else Spaced(ts[0], Join(ts[1..]))
  }

  /** Position of the first occurrence of `c` in `s`. */
  function IndexOf(s: string, c: char): (i: nat)
    requires c in s
    ensures i < |s| && s[i] == c && c !in s[..i]
  {
    if s[0] == c then 0 else 1 + IndexOf(s[1..], c)
  }

  /** `s.split(sep)` for a one-character separator: every occurrence cuts,
      so consecutive separators yield empty pieces. */
  function Split(s: string, sep: char): (r: seq<string>)
    ensures |r| >= 1
    decreases |s|
  {
    if sep in s then
      var i := IndexOf(s, sep);
      [s[..i]] + Split(s[i + 1..], sep)
    else
      [s]
  }

  /** The start dot's `cx` and `cy`: tokens 1 and 2 of the split path text,
      absent when the text has fewer than three tokens. With exactly two
      tokens the renderer would still set `cx` from token 1 and leave `cy`
      undefined; that case is not distinguished here because a connector's
      path text always has ten tokens (SplitPathData). */
  function StartDot(d: string): (r: Option<(string, string)>)
    ensures r.Some? <==> |Split(d, ' ')| >= 3
  {
    var parts := Split(d, ' ');
    if |parts| >= 3 then Some((parts[1], parts[2])) else None
  }

  lemma IndexOfFirst(s: string, c: char, i: nat)
    requires i < |s| && s[i] == c && c !in s[..i]
    ensures IndexOf(s, c) == i
  {
  }

  /** Splitting text made of space-free tokens joined by spaces gives the
      tokens back. */
  lemma {:induction false} SplitJoin(ts: seq<string>)
    requires |ts| >= 1
    requires forall k :: 0 <= k < |ts| ==> ' ' !in ts[k]
    ensures Split(Join(ts), ' ') == ts
  {
    if |ts| > 1 {
      var s := Join(ts);
      var t := ts[0];
      var rest := Join(ts[1..]);
      assert s == t + " " + rest;
      assert s[..|t|] == t;
      assert s[|t|] == ' ';
      IndexOfFirst(s, ' ', |t|);
      assert s[|t| + 1..] == rest;
      SplitJoin(ts[1..]);
      assert ts == [t] + ts[1..];
    }
  }

  /** A token followed by a space and the rest of the text. */
  function Spaced(t: string, rest: string): string
  {
    t + (" " + rest)
  }

  /** The path text with every separating space made explicit. */
  function SpacedPath(c: Curve, fmt: real -> string): string
  {
    Spaced("M", Spaced(fmt(c.start.x), Spaced(fmt(c.start.y),
    Spaced("C", Spaced(fmt(c.cp1.x), Spaced(fmt(c.cp1.y) + ",",
    Spaced(fmt(c.cp2.x), Spaced(fmt(c.cp2.y) + ",",
    Spaced(fmt(c.end.x), fmt(c.end.y))))))))))
  }

  lemma JoinTokens(c: Curve, fmt: real -> string)
    ensures Join(PathTokens(c, fmt)) == SpacedPath(c, fmt)
  {
    var ts := PathTokens(c, fmt);
    assert Join(ts[9..]) == ts[9];
    assert Join(ts[8..]) == Spaced(ts[8], Join(ts[9..])) by { assert ts[8..][1..] == ts[9..]; }
    assert Join(ts[7..]) == Spaced(ts[7], Join(ts[8..])) by { assert ts[7..][1..] == ts[8..]; }
    assert Join(ts[6..]) == Spaced(ts[6], Join(ts[7..])) by { assert ts[6..][1..] == ts[7..]; }
    assert Join(ts[5..]) == Spaced(ts[5], Join(ts[6..])) by { assert ts[5..][1..] == ts[6..]; }
    assert Join(ts[4..]) == Spaced(ts[4], Join(ts[5..])) by { assert ts[4..][1..] == ts[5..]; }
    assert Join(ts[3..]) == Spaced(ts[3], Join(ts[4..])) by { assert ts[3..][1..] == ts[4..]; }
    assert Join(ts[2..]) == Spaced(ts[2], Join(ts[3..])) by { assert ts[2..][1..] == ts[3..]; }
    assert Join(ts[1..]) == Spaced(ts[1], Join(ts[2..])) by { assert ts[1..][1..] == ts[2..]; }
  }

  lemma CommaSpace(a: string, rest: string)
    ensures a + (", " + rest) == Spaced(a + ",", rest)
  {
    assert ", " == "," + " ";
  }

  lemma SpaceCSpace(rest: string)
    ensures " C " + rest == " " + Spaced("C", rest)
  {
    assert " C " == " " + "C" + " ";
  }

  lemma MSpace(rest: string)
    ensures "M " + rest == Spaced("M", rest)
  {
    assert "M " == "M" + " ";
  }

  lemma ConcatPieces(c: Curve, fmt: real -> string)
    ensures PathData(c, fmt) == SpacedPath(c, fmt)
  {
    var k8 := Spaced(fmt(c.end.x), fmt(c.end.y));
    CommaSpace(fmt(c.cp2.y), k8);
    var k6 := Spaced(fmt(c.cp2.x), Spaced(fmt(c.cp2.y) + ",", k8));
    CommaSpace(fmt(c.cp1.y), k6);
    var k4 := Spaced(fmt(c.cp1.x), Spaced(fmt(c.cp1.y) + ",", k6));
    SpaceCSpace(k4);
    var k1 := Spaced(fmt(c.start.x), Spaced(fmt(c.start.y), Spaced("C", k4)));
    MSpace(k1);
  }

  /** The template literal is exactly the tokens joined by single spaces. */
  lemma PathDataIsJoin(c: Curve, fmt: real -> string)
    ensures PathData(c, fmt) == Join(PathTokens(c, fmt))
  {
    JoinTokens(c, fmt);
    ConcatPieces(c, fmt);
  }

  /** Splitting the path text on single spaces recovers every token, so the
      source coordinates are tokens 1 and 2 and the target coordinates are
      tokens 8 and 9. */
  lemma SplitPathData(c: Curve, fmt: real -> string)
    requires NoSpaces(fmt)
    ensures Split(PathData(c, fmt), ' ') == PathTokens(c, fmt)
  {
    var ts := PathTokens(c, fmt);
    forall k | 0 <= k < |ts| ensures ' ' !in ts[k] {
      assert ' ' !in fmt(c.cp1.y) && ' ' !in fmt(c.cp2.y);
    }
    PathDataIsJoin(c, fmt);
    SplitJoin(ts);
  }

  /** The renderer's start dot sits on the curve's start point. */
  lemma StartDotAtStart(c: Curve, fmt: real -> string)
    requires NoSpaces(fmt)
    ensures StartDot(PathData(c, fmt)) == Some((fmt(c.start.x), fmt(c.start.y)))
  {
    SplitPathData(c, fmt);
    var parts := Split(PathData(c, fmt), ' ');
    assert parts == PathTokens(c, fmt);
    assert parts[1] == fmt(c.start.x) && parts[2] == fmt(c.start.y);
  }
}
