/**
 * The list-shaping helpers of src/ChatViz.js: the contour set drawn between
 * the two lines (`mixContourLines`), the trace record handed to the plotting
 * library (`plotify`) and the file-name normaliser (`snakeCase`).
 */
module ChatViz {
  import opened Wrappers
  import opened Lines
  import opened Density

  /** A plotted line: its points and an optional legend title. */
  datatype Line = Line(data: seq<Point>, title: Option<string>)

  const Balance: string := "Conversation Balance"

  /** The weights on line A and line B of the full contour set, in plotting order. */
  const ContourWeights: seq<(real, real)> := [
    (0.1, 0.9), (0.2, 0.8), (0.3, 0.7), (0.4, 0.6), (0.4333, 0.5667), (0.4667, 0.5333),
    (0.5, 0.5),
    (0.5333, 0.4667), (0.5667, 0.4333), (0.6, 0.4), (0.7, 0.3), (0.8, 0.2), (0.9, 0.1)]

  /** The position of the even mix among the contours. */
  const BalanceIndex: nat := 6

  /**
   * Each pair of weights sums to one, the weight on line A lies strictly
   * between 0 and 1 and grows along the set, and the set is symmetric about
   * the even mix in the middle.
   */
  lemma ContourWeightsShape()
    ensures |ContourWeights| == 13 && ContourWeights[BalanceIndex] == (0.5, 0.5)
    ensures forall k :: 0 <= k < 13 ==>
      ContourWeights[k].0 + ContourWeights[k].1 == 1.0 && 0.0 < ContourWeights[k].0 < 1.0
    ensures forall k, l :: 0 <= k < l < 13 ==> ContourWeights[k].0 < ContourWeights[l].0
    ensures forall k :: 0 <= k < 13 ==> ContourWeights[12 - k] == (ContourWeights[k].1, ContourWeights[k].0)
  {
  }

  /** The mix of the two lines under one pair of weights (`mixLines([a, b], w)`). */
  function Contour(a: Line, b: Line, w: (real, real)): (r: seq<Point>)
    requires |a.data| <= |b.data|
    ensures |r| == |a.data| && Times(r) == Times(a.data)
  {
    MixLines([a.data, b.data], [w.0, w.1])
  }

  /**
   * src/ChatViz.js `mixContourLines`: the two lines, then the titled even
   * mix alone, or the full set of thirteen untitled contours with the even
   * mix titled in the middle.
   */
  function MixContourLines(a: Line, b: Line, fullContour: bool): (r: seq<Line>)
    requires |a.data| <= |b.data|
    ensures |r| == if fullContour then 15 else 3
  {
    var balance := Line(Contour(a, b, (0.5, 0.5)), Some(Balance));
    if !fullContour then [a, b, balance]
    else
      [a, b] + seq(13, k requires 0 <= k < 13 =>
        if k == BalanceIndex then balance else Line(Contour(a, b, ContourWeights[k]), None))
  }

  /**
   * The contour set starts with the two lines unchanged; only the even mix
   * among the contours carries a title, "Conversation Balance"; every contour
   * keeps line A's timestamps and lies between the two lines at each point;
   * and in the full set the contours move monotonically from line B towards
   * line A.
   */
  lemma ContourSetShape(a: Line, b: Line, fullContour: bool)
    requires |a.data| <= |b.data|
    ensures var r := MixContourLines(a, b, fullContour);
      var balance := if fullContour then 2 + BalanceIndex else 2;
      && r[0] == a && r[1] == b
      && (forall k :: 2 <= k < |r| ==> (r[k].title.Some? <==> k == balance))
      && r[balance] == Line(Contour(a, b, (0.5, 0.5)), Some(Balance))
      && (forall k, i :: 2 <= k < |r| && 0 <= i < |a.data| ==>
            && |r[k].data| == |a.data| && r[k].data[i].t == a.data[i].t
            && (a.data[i].v <= r[k].data[i].v <= b.data[i].v || b.data[i].v <= r[k].data[i].v <= a.data[i].v))
      && (fullContour ==> forall k, l, i :: 2 <= k < l < 15 && 0 <= i < |a.data| ==>
            (a.data[i].v >= b.data[i].v ==> r[k].data[i].v <= r[l].data[i].v) &&
            (a.data[i].v <= b.data[i].v ==> r[k].data[i].v >= r[l].data[i].v))
  {
    ContourSetLayout(a, b, fullContour);
    ContourSetBetween(a, b, fullContour);
    if fullContour {
      ContourSetMonotone(a, b);
    }
  }

  lemma ContourSetLayout(a: Line, b: Line, fullContour: bool)
    requires |a.data| <= |b.data|
    ensures var r := MixContourLines(a, b, fullContour);
      var balance := if fullContour then 2 + BalanceIndex else 2;
      && r[0] == a && r[1] == b
      && (forall k :: 2 <= k < |r| ==> (r[k].title.Some? <==> k == balance))
      && r[balance] == Line(Contour(a, b, (0.5, 0.5)), Some(Balance))
  {
  }

  lemma ContourSetBetween(a: Line, b: Line, fullContour: bool)
    requires |a.data| <= |b.data|
    ensures var r := MixContourLines(a, b, fullContour);
      forall k, i :: 2 <= k < |r| && 0 <= i < |a.data| ==>
        && |r[k].data| == |a.data| && r[k].data[i].t == a.data[i].t
        && (a.data[i].v <= r[k].data[i].v <= b.data[i].v || b.data[i].v <= r[k].data[i].v <= a.data[i].v)
  {
    var r := MixContourLines(a, b, fullContour);
    ContourWeightsShape();
    forall k, i | 2 <= k < |r| && 0 <= i < |a.data|
      ensures |r[k].data| == |a.data| && r[k].data[i].t == a.data[i].t
      ensures a.data[i].v <= r[k].data[i].v <= b.data[i].v || b.data[i].v <= r[k].data[i].v <= a.data[i].v
    {
      var w := if fullContour then ContourWeights[k - 2] else (0.5, 0.5);
      assert r[k].data == Contour(a, b, w);
      assert Times(r[k].data)[i] == a.data[i].t;
      MixBetween(a.data, b.data, w.0, w.0, i);
    }
  }

  lemma ContourSetMonotone(a: Line, b: Line)
    requires |a.data| <= |b.data|
    ensures var r := MixContourLines(a, b, true);
      forall k, l, i :: 2 <= k < l < 15 && 0 <= i < |a.data| ==>
        (a.data[i].v >= b.data[i].v ==> r[k].data[i].v <= r[l].data[i].v) &&
        (a.data[i].v <= b.data[i].v ==> r[k].data[i].v >= r[l].data[i].v)
  {
    var r := MixContourLines(a, b, true);
    ContourWeightsShape();
    forall k, l, i | 2 <= k < l < 15 && 0 <= i < |a.data|
      ensures a.data[i].v >= b.data[i].v ==> r[k].data[i].v <= r[l].data[i].v
      ensures a.data[i].v <= b.data[i].v ==> r[k].data[i].v >= r[l].data[i].v
    {
      var w, w' := ContourWeights[k - 2], ContourWeights[l - 2];
      assert r[k].data == Contour(a, b, w) && r[l].data == Contour(a, b, w');
      MixBetween(a.data, b.data, w.0, w'.0, i);
    }
  }

  // ---------------------------------------------------------------------
  // plotify
  // ---------------------------------------------------------------------

  /** The `line` option of a trace: the plotting library's default, or a thin coloured stroke. */
  datatype LineStyle = Default | Stroke(color: string, width: real)

  /** The trace fields that depend on the line (`type`, `mode` and `hoverinfo` are fixed). */
  datatype Trace = Trace(x: seq<real>, y: seq<real>, name: Option<string>, style: LineStyle, showlegend: bool)

  /** A title is truthy unless it is missing or empty. */
  predicate Truthy(title: Option<string>) {
    title.Some? && title.value != ""
  }

  /** src/ChatViz.js `plotify`. */
  function Plotify(line: Line): (t: Trace)
    ensures t.x == Times(line.data) && t.y == Values(line.data)
    ensures t.name == line.title
    ensures t.showlegend <==> Truthy(line.title)
  {
    Trace(Times(line.data), Values(line.data), line.title,
          if Truthy(line.title) then Default else Stroke("grey", 0.25), Truthy(line.title))
  }

  /**
   * Plotting a contour set puts in the legend exactly the titled input lines
   * and the even mix; every other contour is drawn as a thin grey stroke.
   */
  lemma PlottedLegend(a: Line, b: Line, fullContour: bool)
    requires |a.data| <= |b.data|
    ensures var r := MixContourLines(a, b, fullContour);
      var balance := if fullContour then 2 + BalanceIndex else 2;
      forall k :: 0 <= k < |r| ==>
        && (Plotify(r[k]).showlegend <==> (k == 0 && Truthy(a.title)) || (k == 1 && Truthy(b.title)) || k == balance)
        && (!Plotify(r[k]).showlegend <==> Plotify(r[k]).style == Stroke("grey", 0.25))
        && |Plotify(r[k]).x| == |Plotify(r[k]).y| == |r[k].data|
  {
    ContourSetShape(a, b, fullContour);
  }

  // ---------------------------------------------------------------------
  // snakeCase
  // ---------------------------------------------------------------------

  /** The characters JavaScript's `\s` matches. */
  predicate IsSpace(c: char) {
    || c == '\t' || c == '\n' || c == '\U{000B}' || c == '\U{000C}' || c == '\r' || c == ' '
    || c == '\U{00A0}' || c == '\U{1680}' || ('\U{2000}' <= c <= '\U{200A}')
    || c == '\U{2028}' || c == '\U{2029}' || c == '\U{202F}' || c == '\U{205F}'
    || c == '\U{3000}' || c == '\U{FEFF}'
  }

  predicate HasSpace(s: string) {
    exists k :: 0 <= k < |s| && IsSpace(s[k])
  }

  /** The position of the first whitespace character, or `|s|`. */
  function FirstSpace(s: string): (i: nat)
    ensures i <= |s|
    ensures forall k :: 0 <= k < i ==> !IsSpace(s[k])
    ensures i < |s| ==> IsSpace(s[i])
    decreases |s|
  {
    if s == [] || IsSpace(s[0]) then 0 else 1 + FirstSpace(s[1..])
  }

  /** The end of the whitespace run starting at `i`. */
  function RunEnd(s: string, i: nat): (j: nat)
    requires i <= |s|
    ensures i <= j <= |s|
    ensures forall k :: i <= k < j ==> IsSpace(s[k])
    ensures j < |s| ==> !IsSpace(s[j])
    decreases |s| - i
  {
    if i == |s| || !IsSpace(s[i]) then i else RunEnd(s, i + 1)
  }

  /** `toLowerCase` on ASCII letters; every other character is kept. */
  function ToLower(c: char): char {
    if 'A' <= c <= 'Z' then (c - 'A' + 'a') as char else c
  }

  function Lower(s: string): (r: string)
    ensures |r| == |s| && forall k :: 0 <= k < |s| ==> r[k] == ToLower(s[k])
  {
    seq(|s|, k requires 0 <= k < |s| => ToLower(s[k]))
  }

  /** src/ChatViz.js `snakeCase`: `str.replace(/\s+/, '_').toLowerCase()`. */
  function SnakeCase(s: string): string {
    var i := FirstSpace(s);
    if i == |s| then Lower(s) else Lower(s[..i] + "_" + s[RunEnd(s, i)..])
  }

  /** Lower-casing keeps whitespace where it is and leaves no upper-case ASCII letter. */
  lemma LowerLaws(s: string)
    ensures HasSpace(Lower(s)) <==> HasSpace(s)
    ensures forall k :: 0 <= k < |s| ==> !('A' <= Lower(s)[k] <= 'Z')
  {
    var r := Lower(s);
    if HasSpace(s) {
      var k :| 0 <= k < |s| && IsSpace(s[k]);
      assert r[k] == s[k];
    }
    if HasSpace(r) {
      var k :| 0 <= k < |r| && IsSpace(r[k]);
      assert IsSpace(s[k]);
    }
  }

  /** Whitespace in `head _ tail` with a space-free head lies in the tail. */
  lemma SpaceAfterHead(head: string, tail: string)
    requires !HasSpace(head)
    ensures HasSpace(head + "_" + tail) <==> HasSpace(tail)
  {
    var t := head + "_" + tail;
    if HasSpace(t) {
      var k :| 0 <= k < |t| && IsSpace(t[k]);
      assert k > |head|;
      assert IsSpace(tail[k - |head| - 1]);
    }
    if HasSpace(tail) {
      var k :| 0 <= k < |tail| && IsSpace(tail[k]);
      assert t[|head| + 1 + k] == tail[k];
    }
  }

  /**
   * Without the global flag only the first whitespace run becomes `_`: the
   * text splits into a space-free head, a non-empty maximal run and a tail,
   * and the result is the lower-cased head, `_` and the lower-cased tail.
   * Whitespace survives exactly where the tail has some, and no upper-case
   * ASCII letter survives.
   */
  lemma SnakeCaseFirstRun(s: string)
    ensures !HasSpace(s) ==> SnakeCase(s) == Lower(s)
    ensures HasSpace(s) ==> exists i, j ::
      && 0 <= i < j <= |s|
      && (forall k :: 0 <= k < i ==> !IsSpace(s[k]))
      && (forall k :: i <= k < j ==> IsSpace(s[k]))
      && (j < |s| ==> !IsSpace(s[j]))
      && SnakeCase(s) == Lower(s[..i] + "_" + s[j..])
      && (HasSpace(SnakeCase(s)) <==> HasSpace(s[j..]))
    ensures forall k :: 0 <= k < |SnakeCase(s)| ==> !('A' <= SnakeCase(s)[k] <= 'Z')
  {
    var i := FirstSpace(s);
    if i < |s| {
      var j := RunEnd(s, i);
      var joined := s[..i] + "_" + s[j..];
      LowerLaws(joined);
      SpaceAfterHead(s[..i], s[j..]);
    } else {
      LowerLaws(s);
    }
  }
}
