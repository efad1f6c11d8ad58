/**
 * Justification (enlargeSpaces): the slack between a line's extent and the
 * block extent is shared out equally among the line's spaces and tabs, and
 * every later box, the sentinel included, moves by the slack injected before it.
 */
module Justification {
  import opened TextModel
  import opened LineLayout

  /** The number of space-or-tab graphemes among the first j of a line. */
  function SpacesIn(isSpace: char -> bool, line: string, j: nat): (k: nat)
    requires j <= |line|
    ensures k <= j
  {
    if j == 0 then 0 else SpacesIn(isSpace, line, j - 1) + (if isSpace(line[j - 1]) then 1 else 0)
  }

  /** Box j is a space box when j indexes a space or tab of the line; the sentinel never is. */
  predicate IsSpaceAt(isSpace: char -> bool, line: string, j: int)
  {
    0 <= j < |line| && isSpace(line[j])
  }

  /** The slack injected before box j: d for every space box before it (all of them for the sentinel). */
  function Shift(isSpace: char -> bool, line: string, j: nat, d: real): real
  {
    if j == 0 then 0.0 else Shift(isSpace, line, j - 1, d) + (if IsSpaceAt(isSpace, line, j - 1) then d else 0.0)
  }

  /** k shares of d, added one at a time. */
  function Scale(d: real, k: nat): real
  {
    if k == 0 then 0.0 else Scale(d, k - 1) + d
  }

  /** k shares of d make d * k. */
  lemma {:induction false} ScaleProduct(d: real, k: nat)
    ensures Scale(d, k) == d * k as real
  {
    if k > 0 {
      ScaleProduct(d, k - 1);
      assert d * k as real == d * (k - 1) as real + d;
    }
  }

  /** The slack before box j is one share of d for every space before it. */
  lemma {:induction false} ShiftCount(isSpace: char -> bool, line: string, j: nat, d: real)
    ensures Shift(isSpace, line, j, d) == Scale(d, SpacesIn(isSpace, line, if j < |line| then j else |line|))
  {
    if j > 0 {
      ShiftCount(isSpace, line, j - 1, d);
    }
  }

  /** Box j of a justified line, `shift` being the slack injected before it. */
  function JustifyBox(b: GraphemeBBox, isSpaceBox: bool, shift: real, d: real): GraphemeBBox
  {
    if isSpaceBox
    then b.(width := b.width + d, kernedWidth := b.kernedWidth + d, left := b.left + shift)
    else b.(left := b.left + shift)
  }

  /** The first j boxes of a line justified with d per space. */
  function JustifyPrefix(isSpace: char -> bool, line: string, boxes: seq<GraphemeBBox>, d: real, j: nat)
    : (r: seq<GraphemeBBox>)
    requires |boxes| == |line| + 1 && j <= |boxes|
    ensures |r| == j
  {
    if j == 0 then []
    else JustifyPrefix(isSpace, line, boxes, d, j - 1)
         + [JustifyBox(boxes[j - 1], IsSpaceAt(isSpace, line, j - 1), Shift(isSpace, line, j - 1, d), d)]
  }

  /** The boxes of one line after justification with d per space, the sentinel included. */
  function JustifyLine(isSpace: char -> bool, line: string, boxes: seq<GraphemeBBox>, d: real): (r: seq<GraphemeBBox>)
    requires |boxes| == |line| + 1
    ensures |r| == |boxes|
  {
    JustifyPrefix(isSpace, line, boxes, d, |boxes|)
  }

  /** Box i of any justified prefix that reaches past it is box i justified. */
  lemma {:induction false} JustifyPrefixAt(isSpace: char -> bool, line: string, boxes: seq<GraphemeBBox>, d: real, j: nat, i: nat)
    requires |boxes| == |line| + 1 && i < j <= |boxes|
    ensures JustifyPrefix(isSpace, line, boxes, d, j)[i]
         == JustifyBox(boxes[i], IsSpaceAt(isSpace, line, i), Shift(isSpace, line, i, d), d)
  {
    if i < j - 1 {
      JustifyPrefixAt(isSpace, line, boxes, d, j - 1, i);
    }
  }

  /** Justifying box j in place turns the first j justified boxes followed by the rest into the first j + 1. */
  lemma JustifyPrefixStep(isSpace: char -> bool, line: string, boxes: seq<GraphemeBBox>, d: real, j: nat)
    requires |boxes| == |line| + 1 && j < |boxes|
    ensures var b := JustifyBox(boxes[j], IsSpaceAt(isSpace, line, j), Shift(isSpace, line, j, d), d);
      JustifyPrefix(isSpace, line, boxes, d, j + 1) + boxes[j + 1..]
        == (JustifyPrefix(isSpace, line, boxes, d, j) + boxes[j..])[j := b]
  {
  }

  /**
   * Box by box: a space box grows by d in width and kerned width; every box
   * keeps its height and deltaY, non-space boxes keep their widths, and each
   * box's left grows by d times the number of spaces before it.
   */
  lemma JustifyLineBoxes(isSpace: char -> bool, line: string, boxes: seq<GraphemeBBox>, d: real, j: nat)
    requires |boxes| == |line| + 1 && j < |boxes|
    ensures var r := JustifyLine(isSpace, line, boxes, d);
      var sp := j < |line| && isSpace(line[j]);
      && r[j].height == boxes[j].height && r[j].deltaY == boxes[j].deltaY
      && r[j].width == (if sp then boxes[j].width + d else boxes[j].width)
      && r[j].kernedWidth == (if sp then boxes[j].kernedWidth + d else boxes[j].kernedWidth)
      && r[j].left == boxes[j].left + Shift(isSpace, line, j, d)
  {
    JustifyPrefixAt(isSpace, line, boxes, d, |boxes|, j);
  }

  /** Prefix form of the added width: the first j boxes gained the slack injected before box j. */
  lemma {:induction false} JustifyWidthPrefix(isSpace: char -> bool, line: string, boxes: seq<GraphemeBBox>, d: real, j: nat)
    requires |boxes| == |line| + 1 && j <= |line|
    ensures SumWidths(JustifyPrefix(isSpace, line, boxes, d, j)) == SumWidths(boxes[..j]) + Shift(isSpace, line, j, d)
  {
    if j == 0 {
    } else {
      var p := JustifyPrefix(isSpace, line, boxes, d, j - 1);
      var r := JustifyPrefix(isSpace, line, boxes, d, j);
      JustifyWidthPrefix(isSpace, line, boxes, d, j - 1);
      assert r[..j - 1] == p;
      assert boxes[..j][..j - 1] == boxes[..j - 1];
    }
  }

  /** The whole line, sentinel included, gains d for every space. */
  lemma JustifyAddsSlack(isSpace: char -> bool, line: string, boxes: seq<GraphemeBBox>, d: real)
    requires |boxes| == |line| + 1
    ensures SumWidths(JustifyLine(isSpace, line, boxes, d)) == SumWidths(boxes) + Shift(isSpace, line, |line|, d)
  {
    var n := |line|;
    var r := JustifyLine(isSpace, line, boxes, d);
    JustifyWidthPrefix(isSpace, line, boxes, d, n);
    assert r[..n] == JustifyPrefix(isSpace, line, boxes, d, n);
    assert boxes[..n + 1] == boxes;
  }

  /**
   * With k >= 1 spaces and d = (target - extent) / k, the total width added
   * to the line is exactly target - extent, and the slack accumulated past
   * the last box is k * d.
   */
  lemma JustifySlackTotal(isSpace: char -> bool, line: string, boxes: seq<GraphemeBBox>, target: real, extent: real)
    requires |boxes| == |line| + 1
    requires SpacesIn(isSpace, line, |line|) >= 1
    ensures var k := SpacesIn(isSpace, line, |line|) as real;
      var d := (target - extent) / k;
      && SumWidths(JustifyLine(isSpace, line, boxes, d)) == SumWidths(boxes) + (target - extent)
      && JustifyLine(isSpace, line, boxes, d)[|line|].left == boxes[|line|].left + k * d
  {
    var k := SpacesIn(isSpace, line, |line|) as real;
    var d := (target - extent) / k;
    JustifyAddsSlack(isSpace, line, boxes, d);
    JustifyLineBoxes(isSpace, line, boxes, d, |line|);
    ShiftCount(isSpace, line, |line|, d);
    ScaleProduct(d, SpacesIn(isSpace, line, |line|));
    QuotientTimesDivisor(target - extent, k);
  }

  /** Sharing an amount out in k equal parts and adding the parts back gives the amount. */
  lemma QuotientTimesDivisor(a: real, k: real)
    requires k != 0.0
    ensures (a / k) * k == a
  {
  }

  /** Sums of heights agree for sequences whose heights agree pointwise. */
  lemma {:induction false} SumHeightsPointwise(a: seq<GraphemeBBox>, b: seq<GraphemeBBox>)
    requires |a| == |b|
    requires forall i :: 0 <= i < |a| ==> a[i].height == b[i].height
    ensures SumHeights(a) == SumHeights(b)
  {
    if |a| > 0 {
      SumHeightsPointwise(a[..|a| - 1], b[..|b| - 1]);
    }
  }

  /** Justification keeps the left-offset chain: both neighbours of a space move together. */
  lemma JustifyKeepsChain(isSpace: char -> bool, line: string, boxes: seq<GraphemeBBox>, d: real)
    requires |boxes| == |line| + 1
    requires LeftChain(boxes[..|line|])
    ensures LeftChain(JustifyLine(isSpace, line, boxes, d)[..|line|])
  {
    var n := |line|;
    var r := JustifyLine(isSpace, line, boxes, d);
    forall i | 0 < i < n
      ensures r[..n][i].left == r[..n][i - 1].left + r[..n][i - 1].width + r[..n][i].kernedWidth - r[..n][i].width
    {
      assert boxes[..n][i] == boxes[i] && boxes[..n][i - 1] == boxes[i - 1];
      assert r[..n][i] == r[i] && r[..n][i - 1] == r[i - 1];
      JustifyLineBoxes(isSpace, line, boxes, d, i);
      JustifyLineBoxes(isSpace, line, boxes, d, i - 1);
    }
  }

  /**
   * Box 0 does not move, and the sentinel moves with the end of the last
   * box while keeping its own width, kerned width, height and deltaY.
   */
  lemma JustifyKeepsEnds(isSpace: char -> bool, line: string, boxes: seq<GraphemeBBox>, d: real)
    requires |boxes| == |line| + 1
    ensures var r := JustifyLine(isSpace, line, boxes, d);
      var n := |line|;
      && (n > 0 ==> r[0].left == boxes[0].left)
      && (n > 0 ==> r[n].left - (r[n - 1].left + r[n - 1].width) == boxes[n].left - (boxes[n - 1].left + boxes[n - 1].width))
      && (n == 0 ==> r[0].left == boxes[0].left)
      && r[n].width == boxes[n].width && r[n].kernedWidth == boxes[n].kernedWidth
      && r[n].height == boxes[n].height && r[n].deltaY == boxes[n].deltaY
  {
    var n := |line|;
    JustifyLineBoxes(isSpace, line, boxes, d, 0);
    JustifyLineBoxes(isSpace, line, boxes, d, n);
    if n > 0 {
      JustifyLineBoxes(isSpace, line, boxes, d, n - 1);
    }
  }

  /**
   * Justification keeps a measured line well shaped: the left-offset chain,
   * box 0 at 0, the sentinel at the end of the last box, and the heights.
   */
  lemma JustifyKeepsShape(cfg: Config, li: int, boxes: seq<GraphemeBBox>, d: real)
    requires cfg.cacheFontSize != 0.0 && 0 <= li < |cfg.lines|
    requires LineShaped(cfg, li, boxes)
    ensures LineShaped(cfg, li, JustifyLine(cfg.isSpace, cfg.lines[li], boxes, d))
  {
    var line := cfg.lines[li];
    var n := |line|;
    var r := JustifyLine(cfg.isSpace, line, boxes, d);
    JustifyKeepsChain(cfg.isSpace, line, boxes, d);
    JustifyKeepsEnds(cfg.isSpace, line, boxes, d);
    forall j | 0 <= j < n ensures r[..n][j].height == boxes[..n][j].height {
      JustifyLineBoxes(cfg.isSpace, line, boxes, d, j);
    }
    SumHeightsPointwise(r[..n], boxes[..n]);
  }

  /** enlargeSpaces skips the last line and end-of-wrapping lines unless textAlign is exactly "justify". */
  predicate SkipsLine(cfg: Config, i: int)
  {
    cfg.textAlign != Justify && (i == |cfg.lines| - 1 || cfg.isEndOfWrapping(i))
  }

  /** A line that enlargeSpaces widens: not skipped, shorter than the block width, with a space. */
  predicate Justifiable(cfg: Config, i: int, width: real)
    requires WellFormed(cfg) && 0 <= i < |cfg.lines|
  {
    && !SkipsLine(cfg, i)
    && VLineHeight(cfg, i) < width
    && SpacesIn(cfg.isSpace, cfg.lines[i], |cfg.lines[i]|) > 0
  }

  /** The boxes of line i after enlargeSpaces on a block of the given width. */
  function JustifiedBounds(cfg: Config, i: int, width: real, boxes: seq<GraphemeBBox>): (r: seq<GraphemeBBox>)
    requires WellFormed(cfg) && 0 <= i < |cfg.lines|
    requires |boxes| == |cfg.lines[i]| + 1
    ensures !Justifiable(cfg, i, width) ==> r == boxes
    ensures Justifiable(cfg, i, width) ==>
      SumWidths(r) == SumWidths(boxes) + (width - VLineHeight(cfg, i))
  {
    var line := cfg.lines[i];
    if Justifiable(cfg, i, width) then
      JustifySlackTotal(cfg.isSpace, line, boxes, width, VLineHeight(cfg, i));
      JustifyLine(cfg.isSpace, line, boxes, (width - VLineHeight(cfg, i)) / SpacesIn(cfg.isSpace, line, |line|) as real)
    else boxes
  }
}
