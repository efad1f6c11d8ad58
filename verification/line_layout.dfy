/**
 * Line measurement (_measureLine, measureVLine) and the block dimensions
 * derived from it (getWidthOfLine, calcTextWidth, getLineHeight,
 * calcTextHeight, the height fallback of initDimensions), as functions of the
 * block's configuration and the font cache.
 */
module LineLayout {
  import opened TextModel
  import opened FontDeclarations
  import opened GlyphMeasure

  /** The boxes measured so far, the cache after them, and the running height. */
  datatype LineState = LineState(boxes: seq<GraphemeBBox>, cache: FontCache, height: real)

  /** The previous grapheme of position j and its style, as _getGraphemeBox sees them. */
  function PrevOf(cfg: Config, li: int, j: int): (p: Option<(char, Style)>)
    requires 0 <= li < |cfg.lines| && 0 <= j <= |cfg.lines[li]|
    ensures j == 0 <==> p.None?
  {
    if j == 0 then None else Some((cfg.lines[li][j - 1], cfg.completeStyle(li, j - 1)))
  }

  /** The first k graphemes of line li measured in order, starting from the given cache. */
  function MeasurePrefix(cfg: Config, cache: FontCache, li: int, k: nat): (s: LineState)
    requires cfg.cacheFontSize != 0.0
    requires 0 <= li < |cfg.lines| && k <= |cfg.lines[li]|
    ensures |s.boxes| == k
    decreases k, 1
  {
    if k == 0 then LineState([], cache, 0.0) else MeasureNext(cfg, cache, li, k - 1)
  }

  /** The state after grapheme j: the grapheme measured on the state of the first j and its box appended. */
  function MeasureNext(cfg: Config, cache: FontCache, li: int, j: nat): (s: LineState)
    requires cfg.cacheFontSize != 0.0
    requires 0 <= li < |cfg.lines| && j < |cfg.lines[li]|
    ensures |s.boxes| == j + 1
    decreases j + 1, 0
  {
    var p := MeasurePrefix(cfg, cache, li, j);
    var style := cfg.completeStyle(li, j);
    var sig := SigOf(style);
    var res := MeasureChar(cfg, TableOf(p.cache, sig), cfg.lines[li][j], style, PrevOf(cfg, li, j));
    var box := GraphemeBox(cfg, res.0, style, if j > 0 then Some(p.boxes[j - 1]) else None);
    LineState(p.boxes + [box], p.cache[sig := res.1], p.height + box.height)
  }

  /** The end-of-line box placed after the last grapheme. */
  function Sentinel(cfg: Config, measured: seq<GraphemeBBox>): GraphemeBBox
  {
    GraphemeBBox(cfg.fontSize, 0.0, 0.0,
      if measured == [] then 0.0 else measured[|measured| - 1].left + measured[|measured| - 1].width,
      0.0)
  }

  /** _measureLine: every grapheme of the line measured, then the sentinel appended. */
  function MeasureLine(cfg: Config, cache: FontCache, li: int): (s: LineState)
    requires cfg.cacheFontSize != 0.0
    requires 0 <= li < |cfg.lines|
    ensures |s.boxes| == |cfg.lines[li]| + 1
  {
    var p := MeasurePrefix(cfg, cache, li, |cfg.lines[li]|);
    LineState(p.boxes + [Sentinel(cfg, p.boxes)], p.cache, p.height)
  }

  /** Height of the grapheme at (li, j): its measured ascent + descent, scaled. */
  function CharHeight(cfg: Config, li: int, j: int): real
    requires cfg.cacheFontSize != 0.0
    requires 0 <= li < |cfg.lines| && 0 <= j < |cfg.lines[li]|
  {
    var style := cfg.completeStyle(li, j);
    cfg.measureText([cfg.lines[li][j]], MeasureDecl(cfg, style)).height * (style.fontSize / cfg.cacheFontSize)
  }

  /** The sum of the heights of the first k graphemes of a line: a reference independent of the cache. */
  function RawHeight(cfg: Config, li: int, k: nat): real
    requires cfg.cacheFontSize != 0.0
    requires 0 <= li < |cfg.lines| && k <= |cfg.lines[li]|
    decreases k, 1
  {
    if k == 0 then 0.0 else RawHeightThrough(cfg, li, k - 1)
  }

  /** The heights of graphemes 0..j of a line, grapheme j included. */
  function RawHeightThrough(cfg: Config, li: int, j: nat): real
    requires cfg.cacheFontSize != 0.0
    requires 0 <= li < |cfg.lines| && j < |cfg.lines[li]|
    decreases j + 1, 0
  {
    RawHeight(cfg, li, j) + CharHeight(cfg, li, j)
  }

  /** Well-shaped boxes of a line of n graphemes: the chain, the first left, the sentinel and the heights. */
  ghost predicate LineShaped(cfg: Config, li: int, boxes: seq<GraphemeBBox>)
    requires cfg.cacheFontSize != 0.0
    requires 0 <= li < |cfg.lines|
  {
    var n := |cfg.lines[li]|;
    && |boxes| == n + 1
    && LeftChain(boxes[..n])
    && (n > 0 ==> boxes[0].left == 0.0)
    && boxes[n].left == (if n == 0 then 0.0 else boxes[n - 1].left + boxes[n - 1].width)
    && boxes[n].width == cfg.fontSize
    && boxes[n].kernedWidth == 0.0 && boxes[n].height == 0.0 && boxes[n].deltaY == 0.0
    && SumHeights(boxes[..n]) == RawHeight(cfg, li, n)
  }

  /** One measuring step appends the grapheme's box, whose height is the grapheme's height. */
  lemma MeasurePrefixStep(cfg: Config, cache: FontCache, li: int, k: nat)
    requires cfg.cacheFontSize != 0.0
    requires 0 <= li < |cfg.lines| && 0 < k <= |cfg.lines[li]|
    ensures var p := MeasurePrefix(cfg, cache, li, k - 1);
      var s := MeasurePrefix(cfg, cache, li, k);
      && s.boxes[..k - 1] == p.boxes
      && s.height == p.height + s.boxes[k - 1].height
      && s.boxes[k - 1].height == CharHeight(cfg, li, k - 1)
      && (k == 1 ==> s.boxes[0].left == 0.0)
      && (k > 1 ==> s.boxes[k - 1].left == p.boxes[k - 2].left + p.boxes[k - 2].width
                                           + s.boxes[k - 1].kernedWidth - s.boxes[k - 1].width)
  {
    var p := MeasurePrefix(cfg, cache, li, k - 1);
    var style := cfg.completeStyle(li, k - 1);
    var res := MeasureChar(cfg, TableOf(p.cache, SigOf(style)), cfg.lines[li][k - 1], style, PrevOf(cfg, li, k - 1));
    MeasureCharResult(cfg, TableOf(p.cache, SigOf(style)), cfg.lines[li][k - 1], style, PrevOf(cfg, li, k - 1));
    var box := GraphemeBox(cfg, res.0, style, if k - 1 > 0 then Some(p.boxes[k - 2]) else None);
    assert MeasurePrefix(cfg, cache, li, k).boxes == p.boxes + [box];
  }

  /** The running height is the sum of the box heights. */
  lemma {:induction false} MeasurePrefixHeight(cfg: Config, cache: FontCache, li: int, k: nat)
    requires cfg.cacheFontSize != 0.0
    requires 0 <= li < |cfg.lines| && k <= |cfg.lines[li]|
    ensures MeasurePrefix(cfg, cache, li, k).height == SumHeights(MeasurePrefix(cfg, cache, li, k).boxes)
    decreases k
  {
    if k > 0 {
      MeasurePrefixHeight(cfg, cache, li, k - 1);
      MeasurePrefixStep(cfg, cache, li, k);
    }
  }

  /** The running height equals the cache-independent reference. */
  lemma {:induction false} MeasurePrefixRawHeight(cfg: Config, cache: FontCache, li: int, k: nat)
    requires cfg.cacheFontSize != 0.0
    requires 0 <= li < |cfg.lines| && k <= |cfg.lines[li]|
    ensures MeasurePrefix(cfg, cache, li, k).height == RawHeight(cfg, li, k)
    decreases k
  {
    if k > 0 {
      MeasurePrefixRawHeight(cfg, cache, li, k - 1);
      MeasurePrefixStep(cfg, cache, li, k);
    }
  }

  /** Box 0 starts at 0 and every later box follows the left-offset chain. */
  lemma {:induction false} MeasurePrefixChain(cfg: Config, cache: FontCache, li: int, k: nat)
    requires cfg.cacheFontSize != 0.0
    requires 0 <= li < |cfg.lines| && k <= |cfg.lines[li]|
    ensures LeftChain(MeasurePrefix(cfg, cache, li, k).boxes)
    ensures k > 0 ==> MeasurePrefix(cfg, cache, li, k).boxes[0].left == 0.0
    decreases k
  {
    if k > 0 {
      MeasurePrefixChain(cfg, cache, li, k - 1);
      MeasurePrefixStep(cfg, cache, li, k);
      ChainExtend(MeasurePrefix(cfg, cache, li, k - 1).boxes, MeasurePrefix(cfg, cache, li, k).boxes);
    }
  }

  /** A chain extended by one box that continues it is still a chain. */
  lemma ChainExtend(p: seq<GraphemeBBox>, s: seq<GraphemeBBox>)
    requires |s| == |p| + 1 && s[..|p|] == p && LeftChain(p)
    requires |p| > 0 ==> s[|p|].left == p[|p| - 1].left + p[|p| - 1].width + s[|p|].kernedWidth - s[|p|].width
    ensures LeftChain(s)
    ensures |p| > 0 ==> s[0] == p[0]
  {
    forall i | 0 < i < |s|
      ensures s[i].left == s[i - 1].left + s[i - 1].width + s[i].kernedWidth - s[i].width
    {
      if i < |p| {
        assert s[i] == p[i] && s[i - 1] == p[i - 1];
      } else {
        assert s[i - 1] == p[i - 1];
      }
    }
    if |p| > 0 {
      assert s[0] == s[..|p|][0];
    }
  }

  /** Measuring keeps the cache consistent with the measuring surface. */
  lemma {:induction false} MeasurePrefixKeepsConsistency(cfg: Config, cache: FontCache, li: int, k: nat)
    requires cfg.cacheFontSize != 0.0
    requires 0 <= li < |cfg.lines| && k <= |cfg.lines[li]|
    requires CacheConsistent(cfg, cache)
    ensures CacheConsistent(cfg, MeasurePrefix(cfg, cache, li, k).cache)
    decreases k
  {
    if k > 0 {
      MeasurePrefixKeepsConsistency(cfg, cache, li, k - 1);
      var p := MeasurePrefix(cfg, cache, li, k - 1);
      var style := cfg.completeStyle(li, k - 1);
      var sig := SigOf(style);
      var table := TableOf(p.cache, sig);
      TableOfConsistent(cfg, p.cache, sig);
      MeasureCharKeepsConsistency(cfg, table, cfg.lines[li][k - 1], style, PrevOf(cfg, li, k - 1));
      CacheUpdateConsistent(cfg, p.cache, sig, MeasureChar(cfg, table, cfg.lines[li][k - 1], style, PrevOf(cfg, li, k - 1)).1);
    }
  }

  /**
   * _measureLine stores exactly one box per grapheme plus the sentinel, and
   * its height is the sum of the grapheme heights.
   */
  lemma MeasureLineShape(cfg: Config, cache: FontCache, li: int)
    requires cfg.cacheFontSize != 0.0
    requires 0 <= li < |cfg.lines|
    ensures var s := MeasureLine(cfg, cache, li);
      && LineShaped(cfg, li, s.boxes)
      && s.height == SumHeights(s.boxes[..|cfg.lines[li]|])
      && s.height == RawHeight(cfg, li, |cfg.lines[li]|)
  {
    var n := |cfg.lines[li]|;
    MeasurePrefixHeight(cfg, cache, li, n);
    MeasurePrefixRawHeight(cfg, cache, li, n);
    MeasurePrefixChain(cfg, cache, li, n);
    var s := MeasureLine(cfg, cache, li);
    assert s.boxes[..n] == MeasurePrefix(cfg, cache, li, n).boxes;
  }

  /** The boxes stored for a block's lines and the font cache they leave behind. */
  datatype BlockState = BlockState(bounds: map<int, seq<GraphemeBBox>>, cache: FontCache)

  /**
   * Lines 0..n-1 measured in order from an empty memo, each line starting
   * from the cache the lines before it left.
   */
  function MeasureLines(cfg: Config, cache: FontCache, n: nat): (b: BlockState)
    requires cfg.cacheFontSize != 0.0 && n <= |cfg.lines|
    ensures forall j :: j in b.bounds <==> 0 <= j < n
  {
    if n == 0 then BlockState(map[], cache)
    else
      var p := MeasureLines(cfg, cache, n - 1);
      var s := MeasureLine(cfg, p.cache, n - 1);
      BlockState(p.bounds[n - 1 := s.boxes], s.cache)
  }

  /** Every line measured in order is well shaped. */
  lemma {:induction false} MeasureLinesShape(cfg: Config, cache: FontCache, n: nat)
    requires cfg.cacheFontSize != 0.0 && n <= |cfg.lines|
    ensures forall j :: 0 <= j < n ==> LineShaped(cfg, j, MeasureLines(cfg, cache, n).bounds[j])
  {
    if n > 0 {
      MeasureLinesShape(cfg, cache, n - 1);
      var p := MeasureLines(cfg, cache, n - 1);
      MeasureLineShape(cfg, p.cache, n - 1);
      var b := MeasureLines(cfg, cache, n);
      forall j | 0 <= j < n ensures LineShaped(cfg, j, b.bounds[j]) {
        if j < n - 1 {
          assert b.bounds[j] == p.bounds[j];
        } else {
          assert b.bounds[j] == MeasureLine(cfg, p.cache, n - 1).boxes;
        }
      }
    }
  }

  /** Measuring lines in order from a cache that agrees with the measuring surface leaves one that does too. */
  lemma {:induction false} MeasureLinesKeepsConsistency(cfg: Config, cache: FontCache, n: nat)
    requires cfg.cacheFontSize != 0.0 && n <= |cfg.lines|
    requires CacheConsistent(cfg, cache)
    ensures CacheConsistent(cfg, MeasureLines(cfg, cache, n).cache)
  {
    if n > 0 {
      MeasureLinesKeepsConsistency(cfg, cache, n - 1);
      var p := MeasureLines(cfg, cache, n - 1);
      MeasurePrefixKeepsConsistency(cfg, p.cache, n - 1, |cfg.lines[n - 1]|);
    }
  }

  /** _getHeightOfCharSpacing: fontSize * charSpacing / 1000, or 0 without spacing. */
  function HeightOfCharSpacing(cfg: Config): real
  {
    if cfg.charSpacing != 0.0 then (cfg.fontSize * cfg.charSpacing) / 1000.0 else 0.0
  }

  /**
   * measureVLine's height of line li: the sum of its grapheme heights less the
   * character-spacing height when spacing is set, never below zero.
   */
  function VLineHeight(cfg: Config, li: int): (h: real)
    requires cfg.cacheFontSize != 0.0
    requires 0 <= li < |cfg.lines|
    ensures h >= 0.0
    ensures h >= RawHeight(cfg, li, |cfg.lines[li]|) - HeightOfCharSpacing(cfg)
    ensures h == 0.0 || h == RawHeight(cfg, li, |cfg.lines[li]|) - HeightOfCharSpacing(cfg)
  {
    var raw := RawHeight(cfg, li, |cfg.lines[li]|);
    var h := if cfg.charSpacing != 0.0 then raw - HeightOfCharSpacing(cfg) else raw;
    if h < 0.0 then 0.0 else h
  }

  /** getValueOfPropertyAt(line, char, 'fontSize') */
  function CharFontSize(cfg: Config, li: int, j: int): real
  {
    cfg.completeStyle(li, j).fontSize
  }

  /** The largest font size among characters 0 .. k-1 of line li, as the scan keeps it. */
  function MaxFontSize(cfg: Config, li: int, k: nat): (m: real)
    requires k >= 1
    ensures forall j :: 0 <= j < k ==> CharFontSize(cfg, li, j) <= m
    ensures exists j :: 0 <= j < k && CharFontSize(cfg, li, j) == m
    decreases k
  {
    if k == 1 then CharFontSize(cfg, li, 0)
    else
      var m := MaxFontSize(cfg, li, k - 1);
      var c := CharFontSize(cfg, li, k - 1);
      if c > m then c else m
  }

  /**
   * getWidthOfLine: the largest font size of the line (character 0 is
   * consulted even on an empty line) times lineHeight and _fontSizeMult.
   */
  function WidthOfLine(cfg: Config, li: int): real
    requires 0 <= li < |cfg.lines|
  {
    var n := |cfg.lines[li]|;
    MaxFontSize(cfg, li, if n == 0 then 1 else n) * cfg.lineHeight * cfg.fontSizeMult
  }

  /** The contribution of line i to calcTextWidth. */
  function WidthStep(cfg: Config, i: int): real
    requires WellFormed(cfg) && 0 <= i < |cfg.lines|
  {
    if i == |cfg.lines| - 1 then WidthOfLine(cfg, i) / cfg.lineHeight else cfg.lineHeight
  }

  /** calcTextWidth's accumulator after the first k lines. */
  function TextWidthPrefix(cfg: Config, k: nat): real
    requires WellFormed(cfg) && k <= |cfg.lines|
  {
    if k == 0 then 0.0 else TextWidthPrefix(cfg, k - 1) + WidthStep(cfg, k - 1)
  }

  function TextWidth(cfg: Config): real
    requires WellFormed(cfg)
  {
    TextWidthPrefix(cfg, |cfg.lines|)
  }

  /** Every line before the last contributes one lineHeight. */
  lemma {:induction false} TextWidthPrefixBeforeLast(cfg: Config, k: nat)
    requires WellFormed(cfg) && k < |cfg.lines|
    ensures TextWidthPrefix(cfg, k) == k as real * cfg.lineHeight
  {
    if k > 0 {
      TextWidthPrefixBeforeLast(cfg, k - 1);
    }
  }

  /**
   * calcTextWidth = (n - 1) * lineHeight + getWidthOfLine(n - 1) / lineHeight:
   * every non-last line contributes the pitch, not its own width.
   */
  lemma TextWidthClosedForm(cfg: Config)
    requires WellFormed(cfg)
    ensures var n := |cfg.lines|;
      TextWidth(cfg) == (n - 1) as real * cfg.lineHeight + WidthOfLine(cfg, n - 1) / cfg.lineHeight
  {
    TextWidthPrefixBeforeLast(cfg, |cfg.lines| - 1);
  }

  /** calcTextHeight's running maximum over the first k lines (k >= 1). */
  function MaxLineHeight(cfg: Config, k: nat): (m: real)
    requires WellFormed(cfg) && 1 <= k <= |cfg.lines|
    decreases k
  {
    if k == 1 then VLineHeight(cfg, 0)
    else
      var m := MaxLineHeight(cfg, k - 1);
      var h := VLineHeight(cfg, k - 1);
      if h > m then h else m
  }

  function TextHeight(cfg: Config): real
    requires WellFormed(cfg)
  {
    MaxLineHeight(cfg, |cfg.lines|)
  }

  /** calcTextHeight is the largest line height: at least every line's, and equal to one of them. */
  lemma {:induction false} MaxLineHeightIsMax(cfg: Config, k: nat)
    requires WellFormed(cfg) && 1 <= k <= |cfg.lines|
    ensures forall i :: 0 <= i < k ==> VLineHeight(cfg, i) <= MaxLineHeight(cfg, k)
    ensures exists i :: 0 <= i < k && VLineHeight(cfg, i) == MaxLineHeight(cfg, k)
    ensures MaxLineHeight(cfg, k) >= 0.0
    decreases k
  {
    if k > 1 {
      MaxLineHeightIsMax(cfg, k - 1);
      var i :| 0 <= i < k - 1 && VLineHeight(cfg, i) == MaxLineHeight(cfg, k - 1);
      if VLineHeight(cfg, k - 1) > MaxLineHeight(cfg, k - 1) {
        assert VLineHeight(cfg, k - 1) == MaxLineHeight(cfg, k);
      } else {
        assert VLineHeight(cfg, i) == MaxLineHeight(cfg, k);
      }
    }
  }

  /** initDimensions' height: the text height, else the cursor height, else MIN_TEXT_HEIGHT. */
  function BlockHeight(textHeight: real, cursorHeight: real, minTextHeight: real): real
  {
    if textHeight != 0.0 then textHeight else if cursorHeight != 0.0 then cursorHeight else minTextHeight
  }
}
