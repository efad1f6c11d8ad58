/**
 * The vertical text block: the object whose methods fill and patch the
 * per-line box arrays, memoise line heights and widths, set the block's
 * width and height, write the font-metrics cache, and paint lines as draw
 * commands. Each method is proved against the functions of LineLayout,
 * Justification and RunRendering.
 */
module VerticalTextLayout {
  import opened TextModel
  import opened FontDeclarations
  import opened GlyphMeasure
  import opened LineLayout
  import opened Justification
  import opened RunRendering
  import opened RunSegmentation

  /** What _measureLine returns: width is the block font size and numOfSpaces 0, as written. */
  datatype LineInfo = LineInfo(width: real, numOfSpaces: int, height: real)

  /** Line i, when its height is memoised: the height is measureVLine's, and its boxes are stored and well shaped. */
  ghost predicate LineMemo(cfg: Config, lineHeights: map<int, real>, charBounds: map<int, seq<GraphemeBBox>>, i: int)
    requires WellFormed(cfg)
  {
    i in lineHeights ==>
      && 0 <= i < |cfg.lines|
      && lineHeights[i] == VLineHeight(cfg, i)
      && i in charBounds
      && LineShaped(cfg, i, charBounds[i])
  }

  /** Every memoised line is as LineMemo says. */
  ghost predicate HeightsMemoised(cfg: Config, lineHeights: map<int, real>, charBounds: map<int, seq<GraphemeBBox>>)
    requires WellFormed(cfg)
  {
    forall i {:trigger LineMemo(cfg, lineHeights, charBounds, i)} :: LineMemo(cfg, lineHeights, charBounds, i)
  }

  /** Replacing the boxes of a line by well-shaped ones keeps every memoised line as LineMemo says. */
  lemma MemoAfterBounds(cfg: Config, lineHeights: map<int, real>, charBounds: map<int, seq<GraphemeBBox>>,
                        li: int, boxes: seq<GraphemeBBox>)
    requires WellFormed(cfg) && 0 <= li < |cfg.lines|
    requires HeightsMemoised(cfg, lineHeights, charBounds)
    requires LineShaped(cfg, li, boxes)
    ensures HeightsMemoised(cfg, lineHeights, charBounds[li := boxes])
  {
    var updated := charBounds[li := boxes];
    forall i ensures LineMemo(cfg, lineHeights, updated, i) {
      assert LineMemo(cfg, lineHeights, charBounds, i);
    }
  }

  /** Recording the height of a line whose boxes are stored and well shaped keeps the memo sound. */
  lemma MemoAfterHeight(cfg: Config, lineHeights: map<int, real>, charBounds: map<int, seq<GraphemeBBox>>, li: int)
    requires WellFormed(cfg) && 0 <= li < |cfg.lines|
    requires HeightsMemoised(cfg, lineHeights, charBounds)
    requires li in charBounds && LineShaped(cfg, li, charBounds[li])
    ensures HeightsMemoised(cfg, lineHeights[li := VLineHeight(cfg, li)], charBounds)
  {
    var updated := lineHeights[li := VLineHeight(cfg, li)];
    forall i ensures LineMemo(cfg, updated, charBounds, i) {
      assert LineMemo(cfg, lineHeights, charBounds, i);
    }
  }

  /** Line i, when its width is memoised: the width is getWidthOfLine's. */
  ghost predicate WidthMemo(cfg: Config, lineWidths: map<int, real>, i: int)
  {
    i in lineWidths ==> 0 <= i < |cfg.lines| && lineWidths[i] == WidthOfLine(cfg, i)
  }

  /** Every memoised line width is as WidthMemo says. */
  ghost predicate WidthsMemoised(cfg: Config, lineWidths: map<int, real>)
  {
    forall i {:trigger WidthMemo(cfg, lineWidths, i)} :: WidthMemo(cfg, lineWidths, i)
  }

  /** `measured` is the state after measuring the first i graphemes of line li from cache0. */
  ghost predicate IsPrefixState(cfg: Config, cache0: FontCache, li: int, i: int, measured: LineState)
  {
    && cfg.cacheFontSize != 0.0 && 0 <= li < |cfg.lines| && 0 <= i <= |cfg.lines[li]|
    && measured == MeasurePrefix(cfg, cache0, li, i)
  }

  /** Recording a line's width keeps the width memo sound. */
  lemma MemoAfterWidth(cfg: Config, lineWidths: map<int, real>, li: int)
    requires 0 <= li < |cfg.lines|
    requires WidthsMemoised(cfg, lineWidths)
    ensures WidthsMemoised(cfg, lineWidths[li := WidthOfLine(cfg, li)])
  {
    var updated := lineWidths[li := WidthOfLine(cfg, li)];
    forall i ensures WidthMemo(cfg, updated, i) {
      assert WidthMemo(cfg, lineWidths, i);
    }
  }

  /**
   * From an empty height memo, lines 0..n-1 have been measured in order:
   * their boxes are stored over `bounds0`, the cache is the one they leave,
   * and only they have a memoised height.
   */
  ghost predicate MeasuredUpTo(cfg: Config, cache0: FontCache, bounds0: map<int, seq<GraphemeBBox>>, n: int,
                               bounds: map<int, seq<GraphemeBBox>>, cache: FontCache, heights: map<int, real>)
  {
    && cfg.cacheFontSize != 0.0 && 0 <= n <= |cfg.lines|
    && cache == MeasureLines(cfg, cache0, n).cache
    && bounds == bounds0 + MeasureLines(cfg, cache0, n).bounds
    && (forall j :: j in heights ==> 0 <= j < n)
  }

  /** Before any line is measured, nothing is stored over the boxes and the cache is untouched. */
  lemma MeasuredNothing(cfg: Config, cache0: FontCache, bounds0: map<int, seq<GraphemeBBox>>)
    requires WellFormed(cfg)
    ensures MeasuredUpTo(cfg, cache0, bounds0, 0, bounds0, cache0, map[])
  {
    assert bounds0 + map[] == bounds0;
  }

  /** Measuring line n next, and memoising its height, extends the measured prefix by one line. */
  lemma MeasuredUpToStep(cfg: Config, cache0: FontCache, bounds0: map<int, seq<GraphemeBBox>>, n: int,
                         bounds: map<int, seq<GraphemeBBox>>, cache: FontCache, heights: map<int, real>, h: real)
    requires MeasuredUpTo(cfg, cache0, bounds0, n, bounds, cache, heights) && n < |cfg.lines|
    ensures var s := MeasureLine(cfg, cache, n);
      MeasuredUpTo(cfg, cache0, bounds0, n + 1, bounds[n := s.boxes], s.cache, heights[n := h])
  {
    var s := MeasureLine(cfg, cache, n);
    var m := MeasureLines(cfg, cache0, n);
    assert MeasureLines(cfg, cache0, n + 1).bounds == m.bounds[n := s.boxes];
    assert bounds[n := s.boxes] == bounds0 + m.bounds[n := s.boxes];
  }

  /** Line j holds well-sized boxes in `before`, and in `after` the boxes enlargeSpaces makes of them. */
  ghost predicate LineJustified(cfg: Config, width: real, before: map<int, seq<GraphemeBBox>>,
                                after: map<int, seq<GraphemeBBox>>, j: int)
    requires WellFormed(cfg)
  {
    && 0 <= j < |cfg.lines| && j in before && |before[j]| == |cfg.lines[j]| + 1
    && j in after && after[j] == JustifiedBounds(cfg, j, width, before[j])
  }

  /**
   * What initDimensions leaves from the cache `cache0`: the lines measured in
   * order, each line's boxes justified when textAlign includes "justify",
   * and the cache that measuring leaves.
   */
  ghost predicate StoredBoxes(cfg: Config, cache0: FontCache, width: real,
                              bounds: map<int, seq<GraphemeBBox>>, cache: FontCache)
    requires WellFormed(cfg)
  {
    var m := MeasureLines(cfg, cache0, |cfg.lines|);
    && cache == m.cache
    && bounds.Keys == m.bounds.Keys
    && (forall j :: 0 <= j < |cfg.lines| ==>
          if IsJustify(cfg) then LineJustified(cfg, width, m.bounds, bounds, j) else bounds[j] == m.bounds[j])
  }

  /** Without justification, the boxes stored are those of the lines measured in order. */
  lemma StoredAfterMeasuring(cfg: Config, cache0: FontCache, width: real,
                             bounds: map<int, seq<GraphemeBBox>>, cache: FontCache, heights: map<int, real>)
    requires WellFormed(cfg) && !IsJustify(cfg)
    requires MeasuredUpTo(cfg, cache0, map[], |cfg.lines|, bounds, cache, heights)
    ensures StoredBoxes(cfg, cache0, width, bounds, cache)
  {
    var m := MeasureLines(cfg, cache0, |cfg.lines|);
    assert map[] + m.bounds == m.bounds;
  }

  /** With justification, the boxes stored are the justified boxes of the lines measured in order. */
  lemma StoredAfterJustifying(cfg: Config, cache0: FontCache, width: real, measured: map<int, seq<GraphemeBBox>>,
                              heights: map<int, real>, bounds: map<int, seq<GraphemeBBox>>, cache: FontCache)
    requires WellFormed(cfg) && IsJustify(cfg)
    requires MeasuredUpTo(cfg, cache0, map[], |cfg.lines|, measured, cache, heights)
    requires bounds.Keys == measured.Keys
    requires forall j :: 0 <= j < |cfg.lines| ==> LineJustified(cfg, width, measured, bounds, j)
    ensures StoredBoxes(cfg, cache0, width, bounds, cache)
  {
    var m := MeasureLines(cfg, cache0, |cfg.lines|);
    assert map[] + m.bounds == m.bounds;
  }

  /** getWidthOfLine of every line, in order. */
  function LineWidths(cfg: Config): (widths: seq<real>)
    ensures |widths| == |cfg.lines|
    ensures forall k :: 0 <= k < |cfg.lines| ==> widths[k] == WidthOfLine(cfg, k)
  {
    seq(|cfg.lines|, k requires 0 <= k < |cfg.lines| => WidthOfLine(cfg, k))
  }

  /** How far line i's column sits from the block's left offset: the widths of the lines before it. */
  function ColumnOffset(widths: seq<real>, i: int): real
    requires 0 <= i <= |widths|
  {
    if i == 0 then 0.0 else ColumnOffset(widths, i - 1) + widths[i - 1]
  }

  /** With lines of positive width, later lines get strictly larger offsets, so columns run right to left. */
  lemma {:induction false} ColumnsRightToLeft(widths: seq<real>, i: int, j: int)
    requires 0 <= i < j <= |widths|
    requires forall k :: 0 <= k < |widths| ==> widths[k] > 0.0
    ensures ColumnOffset(widths, i) < ColumnOffset(widths, j)
  {
    if i < j - 1 {
      ColumnsRightToLeft(widths, i, j - 1);
    }
    assert widths[j - 1] > 0.0;
  }

  /** Every line up to n holds at least one box per grapheme. */
  ghost predicate BoxesStored(cfg: Config, bounds: map<int, seq<GraphemeBBox>>, n: int)
  {
    n <= |cfg.lines| && forall i :: 0 <= i < n ==> i in bounds && |cfg.lines[i]| <= |bounds[i]|
  }

  /** Lines 0..n-1 all have an entry in m. */
  ghost predicate Memoised(m: map<int, real>, n: int)
  {
    forall k :: 0 <= k < n ==> k in m
  }

  /** Keeping every entry and adding line n's extends Memoised by one line. */
  lemma MemoisedStep(m: map<int, real>, m': map<int, real>, n: int)
    requires Memoised(m, n) == true && n in m' && forall k :: k in m ==> k in m'
    ensures Memoised(m', n + 1) == true
  {
  }

  /** What _renderVTextLine paints for line k from column lineLeft: the commands of the line's runs. */
  function LineCommands(cfg: Config, bounds: map<int, seq<GraphemeBBox>>, pass: DrawMethod, k: int,
                        lineLeft: real, top: real): seq<Draw>
    requires 0 <= k < |cfg.lines| && k in bounds && |cfg.lines[k]| <= |bounds[k]|
  {
    RunsCommands(cfg, bounds[k], pass, k, LineRuns(cfg, k, bounds[k], lineLeft), top)
  }

  /** The concatenation of the columns' commands, in order. */
  function Flatten(cols: seq<seq<Draw>>): seq<Draw>
  {
    if cols == [] then [] else Flatten(cols[..|cols| - 1]) + cols[|cols| - 1]
  }

  /** Column k of `cols` holds what line k paints from its column: left less its ColumnOffset. */
  ghost predicate ColumnsDrawn(cfg: Config, bounds: map<int, seq<GraphemeBBox>>, pass: DrawMethod, left: real, top: real,
                               widths: seq<real>, cols: seq<seq<Draw>>)
    decreases |cols|
  {
    && |cols| <= |widths| && |cols| <= |cfg.lines| && BoxesStored(cfg, bounds, |cfg.lines|)
    && (cols != [] ==>
         var k := |cols| - 1;
         && ColumnsDrawn(cfg, bounds, pass, left, top, widths, cols[..k])
         && cols[k] == LineCommands(cfg, bounds, pass, k, left - ColumnOffset(widths, k), top))
  }

  /** Painting line i from its column after the first i lines extends the drawn columns. */
  lemma {:induction false} ColumnsExtend(cfg: Config, bounds: map<int, seq<GraphemeBBox>>, pass: DrawMethod, left: real, top: real,
                      widths: seq<real>, cols: seq<seq<Draw>>, i: int, lineLeft: real, lineCmds: seq<Draw>)
    requires ColumnsDrawn(cfg, bounds, pass, left, top, widths, cols)
    requires i == |cols| < |widths| && i < |cfg.lines|
    requires lineLeft == left - ColumnOffset(widths, i)
    requires lineCmds == LineCommands(cfg, bounds, pass, i, lineLeft, top)
    ensures ColumnsDrawn(cfg, bounds, pass, left, top, widths, cols + [lineCmds])
    ensures Flatten(cols + [lineCmds]) == Flatten(cols) + lineCmds
  {
    assert (cols + [lineCmds])[..i] == cols;
  }

  /** Drawing is line by line: the first n drawn columns are the drawing of the first n lines. */
  lemma {:induction false} ColumnsDrawnPrefix(cfg: Config, bounds: map<int, seq<GraphemeBBox>>, pass: DrawMethod, left: real, top: real,
                                              widths: seq<real>, cols: seq<seq<Draw>>, n: int)
    requires ColumnsDrawn(cfg, bounds, pass, left, top, widths, cols)
    requires 0 <= n <= |cols|
    ensures ColumnsDrawn(cfg, bounds, pass, left, top, widths, cols[..n])
    decreases |cols|
  {
    if n < |cols| {
      var k := |cols| - 1;
      ColumnsDrawnPrefix(cfg, bounds, pass, left, top, widths, cols[..k], n);
      assert cols[..k][..n] == cols[..n];
    } else {
      assert cols[..n] == cols;
    }
  }

  class VerticalText {
    const cfg: Config
    var charBounds: map<int, seq<GraphemeBBox>>   // __charBounds
    var lineHeights: map<int, real>               // __lineHeights
    var lineWidths: map<int, real>                // __lineWidths
    var width: real
    var height: real
    var cursorHeight: real
    var dirty: bool
    var fontCache: FontCache                      // the process-wide font cache

    /**
     * Every memoised line height is the line's measured height and its boxes
     * are well shaped; every memoised line width is the line's width; the
     * font cache agrees with the measuring surface.
     */
    ghost predicate Valid()
      reads this
    {
      && WellFormed(cfg)
      && CacheConsistent(cfg, fontCache)
      && HeightsMemoised(cfg, lineHeights, charBounds)
      && WidthsMemoised(cfg, lineWidths)
    }

    /**
     * The host constructor runs initDimensions before the cursorHeight field
     * initialiser has run, so the height falls back on MIN_TEXT_HEIGHT, never
     * on the cursor height; cursorHeight becomes 10 afterwards.
     */
    constructor (cfg: Config, cache: FontCache)
      requires WellFormed(cfg) && CacheConsistent(cfg, cache)
      ensures Valid() && this.cfg == cfg
      ensures width == TextWidth(cfg) && cursorHeight == 10.0
      ensures height == BlockHeight(TextHeight(cfg), 0.0, cfg.minTextHeight)
      ensures forall i :: 0 <= i < |cfg.lines| ==> i in lineHeights && i in lineWidths
      ensures StoredBoxes(cfg, cache, width, charBounds, fontCache)
    {
      this.cfg := cfg;
      charBounds := map[];
      lineHeights := map[];
      lineWidths := map[];
      width := 0.0;
      height := 0.0;
      cursorHeight := 0.0;
      dirty := false;
      fontCache := cache;
      new;
      InitDimensions();
      cursorHeight := 10.0;
    }

    /**
     * initDimensions: the memo tables are emptied, the width is calcTextWidth,
     * the height calcTextHeight (or the cursor height, or the minimum height,
     * when that is 0), and a justified block has its spaces enlarged. The
     * stored boxes are those of the lines measured in order, justified when
     * textAlign includes "justify".
     */
    method InitDimensions()
      requires Valid()
      modifies this`charBounds, this`lineHeights, this`lineWidths, this`fontCache, this`width, this`height, this`dirty
      ensures Valid() && dirty
      ensures width == TextWidth(cfg)
      ensures height == BlockHeight(TextHeight(cfg), cursorHeight, cfg.minTextHeight)
      ensures forall i :: 0 <= i < |cfg.lines| ==> i in lineHeights && i in lineWidths
      ensures StoredBoxes(cfg, old(fontCache), width, charBounds, fontCache)
    {
      ClearCache();
      dirty := true;
      width := CalcTextWidth();
      ghost var cache0 := fontCache;
      var textHeight := CalcTextHeight();
      height := if textHeight != 0.0 then textHeight else if cursorHeight != 0.0 then cursorHeight else cfg.minTextHeight;
      ghost var measured, heights := charBounds, lineHeights;
      assert MeasuredUpTo(cfg, cache0, map[], |cfg.lines|, measured, fontCache, heights);
      if cfg.textAlign != "" && Includes(cfg.textAlign, Justify) {
        assert forall i :: 0 <= i < |cfg.lines| ==> i in heights;
        EnlargeSpaces();
        StoredAfterJustifying(cfg, old(fontCache), width, measured, heights, charBounds, fontCache);
      } else {
        StoredAfterMeasuring(cfg, old(fontCache), width, charBounds, fontCache, lineHeights);
      }
    }

    /** _clearCache: the three memo tables are emptied. */
    method ClearCache()
      modifies this`charBounds, this`lineHeights, this`lineWidths
      ensures charBounds == map[] && lineHeights == map[] && lineWidths == map[]
    {
      charBounds := map[];
      lineHeights := map[];
      lineWidths := map[];
    }

    /** _measureChar, writing the font cache of the character's signature. */
    method MeasureChar(c: char, style: Style, prev: Option<(char, Style)>) returns (info: CharInfo)
      requires cfg.cacheFontSize != 0.0
      modifies this`fontCache
      ensures var res := GlyphMeasure.MeasureChar(cfg, TableOf(old(fontCache), SigOf(style)), c, style, prev);
        info == res.0 && fontCache == old(fontCache)[SigOf(style) := res.1]
    {
      var sig := SigOf(style);
      var table := TableOf(fontCache, sig);
      var couple := CoupleKey(prev, c);
      var stylesAreEqual := StylesAreEqual(cfg, style, prev);
      var fontMultiplier := style.fontSize / cfg.cacheFontSize;
      var decl := MeasureDecl(cfg, style);
      var previousWidth: Option<real> := None;
      var coupleWidth: Option<real> := None;
      var width: real;
      var height: real;
      var kernedWidth: real;
      if prev.Some? && Key(prev.value.0) in table {
        previousWidth := Some(table[Key(prev.value.0)]);
      }
      if stylesAreEqual && couple in table {
        coupleWidth := Some(table[couple]);
      }
      // the height is never cached, so the character is always measured again
      var m := cfg.measureText(Key(c), decl);
      width, kernedWidth := m.width, m.width;
      height := m.height;
      table := table[Key(c) := width];
      if previousWidth.None? && stylesAreEqual {
        previousWidth := Some(cfg.measureText(Key(prev.value.0), decl).width);
        table := table[Key(prev.value.0) := previousWidth.value];
      }
      if stylesAreEqual && coupleWidth.None? {
        var cw := cfg.measureText(couple, decl).width;
        table := table[couple := cw];
        kernedWidth := cw - previousWidth.value;
      }
      fontCache := fontCache[sig := table];
      info := CharInfo(width * fontMultiplier, height * fontMultiplier, kernedWidth * fontMultiplier);
    }

    /** _getGraphemeBox: measure grapheme ci of line li and place it after box ci - 1. */
    method GetGraphemeBox(grapheme: char, li: int, ci: int, prevGrapheme: Option<char>) returns (box: GraphemeBBox)
      requires cfg.cacheFontSize != 0.0
      requires ci > 0 ==> li in charBounds && ci - 1 < |charBounds[li]|
      modifies this`fontCache
      ensures var style := cfg.completeStyle(li, ci);
        var prev := if prevGrapheme.Some? then Some((prevGrapheme.value, cfg.completeStyle(li, ci - 1))) else None;
        var res := GlyphMeasure.MeasureChar(cfg, TableOf(old(fontCache), SigOf(style)), grapheme, style, prev);
        && fontCache == old(fontCache)[SigOf(style) := res.1]
        && box == GraphemeBox(cfg, res.0, style, if ci > 0 then Some(charBounds[li][ci - 1]) else None)
    {
      var style := cfg.completeStyle(li, ci);
      var prev := if prevGrapheme.Some? then Some((prevGrapheme.value, cfg.completeStyle(li, ci - 1))) else None;
      var info := MeasureChar(grapheme, style, prev);
      var kernedWidth, w := info.kernedWidth, info.width;
      if cfg.charSpacing != 0.0 {
        var charSpacing := cfg.widthOfCharSpacing;
        w := w + charSpacing;
        kernedWidth := kernedWidth + charSpacing;
      }
      box := GraphemeBBox(w, info.height, kernedWidth, 0.0, style.deltaY);
      if ci > 0 {
        var previousBox := charBounds[li][ci - 1];
        box := box.(left := previousBox.left + previousBox.width + info.kernedWidth - info.width);
      }
    }

    /**
     * _measureLine: the line's boxes, one per grapheme and the sentinel, are
     * stored in charBounds; the result's height is the sum of the box heights.
     */
    method MeasureLine(li: int) returns (info: LineInfo)
      requires Valid() && 0 <= li < |cfg.lines|
      modifies this`charBounds, this`fontCache
      ensures Valid()
      ensures var s := LineLayout.MeasureLine(cfg, old(fontCache), li);
        && charBounds == old(charBounds)[li := s.boxes]
        && fontCache == s.cache
        && info == LineInfo(cfg.fontSize, 0, s.height)
      ensures info.height == RawHeight(cfg, li, |cfg.lines[li]|)
    {
      var height := MeasureGraphemes(li);
      var lineBounds := charBounds[li];
      charBounds := charBounds[li := lineBounds + [Sentinel(cfg, lineBounds)]];
      info := LineInfo(cfg.fontSize, 0, height);
      MeasureLineShape(cfg, old(fontCache), li);
      MeasurePrefixKeepsConsistency(cfg, old(fontCache), li, |cfg.lines[li]|);
      MemoAfterBounds(cfg, lineHeights, old(charBounds), li, charBounds[li]);
      assert charBounds == old(charBounds)[li := charBounds[li]];
    }

    /** The grapheme loop of _measureLine: the boxes of the line's graphemes, measured in order. */
    method MeasureGraphemes(li: int) returns (height: real)
      requires cfg.cacheFontSize != 0.0 && 0 <= li < |cfg.lines|
      modifies this`charBounds, this`fontCache
      ensures li in charBounds && charBounds == old(charBounds)[li := charBounds[li]]
      ensures IsPrefixState(cfg, old(fontCache), li, |cfg.lines[li]|, LineState(charBounds[li], fontCache, height)) == true
    {
      height := 0.0;
      var prevGrapheme: Option<char> := None;
      var line := cfg.lines[li];
      var llength := |line|;
      charBounds := charBounds[li := []];
      ghost var measured := LineState([], fontCache, 0.0);
      var i := 0;
      while i < llength
        invariant 0 <= i <= llength
        invariant IsPrefixState(cfg, old(fontCache), li, i, measured) == true
        invariant charBounds == old(charBounds)[li := measured.boxes]
        invariant fontCache == measured.cache && height == measured.height
        invariant prevGrapheme == if i == 0 then None else Some(line[i - 1])
      {
        height, measured := AppendGrapheme(li, i, prevGrapheme, height, old(fontCache), measured);
        prevGrapheme := Some(line[i]);
        i := i + 1;
      }
    }

    /**
     * One pass of the grapheme loop: grapheme i is measured against the
     * previous one, its box is stored after the boxes before it and its
     * height is added to the running height.
     */
    method AppendGrapheme(li: int, i: int, prevGrapheme: Option<char>, height: real,
                          ghost cache0: FontCache, ghost measured: LineState)
      returns (height': real, ghost measured': LineState)
      requires cfg.cacheFontSize != 0.0 && 0 <= li < |cfg.lines| && 0 <= i < |cfg.lines[li]|
      requires prevGrapheme == if i == 0 then None else Some(cfg.lines[li][i - 1])
      requires IsPrefixState(cfg, cache0, li, i, measured)
      requires li in charBounds && charBounds[li] == measured.boxes
      requires fontCache == measured.cache && height == measured.height
      modifies this`charBounds, this`fontCache
      ensures IsPrefixState(cfg, cache0, li, i + 1, measured')
      ensures charBounds == old(charBounds)[li := measured'.boxes]
      ensures fontCache == measured'.cache && height' == measured'.height
    {
      var graphemeInfo := GetGraphemeBox(cfg.lines[li][i], li, i, prevGrapheme);
      charBounds := charBounds[li := charBounds[li] + [graphemeInfo]];
      height' := height + graphemeInfo.height;
      measured' := MeasurePrefix(cfg, cache0, li, i + 1);
    }

    /** measureVLine: the line's height less the character-spacing height, never negative. */
    method MeasureVLine(li: int) returns (info: LineInfo)
      requires Valid() && 0 <= li < |cfg.lines|
      modifies this`charBounds, this`fontCache
      ensures Valid()
      ensures var s := LineLayout.MeasureLine(cfg, old(fontCache), li);
        charBounds == old(charBounds)[li := s.boxes] && fontCache == s.cache
      ensures info.height == VLineHeight(cfg, li)
      ensures info.width == cfg.fontSize && info.numOfSpaces == 0
    {
      info := MeasureLine(li);
      if cfg.charSpacing != 0.0 {
        info := info.(height := info.height - HeightOfCharSpacing(cfg));
      }
      if info.height < 0.0 {
        info := info.(height := 0.0);
      }
    }

    /**
     * getLineHeight: the memoised measureVLine height. A memoised line is
     * answered without touching the boxes or the font cache.
     */
    method GetLineHeight(li: int) returns (h: real)
      requires Valid() && 0 <= li < |cfg.lines|
      modifies this`charBounds, this`fontCache, this`lineHeights
      ensures Valid()
      ensures h == VLineHeight(cfg, li)
      ensures lineHeights == old(lineHeights)[li := h]
      ensures li in old(lineHeights) ==> charBounds == old(charBounds) && fontCache == old(fontCache)
      ensures li !in old(lineHeights) ==>
        var s := LineLayout.MeasureLine(cfg, old(fontCache), li);
        charBounds == old(charBounds)[li := s.boxes] && fontCache == s.cache
    {
      if li in lineHeights {
        assert LineMemo(cfg, lineHeights, charBounds, li);
        return lineHeights[li];
      }
      var info := MeasureVLine(li);
      h := info.height;
      MeasureLineShape(cfg, old(fontCache), li);
      MemoAfterHeight(cfg, lineHeights, charBounds, li);
      lineHeights := lineHeights[li := h];
    }

    /** getWidthOfChar: the font size of character ci of line li. */
    function GetWidthOfChar(li: int, ci: int): real
    {
      CharFontSize(cfg, li, ci)
    }

    /**
     * getWidthOfLine: the largest font size of the line times lineHeight and
     * _fontSizeMult, memoised only when the stored value is nonzero.
     */
    method GetWidthOfLine(li: int) returns (w: real)
      requires Valid() && 0 <= li < |cfg.lines|
      modifies this`lineWidths
      ensures Valid()
      ensures w == WidthOfLine(cfg, li)
      ensures li in lineWidths && forall k :: k in old(lineWidths) ==> k in lineWidths
      ensures li in old(lineWidths) && old(lineWidths)[li] != 0.0 ==> lineWidths == old(lineWidths)
      ensures !(li in old(lineWidths) && old(lineWidths)[li] != 0.0) ==> lineWidths == old(lineWidths)[li := w]
    {
      if li in lineWidths && lineWidths[li] != 0.0 {
        assert WidthMemo(cfg, lineWidths, li);
        return lineWidths[li];
      }
      var maxWidth := GetWidthOfChar(li, 0);
      var len := |cfg.lines[li]|;
      var i := 1;
      while i < len
        invariant 1 <= i <= if len == 0 then 1 else len
        invariant maxWidth == MaxFontSize(cfg, li, i)
      {
        var currentCharWidth := GetWidthOfChar(li, i);
        maxWidth := if currentCharWidth > maxWidth then currentCharWidth else maxWidth;
        i := i + 1;
      }
      assert i == if len == 0 then 1 else len;
      w := maxWidth * cfg.lineHeight * cfg.fontSizeMult;
      assert w == WidthOfLine(cfg, li);
      MemoAfterWidth(cfg, lineWidths, li);
      lineWidths := lineWidths[li := w];
    }

    /**
     * calcTextWidth: lineHeight for every line but the last, and the last
     * line's width divided by lineHeight; every line width ends up memoised.
     */
    method CalcTextWidth() returns (w: real)
      requires Valid()
      modifies this`lineWidths
      ensures Valid()
      ensures w == TextWidth(cfg)
      ensures forall i :: 0 <= i < |cfg.lines| ==> i in lineWidths
    {
      w := 0.0;
      var len := |cfg.lines|;
      var i := 0;
      while i < len
        invariant 0 <= i <= len
        invariant Valid()
        invariant w == TextWidthPrefix(cfg, i)
        invariant forall j :: 0 <= j < i ==> j in lineWidths
      {
        var lineWidth := GetWidthOfLine(i);
        var step := if i == len - 1 then lineWidth / cfg.lineHeight else cfg.lineHeight;
        assert step == WidthStep(cfg, i);
        w := w + step;
        i := i + 1;
      }
    }

    /**
     * calcTextHeight: the largest line height; every line height ends up
     * memoised. From an empty height memo, the lines are measured in order.
     */
    method CalcTextHeight() returns (h: real)
      requires Valid()
      modifies this`charBounds, this`fontCache, this`lineHeights
      ensures Valid()
      ensures h == TextHeight(cfg)
      ensures forall i :: 0 <= i < |cfg.lines| ==> i in lineHeights
      ensures old(lineHeights) == map[] ==>
        MeasuredUpTo(cfg, old(fontCache), old(charBounds), |cfg.lines|, charBounds, fontCache, lineHeights)
    {
      var len := |cfg.lines|;
      ghost var unmemoised := lineHeights == map[];
      ghost var bounds, cache, heights := charBounds, fontCache, lineHeights;
      h := GetLineHeight(0);
      if unmemoised {
        MeasuredNothing(cfg, cache, bounds);
        MeasuredUpToStep(cfg, cache, bounds, 0, bounds, cache, heights, h);
      }
      var i := 1;
      while i < len
        invariant 1 <= i <= len
        invariant Valid()
        invariant h == MaxLineHeight(cfg, i)
        invariant forall j :: 0 <= j < i ==> j in lineHeights
        invariant unmemoised ==> MeasuredUpTo(cfg, old(fontCache), old(charBounds), i, charBounds, fontCache, lineHeights)
      {
        bounds, cache, heights := charBounds, fontCache, lineHeights;
        var lh := GetLineHeight(i);
        if unmemoised {
          MeasuredUpToStep(cfg, old(fontCache), old(charBounds), i, bounds, cache, heights, lh);
        }
        h := if lh > h then lh else h;
        i := i + 1;
      }
    }

    /**
     * enlargeSpaces: every line is taken through EnlargeLine in order. When
     * every line height is already memoised (as initDimensions ensures), the
     * heights and the font cache stay as they are, and every line's boxes
     * become the justified boxes of that line.
     */
    method EnlargeSpaces()
      requires Valid()
      modifies this`charBounds, this`fontCache, this`lineHeights
      ensures Valid()
      ensures (forall i :: 0 <= i < |cfg.lines| ==> i in old(lineHeights)) ==>
        && lineHeights == old(lineHeights) && fontCache == old(fontCache)
        && charBounds.Keys == old(charBounds).Keys
        && (forall j :: 0 <= j < |cfg.lines| ==> LineJustified(cfg, width, old(charBounds), charBounds, j))
        && (forall j :: j in charBounds && !(0 <= j < |cfg.lines|) ==> charBounds[j] == old(charBounds)[j])
    {
      ghost var memoised := forall i :: 0 <= i < |cfg.lines| ==> i in lineHeights;
      ghost var bounds0, heights0 := charBounds, lineHeights;
      var len := |cfg.lines|;
      var i := 0;
      while i < len
        invariant 0 <= i <= len
        invariant Valid()
        invariant memoised ==> lineHeights == heights0 && fontCache == old(fontCache) && charBounds.Keys == bounds0.Keys
        invariant memoised ==> forall j :: 0 <= j < i ==> LineJustified(cfg, width, bounds0, charBounds, j)
        invariant memoised ==> forall j :: j in charBounds && !(0 <= j < i) ==> charBounds[j] == bounds0[j]
      {
        ghost var before := charBounds;
        EnlargeLine(i);
        if memoised {
          assert LineMemo(cfg, heights0, bounds0, i);
          assert before[i] == bounds0[i];
          assert LineJustified(cfg, width, bounds0, charBounds, i);
          forall j | 0 <= j < i ensures LineJustified(cfg, width, bounds0, charBounds, j) {
            assert LineJustified(cfg, width, bounds0, before, j);
          }
        }
        i := i + 1;
      }
    }

    /**
     * One pass of enlargeSpaces' outer loop. A skipped line is left alone;
     * otherwise its height is taken from getLineHeight (measuring the line
     * when it is not memoised), and a line shorter than the block width that
     * holds a space is justified.
     */
    method EnlargeLine(li: int)
      requires Valid() && 0 <= li < |cfg.lines|
      modifies this`charBounds, this`fontCache, this`lineHeights
      ensures Valid()
      ensures lineHeights == if SkipsLine(cfg, li) then old(lineHeights) else old(lineHeights)[li := VLineHeight(cfg, li)]
      ensures SkipsLine(cfg, li) ==> charBounds == old(charBounds) && fontCache == old(fontCache)
      ensures !SkipsLine(cfg, li) && li in old(lineHeights) ==>
        && fontCache == old(fontCache)
        && LineJustified(cfg, width, old(charBounds), charBounds, li)
        && charBounds == old(charBounds)[li := charBounds[li]]
      ensures !SkipsLine(cfg, li) && li !in old(lineHeights) ==>
        var s := LineLayout.MeasureLine(cfg, old(fontCache), li);
        && fontCache == s.cache
        && charBounds == old(charBounds)[li := JustifiedBounds(cfg, li, width, s.boxes)]
    {
      if cfg.textAlign != Justify && (li == |cfg.lines| - 1 || cfg.isEndOfWrapping(li)) {
        return;
      }
      var currentLineWidth := GetLineHeight(li);
      var line := cfg.lines[li];
      var numberOfSpaces := SpacesIn(cfg.isSpace, line, |line|);
      assert LineMemo(cfg, lineHeights, charBounds, li);
      ghost var measured := charBounds;
      if currentLineWidth < width && numberOfSpaces > 0 {
        var diffSpace := (width - currentLineWidth) / numberOfSpaces as real;
        JustifyLineBounds(li, diffSpace);
        JustifyKeepsShape(cfg, li, measured[li], diffSpace);
        MemoAfterBounds(cfg, lineHeights, measured, li, charBounds[li]);
      }
      assert charBounds == measured[li := JustifiedBounds(cfg, li, width, measured[li])];
    }

    /**
     * One step of enlargeSpaces' inner loop: box j moves by the slack
     * accumulated so far, and a space box also grows by d and adds d to it.
     */
    method JustifyBoxAt(line: string, ghost boxes: seq<GraphemeBBox>, d: real, j: int,
                        lineBounds: seq<GraphemeBBox>, accumulatedSpace: real)
      returns (lineBounds': seq<GraphemeBBox>, accumulatedSpace': real)
      requires |boxes| == |line| + 1 && 0 <= j <= |line|
      requires lineBounds == JustifyPrefix(cfg.isSpace, line, boxes, d, j) + boxes[j..]
      requires accumulatedSpace == Shift(cfg.isSpace, line, j, d)
      ensures lineBounds' == JustifyPrefix(cfg.isSpace, line, boxes, d, j + 1) + boxes[j + 1..]
      ensures accumulatedSpace' == Shift(cfg.isSpace, line, j + 1, d)
    {
      var charBound := lineBounds[j];
      assert charBound == boxes[j];
      accumulatedSpace' := accumulatedSpace;
      if j < |line| && cfg.isSpace(line[j]) {
        charBound := charBound.(width := charBound.width + d, kernedWidth := charBound.kernedWidth + d,
                                left := charBound.left + accumulatedSpace);
        accumulatedSpace' := accumulatedSpace + d;
      } else {
        charBound := charBound.(left := charBound.left + accumulatedSpace);
      }
      JustifyPrefixStep(cfg.isSpace, line, boxes, d, j);
      lineBounds' := lineBounds[j := charBound];
    }

    /**
     * The inner loop of enlargeSpaces on line li: every box, the sentinel
     * included, moves by the slack accumulated before it, and a space box
     * also grows by d. The boxes are patched in a copy of the line's array
     * and stored back once the line is done.
     */
    method JustifyLineBounds(li: int, d: real)
      requires 0 <= li < |cfg.lines| && li in charBounds && |charBounds[li]| == |cfg.lines[li]| + 1
      modifies this`charBounds
      ensures charBounds == old(charBounds)[li := JustifyLine(cfg.isSpace, cfg.lines[li], old(charBounds)[li], d)]
    {
      var line := cfg.lines[li];
      var lineBounds := charBounds[li];
      ghost var boxes := lineBounds;
      var accumulatedSpace := 0.0;
      var j := 0;
      assert JustifyPrefix(cfg.isSpace, line, boxes, d, 0) + boxes[0..] == boxes;
      while j <= |line|
        invariant 0 <= j <= |line| + 1
        invariant charBounds == old(charBounds)
        invariant lineBounds == JustifyPrefix(cfg.isSpace, line, boxes, d, j) + boxes[j..]
        invariant accumulatedSpace == Shift(cfg.isSpace, line, j, d)
      {
        lineBounds, accumulatedSpace := JustifyBoxAt(line, boxes, d, j, lineBounds, accumulatedSpace);
        j := j + 1;
      }
      assert lineBounds == JustifyLine(cfg.isSpace, line, boxes, d);
      charBounds := charBounds[li := lineBounds];
    }

    /**
     * _renderChar: the draw commands for one run. The pass paints only when
     * the character's complete style has a fill (fill pass) or a stroke with
     * a nonzero width (stroke pass); a fill pass draws character by character.
     */
    method RenderChar(pass: DrawMethod, li: int, ci: int, text: string, left: real, top: real)
      returns (cmds: seq<Draw>)
      requires li in charBounds && |text| <= |charBounds[li]|
      ensures cmds == CharCommands(cfg, charBounds[li], pass, li, ci, text, left, top)
    {
      var fullDecl := cfg.completeStyle(li, ci);
      var shouldFill := pass == FillText && fullDecl.fill != "";
      var shouldStroke := pass == StrokeText && fullDecl.stroke != "" && fullDecl.strokeWidth != 0.0;
      if !shouldStroke && !shouldFill {
        return [];
      }
      var font := Decl(cfg, fullDecl);
      var y := top + cfg.rawDeltaY(li, ci);
      var lineBounds := charBounds[li];
      cmds := [];
      if shouldFill {
        var t := y;
        var i := 0;
        while i < |text|
          invariant 0 <= i <= |text|
          invariant cmds == FillCommands(lineBounds, text, left, y, font, i)
          invariant t == y + SumHeights(lineBounds[..i])
        {
          var bound := lineBounds[i];
          t := t + bound.height;
          assert lineBounds[..i + 1][..i] == lineBounds[..i];
          cmds := cmds + [Draw(FillText, [text[i]], left - bound.width, t, font)];
          i := i + 1;
        }
      }
      if shouldStroke {
        cmds := cmds + [Draw(StrokeText, text, left, y, font)];
      }
    }

    /**
     * The first half of one iteration of _renderChars' loop: grapheme i joins
     * the pending text, the run's box moves along the line (a run's first box
     * shifted by its kerning delta), and the run is closed at a forced flush
     * point or where the style of the next grapheme differs from the run's.
     * The new loop variables are those of one scan step, with the pending run
     * flushed exactly when `timeToRender` is set.
     */
    method TakeGrapheme(li: int, i: int, isJustify: bool, ghost runs: seq<Run>, charsToRender: string,
                        actualStyle: Option<Style>, nextStyle: Option<Style>, left: real, boxWidth: real)
      returns (chars': string, left': real, boxWidth': real, actual': Option<Style>, next': Option<Style>,
               timeToRender: bool)
      requires 0 <= li < |cfg.lines| && li in charBounds && 0 <= i < |cfg.lines[li]| && i < |charBounds[li]|
      requires isJustify == IsJustify(cfg)
      ensures chars' == charsToRender + [cfg.lines[li][i]]
      ensures timeToRender ==>
        ScanStep(cfg, li, charBounds[li], Scan(runs, charsToRender, actualStyle, nextStyle, left, boxWidth), i)
          == Scan(runs + [Run(i + 1 - |chars'|, chars', i, left')], [], next', next', left' + Toward(cfg, boxWidth'), 0.0)
      ensures !timeToRender ==>
        ScanStep(cfg, li, charBounds[li], Scan(runs, charsToRender, actualStyle, nextStyle, left, boxWidth), i)
          == Scan(runs, chars', actual', next', left', boxWidth')
    {
      var line := cfg.lines[li];
      timeToRender := i == |line| - 1 || cfg.charSpacing != 0.0;
      chars' := charsToRender + [line[i]];
      var charBox := charBounds[li][i];
      left', boxWidth' := left, boxWidth;
      if boxWidth' == 0.0 {
        left' := left' + Toward(cfg, charBox.kernedWidth - charBox.width);
        boxWidth' := boxWidth' + charBox.width;
      } else {
        boxWidth' := boxWidth' + charBox.kernedWidth;
      }
      if isJustify && !timeToRender {
        if cfg.isSpace(line[i]) {
          timeToRender := true;
        }
      }
      assert timeToRender == MustFlush(cfg, line, i);
      actual', next' := actualStyle, nextStyle;
      if !timeToRender {
        if actual'.None? {
          actual' := Some(cfg.completeStyle(li, i));
        }
        next' := Some(cfg.completeStyle(li, i + 1));
        timeToRender := cfg.hasStyleChanged(actual'.value, next'.value);
      }
      ScanStepCases(cfg, li, charBounds[li], Scan(runs, charsToRender, actualStyle, nextStyle, left, boxWidth), i,
                    left', boxWidth', actual', next', timeToRender);
    }

    /**
     * The second half of an iteration of _renderChars' loop when the run
     * ends at grapheme i: the pending text is drawn as one run at `left`,
     * and `left` moves past the run's extent in the drawing direction.
     */
    method FlushRun(pass: DrawMethod, li: int, i: int, top: real, cmds: seq<Draw>, ghost runs: seq<Run>,
                    charsToRender: string, left: real, boxWidth: real)
      returns (cmds': seq<Draw>, ghost runs': seq<Run>, left': real)
      requires li in charBounds && |charsToRender| <= |charBounds[li]|
      requires forall k :: 0 <= k < |runs| ==> |runs[k].text| <= |charBounds[li]|
      requires cmds == RunsCommands(cfg, charBounds[li], pass, li, runs, top)
      ensures runs' == runs + [Run(i + 1 - |charsToRender|, charsToRender, i, left)]
      ensures cmds' == RunsCommands(cfg, charBounds[li], pass, li, runs', top)
      ensures left' == left + Toward(cfg, boxWidth)
    {
      var drawingLeft := left;
      var run := Run(i + 1 - |charsToRender|, charsToRender, i, drawingLeft);
      var drawn := RenderChar(pass, li, i, charsToRender, drawingLeft, top);
      RunsAppend(cfg, charBounds[li], pass, li, runs, run, top);
      cmds' := cmds + drawn;
      runs' := runs + [run];
      left' := left + Toward(cfg, boxWidth);
    }

    /**
     * One iteration of _renderChars' loop, on grapheme i of line li: the
     * loop's variables go from the scan of the first i graphemes to that of
     * the first i + 1, and the commands stay those of the runs flushed so far.
     */
    method RenderGrapheme(pass: DrawMethod, li: int, ghost lineLeft: real, top: real, i: int, isJustify: bool,
                          cmds: seq<Draw>, ghost runs: seq<Run>, charsToRender: string,
                          actualStyle: Option<Style>, nextStyle: Option<Style>, left: real, boxWidth: real)
      returns (cmds': seq<Draw>, ghost runs': seq<Run>, chars': string,
               actual': Option<Style>, next': Option<Style>, left': real, boxWidth': real)
      requires 0 <= li < |cfg.lines| && li in charBounds && 0 <= i < |cfg.lines[li]| <= |charBounds[li]|
      requires isJustify == IsJustify(cfg)
      requires Scan(runs, charsToRender, actualStyle, nextStyle, left, boxWidth)
            == ScanPrefix(cfg, li, charBounds[li], lineLeft, i)
      requires cmds == RunsCommands(cfg, charBounds[li], pass, li, runs, top)
      ensures Scan(runs', chars', actual', next', left', boxWidth')
           == ScanPrefix(cfg, li, charBounds[li], lineLeft, i + 1)
      ensures cmds' == RunsCommands(cfg, charBounds[li], pass, li, ScanPrefix(cfg, li, charBounds[li], lineLeft, i + 1).runs, top)
    {
      var timeToRender;
      chars', left', boxWidth', actual', next', timeToRender :=
        TakeGrapheme(li, i, isJustify, runs, charsToRender, actualStyle, nextStyle, left, boxWidth);
      cmds', runs' := cmds, runs;
      if timeToRender {
        cmds', runs', left' := FlushRun(pass, li, i, top, cmds, runs, chars', left', boxWidth');
        chars' := "";
        actual' := next';
        boxWidth' := 0.0;
      }
    }

    /**
     * _renderChars past the shortcut: graphemes are taken one at a time and
     * each run is drawn where it ends; the runs drawn are those the scan of
     * the whole line closes.
     */
    method RenderRuns(pass: DrawMethod, li: int, lineLeft: real, top: real, isJustify: bool)
      returns (cmds: seq<Draw>, ghost runs: seq<Run>)
      requires 0 <= li < |cfg.lines| && li in charBounds && |cfg.lines[li]| <= |charBounds[li]|
      requires isJustify == IsJustify(cfg)
      ensures runs == ScanPrefix(cfg, li, charBounds[li], lineLeft, |cfg.lines[li]|).runs
      ensures cmds == RunsCommands(cfg, charBounds[li], pass, li,
                                   ScanPrefix(cfg, li, charBounds[li], lineLeft, |cfg.lines[li]|).runs, top)
    {
      var line := cfg.lines[li];
      var lineBounds := charBounds[li];
      var actualStyle: Option<Style> := None;
      var nextStyle: Option<Style> := None;
      var charsToRender: string := "";
      var boxWidth := 0.0;
      var left := lineLeft;
      cmds, runs := [], [];
      var i := 0;
      while i < |line|
        invariant 0 <= i <= |line|
        invariant Scan(runs, charsToRender, actualStyle, nextStyle, left, boxWidth)
               == ScanPrefix(cfg, li, lineBounds, lineLeft, i)
        invariant cmds == RunsCommands(cfg, lineBounds, pass, li, runs, top)
      {
        cmds, runs, charsToRender, actualStyle, nextStyle, left, boxWidth :=
          RenderGrapheme(pass, li, lineLeft, top, i, isJustify, cmds, runs, charsToRender, actualStyle, nextStyle,
                         left, boxWidth);
        i := i + 1;
      }
    }

    /**
     * _renderChars: the commands for one line, drawn from (lineLeft, top).
     * On the shortcut path the whole line is one run; otherwise graphemes are
     * gathered into runs that end at the last grapheme, at every grapheme when
     * character spacing is set, at a space when justified, and where the
     * style compared against the run's style changes.
     */
    method RenderChars(pass: DrawMethod, li: int, lineLeft: real, top: real)
      returns (cmds: seq<Draw>, ghost runs: seq<Run>)
      requires 0 <= li < |cfg.lines| && li in charBounds && |cfg.lines[li]| <= |charBounds[li]|
      ensures runs == LineRuns(cfg, li, charBounds[li], lineLeft)
      ensures cmds == RunsCommands(cfg, charBounds[li], pass, li, LineRuns(cfg, li, charBounds[li], lineLeft), top)
    {
      var line := cfg.lines[li];
      var isJustify := Includes(cfg.textAlign, Justify);
      var shortCut := !isJustify && cfg.charSpacing == 0.0 && cfg.isEmptyStyles(li);
      if shortCut {
        cmds := RenderChar(pass, li, 0, line, lineLeft, top);
        runs := [Run(0, line, 0, lineLeft)];
        RunsAppend(cfg, charBounds[li], pass, li, [], runs[0], top);
        return;
      }
      cmds, runs := RenderRuns(pass, li, lineLeft, top, isJustify);
    }

    /** _getLeftOffset: the block's left edge, seen from its centre. */
    function LeftOffset(): real
      reads this`width
    {
      width / 2.0
    }

    /** _getTopOffset: the block's top edge, seen from its centre. */
    function TopOffset(): real
      reads this`height
    {
      -height / 2.0
    }

    /**
     * _renderTextCommon: every line, in order, is painted by _renderChars
     * with its column at width / 2 less the widths of the lines before it
     * and its top at -height / 2: column k of `cols` is what line k paints
     * there, the commands are the columns in line order, and every line width
     * ends up memoised.
     */
    method RenderTextCommon(pass: DrawMethod) returns (cmds: seq<Draw>, ghost cols: seq<seq<Draw>>)
      requires Valid() && BoxesStored(cfg, charBounds, |cfg.lines|)
      modifies this`lineWidths
      ensures Valid()
      ensures forall i :: 0 <= i < |cfg.lines| ==> i in lineWidths
      ensures |cols| == |cfg.lines| && ColumnsDrawn(cfg, charBounds, pass, LeftOffset(), TopOffset(), LineWidths(cfg), cols)
      ensures cmds == Flatten(cols)
    {
      var lineWidths := 0.0;
      var left, top := LeftOffset(), TopOffset();
      cmds, cols := [], [];
      ghost var widths := LineWidths(cfg);
      var i := 0;
      while i < |cfg.lines|
        invariant 0 <= i <= |cfg.lines| && |cols| == i
        invariant Valid()
        invariant Memoised(this.lineWidths, i) == true
        invariant lineWidths == ColumnOffset(widths, i)
        invariant ColumnsDrawn(cfg, charBounds, pass, left, top, widths, cols)
        invariant cmds == Flatten(cols)
      {
        ghost var before := this.lineWidths;
        var widthOfLine := GetWidthOfLine(i);
        MemoisedStep(before, this.lineWidths, i);
        var lineLeft := left - lineWidths;
        var lineCmds := RenderVTextLine(pass, i, lineLeft, top);
        ColumnsExtend(cfg, charBounds, pass, left, top, widths, cols, i, lineLeft, lineCmds);
        cmds, cols := cmds + lineCmds, cols + [lineCmds];
        lineWidths := lineWidths + widthOfLine;
        i := i + 1;
      }
    }

    /** _renderVTextLine: the line is painted by _renderChars from column lineLeft. */
    method RenderVTextLine(pass: DrawMethod, li: int, lineLeft: real, top: real) returns (cmds: seq<Draw>)
      requires 0 <= li < |cfg.lines| && li in charBounds && |cfg.lines[li]| <= |charBounds[li]|
      ensures cmds == LineCommands(cfg, charBounds, pass, li, lineLeft, top)
    {
      ghost var runs;
      cmds, runs := RenderChars(pass, li, lineLeft, top);
    }
  }
}
