/**
 * Measurement of one grapheme against the font-metrics cache (_measureChar)
 * and the bounding box built from it (_getGraphemeBox).
 *
 * Every raw value is a width or height at the cache font size, scaled by
 * fontSize / cacheFontSize. The character is always measured again, because
 * its height is never cached; the previous character and the couple are
 * measured and cached only when the two styles have the same font declaration.
 */
module GlyphMeasure {
  import opened TextModel
  import opened FontDeclarations

  datatype CharInfo = CharInfo(width: real, height: real, kernedWidth: real)

  /** The cache key of a single character. */
  function Key(c: char): string { [c] }

  /** The cache key of the couple `previous + current`; an absent previous character adds nothing. */
  function CoupleKey(prev: Option<(char, Style)>, c: char): string
  {
    if prev.Some? then [prev.value.0, c] else [c]
  }

  /** The previous character has the same font declaration as the current one. */
  predicate StylesAreEqual(cfg: Config, style: Style, prev: Option<(char, Style)>)
  {
    prev.Some? && Decl(cfg, style) == Decl(cfg, prev.value.1)
  }

  /** The couple has to be measured: styles agree and it was not cached before the call. */
  predicate CoupleAbsent(cfg: Config, table: map<string, real>, style: Style, prev: Option<(char, Style)>, c: char)
  {
    StylesAreEqual(cfg, style, prev) && CoupleKey(prev, c) !in table
  }

  /** The raw width of the previous character: cached if present, otherwise measured. */
  function PreviousWidth(cfg: Config, table: map<string, real>, style: Style, prev: Option<(char, Style)>): real
    requires prev.Some?
  {
    var k := Key(prev.value.0);
    if k in table then table[k] else cfg.measureText(k, MeasureDecl(cfg, style)).width
  }

  /**
   * _measureChar on the cache table of the character's font signature: the
   * scaled measurement and the table after the call.
   */
  function MeasureChar(cfg: Config, table: map<string, real>, c: char, style: Style, prev: Option<(char, Style)>)
    : (res: (CharInfo, map<string, real>))
    requires cfg.cacheFontSize != 0.0
  {
    var decl := MeasureDecl(cfg, style);
    var mult := style.fontSize / cfg.cacheFontSize;
    var equal := StylesAreEqual(cfg, style, prev);
    var m := cfg.measureText(Key(c), decl);
    var t1 := table[Key(c) := m.width];
    var t2 := if equal && Key(prev.value.0) !in table
              then t1[Key(prev.value.0) := PreviousWidth(cfg, table, style, prev)] else t1;
    var absent := CoupleAbsent(cfg, table, style, prev, c);
    var coupleWidth := cfg.measureText(CoupleKey(prev, c), decl).width;
    var t3 := if absent then t2[CoupleKey(prev, c) := coupleWidth] else t2;
    var kerned := if absent then coupleWidth - PreviousWidth(cfg, table, style, prev) else m.width;
    (CharInfo(m.width * mult, m.height * mult, kerned * mult), t3)
  }

  /**
   * Every entry of the cache holds what the measuring surface reports for
   * that key at the signature's measuring declaration.
   */
  ghost predicate CacheConsistent(cfg: Config, cache: FontCache)
  {
    forall sig {:trigger TableConsistent(cfg, cache[sig], sig)} :: sig in cache ==> TableConsistent(cfg, cache[sig], sig)
  }

  /** The table of one signature agrees with the measuring surface. */
  ghost predicate TableConsistent(cfg: Config, table: map<string, real>, sig: FontSig)
  {
    forall k :: k in table ==> table[k] == cfg.measureText(k, SigDecl(cfg, sig)).width
  }

  /** The table a consistent cache holds for a signature (empty when absent) is consistent. */
  lemma TableOfConsistent(cfg: Config, cache: FontCache, sig: FontSig)
    requires CacheConsistent(cfg, cache)
    ensures TableConsistent(cfg, TableOf(cache, sig), sig)
  {
    if sig in cache {
      assert TableConsistent(cfg, cache[sig], sig);
    }
  }

  /** Storing a consistent table for a signature keeps the cache consistent. */
  lemma CacheUpdateConsistent(cfg: Config, cache: FontCache, sig: FontSig, table: map<string, real>)
    requires CacheConsistent(cfg, cache)
    requires TableConsistent(cfg, table, sig)
    ensures CacheConsistent(cfg, cache[sig := table])
  {
    var updated := cache[sig := table];
    forall s | s in updated ensures TableConsistent(cfg, updated[s], s) {
      if s != sig {
        assert TableConsistent(cfg, cache[s], s);
      }
    }
  }

  /**
   * The scaled outputs: width and height are the character's own measurement;
   * the kerned width is the width, except when the styles agree and the couple
   * was not cached before, when it is the couple's width less the previous
   * character's width. A couple already cached leaves the kerned width equal
   * to the width.
   */
  lemma MeasureCharResult(cfg: Config, table: map<string, real>, c: char, style: Style, prev: Option<(char, Style)>)
    requires cfg.cacheFontSize != 0.0
    ensures var (info, _) := MeasureChar(cfg, table, c, style, prev);
      var decl := MeasureDecl(cfg, style);
      var mult := style.fontSize / cfg.cacheFontSize;
      && info.width == cfg.measureText([c], decl).width * mult
      && info.height == cfg.measureText([c], decl).height * mult
      && (CoupleAbsent(cfg, table, style, prev, c) ==>
            info.kernedWidth == (cfg.measureText(CoupleKey(prev, c), decl).width
                                 - PreviousWidth(cfg, table, style, prev)) * mult)
      && (!CoupleAbsent(cfg, table, style, prev, c) ==> info.kernedWidth == info.width)
  {
  }

  /**
   * The table after the call holds the character, and when the styles agree
   * also the previous character and the couple; nothing is removed, and no
   * other key is added.
   */
  lemma MeasureCharKeys(cfg: Config, table: map<string, real>, c: char, style: Style, prev: Option<(char, Style)>)
    requires cfg.cacheFontSize != 0.0
    ensures var t := MeasureChar(cfg, table, c, style, prev).1;
      && Key(c) in t
      && t[Key(c)] == cfg.measureText([c], MeasureDecl(cfg, style)).width
      && (StylesAreEqual(cfg, style, prev) ==> Key(prev.value.0) in t && CoupleKey(prev, c) in t)
      && (!StylesAreEqual(cfg, style, prev) ==> t.Keys == table.Keys + {Key(c)})
      && (StylesAreEqual(cfg, style, prev) ==>
            t.Keys == table.Keys + {Key(c), Key(prev.value.0), CoupleKey(prev, c)})
  {
  }

  /** A call keeps the table of the character's signature consistent. */
  lemma MeasureCharKeepsConsistency(cfg: Config, table: map<string, real>, c: char, style: Style, prev: Option<(char, Style)>)
    requires cfg.cacheFontSize != 0.0
    requires TableConsistent(cfg, table, SigOf(style))
    ensures TableConsistent(cfg, MeasureChar(cfg, table, c, style, prev).1, SigOf(style))
  {
    MeasureDeclIsSigDecl(cfg, style);
  }

  /**
   * On a consistent table the kerning delta does not depend on what was
   * cached: whenever the couple is measured, the kerned width is the couple's
   * width less the previous character's width, both at the cache size.
   */
  lemma KerningFromMeasurements(cfg: Config, table: map<string, real>, c: char, style: Style, prev: Option<(char, Style)>)
    requires cfg.cacheFontSize != 0.0
    requires TableConsistent(cfg, table, SigOf(style))
    requires CoupleAbsent(cfg, table, style, prev, c)
    ensures var decl := MeasureDecl(cfg, style);
      MeasureChar(cfg, table, c, style, prev).0.kernedWidth
        == (cfg.measureText([prev.value.0, c], decl).width - cfg.measureText([prev.value.0], decl).width)
           * (style.fontSize / cfg.cacheFontSize)
  {
    MeasureDeclIsSigDecl(cfg, style);
  }

  /**
   * Measuring the same tuple twice: the second call adds nothing to a
   * consistent table and changes none of its values, and, because the couple
   * is now cached, reports the plain width as the kerned width.
   */
  lemma MeasureCharTwice(cfg: Config, table: map<string, real>, c: char, style: Style, prev: Option<(char, Style)>)
    requires cfg.cacheFontSize != 0.0
    requires TableConsistent(cfg, table, SigOf(style))
    ensures var (info1, t1) := MeasureChar(cfg, table, c, style, prev);
      var (info2, t2) := MeasureChar(cfg, t1, c, style, prev);
      && t2 == t1
      && info2.width == info1.width && info2.height == info1.height
      && info2.kernedWidth == info2.width
  {
    MeasureDeclIsSigDecl(cfg, style);
    MeasureCharKeepsConsistency(cfg, table, c, style, prev);
    MeasureCharKeys(cfg, table, c, style, prev);
    var t1 := MeasureChar(cfg, table, c, style, prev).1;
    MeasureCharKeys(cfg, t1, c, style, prev);
    var t2 := MeasureChar(cfg, t1, c, style, prev).1;
    assert t2.Keys == t1.Keys;
    forall k | k in t2 ensures t2[k] == t1[k] {
    }
  }

  /**
   * _getGraphemeBox from a measurement: character spacing, when set, widens
   * both width and kerned width; the box's left continues the previous box
   * (if any) by the measurement's kerning delta.
   */
  function GraphemeBox(cfg: Config, info: CharInfo, style: Style, prevBox: Option<GraphemeBBox>): (box: GraphemeBBox)
    ensures box.kernedWidth - box.width == info.kernedWidth - info.width
    ensures box.height == info.height && box.deltaY == style.deltaY
    ensures cfg.charSpacing == 0.0 ==> box.width == info.width
    ensures cfg.charSpacing != 0.0 ==> box.width == info.width + cfg.widthOfCharSpacing
    ensures prevBox.None? ==> box.left == 0.0
    ensures prevBox.Some? ==>
      box.left == prevBox.value.left + prevBox.value.width + box.kernedWidth - box.width
  {
    var spacing := if cfg.charSpacing != 0.0 then cfg.widthOfCharSpacing else 0.0;
    GraphemeBBox(
      info.width + spacing,
      info.height,
      info.kernedWidth + spacing,
      if prevBox.Some? then prevBox.value.left + prevBox.value.width + info.kernedWidth - info.width else 0.0,
      style.deltaY)
  }
}
