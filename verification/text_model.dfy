/**
 * Values shared by every part of the vertical text layout engine: the
 * per-character bounding box, the resolved character style, the font-metrics
 * cache, and the configuration of one text block together with the host
 * capabilities it consumes (text measurement, style lookup, style comparison).
 *
 * Host capabilities that the layout engine only calls are modelled as
 * function-valued fields of `Config`; nothing is assumed about them beyond
 * their types.
 */
module TextModel {

  datatype Option<T> = None | Some(value: T)

  /** Per-character bounding box (GraphemeBBox); `left` is the offset along the line. */
  datatype GraphemeBBox = GraphemeBBox(
    width: real,
    height: real,
    kernedWidth: real,
    left: real,
    deltaY: real)

  /** The complete (block defaults merged with overrides) style of one character. */
  datatype Style = Style(
    fontFamily: string,
    fontStyle: string,
    fontWeight: string,
    fontSize: real,
    fill: string,       // "" stands for an unset (falsy) fill
    stroke: string,     // "" stands for an unset (falsy) stroke
    strokeWidth: real,
    deltaY: real)

  /** What the drawing surface reports for a measured string. */
  datatype Metrics = Metrics(width: real, height: real)  // height = ascent + descent

  /** Key of the font-metrics cache: family, style and weight. */
  datatype FontSig = FontSig(family: string, style: string, weight: string)

  /** Font signature -> (single character or two-character couple -> width at the cache size). */
  type FontCache = map<FontSig, map<string, real>>

  /** The cache key of a style: its family, style and weight, without its size. */
  function SigOf(s: Style): FontSig
  {
    FontSig(s.fontFamily, s.fontStyle, s.fontWeight)
  }

  /** The cache table of one signature; created empty on first access. */
  function TableOf(cache: FontCache, sig: FontSig): map<string, real>
  {
    if sig in cache then cache[sig] else map[]
  }

  /**
   * The block's own properties and the host capabilities the engine uses.
   *  - lines: the grapheme lines of the text (one vertical column each)
   *  - completeStyle(line, char): getCompleteStyleDeclaration
   *  - rawDeltaY(line, char): deltaY of the raw per-character override, 0 when absent
   *  - measureText(text, font): the measuring surface's measureText at that font
   *  - hasStyleChanged, isEmptyStyles, isEndOfWrapping: the host's predicates
   *  - isSpace: the single space-or-tab regular expression
   *  - widthOfCharSpacing: _getWidthOfCharSpacing()
   *  - formatNumber: JavaScript's number-to-string conversion
   */
  datatype Config = Config(
    lines: seq<string>,
    fontFamily: string,
    fontStyle: string,
    fontWeight: string,
    fontSize: real,
    lineHeight: real,
    fontSizeMult: real,
    charSpacing: real,
    widthOfCharSpacing: real,
    textAlign: string,
    direction: string,
    cacheFontSize: real,
    minTextHeight: real,
    completeStyle: (int, int) -> Style,
    rawDeltaY: (int, int) -> real,
    measureText: (string, string) -> Metrics,
    hasStyleChanged: (Style, Style) -> bool,
    isEmptyStyles: int -> bool,
    isEndOfWrapping: int -> bool,
    isSpace: char -> bool,
    formatNumber: real -> string)

  /**
   * What the engine relies on: the host always splits text into at least one
   * line, and the two divisors (line height multiplier, cache font size) are
   * nonzero.
   */
  predicate WellFormed(cfg: Config)
  {
    |cfg.lines| >= 1 && cfg.lineHeight != 0.0 && cfg.cacheFontSize != 0.0
  }

  const Justify: string := "justify"

  /** `s.includes(t)` */
  predicate Includes(s: string, t: string)
    decreases |s|
  {
    |t| <= |s| && (s[..|t|] == t || (|s| > 0 && Includes(s[1..], t)))
  }

  /** Sum of the heights of a sequence of boxes, accumulated left to right. */
  function SumHeights(boxes: seq<GraphemeBBox>): real
  {
    if boxes == [] then 0.0 else SumHeights(boxes[..|boxes| - 1]) + boxes[|boxes| - 1].height
  }

  /** Sum of the widths of a sequence of boxes, accumulated left to right. */
  function SumWidths(boxes: seq<GraphemeBBox>): real
  {
    if boxes == [] then 0.0 else SumWidths(boxes[..|boxes| - 1]) + boxes[|boxes| - 1].width
  }

  /**
   * The left-offset chain of measured boxes: every box after the first starts
   * where the previous one ends, moved by its own kerning delta.
   */
  ghost predicate LeftChain(boxes: seq<GraphemeBBox>)
  {
    forall i :: 0 < i < |boxes| ==>
      boxes[i].left == boxes[i - 1].left + boxes[i - 1].width + boxes[i].kernedWidth - boxes[i].width
  }
}
