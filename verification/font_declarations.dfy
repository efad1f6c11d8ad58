/**
 * The canvas font declaration string ("style weight SIZEpx family") built by
 * _getFontDeclaration, with its quoting rule for family names and the fixed
 * cache size used when measuring.
 */
module FontDeclarations {
  import opened TextModel

  /** The CSS generic family keywords that are never quoted. */
  const GenericFonts: seq<string> := ["sans-serif", "serif", "cursive", "fantasy", "monospace"]

  /** An ASCII capital letter becomes its small letter; any other character is kept. */
  function LowerChar(c: char): char
  {
    if 'A' <= c <= 'Z' then (c as int + 32) as char else c
  }

  /** `toLowerCase`, restricted to the ASCII letters. */
  function ToLower(s: string): string
  {
    if s == [] then [] else [LowerChar(s[0])] + ToLower(s[1..])
  }

  /** ToLower maps every character through LowerChar and keeps the length. */
  lemma {:induction false} ToLowerPointwise(s: string)
    ensures |ToLower(s)| == |s|
    ensures forall i :: 0 <= i < |s| ==> ToLower(s)[i] == LowerChar(s[i])
  {
    if s != [] {
      ToLowerPointwise(s[1..]);
      forall i | 0 <= i < |s| ensures ToLower(s)[i] == LowerChar(s[i]) {
        if i > 0 {
          assert ToLower(s)[i] == ToLower(s[1..])[i - 1];
        }
      }
    }
  }

  /** The family holds a single quote, a double quote or a comma, scanning from the left. */
  predicate HasQuoteOrComma(s: string)
  {
    s != [] && (s[0] == '\'' || s[0] == '"' || s[0] == ',' || HasQuoteOrComma(s[1..]))
  }

  /** The name is one of the names, scanning from the first. */
  predicate InNames(s: string, names: seq<string>)
  {
    names != [] && (names[0] == s || InNames(s, names[1..]))
  }

  /** A family is left bare when it already holds a quote or a comma, or is a generic keyword. */
  predicate KeepsBareFamily(family: string)
  {
    HasQuoteOrComma(family) || InNames(ToLower(family), GenericFonts)
  }

  lemma {:induction false} HasQuoteOrCommaIff(s: string)
    ensures HasQuoteOrComma(s) <==> ('\'' in s || '"' in s || ',' in s)
  {
    if s != [] {
      HasQuoteOrCommaIff(s[1..]);
      assert s == [s[0]] + s[1..];
    }
  }

  lemma {:induction false} InNamesIff(s: string, names: seq<string>)
    ensures InNames(s, names) <==> s in names
  {
    if names != [] {
      InNamesIff(s, names[1..]);
      assert names == [names[0]] + names[1..];
    }
  }

  /** The scans agree with plain membership: a quote, double quote or comma, or a generic keyword in any case. */
  lemma KeepsBareFamilyIff(family: string)
    ensures KeepsBareFamily(family) <==>
      ('\'' in family || '"' in family || ',' in family || ToLower(family) in GenericFonts)
  {
    HasQuoteOrCommaIff(family);
    InNamesIff(ToLower(family), GenericFonts);
  }

  /** The family as it appears in the declaration: bare, or wrapped in double quotes. */
  function ParsedFamily(family: string): string
  {
    if KeepsBareFamily(family) then family else "\"" + family + "\""
  }

  /** A family is either kept as it is or wrapped in one pair of double quotes, never both. */
  lemma ParsedFamilyQuotes(family: string)
    ensures KeepsBareFamily(family) <==> ParsedFamily(family) == family
    ensures !KeepsBareFamily(family) ==> ParsedFamily(family) == "\"" + family + "\""
    ensures |ParsedFamily(family)| == |family| || |ParsedFamily(family)| == |family| + 2
  {
    if !KeepsBareFamily(family) {
      assert |ParsedFamily(family)| == |family| + 2;
    }
  }

  /** The optional font fields of a style object; a missing field takes the block's own value. */
  datatype FontFields = FontFields(
    fontFamily: Option<string>,
    fontStyle: Option<string>,
    fontWeight: Option<string>,
    fontSize: Option<real>)

  function GetOr<T>(o: Option<T>, default: T): T
  {
    match o
    case Some(v) => v
    case None => default
  }

  /** The font fields of a complete style. */
  function FieldsOf(s: Style): FontFields
  {
    FontFields(Some(s.fontFamily), Some(s.fontStyle), Some(s.fontWeight), Some(s.fontSize))
  }

  /** The size segment: the cache size when measuring, the style's size otherwise. */
  function SizeText(cfg: Config, f: FontFields, forMeasuring: bool): string
  {
    cfg.formatNumber(if forMeasuring then cfg.cacheFontSize else GetOr(f.fontSize, cfg.fontSize)) + "px"
  }

  /** The four parts of a declaration, in order, before they are joined. */
  function FontParts(cfg: Config, f: FontFields, forMeasuring: bool): seq<string>
  {
    [GetOr(f.fontStyle, cfg.fontStyle),
     GetOr(f.fontWeight, cfg.fontWeight),
     SizeText(cfg, f, forMeasuring),
     ParsedFamily(GetOr(f.fontFamily, cfg.fontFamily))]
  }

  /** `parts.join(' ')` */
  function JoinWithSpace(parts: seq<string>): string
  {
    if parts == [] then ""
    else if |parts| == 1 then parts[0]
    else JoinWithSpace(parts[..|parts| - 1]) + " " + parts[|parts| - 1]
  }

  /** _getFontDeclaration(fields, forMeasuring) */
  function FontDeclaration(cfg: Config, f: FontFields, forMeasuring: bool): (r: string)
  {
    JoinWithSpace(FontParts(cfg, f, forMeasuring))
  }

  /** The declaration is the four parts separated by single spaces. */
  lemma FontDeclarationLayout(cfg: Config, f: FontFields, forMeasuring: bool)
    ensures var p := FontParts(cfg, f, forMeasuring);
      FontDeclaration(cfg, f, forMeasuring) == p[0] + " " + p[1] + " " + p[2] + " " + p[3]
  {
    var p := FontParts(cfg, f, forMeasuring);
    assert p[..3][..2][..1] == [p[0]];
    assert p[..3][..2] == [p[0], p[1]];
    assert p[..3] == [p[0], p[1], p[2]];
    assert JoinWithSpace(p[..3][..2]) == p[0] + " " + p[1];
    assert JoinWithSpace(p[..3]) == p[0] + " " + p[1] + " " + p[2];
  }

  /** The declaration used to set the measuring context (_setTextStyles with forMeasuring). */
  function MeasureDecl(cfg: Config, s: Style): string
  {
    FontDeclaration(cfg, FieldsOf(s), true)
  }

  /** The declaration of a style at its own size (used to compare styles and to draw). */
  function Decl(cfg: Config, s: Style): string
  {
    FontDeclaration(cfg, FieldsOf(s), false)
  }

  /** The measuring declaration of a font signature. */
  function SigDecl(cfg: Config, sig: FontSig): string
  {
    FontDeclaration(cfg, FontFields(Some(sig.family), Some(sig.style), Some(sig.weight), None), true)
  }

  /**
   * When measuring, the requested size plays no part: every size of one
   * family/style/weight shares a declaration, and thus a cache table.
   */
  lemma MeasuringIgnoresSize(cfg: Config, f: FontFields, g: FontFields)
    requires f.fontFamily == g.fontFamily && f.fontStyle == g.fontStyle && f.fontWeight == g.fontWeight
    ensures FontDeclaration(cfg, f, true) == FontDeclaration(cfg, g, true)
  {
    assert FontParts(cfg, f, true) == FontParts(cfg, g, true);
  }

  /** The measuring declaration of a style is that of its signature. */
  lemma MeasureDeclIsSigDecl(cfg: Config, s: Style)
    ensures MeasureDecl(cfg, s) == SigDecl(cfg, SigOf(s))
  {
    MeasuringIgnoresSize(cfg, FieldsOf(s),
      FontFields(Some(s.fontFamily), Some(s.fontStyle), Some(s.fontWeight), None));
  }

  /** Fields that are missing take the block's own family, style, weight and size. */
  lemma MissingFieldsDefault(cfg: Config, forMeasuring: bool)
    ensures FontDeclaration(cfg, FontFields(None, None, None, None), forMeasuring)
         == FontDeclaration(cfg, FontFields(Some(cfg.fontFamily), Some(cfg.fontStyle),
                                            Some(cfg.fontWeight), Some(cfg.fontSize)), forMeasuring)
  {
    assert FontParts(cfg, FontFields(None, None, None, None), forMeasuring)
        == FontParts(cfg, FontFields(Some(cfg.fontFamily), Some(cfg.fontStyle),
                                     Some(cfg.fontWeight), Some(cfg.fontSize)), forMeasuring);
  }

  /** A generic keyword, in any letter case, is never quoted. */
  lemma GenericFamilyIsBare(family: string)
    requires ToLower(family) in GenericFonts
    ensures ParsedFamily(family) == family
  {
    KeepsBareFamilyIff(family);
  }

  /** A family without quotes, commas or a generic keyword is wrapped in double quotes. */
  lemma PlainFamilyIsQuoted(family: string)
    requires !('\'' in family || '"' in family || ',' in family)
    requires ToLower(family) !in GenericFonts
    ensures ParsedFamily(family) == "\"" + family + "\""
  {
    KeepsBareFamilyIff(family);
  }
}
