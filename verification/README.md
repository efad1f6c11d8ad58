# Vertical text layout

A model of `VerticalText`, the fabric.js `Text` subclass of the
nuxt-fabricjs-vertical-textbox component. The class lays text out in
vertical columns. Each text line becomes one column. Columns run from
right to left, and the graphemes of a line run from top to bottom.

The model covers the whole life of one text object:

- **Measuring.** `_measureChar` measures a character and its kerning couple
  through a per-font cache. `_getGraphemeBox` turns that into a grapheme
  box. `_measureLine` chains the boxes down a line and appends an
  end-of-line sentinel box. `measureVLine` and `getLineHeight` give the
  memoised vertical extent of a line.
- **Sizing the block.** `getWidthOfLine` gives the memoised column width
  (the largest font size times the line height and the size multiplier).
  `calcTextWidth` and `calcTextHeight` combine the lines. `initDimensions`
  sets the block's width and height, with the height fallback, and
  justifies when the alignment asks for it.
- **Justification.** `enlargeSpaces` spreads the free vertical space of a
  line evenly over its spaces and tabs. It widens each space and shifts
  every later box down.
- **Drawing.** `_renderTextCommon` places one column per line, right to
  left, starting at half the block width. `_renderChars` cuts a line into
  runs at style changes and at forced breaks. `_renderChar` draws a run:
  one fill command per character, stacked downwards, or one stroke command
  for the whole run.
- **Font declarations.** `_getFontDeclaration` builds the canvas font
  string, with its quoting rule for family names and the fixed cache size
  used when measuring.

Pure logic is written as functions, with lemmas about them. These live in
the modules `TextModel`, `FontDeclarations`, `GlyphMeasure`, `LineLayout`,
`Justification`, `RunRendering` and `RunSegmentation`. The object itself is
the class `VerticalTextLayout.VerticalText`. Its fields are the memo tables
`__charBounds`, `__lineHeights` and `__lineWidths`, plus `width`, `height`,
`cursorHeight`, `dirty` and the font cache. Its methods keep the source's
loops. Each method is proved against the functions above: what it stores
and returns is stated as a function of the inputs and the old state.

The canvas, the measuring context and fabric's style lookup are host
services. They are fields of type function in `TextModel.Config`:
- `measureText` is the measuring context's `measureText`, giving a width and a height (ascent plus descent);
- `completeStyle` is `getCompleteStyleDeclaration`;
- `rawDeltaY` is the `deltaY` of `_getStyleDeclaration`;
- `hasStyleChanged` is the imported helper of that name;
- `isEmptyStyles` and `isEndOfWrapping` are the inherited methods of those names;
- `isSpace` is the space-and-tab test;
- `formatNumber` is the number-to-text conversion of a template literal;
- `widthOfCharSpacing`, `fontSizeMult` and `cacheFontSize` are the values of `_getWidthOfCharSpacing()`, `_fontSizeMult` and `CACHE_FONT_SIZE`, and a character's font size is `getValueOfPropertyAt(line, char, 'fontSize')`.

Drawing produces a sequence of `Draw` commands (`fillText` or
`strokeText`, with the text, x, y and font) in the order the canvas would
receive them.

## Model

| member | source | states |
|---|---|---|
| VerticalTextLayout.VerticalText.constructor | VerticalTextBox/shapes/Text/VerticalText.ts:63-67 | The first layout runs before the `cursorHeight` initialiser: the height falls back past an unset cursor height to `MIN_TEXT_HEIGHT`. `cursorHeight` is 10 afterwards. Every line's width and height are memoised, and the stored boxes are the measured (and, under justify, justified) boxes. |
| VerticalTextLayout.VerticalText.InitDimensions | VerticalTextBox/shapes/Text/VerticalText.ts:87-104 | The width is the block text width. The height is the tallest line, else the cursor height, else the minimum height. Every line is memoised. The stored boxes are the measured boxes of each line, justified exactly when the alignment includes "justify". |
| VerticalTextLayout.VerticalText.ClearCache | VerticalTextBox/shapes/Text/VerticalText.ts:89 | All three memo tables are empty afterwards. |
| GlyphMeasure.MeasureCharResult | VerticalTextBox/shapes/Text/VerticalText.ts:210-282 | Width and height are the measured size of the single character scaled by fontSize / CACHE_FONT_SIZE. The kerned width is the couple width minus the previous width when the couple had to be measured, and equals the width otherwise. |
| GlyphMeasure.MeasureCharKeys | VerticalTextBox/shapes/Text/VerticalText.ts:233-275 | After a measurement, the table holds the character's own width. When the two styles share a declaration, it also holds the previous character and the couple. Otherwise only the character's own key is added. |
| GlyphMeasure.MeasureCharKeepsConsistency | VerticalTextBox/shapes/Text/VerticalText.ts:255-275 | Every value written to a table is the measured width of its key under that font, so a consistent table stays consistent. |
| GlyphMeasure.KerningFromMeasurements | VerticalTextBox/shapes/Text/VerticalText.ts:268-275 | With a consistent table, the kerned width of a fresh couple is (width("pc") - width("p")) scaled to the style's size. |
| GlyphMeasure.MeasureCharTwice | VerticalTextBox/shapes/Text/VerticalText.ts:233-275 | Measuring the same character twice leaves the table unchanged and gives the same width and height. On the second call the kerned width equals the plain width. The height is never cached, so :255-261 always re-measures the character and resets the kerned width, and a couple already in the table is not measured again (:268). |
| GlyphMeasure.TableOfConsistent | VerticalTextBox/shapes/Text/VerticalText.ts:216-220 | The table of a consistent cache, looked up by family, style and weight, is consistent for that signature. |
| GlyphMeasure.CacheUpdateConsistent | VerticalTextBox/shapes/Text/VerticalText.ts:216-220 | Replacing one signature's table by a consistent table keeps the whole cache consistent. |
| GlyphMeasure.GraphemeBox | VerticalTextBox/shapes/Text/VerticalText.ts:355-393 | Character spacing widens width and kerned width alike, so their difference is kept. Height and deltaY come from the measurement and the style. The first box sits at 0. A later box sits at the previous box's left plus its width plus the kerning delta. |
| VerticalTextLayout.VerticalText.MeasureChar | VerticalTextBox/shapes/Text/VerticalText.ts:210-282 | The result equals the pure measurement on the style's table. Only that one table of the cache is replaced. |
| VerticalTextLayout.VerticalText.GetGraphemeBox | VerticalTextBox/shapes/Text/VerticalText.ts:355-393 | The box is GraphemeBox of the measurement, chained to the stored box of the previous character. Only the style's table of the cache changes. |
| LineLayout.MeasurePrefixStep | VerticalTextBox/shapes/Text/VerticalText.ts:326-332 | Measuring one more grapheme keeps the earlier boxes. It adds the new box's height to the running height and chains the new box's left to the previous box. |
| LineLayout.MeasurePrefixHeight | VerticalTextBox/shapes/Text/VerticalText.ts:326-332 | The running height is the sum of the box heights. |
| LineLayout.MeasurePrefixRawHeight | VerticalTextBox/shapes/Text/VerticalText.ts:326-332 | The running height does not depend on the cache: it is the sum of the scaled measured heights. |
| LineLayout.MeasurePrefixChain | VerticalTextBox/shapes/Text/VerticalText.ts:386-391 | The measured boxes form a left chain starting at 0. |
| LineLayout.MeasurePrefixKeepsConsistency | VerticalTextBox/shapes/Text/VerticalText.ts:315-345 | Measuring a line keeps a consistent font cache consistent. |
| LineLayout.MeasureLine | VerticalTextBox/shapes/Text/VerticalText.ts:315-345 | A line of n graphemes gets n + 1 boxes. |
| LineLayout.MeasureLineShape | VerticalTextBox/shapes/Text/VerticalText.ts:315-345 | The n + 1 boxes chain from 0. The sentinel has width fontSize, kerned width 0, height 0 and deltaY 0, and sits after the last box (or at 0 for an empty line). The returned height is the sum of the real boxes' heights. |
| LineLayout.MeasureLines | VerticalTextBox/shapes/Text/VerticalText.ts:398-409 | Measuring the first n lines stores bounds for exactly those lines. |
| LineLayout.MeasureLinesShape | VerticalTextBox/shapes/Text/VerticalText.ts:398-409 | Every line measured in turn has the shape of MeasureLineShape. |
| LineLayout.MeasureLinesKeepsConsistency | VerticalTextBox/shapes/Text/VerticalText.ts:398-409 | Measuring lines in turn keeps the font cache consistent. |
| VerticalTextLayout.VerticalText.MeasureLine | VerticalTextBox/shapes/Text/VerticalText.ts:315-345 | Only this line's bounds and the cache change, to the pure measurement. The info is (fontSize, 0 spaces, raw height). |
| VerticalTextLayout.VerticalText.MeasureGraphemes | VerticalTextBox/shapes/Text/VerticalText.ts:326-332 | After the loop, the stored boxes, cache and height are those of measuring the whole line. |
| VerticalTextLayout.VerticalText.AppendGrapheme | VerticalTextBox/shapes/Text/VerticalText.ts:327-331 | One loop step extends the measured prefix by one grapheme. |
| LineLayout.VLineHeight | VerticalTextBox/shapes/Text/VerticalText.ts:297-306 | The line height is never negative. It is either 0 or the raw height minus the char-spacing height, and never below the latter. |
| VerticalTextLayout.VerticalText.MeasureVLine | VerticalTextBox/shapes/Text/VerticalText.ts:297-306 | The reported height is VLineHeight. The width is fontSize, with no spaces counted. |
| VerticalTextLayout.VerticalText.GetLineHeight | VerticalTextBox/shapes/Text/VerticalText.ts:685-694 | The result is VLineHeight and is memoised. A hit changes nothing else. A miss re-measures the line. |
| LineLayout.MaxFontSize | VerticalTextBox/shapes/Text/VerticalText.ts:151-164 | The running maximum of the characters' font sizes is an upper bound that some character attains. |
| VerticalTextLayout.VerticalText.GetWidthOfLine | VerticalTextBox/shapes/Text/VerticalText.ts:151-164 | The result is max font size × lineHeight × fontSizeMult. A non-zero memo is returned as it is. A zero or missing memo is recomputed and stored. No other entry changes. |
| LineLayout.TextWidthPrefixBeforeLast | VerticalTextBox/shapes/Text/VerticalText.ts:170-178 | Every line before the last adds exactly lineHeight to the width. |
| LineLayout.TextWidthClosedForm | VerticalTextBox/shapes/Text/VerticalText.ts:170-178 | The text width is (n - 1) × lineHeight + widthOfLine(last) / lineHeight. |
| VerticalTextLayout.VerticalText.CalcTextWidth | VerticalTextBox/shapes/Text/VerticalText.ts:170-178 | The loop returns the text width and memoises every line width. |
| LineLayout.MaxLineHeightIsMax | VerticalTextBox/shapes/Text/VerticalText.ts:398-409 | The running maximum is at least every line's height, equals some line's height, and is never negative. |
| VerticalTextLayout.VerticalText.CalcTextHeight | VerticalTextBox/shapes/Text/VerticalText.ts:398-409 | The loop returns the tallest line height and memoises every line. From empty memos, the stored boxes and cache are those of measuring the lines in order. |
| Justification.SpacesIn | VerticalTextBox/shapes/Text/VerticalText.ts:128 | A prefix never holds more spaces than characters. |
| Justification.ShiftCount | VerticalTextBox/shapes/Text/VerticalText.ts:130-142 | The shift before box j is the slack d times the number of spaces before j. |
| Justification.ScaleProduct | VerticalTextBox/shapes/Text/VerticalText.ts:138 | Adding d once per space gives d × (number of spaces). |
| Justification.JustifyPrefix | VerticalTextBox/shapes/Text/VerticalText.ts:130-142 | Justifying the first j boxes gives j boxes. |
| Justification.JustifyLine | VerticalTextBox/shapes/Text/VerticalText.ts:130-142 | Justifying keeps the number of boxes, sentinel included. |
| Justification.JustifyPrefixAt | VerticalTextBox/shapes/Text/VerticalText.ts:130-142 | Box i of a justified prefix is box i, justified with its own shift. |
| Justification.JustifyPrefixStep | VerticalTextBox/shapes/Text/VerticalText.ts:130-142 | One iteration of the inner loop replaces exactly box j. |
| Justification.JustifyLineBoxes | VerticalTextBox/shapes/Text/VerticalText.ts:130-142 | A space widens both widths by d. Every box, the sentinel too, moves down by d times the spaces before it. Height and deltaY are kept. |
| Justification.JustifyWidthPrefix | VerticalTextBox/shapes/Text/VerticalText.ts:130-142 | The first j widths grow in total by the shift accumulated before j. |
| Justification.JustifyAddsSlack | VerticalTextBox/shapes/Text/VerticalText.ts:130-142 | The widths of the line grow in total by d times the number of spaces. |
| Justification.JustifySlackTotal | VerticalTextBox/shapes/Text/VerticalText.ts:128-142 | With d = (target - extent) / spaces, the widths grow by exactly target - extent, and the sentinel moves down by spaces × d. |
| Justification.JustifyKeepsChain | VerticalTextBox/shapes/Text/VerticalText.ts:130-142 | Justification keeps the left chain of the real boxes. |
| Justification.JustifyKeepsEnds | VerticalTextBox/shapes/Text/VerticalText.ts:130-142 | The first box keeps its place. The gap before the sentinel is kept. The sentinel keeps its size. |
| Justification.JustifyKeepsShape | VerticalTextBox/shapes/Text/VerticalText.ts:130-142 | A justified line keeps the shape of a measured line, sentinel included. |
| Justification.JustifiedBounds | VerticalTextBox/shapes/Text/VerticalText.ts:115-142 | A line that is skipped, or not shorter than the block, or without spaces, is unchanged. Otherwise its widths grow in total by exactly block width minus line height. |
| VerticalTextLayout.VerticalText.EnlargeSpaces | VerticalTextBox/shapes/Text/VerticalText.ts:106-145 | With every line height memoised, the memo and the cache are unchanged. Every line's boxes become JustifiedBounds of its old boxes, and nothing else in the bounds changes. |
| VerticalTextLayout.VerticalText.EnlargeLine | VerticalTextBox/shapes/Text/VerticalText.ts:115-143 | A skipped line changes nothing. Otherwise the line height is memoised, and the line's boxes become JustifiedBounds of its stored boxes, or of freshly measured boxes when the height was not memoised. |
| VerticalTextLayout.VerticalText.JustifyBoxAt | VerticalTextBox/shapes/Text/VerticalText.ts:131-141 | One inner iteration moves the justified prefix and the accumulated space on by one box. |
| VerticalTextLayout.VerticalText.JustifyLineBounds | VerticalTextBox/shapes/Text/VerticalText.ts:130-142 | The line's stored boxes become JustifyLine of the old ones. No other line changes. |
| VerticalTextLayout.StoredAfterMeasuring | VerticalTextBox/shapes/Text/VerticalText.ts:87-104 | Without justify, the stored boxes after sizing are the measured boxes. |
| VerticalTextLayout.StoredAfterJustifying | VerticalTextBox/shapes/Text/VerticalText.ts:98-103 | With justify, the stored boxes after sizing are the justified measured boxes. |
| VerticalTextLayout.MemoAfterHeight | VerticalTextBox/shapes/Text/VerticalText.ts:692 | Storing VLineHeight for a measured line keeps the height memo faithful. |
| VerticalTextLayout.MemoAfterBounds | VerticalTextBox/shapes/Text/VerticalText.ts:325 | Re-measuring a line keeps the height memo faithful. |
| VerticalTextLayout.MemoAfterWidth | VerticalTextBox/shapes/Text/VerticalText.ts:162 | Storing widthOfLine keeps the width memo faithful. |
| VerticalTextLayout.MeasuredUpToStep | VerticalTextBox/shapes/Text/VerticalText.ts:400-408 | Measuring the next line extends the measured prefix of the block by one line. |
| RunRendering.FillCommands | VerticalTextBox/shapes/Text/VerticalText.ts:654-666 | One fill command is issued per character. |
| RunRendering.FillCommandsAt | VerticalTextBox/shapes/Text/VerticalText.ts:658-665 | Character i is drawn at x = left minus the width of bounds[i], and y = top plus the heights of bounds[0..i]. The boxes are indexed from the start of the line. |
| RunRendering.CharCommands | VerticalTextBox/shapes/Text/VerticalText.ts:630-679 | Without fill and without a stroke with stroke width, nothing is drawn. A fill draws one command per character. A stroke draws one command for the whole run, at the run's top shifted by deltaY, in the run's font. |
| RunRendering.CharCommandsUniform | VerticalTextBox/shapes/Text/VerticalText.ts:642 | Every command of a run uses the requested method and the run's own font declaration. |
| RunRendering.FillCommandAt | VerticalTextBox/shapes/Text/VerticalText.ts:658-665 | The fill commands go down the column: each one is a box height below the previous one. |
| VerticalTextLayout.VerticalText.RenderChar | VerticalTextBox/shapes/Text/VerticalText.ts:630-679 | The commands issued are CharCommands. |
| RunRendering.SignTimes | VerticalTextBox/shapes/Text/VerticalText.ts:491 | Moving by sign × d is moving toward the text direction by d. |
| RunSegmentation.ScanStep | VerticalTextBox/shapes/Text/VerticalText.ts:523-566 | One iteration either extends the pending run by the grapheme or flushes. A forced break (last grapheme, char spacing, a space under justify) always flushes. |
| RunSegmentation.ScanStepCases | VerticalTextBox/shapes/Text/VerticalText.ts:523-566 | A flush appends the run (start, text, end index, left), clears the pending text, carries the next style forward, and moves left by the run width. Otherwise only the pending text and the widths move on. |
| RunSegmentation.ScanPrefix | VerticalTextBox/shapes/Text/VerticalText.ts:523-566 | After n graphemes, no run and no pending text is longer than n. |
| RunSegmentation.ScanPrefixScanned | VerticalTextBox/shapes/Text/VerticalText.ts:523-566 | The loop invariant: the runs tile the prefix in order, runs end only where a flush may happen, and every run sits at its computed left. |
| RunSegmentation.ScanSegments | VerticalTextBox/shapes/Text/VerticalText.ts:523-566 | At the end of the loop nothing is pending and the runs are well segmented. With positive boxes, each run's left is the start left moved by the kerned widths of the earlier graphemes. |
| RunSegmentation.LineRuns | VerticalTextBox/shapes/Text/VerticalText.ts:475-568 | No run is longer than the line's boxes. |
| RunSegmentation.LineRunsSegmented | VerticalTextBox/shapes/Text/VerticalText.ts:475-568 | The runs partition the line in order, every run's text is the line slice it covers, forced breaks always end a run, and on the loop path each run sits at its computed left. |
| RunSegmentation.LineRunsStyleGrouped | VerticalTextBox/shapes/Text/VerticalText.ts:541-547 | Without justify and char spacing, and with styles: inside a run no grapheme's style differs from the run's first style, and a run that is not last ends exactly where the next grapheme's style differs. |
| RunSegmentation.ScanPrefixGrouped | VerticalTextBox/shapes/Text/VerticalText.ts:541-547 | The style-grouping invariant holds after every prefix of the loop. |
| RunSegmentation.ScanStepGrouped | VerticalTextBox/shapes/Text/VerticalText.ts:541-547 | One iteration keeps the style-grouping invariant. |
| RunRendering.PerCharacterRuns | VerticalTextBox/shapes/Text/VerticalText.ts:524 | With char spacing, every grapheme is its own run. |
| RunRendering.TilesPartitioned | VerticalTextBox/shapes/Text/VerticalText.ts:523-566 | Runs produced in order partition the line. |
| RunRendering.TilesTexts | VerticalTextBox/shapes/Text/VerticalText.ts:525 | The run texts concatenate to the line. |
| RunRendering.NoEarlyFlushAtEnds | VerticalTextBox/shapes/Text/VerticalText.ts:524-540 | Every forced break ends a run. |
| RunRendering.AtRunLeftsEach | VerticalTextBox/shapes/Text/VerticalText.ts:529-564 | Each run is drawn at its computed left. |
| RunRendering.RunsAppend | VerticalTextBox/shapes/Text/VerticalText.ts:548-565 | Drawing one more run appends its commands. |
| VerticalTextLayout.VerticalText.TakeGrapheme | VerticalTextBox/shapes/Text/VerticalText.ts:524-547 | The first half of an iteration computes exactly ScanStep's new pending text, widths and styles, and the flush decision. |
| VerticalTextLayout.VerticalText.FlushRun | VerticalTextBox/shapes/Text/VerticalText.ts:548-565 | A flush appends the run and its commands, and moves left by the run width. |
| VerticalTextLayout.VerticalText.RenderGrapheme | VerticalTextBox/shapes/Text/VerticalText.ts:523-566 | One iteration moves the loop state from ScanPrefix(i) to ScanPrefix(i + 1), and the commands are those of the runs so far. |
| VerticalTextLayout.VerticalText.RenderRuns | VerticalTextBox/shapes/Text/VerticalText.ts:523-566 | The loop's runs are ScanPrefix of the whole line, and its commands are theirs. |
| VerticalTextLayout.VerticalText.RenderChars | VerticalTextBox/shapes/Text/VerticalText.ts:475-568 | The commands are those of LineRuns: one run for the whole line on the shortcut path, the segmented runs otherwise. |
| VerticalTextLayout.VerticalText.RenderVTextLine | VerticalTextBox/shapes/Text/VerticalText.ts:189-198 | A line is drawn as its runs' commands. |
| VerticalTextLayout.ColumnsRightToLeft | VerticalTextBox/shapes/Text/VerticalText.ts:452-461 | With positive widths, a later line's column starts further left than an earlier one's. |
| VerticalTextLayout.ColumnsExtend | VerticalTextBox/shapes/Text/VerticalText.ts:445-462 | Drawing line i at left minus the widths before it extends the drawn columns, and its commands follow the earlier ones. |
| VerticalTextLayout.ColumnsDrawnPrefix | VerticalTextBox/shapes/Text/VerticalText.ts:445-462 | The first k drawn columns are the drawing of the first k lines. |
| VerticalTextLayout.VerticalText.RenderTextCommon | VerticalTextBox/shapes/Text/VerticalText.ts:416-464 | Column k is line k drawn at width/2 minus the widths of the lines before it, with top at -height/2. The commands are the columns in line order. Every line width is memoised, and the object stays valid. |
| FontDeclarations.KeepsBareFamilyIff | VerticalTextBox/shapes/Text/VerticalText.ts:733-743 | A family is kept bare exactly when it holds a single quote, a double quote or a comma, or its lower-case form is a generic keyword. |
| FontDeclarations.HasQuoteOrCommaIff | VerticalTextBox/shapes/Text/VerticalText.ts:735-739 | The quote-or-comma scan agrees with membership of those three characters. |
| FontDeclarations.InNamesIff | VerticalTextBox/shapes/Text/VerticalText.ts:741 | The name scan agrees with membership of the list. |
| FontDeclarations.ToLowerPointwise | VerticalTextBox/shapes/Text/VerticalText.ts:741 | Lower-casing keeps the length and maps each character on its own. |
| FontDeclarations.ParsedFamilyQuotes | VerticalTextBox/shapes/Text/VerticalText.ts:733-743 | A family is either kept exactly or wrapped in one pair of double quotes. |
| FontDeclarations.FontDeclarationLayout | VerticalTextBox/shapes/Text/VerticalText.ts:744-749 | The declaration is style, weight, size and family joined by single spaces. |
| FontDeclarations.MeasuringIgnoresSize | VerticalTextBox/shapes/Text/VerticalText.ts:747 | When measuring, the font size plays no part in the declaration. |
| FontDeclarations.MeasureDeclIsSigDecl | VerticalTextBox/shapes/Text/VerticalText.ts:216-221 | A style's measuring declaration depends only on its family, style and weight, which also key its cache table. |
| FontDeclarations.MissingFieldsDefault | VerticalTextBox/shapes/Text/VerticalText.ts:720-725 | Missing fields take the object's own family, style, weight and size. |
| FontDeclarations.GenericFamilyIsBare | VerticalTextBox/shapes/Text/VerticalText.ts:741 | A generic keyword, in any letter case, is never quoted. |
| FontDeclarations.PlainFamilyIsQuoted | VerticalTextBox/shapes/Text/VerticalText.ts:733-743 | Any other family is wrapped in double quotes. |

## Left out

- Numbers are JavaScript doubles in the source and `real` in the model. Rounding is not modelled, and neither are NaN and Infinity.
- `TextModel.WellFormed` requires at least one line, `lineHeight != 0` and `CACHE_FONT_SIZE != 0`. The source divides by `lineHeight` (:175) and by `CACHE_FONT_SIZE` (:227). With either one 0 it gets NaN or Infinity, and doubles are not modelled.
- Strings are `seq<char>`, and one grapheme is one `char`. `_splitText` (:88) is inherited from fabric and is not part of this model. The lines arrive already split, as `Config.lines`. The model does not capture grapheme clusters or UTF-16 units.
- `FontDeclarations.ToLower` lowers the ASCII letters only, where `toLowerCase` (:741) lowers all of Unicode. For the generic-family test this is exact. The generic keywords are ASCII lower case. Outside ASCII, the only characters that `toLowerCase` maps into ASCII letters are U+0130 (İ, to "i" plus a combining dot, so the result is not ASCII) and U+212A (the Kelvin sign, to "k"). No generic keyword holds a "k", so no family leaves the generic list because of the restriction.
- Canvas state is not modelled: `ctx.save()` and `ctx.restore()`, the direction and `textAlign` change at :506-510, `_setTextStyles`, `_setFillStyles` and `_setStrokeStyles` (:585-617), `handleFiller` (:570-576) and `_removeShadow` for a text background (:646-648). Drawing yields only the `fillText` and `strokeText` commands with their text, position and font.
- `_render` (:288-295) and the inherited `_renderText` that calls `_renderTextCommon` are not part of this model.
- The `console.log` calls (:97, :400, :406, :644, :691) are left out. They write to the host console only.
- Fill and stroke colours are strings, and "" stands for an unset, falsy value. `strokeWidth` is a real, and 0 is falsy.
- `getMeasuringContext` and its module-level context are replaced by the `measureText` host function.
- TextModel.SigOf: the cache module behind `cache.getFontCache` (:216-220) is not part of this model, so how it keys its tables is not known here. The model keys each table by the exact (fontFamily, fontStyle, fontWeight) triple, with no normalisation. A cache that normalises the key, for example by lower-casing the family, would share one table between "Arial" and "ARIAL". A couple measured under one would then count as cached under the other, and by :241-257 the kerned width would equal the plain width there. The model instead measures the couple afresh.
- The font cache is process-wide in the source: every text object reads and writes the same tables. In the model it is a field of one object, so writes made by other objects between this object's calls are not seen. The model's consistency invariant (every stored width is the width measured under that table's font) is what any such write would also keep. But which keys are already present, and so whether a couple counts as cached, can differ.
- `_measureChar` never has a cached height (:227-232 declare it unset, and nothing reads one). So the model always re-measures the character, as the source does.
- `_reSpacesAndTabs` (:126) and `_reSpaceAndTab` (:133, :537) are inherited regular expressions and are not part of this model. Both are modelled by one per-character test, `isSpace`. The number of spaces of a line is the number of its characters that pass it. This assumes that `_reSpacesAndTabs` is the global form of the one-character class of `_reSpaceAndTab`, as in fabric.
- `boxHeight` (:501, :535) is computed but never read. `maxHeight`, `leftOffset` and `_getLineLeftOffset` in `_renderTextCommon` (:447-449, :681-683) are unused, so they are left out.
- `_char.split('')` in `_renderChar` (:659) splits into UTF-16 units. The model splits a run into its `char`s.
- VerticalTextLayout.VerticalText.RenderChars: the inherited `getHeightOfLine(lineIndex)` call at :483 is not modelled. Its result is unused. But fabric's `getHeightOfLine` may write `__lineHeights[lineIndex]` when that entry is falsy (0), and fabric's code is not part of this model. After painting a line whose memoised height is 0, the source's memo can differ from the model's, which keeps VLineHeight.
- VerticalTextLayout.VerticalText.EnlargeSpaces: the precise contract (bounds become JustifiedBounds, memo and cache unchanged) is stated only when every line height is already memoised. That holds at its only call site, `initDimensions`, after `calcTextHeight`. Otherwise the method is proved only to keep the object valid.
- RunSegmentation.LineRunsSegmented: the closed form of each run's left is stated only on the loop path and when every box has positive width and kerned width. Without these, the loop's `boxWidth === 0` test (:529) can fire in the middle of a run.
- RunSegmentation.LineRunsStyleGrouped: stated only without justify and with zero char spacing. Under justify, a space forces a flush before the style check at :541-546 runs. The flush at :562 then sets the current style to a `nextStyle` computed at an earlier grapheme: the style at the index after the last grapheme whose style was checked. The next run is compared against that stale style. Take the line "a bc" with 'b' bold and 'a', ' ' and 'c' regular. The space flushes "a " and leaves the current style at index 1 (the space). At 'b', index 1 is compared with index 3, no change is seen, and "bc" is drawn as one run in the style of index 3. With char spacing every grapheme is its own run (RunRendering.PerCharacterRuns).
- VerticalTextLayout.ColumnsDrawn is recursive on the list of columns. A direct per-column statement ("column k is LineCommands of line k at left minus the widths before k") is not given as a separate lemma. ColumnsDrawnPrefix and the recursion give it one line at a time.
- `textAlign.includes("justify")` is modelled as substring containment (`TextModel.Includes`). `textAlign !== "justify"` at :116 is an exact comparison.
- `formatNumber` stands for JavaScript's number-to-string conversion in the template literal at :747. The measuring size text is `formatNumber(CACHE_FONT_SIZE)` followed by "px".
