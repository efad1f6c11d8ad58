/**
 * The run segmentation of _renderChars, as a function of the line: the loop's
 * variables after each grapheme (ScanPrefix), and what they guarantee at every
 * step (Scanned) and at the end of the line (ScanSegments).
 */
module RunSegmentation {
  import opened TextModel
  import opened RunRendering

  /**
   * The variables of _renderChars' loop: the runs flushed so far, the pending
   * graphemes (charsToRender), the two style slots, `left` and boxWidth.
   */
  datatype Scan = Scan(runs: seq<Run>, pending: string, actualStyle: Option<Style>, nextStyle: Option<Style>,
                       left: real, boxWidth: real)

  /**
   * One pass of the loop on grapheme i of line li. The grapheme joins the
   * pending run: a run that starts here moves left by its kerning delta and
   * counts its width, a run that goes on counts the kerned width. Where a run
   * need not end, the run's style is looked up once and the next grapheme's
   * style every time, and the run ends when the two differ. A flush draws the
   * pending run at `left`, moves past its extent and carries the next style
   * slot over into the run's style slot, whichever grapheme last filled it.
   */
  function ScanStep(cfg: Config, li: int, boxes: seq<GraphemeBBox>, s: Scan, i: int): (t: Scan)
    requires 0 <= li < |cfg.lines| && 0 <= i < |cfg.lines[li]| && i < |boxes|
    ensures t.pending == [] || t.pending == s.pending + [cfg.lines[li][i]]
    ensures MustFlush(cfg, cfg.lines[li], i) ==> t.pending == []
  {
    var pending := s.pending + [cfg.lines[li][i]];
    var left := StepLeft(cfg, boxes, s, i);
    var boxWidth := StepWidth(boxes, s, i);
    if StepFlushes(cfg, li, s, i) then
      var next := StepNext(cfg, li, s, i);
      Scan(s.runs + [Run(i + 1 - |pending|, pending, i, left)], [], next, next, left + Toward(cfg, boxWidth), 0.0)
    else
      Scan(s.runs, pending, StepActual(cfg, li, s, i), StepNext(cfg, li, s, i), left, boxWidth)
  }

  /** Where the pending run is drawn once grapheme i joins it: a run's first box moves by its kerning delta. */
  function StepLeft(cfg: Config, boxes: seq<GraphemeBBox>, s: Scan, i: int): real
    requires 0 <= i < |boxes|
  {
    if s.boxWidth == 0.0 then s.left + Toward(cfg, boxes[i].kernedWidth - boxes[i].width) else s.left
  }

  /** The pending run's extent once grapheme i joins it: the first box counts its width, later ones their kerned width. */
  function StepWidth(boxes: seq<GraphemeBBox>, s: Scan, i: int): real
    requires 0 <= i < |boxes|
  {
    if s.boxWidth == 0.0 then s.boxWidth + boxes[i].width else s.boxWidth + boxes[i].kernedWidth
  }

  /** The run's style slot after grapheme i: filled once, where the run need not end. */
  function StepActual(cfg: Config, li: int, s: Scan, i: int): (r: Option<Style>)
    requires 0 <= li < |cfg.lines|
    ensures !MustFlush(cfg, cfg.lines[li], i) ==> r.Some?
  {
    if MustFlush(cfg, cfg.lines[li], i) || s.actualStyle.Some? then s.actualStyle else Some(cfg.completeStyle(li, i))
  }

  /** The next grapheme's style slot after grapheme i: refreshed wherever the run need not end. */
  function StepNext(cfg: Config, li: int, s: Scan, i: int): (r: Option<Style>)
    requires 0 <= li < |cfg.lines|
    ensures !MustFlush(cfg, cfg.lines[li], i) ==> r == Some(cfg.completeStyle(li, i + 1))
  {
    if MustFlush(cfg, cfg.lines[li], i) then s.nextStyle else Some(cfg.completeStyle(li, i + 1))
  }

  /** The pending run ends at grapheme i: at a forced flush point, or where the next style differs from the run's. */
  predicate StepFlushes(cfg: Config, li: int, s: Scan, i: int)
    requires 0 <= li < |cfg.lines|
  {
    MustFlush(cfg, cfg.lines[li], i) || cfg.hasStyleChanged(StepActual(cfg, li, s, i).value, StepNext(cfg, li, s, i).value)
  }

  /**
   * One step of the scan, read off from the values a loop computes in turn:
   * the moved left and box width, the styles after the decision, and whether
   * the pending run is flushed.
   */
  lemma ScanStepCases(cfg: Config, li: int, boxes: seq<GraphemeBBox>, s: Scan, i: int,
                      left: real, boxWidth: real, actual: Option<Style>, next: Option<Style>, flush: bool)
    requires 0 <= li < |cfg.lines| && 0 <= i < |cfg.lines[li]| && i < |boxes|
    requires left == StepLeft(cfg, boxes, s, i) && boxWidth == StepWidth(boxes, s, i)
    requires actual == StepActual(cfg, li, s, i) && next == StepNext(cfg, li, s, i)
    requires flush == StepFlushes(cfg, li, s, i)
    ensures flush ==>
      ScanStep(cfg, li, boxes, s, i)
        == Scan(s.runs + [Run(i - |s.pending|, s.pending + [cfg.lines[li][i]], i, left)], [], next, next,
                left + Toward(cfg, boxWidth), 0.0)
    ensures !flush ==>
      ScanStep(cfg, li, boxes, s, i) == Scan(s.runs, s.pending + [cfg.lines[li][i]], actual, next, left, boxWidth)
  {
  }

  /** The loop's variables after the first n graphemes of line li, starting from the line's left. */
  function ScanPrefix(cfg: Config, li: int, boxes: seq<GraphemeBBox>, left0: real, n: int): (s: Scan)
    requires 0 <= li < |cfg.lines| && 0 <= n <= |cfg.lines[li]| <= |boxes|
    ensures |s.pending| <= n
    ensures forall k :: 0 <= k < |s.runs| ==> |s.runs[k].text| <= n
  {
    if n == 0 then Scan([], [], None, None, left0, 0.0)
    else ScanStep(cfg, li, boxes, ScanPrefix(cfg, li, boxes, left0, n - 1), n - 1)
  }

  /**
   * Taking grapheme i into the pending run: a run that starts here moves left
   * by its kerning delta and counts its width, a run that goes on counts the
   * kerned width.
   */
  lemma PendingAppend(cfg: Config, boxes: seq<GraphemeBBox>, left0: real, pos: bool,
                      i: int, n: int, left: real, boxWidth: real)
    requires PendingRun(cfg, boxes, left0, pos, i, n, left, boxWidth) && i < |boxes|
    requires pos ==> boxes[i].width > 0.0 && boxes[i].kernedWidth > 0.0
    ensures var b := boxes[i];
      var left' := if boxWidth == 0.0 then left + Toward(cfg, b.kernedWidth - b.width) else left;
      var boxWidth' := if boxWidth == 0.0 then boxWidth + b.width else boxWidth + b.kernedWidth;
      PendingRun(cfg, boxes, left0, pos, i + 1, n + 1, left', boxWidth')
  {
  }

  /** Flushing the pending run moves left past its extent and empties it. */
  lemma PendingFlush(cfg: Config, boxes: seq<GraphemeBBox>, left0: real, pos: bool,
                     i: int, n: int, left: real, boxWidth: real)
    requires PendingRun(cfg, boxes, left0, pos, i, n, left, boxWidth) && n > 0
    ensures PendingRun(cfg, boxes, left0, pos, i, 0, left + Toward(cfg, boxWidth), 0.0)
    ensures pos ==> left == RunLeft(cfg, boxes, left0, i - n)
  {
  }

  /** Grapheme i joins the pending run, moving `left` and growing boxWidth as the loop does. */
  lemma ScanGather(cfg: Config, li: int, boxes: seq<GraphemeBBox>, left0: real, i: int, s: Scan)
    requires Scanned(cfg, li, boxes, left0, i, s.pending, s.runs, s.left, s.boxWidth) && i < |cfg.lines[li]|
    ensures Gathered(cfg, li, boxes, left0, i, s.pending + [cfg.lines[li][i]], s.runs,
                     StepLeft(cfg, boxes, s, i), StepWidth(boxes, s, i))
  {
    var line := cfg.lines[li];
    assert s.pending + [line[i]] == line[i - |s.pending|..i + 1];
    PendingAppend(cfg, boxes, left0, PositiveBoxes(boxes, |line|), i, |s.pending|, s.left, s.boxWidth);
  }

  /** A pending run that need not end at grapheme i stays pending past it. */
  lemma ScanContinue(cfg: Config, li: int, boxes: seq<GraphemeBBox>, left0: real, i: int,
                     pending: string, runs: seq<Run>, left: real, boxWidth: real)
    requires Gathered(cfg, li, boxes, left0, i, pending, runs, left, boxWidth)
    requires !MustFlush(cfg, cfg.lines[li], i)
    ensures Scanned(cfg, li, boxes, left0, i + 1, pending, runs, left, boxWidth)
  {
  }

  /** Flushing the pending run at `left` extends the runs and starts an empty run past its extent. */
  lemma ScanFlush(cfg: Config, li: int, boxes: seq<GraphemeBBox>, left0: real, i: int,
                  pending: string, runs: seq<Run>, left: real, boxWidth: real)
    requires Gathered(cfg, li, boxes, left0, i, pending, runs, left, boxWidth)
    ensures Scanned(cfg, li, boxes, left0, i + 1, [], runs + [Run(i + 1 - |pending|, pending, i, left)],
                    left + Toward(cfg, boxWidth), 0.0)
  {
    var line := cfg.lines[li];
    var start := i + 1 - |pending|;
    var r := Run(start, pending, i, left);
    var pos := PositiveBoxes(boxes, |line|);
    PendingFlush(cfg, boxes, left0, pos, i + 1, |pending|, left, boxWidth);
    assert (runs + [r])[..|runs|] == runs;
  }

  /** A pass that flushes draws the pending graphemes and grapheme i as one run and empties the pending run. */
  lemma ScanFlushes(cfg: Config, li: int, boxes: seq<GraphemeBBox>, left0: real, i: int, s: Scan)
    requires Scanned(cfg, li, boxes, left0, i, s.pending, s.runs, s.left, s.boxWidth) && i < |cfg.lines[li]|
    requires StepFlushes(cfg, li, s, i)
    ensures var t := ScanStep(cfg, li, boxes, s, i);
      Scanned(cfg, li, boxes, left0, i + 1, t.pending, t.runs, t.left, t.boxWidth) == true
  {
    var pending := s.pending + [cfg.lines[li][i]];
    var left := StepLeft(cfg, boxes, s, i);
    var boxWidth := StepWidth(boxes, s, i);
    ScanGather(cfg, li, boxes, left0, i, s);
    ScanFlush(cfg, li, boxes, left0, i, pending, s.runs, left, boxWidth);
  }

  /** A pass that does not flush keeps grapheme i pending. */
  lemma ScanContinues(cfg: Config, li: int, boxes: seq<GraphemeBBox>, left0: real, i: int, s: Scan)
    requires Scanned(cfg, li, boxes, left0, i, s.pending, s.runs, s.left, s.boxWidth) && i < |cfg.lines[li]|
    requires !StepFlushes(cfg, li, s, i)
    ensures var t := ScanStep(cfg, li, boxes, s, i);
      Scanned(cfg, li, boxes, left0, i + 1, t.pending, t.runs, t.left, t.boxWidth) == true
  {
    ScanGather(cfg, li, boxes, left0, i, s);
    ScanContinue(cfg, li, boxes, left0, i, s.pending + [cfg.lines[li][i]], s.runs,
                 StepLeft(cfg, boxes, s, i), StepWidth(boxes, s, i));
  }

  /** One pass of the loop keeps Scanned. */
  lemma ScanStepScanned(cfg: Config, li: int, boxes: seq<GraphemeBBox>, left0: real, i: int, s: Scan)
    requires Scanned(cfg, li, boxes, left0, i, s.pending, s.runs, s.left, s.boxWidth) == true && i < |cfg.lines[li]|
    ensures var t := ScanStep(cfg, li, boxes, s, i);
      Scanned(cfg, li, boxes, left0, i + 1, t.pending, t.runs, t.left, t.boxWidth) == true
  {
    if StepFlushes(cfg, li, s, i) {
      ScanFlushes(cfg, li, boxes, left0, i, s);
    } else {
      ScanContinues(cfg, li, boxes, left0, i, s);
    }
  }

  /** The scan before the first grapheme satisfies Scanned. */
  lemma ScanStartScanned(cfg: Config, li: int, boxes: seq<GraphemeBBox>, left0: real)
    requires 0 <= li < |cfg.lines| && |cfg.lines[li]| <= |boxes|
    ensures var s := ScanPrefix(cfg, li, boxes, left0, 0);
      Scanned(cfg, li, boxes, left0, 0, s.pending, s.runs, s.left, s.boxWidth) == true
  {
    assert cfg.lines[li][..0] == [];
  }

  /** Scanning one more grapheme keeps Scanned. */
  lemma ScanPrefixNext(cfg: Config, li: int, boxes: seq<GraphemeBBox>, left0: real, n: int)
    requires 0 <= li < |cfg.lines| && 0 < n <= |cfg.lines[li]| <= |boxes|
    requires var s := ScanPrefix(cfg, li, boxes, left0, n - 1);
      Scanned(cfg, li, boxes, left0, n - 1, s.pending, s.runs, s.left, s.boxWidth) == true
    ensures var s := ScanPrefix(cfg, li, boxes, left0, n);
      Scanned(cfg, li, boxes, left0, n, s.pending, s.runs, s.left, s.boxWidth) == true
  {
    ScanStepScanned(cfg, li, boxes, left0, n - 1, ScanPrefix(cfg, li, boxes, left0, n - 1));
  }

  /** Every prefix of the scan satisfies Scanned. */
  lemma {:induction false} ScanPrefixScanned(cfg: Config, li: int, boxes: seq<GraphemeBBox>, left0: real, n: int)
    requires 0 <= li < |cfg.lines| && 0 <= n <= |cfg.lines[li]| <= |boxes|
    ensures var s := ScanPrefix(cfg, li, boxes, left0, n);
      Scanned(cfg, li, boxes, left0, n, s.pending, s.runs, s.left, s.boxWidth) == true
  {
    if n == 0 {
      ScanStartScanned(cfg, li, boxes, left0);
    } else {
      ScanPrefixScanned(cfg, li, boxes, left0, n - 1);
      ScanPrefixNext(cfg, li, boxes, left0, n);
    }
  }

  /**
   * At the end of a line nothing is pending: the runs concatenate to the
   * line, end at every grapheme where a run must end and, with positive
   * boxes, each is drawn at its RunLeft.
   */
  lemma ScanSegments(cfg: Config, li: int, boxes: seq<GraphemeBBox>, left0: real)
    requires 0 <= li < |cfg.lines| && |cfg.lines[li]| <= |boxes| && !Shortcut(cfg, li)
    ensures var s := ScanPrefix(cfg, li, boxes, left0, |cfg.lines[li]|);
      && s.pending == []
      && WellSegmented(cfg, cfg.lines[li], li, left0, s.runs)
      && (PositiveBoxes(boxes, |cfg.lines[li]|) ==>
            forall k :: 0 <= k < |s.runs| ==> s.runs[k].left == RunLeft(cfg, boxes, left0, s.runs[k].start))
  {
    var line := cfg.lines[li];
    var s := ScanPrefix(cfg, li, boxes, left0, |line|);
    ScanPrefixScanned(cfg, li, boxes, left0, |line|);
    if s.pending != [] {
      assert MustFlush(cfg, line, |line| - 1);
      assert false;
    }
    TilesPartitioned(line, s.runs, |line|);
    TilesTexts(line, s.runs, |line|);
    NoEarlyFlushAtEnds(cfg, line, s.runs);
    if PositiveBoxes(boxes, |line|) {
      AtRunLeftsEach(cfg, boxes, left0, s.runs);
    }
    assert line[..|line|] == line;
  }

  /**
   * The runs _renderChars draws for line li: the whole line at once on the
   * shortcut path, otherwise the runs the scan closes over the line.
   */
  function LineRuns(cfg: Config, li: int, boxes: seq<GraphemeBBox>, left0: real): (runs: seq<Run>)
    requires 0 <= li < |cfg.lines| && |cfg.lines[li]| <= |boxes|
    ensures forall k :: 0 <= k < |runs| ==> |runs[k].text| <= |boxes|
  {
    if Shortcut(cfg, li) then [Run(0, cfg.lines[li], 0, left0)]
    else ScanPrefix(cfg, li, boxes, left0, |cfg.lines[li]|).runs
  }

  /**
   * The runs of a line are well segmented and, off the shortcut path with
   * positive boxes, each is drawn at its RunLeft.
   */
  lemma LineRunsSegmented(cfg: Config, li: int, boxes: seq<GraphemeBBox>, left0: real)
    requires 0 <= li < |cfg.lines| && |cfg.lines[li]| <= |boxes|
    ensures WellSegmented(cfg, cfg.lines[li], li, left0, LineRuns(cfg, li, boxes, left0))
    ensures var runs := LineRuns(cfg, li, boxes, left0);
      !Shortcut(cfg, li) && PositiveBoxes(boxes, |cfg.lines[li]|) ==>
        forall k :: 0 <= k < |runs| ==> runs[k].left == RunLeft(cfg, boxes, left0, runs[k].start)
  {
    if !Shortcut(cfg, li) {
      ScanSegments(cfg, li, boxes, left0);
    }
  }

  /**
   * Run r is one style: every grapheme after its first keeps the style of
   * the first (as hasStyleChanged judges it), and it ends at the line's last
   * grapheme or where the next grapheme's style differs from its first.
   */
  ghost predicate StyleGrouped(cfg: Config, li: int, r: Run)
    requires 0 <= li < |cfg.lines|
  {
    && (forall j :: r.start < j <= r.charIndex ==>
          !cfg.hasStyleChanged(cfg.completeStyle(li, r.start), cfg.completeStyle(li, j)))
    && (r.charIndex == |cfg.lines[li]| - 1 ||
        cfg.hasStyleChanged(cfg.completeStyle(li, r.start), cfg.completeStyle(li, r.charIndex + 1)))
  }

  /**
   * The style slots after n graphemes when only the last grapheme forces a
   * flush: the runs flushed so far are StyleGrouped, and the run slot holds
   * the style of the pending run's first grapheme (nothing before the first
   * grapheme), against which every pending grapheme's successor matched.
   */
  ghost predicate ScanGrouped(cfg: Config, li: int, n: int, s: Scan)
  {
    && 0 <= li < |cfg.lines| && |s.pending| <= n <= |cfg.lines[li]|
    && (forall k :: 0 <= k < |s.runs| ==> StyleGrouped(cfg, li, s.runs[k]))
    && (n == 0 ==> s.actualStyle == None)
    && (0 < n < |cfg.lines[li]| && s.pending == [] ==> s.actualStyle == Some(cfg.completeStyle(li, n)))
    && (s.pending != [] ==>
          var start := n - |s.pending|;
          && s.actualStyle == Some(cfg.completeStyle(li, start))
          && forall j :: start < j <= n ==>
               !cfg.hasStyleChanged(cfg.completeStyle(li, start), cfg.completeStyle(li, j)))
  }

  /** Without justification and character spacing, one pass of the loop keeps ScanGrouped. */
  lemma ScanStepGrouped(cfg: Config, li: int, boxes: seq<GraphemeBBox>, s: Scan, i: int)
    requires !IsJustify(cfg) && cfg.charSpacing == 0.0
    requires ScanGrouped(cfg, li, i, s) && i < |cfg.lines[li]| && i < |boxes|
    ensures ScanGrouped(cfg, li, i + 1, ScanStep(cfg, li, boxes, s, i))
  {
    var line := cfg.lines[li];
    var start := i - |s.pending|;
    var t := ScanStep(cfg, li, boxes, s, i);
    if !MustFlush(cfg, line, i) {
      assert StepActual(cfg, li, s, i) == Some(cfg.completeStyle(li, start));
      if StepFlushes(cfg, li, s, i) {
        assert t.runs == s.runs + [Run(start, s.pending + [line[i]], i, StepLeft(cfg, boxes, s, i))];
        assert StyleGrouped(cfg, li, t.runs[|s.runs|]);
      }
    } else {
      assert i == |line| - 1;
      assert t.runs == s.runs + [Run(start, s.pending + [line[i]], i, StepLeft(cfg, boxes, s, i))];
      assert StyleGrouped(cfg, li, t.runs[|s.runs|]);
    }
  }

  /** Without justification and character spacing, every prefix of the scan satisfies ScanGrouped. */
  lemma {:induction false} ScanPrefixGrouped(cfg: Config, li: int, boxes: seq<GraphemeBBox>, left0: real, n: int)
    requires !IsJustify(cfg) && cfg.charSpacing == 0.0
    requires 0 <= li < |cfg.lines| && 0 <= n <= |cfg.lines[li]| <= |boxes|
    ensures ScanGrouped(cfg, li, n, ScanPrefix(cfg, li, boxes, left0, n))
  {
    if n > 0 {
      ScanPrefixGrouped(cfg, li, boxes, left0, n - 1);
      ScanStepGrouped(cfg, li, boxes, ScanPrefix(cfg, li, boxes, left0, n - 1), n - 1);
    }
  }

  /**
   * Without justification and character spacing, off the shortcut path, a
   * line's runs are cut exactly at style changes: each run keeps its first
   * grapheme's style throughout and ends at the line's end or at a change.
   */
  lemma LineRunsStyleGrouped(cfg: Config, li: int, boxes: seq<GraphemeBBox>, left0: real)
    requires !IsJustify(cfg) && cfg.charSpacing == 0.0
    requires 0 <= li < |cfg.lines| && |cfg.lines[li]| <= |boxes| && !cfg.isEmptyStyles(li)
    ensures var runs := LineRuns(cfg, li, boxes, left0);
      forall k :: 0 <= k < |runs| ==> StyleGrouped(cfg, li, runs[k])
  {
    ScanPrefixGrouped(cfg, li, boxes, left0, |cfg.lines[li]|);
  }
}
