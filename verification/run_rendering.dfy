/**
 * Painting one line as draw commands: the run segmentation of _renderChars
 * and the commands _renderChar emits for one run. A fill pass draws each
 * character of a run on its own, one box height lower than the previous one;
 * a stroke pass draws the run's text in one call.
 */
module RunRendering {
  import opened TextModel
  import opened FontDeclarations

  datatype DrawMethod = FillText | StrokeText

  /** One canvas call: fillText/strokeText of `text` at (x, y) with the context font `font`. */
  datatype Draw = Draw(pass: DrawMethod, text: string, x: real, y: real, font: string)

  /**
   * One flushed run: its text starts at grapheme `start`, was handed to
   * _renderChar with `charIndex`, and drawn from `left`.
   */
  datatype Run = Run(start: int, text: string, charIndex: int, left: real)

  predicate ShouldFill(cfg: Config, pass: DrawMethod, li: int, ci: int)
  {
    pass == FillText && cfg.completeStyle(li, ci).fill != ""
  }

  predicate ShouldStroke(cfg: Config, pass: DrawMethod, li: int, ci: int)
  {
    pass == StrokeText && cfg.completeStyle(li, ci).stroke != "" && cfg.completeStyle(li, ci).strokeWidth != 0.0
  }

  /** The y at which a run is drawn: top moved by the character's own deltaY override. */
  function RunTop(cfg: Config, li: int, ci: int, top: real): real
  {
    top + cfg.rawDeltaY(li, ci)
  }

  /**
   * The fill commands of the first n characters of `text`: character i at
   * x = left - width of box i and y = y0 plus the heights of boxes 0..i
   * (boxes are indexed from the start of the line, not of the run).
   */
  function FillCommands(boxes: seq<GraphemeBBox>, text: string, left: real, y0: real, font: string, n: nat)
    : (cmds: seq<Draw>)
    requires n <= |text| <= |boxes|
    ensures |cmds| == n
  {
    if n == 0 then []
    else
      FillCommands(boxes, text, left, y0, font, n - 1)
        + [Draw(FillText, [text[n - 1]], left - boxes[n - 1].width, y0 + SumHeights(boxes[..n]), font)]
  }

  /**
   * The commands of _renderChar for run text `text` with style index `ci`:
   * nothing when the pass has nothing to paint, one fill command per
   * character, or one stroke command with the whole text at (left, top).
   * The run's top moves by the character's own deltaY override.
   */
  function CharCommands(cfg: Config, boxes: seq<GraphemeBBox>, pass: DrawMethod, li: int, ci: int,
                        text: string, left: real, top: real): (cmds: seq<Draw>)
    requires |text| <= |boxes|
    ensures !ShouldFill(cfg, pass, li, ci) && !ShouldStroke(cfg, pass, li, ci) ==> cmds == []
    ensures ShouldFill(cfg, pass, li, ci) ==> |cmds| == |text|
    ensures ShouldStroke(cfg, pass, li, ci) ==> cmds == [Draw(StrokeText, text, left, RunTop(cfg, li, ci, top), Decl(cfg, cfg.completeStyle(li, ci)))]
  {
    var font := Decl(cfg, cfg.completeStyle(li, ci));
    var y := RunTop(cfg, li, ci, top);
    if ShouldFill(cfg, pass, li, ci) then FillCommands(boxes, text, left, y, font, |text|)
    else if ShouldStroke(cfg, pass, li, ci) then [Draw(StrokeText, text, left, y, font)]
    else []
  }

  /** Command i of any fill prefix that reaches past it. */
  lemma {:induction false} FillCommandsAt(boxes: seq<GraphemeBBox>, text: string, left: real, y0: real, font: string,
                                          n: nat, i: nat)
    requires n <= |text| <= |boxes| && i < n
    ensures FillCommands(boxes, text, left, y0, font, n)[i]
         == Draw(FillText, [text[i]], left - boxes[i].width, y0 + SumHeights(boxes[..i + 1]), font)
  {
    if i < n - 1 {
      FillCommandsAt(boxes, text, left, y0, font, n - 1, i);
    }
  }

  /** Every command of a run is drawn by the pass and in the font of the run's style. */
  lemma CharCommandsUniform(cfg: Config, boxes: seq<GraphemeBBox>, pass: DrawMethod, li: int, ci: int,
                            text: string, left: real, top: real)
    requires |text| <= |boxes|
    ensures var cmds := CharCommands(cfg, boxes, pass, li, ci, text, left, top);
      forall k :: 0 <= k < |cmds| ==> cmds[k].pass == pass && cmds[k].font == Decl(cfg, cfg.completeStyle(li, ci))
  {
    if ShouldFill(cfg, pass, li, ci) {
      var font := Decl(cfg, cfg.completeStyle(li, ci));
      var y := RunTop(cfg, li, ci, top);
      forall k | 0 <= k < |text|
        ensures FillCommands(boxes, text, left, y, font, |text|)[k].pass == FillText
        ensures FillCommands(boxes, text, left, y, font, |text|)[k].font == font
      {
        FillCommandsAt(boxes, text, left, y, font, |text|, k);
      }
    }
  }

  /**
   * The fill command of character i of a run: the character alone, left of
   * the run by the width of box i, and one box height below the previous one.
   */
  lemma FillCommandAt(cfg: Config, boxes: seq<GraphemeBBox>, pass: DrawMethod, li: int, ci: int,
                      text: string, left: real, top: real, i: int)
    requires |text| <= |boxes| && 0 <= i < |text|
    requires ShouldFill(cfg, pass, li, ci)
    ensures var cmds := CharCommands(cfg, boxes, pass, li, ci, text, left, top);
      && cmds[i].text == [text[i]]
      && cmds[i].x == left - boxes[i].width
      && cmds[i].y == RunTop(cfg, li, ci, top) + SumHeights(boxes[..i + 1])
      && (i > 0 ==> cmds[i].y == cmds[i - 1].y + boxes[i].height)
  {
    var font := Decl(cfg, cfg.completeStyle(li, ci));
    var y := RunTop(cfg, li, ci, top);
    FillCommandsAt(boxes, text, left, y, font, |text|, i);
    if i > 0 {
      FillCommandsAt(boxes, text, left, y, font, |text|, i - 1);
      assert boxes[..i + 1][..i] == boxes[..i];
    }
  }

  /** `textAlign.includes("justify")` */
  predicate IsJustify(cfg: Config)
  {
    Includes(cfg.textAlign, Justify)
  }

  /** The single-call path: not justified, no character spacing, no per-character styles. */
  predicate Shortcut(cfg: Config, li: int)
  {
    !IsJustify(cfg) && cfg.charSpacing == 0.0 && cfg.isEmptyStyles(li)
  }

  /** A run must end at grapheme i: the last one, any with character spacing, a space when justified. */
  predicate MustFlush(cfg: Config, line: string, i: int)
  {
    i == |line| - 1 || cfg.charSpacing != 0.0 || (IsJustify(cfg) && 0 <= i < |line| && cfg.isSpace(line[i]))
  }

  /** A distance d along the line in the drawing direction: d left to right, -d otherwise. */
  function Toward(cfg: Config, d: real): real
  {
    if cfg.direction == "ltr" then d else -d
  }

  /** Multiplying by _renderChars' `sign`, +1 left to right and -1 otherwise, moves in the drawing direction. */
  lemma SignTimes(cfg: Config, sign: real, d: real)
    requires sign == if cfg.direction == "ltr" then 1.0 else -1.0
    ensures sign * d == Toward(cfg, d)
  {
  }

  /** The concatenated texts of a list of runs. */
  function Texts(runs: seq<Run>): string
  {
    if runs == [] then [] else Texts(runs[..|runs| - 1]) + runs[|runs| - 1].text
  }

  /** Run k starts where run k - 1 ends. */
  predicate Follows(runs: seq<Run>, k: int)
    requires 0 < k < |runs|
  {
    runs[k].start == runs[k - 1].start + |runs[k - 1].text|
  }

  /** The runs cut the first `upto` graphemes of the line into consecutive nonempty pieces. */
  ghost predicate Partitioned(line: string, runs: seq<Run>, upto: int)
  {
    && (forall k :: 0 <= k < |runs| ==>
          && 0 <= runs[k].start
          && |runs[k].text| >= 1
          && runs[k].start + |runs[k].text| <= |line|
          && runs[k].text == line[runs[k].start..runs[k].start + |runs[k].text|]
          && runs[k].charIndex == runs[k].start + |runs[k].text| - 1)
    && (forall k {:trigger Follows(runs, k)} :: 0 < k < |runs| ==> Follows(runs, k))
    && (|runs| == 0 ==> upto == 0)
    && (|runs| > 0 ==> runs[0].start == 0 && runs[|runs| - 1].start + |runs[|runs| - 1].text| == upto)
  }

  /** No run goes past a grapheme at which a run must end. */
  ghost predicate FlushesAtEnds(cfg: Config, line: string, runs: seq<Run>)
  {
    forall k, j :: 0 <= k < |runs| && runs[k].start <= j < runs[k].charIndex ==> !MustFlush(cfg, line, j)
  }

  /**
   * What _renderChars promises of its runs: on the shortcut path, one run
   * with the whole line; otherwise consecutive runs whose texts concatenate to
   * the line and which end at every grapheme where a run must end.
   */
  ghost predicate WellSegmented(cfg: Config, line: string, li: int, left0: real, runs: seq<Run>)
  {
    if Shortcut(cfg, li) then runs == [Run(0, line, 0, left0)]
    else Texts(runs) == line && Partitioned(line, runs, |line|) && FlushesAtEnds(cfg, line, runs)
  }

  /** With character spacing set, every run is a single grapheme: k-th run, k-th grapheme. */
  lemma PerCharacterRuns(cfg: Config, line: string, li: int, left0: real, runs: seq<Run>)
    requires cfg.charSpacing != 0.0
    requires WellSegmented(cfg, line, li, left0, runs)
    ensures |runs| == |line|
    ensures forall k :: 0 <= k < |runs| ==> runs[k].start == k && runs[k].text == [line[k]] && runs[k].charIndex == k
  {
    forall k | 0 <= k < |runs| ensures |runs[k].text| == 1 {
      assert MustFlush(cfg, line, runs[k].start);
    }
    PerCharacterStarts(line, runs, |runs|);
    if |runs| > 0 {
      assert runs[|runs| - 1].start == |runs| - 1;
    }
  }

  /** With single-grapheme runs, run k starts at grapheme k. */
  lemma {:induction false} PerCharacterStarts(line: string, runs: seq<Run>, m: int)
    requires 0 <= m <= |runs|
    requires Partitioned(line, runs, |line|)
    requires forall k :: 0 <= k < |runs| ==> |runs[k].text| == 1
    ensures forall k :: 0 <= k < m ==> runs[k].start == k && runs[k].text == [line[k]] && runs[k].charIndex == k
  {
    if m > 0 {
      PerCharacterStarts(line, runs, m - 1);
      if m > 1 {
        assert Follows(runs, m - 1);
      }
      assert runs[m - 1].start == m - 1;
      assert runs[m - 1].text == line[m - 1..m];
    }
  }

  /** The commands of a list of runs, in order. */
  function RunsCommands(cfg: Config, boxes: seq<GraphemeBBox>, pass: DrawMethod, li: int,
                        runs: seq<Run>, top: real): seq<Draw>
    requires forall k :: 0 <= k < |runs| ==> |runs[k].text| <= |boxes|
  {
    if runs == [] then []
    else
      var last := runs[|runs| - 1];
      RunsCommands(cfg, boxes, pass, li, runs[..|runs| - 1], top)
        + CharCommands(cfg, boxes, pass, li, last.charIndex, last.text, last.left, top)
  }

  /** Appending a run appends its commands. */
  lemma RunsAppend(cfg: Config, boxes: seq<GraphemeBBox>, pass: DrawMethod, li: int,
                   runs: seq<Run>, r: Run, top: real)
    requires forall k :: 0 <= k < |runs| ==> |runs[k].text| <= |boxes|
    requires |r.text| <= |boxes|
    ensures RunsCommands(cfg, boxes, pass, li, runs + [r], top)
         == RunsCommands(cfg, boxes, pass, li, runs, top) + CharCommands(cfg, boxes, pass, li, r.charIndex, r.text, r.left, top)
  {
    assert (runs + [r])[..|runs|] == runs;
  }

  /** The sum of the kerned widths of the first n boxes. */
  function KernedSum(boxes: seq<GraphemeBBox>, n: int): real
    requires 0 <= n <= |boxes|
  {
    if n == 0 then 0.0 else KernedSum(boxes, n - 1) + boxes[n - 1].kernedWidth
  }

  /** The first n boxes all have positive width and kerned width. */
  ghost predicate PositiveBoxes(boxes: seq<GraphemeBBox>, n: int)
  {
    forall k :: 0 <= k < n && k < |boxes| ==> boxes[k].width > 0.0 && boxes[k].kernedWidth > 0.0
  }

  /**
   * Where _renderChars draws a run that starts at grapheme s: the line's left
   * moved by the kerned widths of the graphemes before s and by the kerning
   * delta of grapheme s itself.
   */
  function RunLeft(cfg: Config, boxes: seq<GraphemeBBox>, left0: real, s: int): real
    requires 0 <= s < |boxes|
  {
    left0 + Toward(cfg, KernedSum(boxes, s + 1) - boxes[s].width)
  }

  /**
   * The runs, last to first, tile the first `upto` graphemes of the line:
   * the last run ends at upto, holds the graphemes before it and was handed
   * to _renderChar with its last grapheme's index, and the others tile the
   * graphemes before it.
   */
  ghost predicate Tiles(line: string, runs: seq<Run>, upto: int)
    decreases |runs|
  {
    if runs == [] then upto == 0
    else
      var r := runs[|runs| - 1];
      && 0 <= r.start < upto <= |line|
      && r.start + |r.text| == upto
      && r.text == line[r.start..upto]
      && r.charIndex == upto - 1
      && Tiles(line, runs[..|runs| - 1], r.start)
  }

  /** The runs, last to first, hold no grapheme where a run must end, except their last. */
  ghost predicate NoEarlyFlush(cfg: Config, line: string, runs: seq<Run>)
    decreases |runs|
  {
    runs != [] ==>
      var r := runs[|runs| - 1];
      && (forall j :: r.start <= j < r.charIndex ==> !MustFlush(cfg, line, j))
      && NoEarlyFlush(cfg, line, runs[..|runs| - 1])
  }

  /** The runs, last to first, are drawn at their RunLeft. */
  ghost predicate AtRunLefts(cfg: Config, boxes: seq<GraphemeBBox>, left0: real, runs: seq<Run>)
    decreases |runs|
  {
    runs != [] ==>
      var r := runs[|runs| - 1];
      && 0 <= r.start < |boxes|
      && r.left == RunLeft(cfg, boxes, left0, r.start)
      && AtRunLefts(cfg, boxes, left0, runs[..|runs| - 1])
  }

  /** Tiling is the partition. */
  lemma {:induction false} TilesPartitioned(line: string, runs: seq<Run>, upto: int)
    requires Tiles(line, runs, upto)
    ensures Partitioned(line, runs, upto)
  {
    if runs != [] {
      var front, r := runs[..|runs| - 1], runs[|runs| - 1];
      TilesPartitioned(line, front, r.start);
      assert forall k :: 0 <= k < |front| ==> runs[k] == front[k];
      forall k | 0 < k < |runs| ensures Follows(runs, k) {
        if k < |front| {
          assert Follows(front, k);
        }
      }
    }
  }

  /** The texts of a tiling concatenate to the graphemes it covers. */
  lemma {:induction false} TilesTexts(line: string, runs: seq<Run>, upto: int)
    requires Tiles(line, runs, upto)
    ensures Texts(runs) == line[..upto]
  {
    if runs != [] {
      var front, r := runs[..|runs| - 1], runs[|runs| - 1];
      TilesTexts(line, front, r.start);
      assert line[..upto] == line[..r.start] + line[r.start..upto];
    }
  }

  /** NoEarlyFlush is FlushesAtEnds. */
  lemma {:induction false} NoEarlyFlushAtEnds(cfg: Config, line: string, runs: seq<Run>)
    requires NoEarlyFlush(cfg, line, runs)
    ensures FlushesAtEnds(cfg, line, runs)
  {
    if runs != [] {
      var front := runs[..|runs| - 1];
      NoEarlyFlushAtEnds(cfg, line, front);
      assert forall k :: 0 <= k < |front| ==> runs[k] == front[k];
    }
  }

  /** AtRunLefts puts every run at its RunLeft. */
  lemma {:induction false} AtRunLeftsEach(cfg: Config, boxes: seq<GraphemeBBox>, left0: real, runs: seq<Run>)
    requires AtRunLefts(cfg, boxes, left0, runs)
    ensures forall k :: 0 <= k < |runs| ==>
      0 <= runs[k].start < |boxes| && runs[k].left == RunLeft(cfg, boxes, left0, runs[k].start)
  {
    if runs != [] {
      var front := runs[..|runs| - 1];
      AtRunLeftsEach(cfg, boxes, left0, front);
      assert forall k :: 0 <= k < |front| ==> runs[k] == front[k];
    }
  }

  /**
   * The pending run of _renderChars before grapheme i holds the last n
   * graphemes: with none pending, boxWidth is 0; with positive boxes, `left`
   * is past the kerned widths of the graphemes flushed so far, or at the
   * pending run's RunLeft with boxWidth its extent so far.
   */
  ghost predicate PendingRun(cfg: Config, boxes: seq<GraphemeBBox>, left0: real, pos: bool,
                             i: int, n: int, left: real, boxWidth: real)
  {
    && 0 <= n <= i <= |boxes|
    && (n == 0 ==> boxWidth == 0.0)
    && (pos && n == 0 ==> left == left0 + Toward(cfg, KernedSum(boxes, i)))
    && (pos && n != 0 ==>
          && left == RunLeft(cfg, boxes, left0, i - n)
          && boxWidth == boxes[i - n].width + (KernedSum(boxes, i) - KernedSum(boxes, i - n + 1))
          && boxWidth > 0.0)
  }

  /**
   * The loop's variables before grapheme i: the runs tile the line up to the
   * pending graphemes, end at every grapheme where a run must end and, with
   * positive boxes, are drawn at their RunLeft; none of the pending
   * graphemes had to end a run, and PendingRun tracks `left` and boxWidth.
   */
  ghost predicate Scanned(cfg: Config, li: int, boxes: seq<GraphemeBBox>, left0: real, i: int,
                          pending: string, runs: seq<Run>, left: real, boxWidth: real)
  {
    && 0 <= li < |cfg.lines| && |cfg.lines[li]| <= |boxes|
    && 0 <= |pending| <= i <= |cfg.lines[li]|
    && pending == cfg.lines[li][i - |pending|..i]
    && Tiles(cfg.lines[li], runs, i - |pending|)
    && NoEarlyFlush(cfg, cfg.lines[li], runs)
    && (forall j :: i - |pending| <= j < i ==> !MustFlush(cfg, cfg.lines[li], j))
    && PendingRun(cfg, boxes, left0, PositiveBoxes(boxes, |cfg.lines[li]|), i, |pending|, left, boxWidth)
    && (PositiveBoxes(boxes, |cfg.lines[li]|) ==> AtRunLefts(cfg, boxes, left0, runs))
  }

  /** The same, once grapheme i has joined the pending graphemes `pending`, before the loop decides to flush. */
  ghost predicate Gathered(cfg: Config, li: int, boxes: seq<GraphemeBBox>, left0: real, i: int,
                           pending: string, runs: seq<Run>, left: real, boxWidth: real)
  {
    && 0 <= li < |cfg.lines| && |cfg.lines[li]| <= |boxes|
    && 0 < |pending| <= i + 1 <= |cfg.lines[li]|
    && pending == cfg.lines[li][i + 1 - |pending|..i + 1]
    && Tiles(cfg.lines[li], runs, i + 1 - |pending|)
    && NoEarlyFlush(cfg, cfg.lines[li], runs)
    && (forall j :: i + 1 - |pending| <= j < i ==> !MustFlush(cfg, cfg.lines[li], j))
    && PendingRun(cfg, boxes, left0, PositiveBoxes(boxes, |cfg.lines[li]|), i + 1, |pending|, left, boxWidth)
    && (PositiveBoxes(boxes, |cfg.lines[li]|) ==> AtRunLefts(cfg, boxes, left0, runs))
  }
}
