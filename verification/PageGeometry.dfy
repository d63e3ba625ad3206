/** Heights and distances on the pages of the escrow certificate: how far each block moves the cursor, when
    it starts a new page, and that no text is printed over another. */
module PageGeometry {
  import opened LineWrap
  import opened PageLayout

  // -------------------------------------------------------------- height

  /** How much of the page a block of `n` lines uses. */
  function Height(block: Block, n: nat): real {
    match block
    case Spacer(height) => height
    case Rule(before, after, thickness) => before + thickness + after
    case Heading(_, _, before, after, _) => before + Stack(Step(block), n) + after
    case Paragraph(_, _, _, before, after, _, _) => before + Stack(Step(block), n) + after
    case KeyValue(_, _, _, _, after, _) => Stack(Step(block), if n == 0 then 1 else n) + after
  }

  /** From one line of a block to the next. */
  function Step(block: Block): real
    requires !block.Rule? && !block.Spacer?
  {
    match block
    case Heading(_, size, _, _, _) => size + HeadingGap(size)
    case Paragraph(_, size, _, _, _, leading, _) => size + Gap(size, leading)
    case KeyValue(_, _, size, _, _, _) => size
  }

  /** The distances a block asks for are not negative; leading leaves a gap of nothing or more. */
  predicate Proper(block: Block) {
    match block
    case Spacer(height) => height >= 0.0
    case Rule(before, after, thickness) => before >= 0.0 && after >= 0.0 && thickness >= 0.0
    case Heading(_, size, before, after, _) => size > 0.0 && before >= 0.0 && after >= 0.0
    case Paragraph(_, size, _, before, after, leading, _) =>
      size > 0.0 && before >= 0.0 && after >= 0.0 && leading >= 1.0
    case KeyValue(_, _, size, _, after, _) => size > 0.0 && after >= 0.0
  }

  /** A rule asks for one point more than it uses. */
  function Room(block: Block): real {
    if block.Rule? then 1.0 else 0.0
  }

  /** `d` is `s` further down the same page, by `amount`. */
  predicate Moves(s: Sheet, d: Sheet, amount: real) {
    |d.pages| == |s.pages| && d.y == s.y - amount
  }

  lemma {:induction false} LinesMove(s: Sheet, lines: seq<string>, size: real, gap: real, bold: bool, centered: bool,
                                     fonts: Fonts)
    requires s.pages != [] && size > 0.0 && gap >= 0.0
    requires s.y - Stack(size + gap, |lines|) >= MARGIN_BOTTOM
    ensures Moves(s, LinesDrawn(s, lines, size, gap, bold, centered, fonts), Stack(size + gap, |lines|))
  {
    if lines != [] {
      var n := |lines| - 1;
      LinesMove(s, lines[..n], size, gap, bold, centered, fonts);
      var before := LinesDrawn(s, lines[..n], size, gap, bold, centered, fonts);
      LineMoves(before, lines[n], size, gap, bold, centered, fonts);
    }
  }

  lemma LineMoves(s: Sheet, text: string, size: real, gap: real, bold: bool, centered: bool, fonts: Fonts)
    requires s.pages != [] && size > 0.0 && gap >= 0.0 && s.y - (size + gap) >= MARGIN_BOTTOM
    ensures Moves(s, Advanced(LineDrawn(s, text, size, bold, centered, fonts), gap), size + gap)
  {
  }

  lemma {:induction false} StackSign(step: real, n: nat)
    requires step >= 0.0
    ensures Stack(step, n) >= 0.0
  {
    if n > 0 {
      StackSign(step, n - 1);
    }
  }

  lemma TextMoves(s: Sheet, lines: seq<string>, before: real, size: real, gap: real, after: real, bold: bool,
                  centered: bool, fonts: Fonts)
    requires s.pages != [] && size > 0.0 && gap >= 0.0 && before >= 0.0 && after >= 0.0
    requires s.y - (before + Stack(size + gap, |lines|) + after) >= MARGIN_BOTTOM
    ensures Moves(s, TextDrawn(s, lines, before, size, gap, after, bold, centered, fonts),
                  before + Stack(size + gap, |lines|) + after)
  {
    StackSign(size + gap, |lines|);
    LinesMove(Advanced(s, before), lines, size, gap, bold, centered, fonts);
  }

  lemma {:induction false} ValuesMove(s: Sheet, x: real, lines: seq<string>, k: nat, size: real, bold: bool)
    requires s.pages != [] && k <= |lines|
    ensures Moves(s, ValuesDrawn(s, x, lines, k, size, bold),
                  if k == 0 then 0.0 else Stack(size, if k < |lines| then k else k - 1))
  {
    if k > 0 {
      ValuesMove(s, x, lines, k - 1, size, bold);
    }
  }

  lemma AdvanceMoves(s: Sheet, amount: real)
    requires s.y - amount >= MARGIN_BOTTOM
    ensures Moves(s, Advanced(s, amount), amount) && (s.pages != [] ==> Advanced(s, amount).pages != [])
  {
  }

  lemma KeyedStays(s: Sheet, block: Block, n: nat)
    requires s.pages != [] && block.KeyValue? && s.y - Stack(block.size, n) >= MARGIN_BOTTOM
    ensures Moves(s, Keyed(s, block, n), 0.0) && Keyed(s, block, n).pages != []
  {
  }

  lemma ValuesPutMoves(s: Sheet, block: Block, lines: seq<string>)
    requires s.pages != [] && block.KeyValue?
    ensures Moves(s, ValuesPut(s, block, lines), Stack(block.size, if lines == [] then 1 else |lines|))
  {
    ValuesMove(s, MARGIN_X + block.keyWidth, lines, |lines|, block.size, block.boldValue);
    assert Stack(block.size, 1) == Stack(block.size, 0) + block.size;
  }

  lemma KeyValueMoves(s: Sheet, block: Block, lines: seq<string>)
    requires s.pages != [] && block.KeyValue? && block.size > 0.0 && block.after >= 0.0
    requires s.y - Height(block, |lines|) >= MARGIN_BOTTOM
    ensures Moves(s, KeyValueDrawn(s, block, lines), Height(block, |lines|))
  {
    StackSign(block.size, |lines|);
    KeyedStays(s, block, |lines|);
    ValuesPutMoves(Keyed(s, block, |lines|), block, lines);
    AdvanceMoves(ValuesPut(Keyed(s, block, |lines|), block, lines), block.after);
  }

  lemma HeadingMoves(s: Sheet, block: Block, lines: seq<string>, fonts: Fonts)
    requires s.pages != [] && Proper(block) && block.Heading?
    requires s.y - Height(block, |lines|) >= MARGIN_BOTTOM
    ensures Moves(s, TextDrawn(s, lines, block.before, block.size, HeadingGap(block.size), block.after, true,
                               block.centered, fonts), Height(block, |lines|))
  {
    TextMoves(s, lines, block.before, block.size, HeadingGap(block.size), block.after, true, block.centered, fonts);
  }

  lemma ParagraphMoves(s: Sheet, block: Block, lines: seq<string>, fonts: Fonts)
    requires s.pages != [] && Proper(block) && block.Paragraph?
    requires s.y - Height(block, |lines|) >= MARGIN_BOTTOM
    ensures Moves(s, TextDrawn(s, lines, block.before, block.size, Gap(block.size, block.leading), block.after,
                               block.bold, block.centered, fonts), Height(block, |lines|))
  {
    GapFits(block.size, block.leading);
    TextMoves(s, lines, block.before, block.size, Gap(block.size, block.leading), block.after, block.bold,
              block.centered, fonts);
  }

  /** A block for which there is room stays on its page and moves the cursor down by exactly its height. */
  lemma BlockMoves(s: Sheet, block: Block, fonts: Fonts)
    requires s.pages != [] && Wraps(block) && Proper(block)
    requires s.y - Height(block, |LinesOf(block, fonts)|) - Room(block) >= MARGIN_BOTTOM
    ensures Moves(s, BlockDrawn(s, block, fonts), Height(block, |LinesOf(block, fonts)|))
  {
    match block
    case Spacer(_) =>
    case Rule(_, _, _) =>
    case Heading(_, _, _, _, _) => HeadingMoves(s, block, LinesOf(block, fonts), fonts);
    case Paragraph(_, _, _, _, _, _, _) => ParagraphMoves(s, block, LinesOf(block, fonts), fonts);
    case KeyValue(_, _, _, _, _, _) => KeyValueMoves(s, block, LinesOf(block, fonts));
  }

  /** Lines are 1.35 times the size apart in a heading, and `leading` times in a paragraph. */
  lemma StepIsFactor(block: Block)
    ensures block.Heading? ==> Step(block) == 1.35 * block.size
    ensures block.Paragraph? ==> Step(block) == block.leading * block.size
  {
    if block.Paragraph? {
      assert block.size * (block.leading - 1.0) == block.leading * block.size - block.size;
    }
  }

  /** With the space around them they make up the height of the block. */
  lemma HeightIsProduct(block: Block, n: nat)
    requires n > 0
    ensures block.Heading? || block.Paragraph? ==>
      Height(block, n) == block.before + Step(block) * n as real + block.after
    ensures block.KeyValue? ==> Height(block, n) == Step(block) * n as real + block.after
  {
    if !block.Rule? && !block.Spacer? {
      StackIsProduct(Step(block), n);
    }
  }

  lemma GapFits(size: real, leading: real)
    requires size > 0.0 && leading >= 1.0
    ensures Gap(size, leading) >= 0.0 && size + Gap(size, leading) == leading * size
  {
    assert size * (leading - 1.0) == leading * size - size;
    assert leading * size >= size;
  }

  // ------------------------------------------------------------- overlap

  /** The later text is below the earlier one, or on its very baseline. */
  predicate Apart(earlier: Op, later: Op) {
    earlier.ShowText? && later.ShowText? ==> later.y + later.size <= earlier.y || later.y == earlier.y
  }

  /** No text of the page is printed over another: each is below the ones before it, or shares a baseline. */
  predicate NoOverlap(page: seq<Op>) {
    forall i, j :: 0 <= i < j < |page| ==> Apart(page[i], page[j])
  }

  predicate AllApart(pages: seq<seq<Op>>) {
    forall p :: 0 <= p < |pages| ==> NoOverlap(pages[p])
  }

  function LastPage(s: Sheet): seq<Op>
    requires s.pages != []
  {
    s.pages[|s.pages| - 1]
  }

  predicate AllAbove(page: seq<Op>, y: real) {
    forall i :: 0 <= i < |page| ==> page[i].ShowText? ==> page[i].y >= y
  }

  /** Everything on the last page is above `y`. */
  predicate Above(s: Sheet, y: real) {
    s.pages != [] && AllAbove(LastPage(s), y)
  }

  predicate ApartFrom(page: seq<Op>, op: Op) {
    forall i :: 0 <= i < |page| ==> Apart(page[i], op)
  }

  predicate Clear(s: Sheet) {
    AllApart(s.pages) && Above(s, s.y)
  }

  lemma EnsuredClear(s: Sheet, needed: real)
    requires Clear(s)
    ensures Clear(Ensured(s, needed))
  {
  }

  lemma LoweredClear(s: Sheet, amount: real)
    requires Clear(s) && amount >= 0.0
    ensures Clear(Lowered(s, amount))
  {
  }

  lemma AdvancedClear(s: Sheet, amount: real)
    requires Clear(s) && amount >= 0.0
    ensures Clear(Advanced(s, amount))
  {
    EnsuredClear(s, amount);
    LoweredClear(Ensured(s, amount), amount);
  }

  lemma PutApart(s: Sheet, op: Op)
    requires AllApart(s.pages) && s.pages != []
    requires ApartFrom(LastPage(s), op)
    ensures AllApart(Put(s, op).pages)
  {
    var last := |s.pages| - 1;
    var page := s.pages[last];
    assert Put(s, op).pages[last] == page + [op];
    forall i, j | 0 <= i < j < |page + [op]|
      ensures Apart((page + [op])[i], (page + [op])[j])
    {
      if j < |page| {
        assert Apart(page[i], page[j]);
      }
    }
  }

  lemma PutAbove(s: Sheet, op: Op, y: real)
    requires Above(s, y) && (op.ShowText? ==> op.y >= y)
    ensures Above(Put(s, op), y)
  {
    var last := |s.pages| - 1;
    var page := s.pages[last] + [op];
    assert Put(s, op).pages[last] == page;
    forall i | 0 <= i < |page|
      ensures page[i].ShowText? ==> page[i].y >= y
    {
      assert i < |s.pages[last]| ==> page[i] == s.pages[last][i];
    }
  }

  /** A text right below the cursor is clear of everything, and so is the cursor below it. */
  lemma TextClear(s: Sheet, x: real, text: string, size: real, bold: bool)
    requires Clear(s) && size >= 0.0
    ensures AllApart(TextPut(s, x, text, size, bold).pages) && Above(TextPut(s, x, text, size, bold), s.y - size)
  {
    PutApart(s, ShowText(text, x, s.y - size, size, bold));
    PutAbove(s, ShowText(text, x, s.y - size, size, bold), s.y - size);
  }

  lemma LineClear(s: Sheet, text: string, size: real, bold: bool, centered: bool, fonts: Fonts)
    requires Clear(s) && size >= 0.0
    ensures Clear(LineDrawn(s, text, size, bold, centered, fonts))
  {
    EnsuredClear(s, size);
    TextClear(Ensured(s, size), LineX(text, size, fonts.Face(bold), centered), text, size, bold);
  }

  lemma {:induction false} LinesClear(s: Sheet, lines: seq<string>, size: real, gap: real, bold: bool, centered: bool,
                                      fonts: Fonts)
    requires Clear(s) && size >= 0.0 && gap >= 0.0
    ensures Clear(LinesDrawn(s, lines, size, gap, bold, centered, fonts))
  {
    if lines != [] {
      var n := |lines| - 1;
      var before := LinesDrawn(s, lines[..n], size, gap, bold, centered, fonts);
      LinesClear(s, lines[..n], size, gap, bold, centered, fonts);
      LineClear(before, lines[n], size, bold, centered, fonts);
      AdvancedClear(LineDrawn(before, lines[n], size, bold, centered, fonts), gap);
    }
  }

  lemma TextBlockClear(s: Sheet, lines: seq<string>, before: real, size: real, gap: real, after: real, bold: bool,
                       centered: bool, fonts: Fonts)
    requires Clear(s) && size >= 0.0 && gap >= 0.0 && before >= 0.0 && after >= 0.0
    ensures Clear(TextDrawn(s, lines, before, size, gap, after, bold, centered, fonts))
  {
    AdvancedClear(s, before);
    LinesClear(Advanced(s, before), lines, size, gap, bold, centered, fonts);
    AdvancedClear(LinesDrawn(Advanced(s, before), lines, size, gap, bold, centered, fonts), after);
  }

  lemma RuleClear(s: Sheet, thickness: real)
    requires Clear(s) && thickness >= 0.0
    ensures Clear(RuleDrawn(s, thickness))
  {
    var e := Ensured(s, thickness + 1.0);
    EnsuredClear(s, thickness + 1.0);
    PutApart(e, Stroke(e.y, thickness));
    PutAbove(e, Stroke(e.y, thickness), e.y);
  }

  /** While a key-value row is drawn, the label may stand on the baseline of the text to come. */
  predicate RowClear(s: Sheet, size: real) {
    AllApart(s.pages) && s.pages != [] && RowAbove(LastPage(s), s.y, size)
  }

  predicate RowAbove(page: seq<Op>, y: real, size: real) {
    forall i :: 0 <= i < |page| ==> page[i].ShowText? ==> page[i].y >= y || page[i].y == y - size
  }

  lemma RowText(s: Sheet, x: real, text: string, size: real, bold: bool)
    requires RowClear(s, size) && size >= 0.0
    ensures RowClear(TextPut(s, x, text, size, bold), size)
    ensures Clear(Lowered(TextPut(s, x, text, size, bold), size))
  {
    PutApart(s, ShowText(text, x, s.y - size, size, bold));
  }

  lemma {:induction false} ValuesClear(s: Sheet, x: real, lines: seq<string>, k: nat, size: real, bold: bool)
    requires RowClear(s, size) && size >= 0.0 && k <= |lines|
    ensures RowClear(ValuesDrawn(s, x, lines, k, size, bold), size)
    ensures Clear(Lowered(ValuesDrawn(s, x, lines, k, size, bold), size)) || k == 0
  {
    if k > 0 {
      ValuesClear(s, x, lines, k - 1, size, bold);
      RowText(ValuesDrawn(s, x, lines, k - 1, size, bold), x, lines[k - 1], size, bold);
      ClearRow(Lowered(TextPut(ValuesDrawn(s, x, lines, k - 1, size, bold), x, lines[k - 1], size, bold), size), size);
      if k < |lines| {
        LoweredClear(ValuesDrawn(s, x, lines, k, size, bold), size);
      }
    }
  }

  lemma ClearRow(s: Sheet, size: real)
    requires Clear(s)
    ensures RowClear(s, size)
  {
  }

  lemma KeyValueClear(s: Sheet, block: Block, lines: seq<string>)
    requires Clear(s) && block.KeyValue? && block.size >= 0.0 && block.after >= 0.0
    ensures Clear(KeyValueDrawn(s, block, lines))
  {
    var e := Ensured(s, Stack(block.size, |lines|));
    EnsuredClear(s, Stack(block.size, |lines|));
    ClearRow(e, block.size);
    RowText(e, MARGIN_X, block.key, block.size, false);
    ValuesClear(Keyed(s, block, |lines|), MARGIN_X + block.keyWidth, lines, |lines|, block.size, block.boldValue);
    AdvancedClear(ValuesPut(Keyed(s, block, |lines|), block, lines), block.after);
  }

  lemma BlockClear(s: Sheet, block: Block, fonts: Fonts)
    requires Clear(s) && Wraps(block) && Proper(block)
    ensures Clear(BlockDrawn(s, block, fonts))
  {
    match block
    case Spacer(height) => AdvancedClear(s, height);
    case Rule(before, after, thickness) =>
      AdvancedClear(s, before);
      RuleClear(Advanced(s, before), thickness);
      AdvancedClear(RuleDrawn(Advanced(s, before), thickness), after);
    case Heading(_, size, before, after, centered) =>
      TextBlockClear(s, LinesOf(block, fonts), before, size, HeadingGap(size), after, true, centered, fonts);
    case Paragraph(_, size, bold, before, after, leading, centered) =>
      GapFits(size, leading);
      TextBlockClear(s, LinesOf(block, fonts), before, size, Gap(size, leading), after, bold, centered, fonts);
    case KeyValue(_, _, _, _, _, _) => KeyValueClear(s, block, LinesOf(block, fonts));
  }

  /** However blocks are wrapped and pages broken, no text of any page is printed over another. */
  lemma {:induction false} NothingOverlaps(blocks: seq<Block>, fonts: Fonts)
    requires AllWrap(blocks) && forall i :: 0 <= i < |blocks| ==> Proper(blocks[i])
    ensures Clear(Laid(blocks, fonts)) && AllApart(Laid(blocks, fonts).pages)
  {
    if blocks != [] {
      NothingOverlaps(blocks[..|blocks| - 1], fonts);
      BlockClear(Laid(blocks[..|blocks| - 1], fonts), blocks[|blocks| - 1], fonts);
    }
  }

  // --------------------------------------------------------------- sides

  /** The text, in this face, begins and ends between the side margins, or is a single character. */
  predicate BetweenSides(mark: Mark, w: Metric) {
    |mark.text| == 1
    || (56.0 <= mark.x && mark.x + Width(mark.text, w) as real * mark.size / 1000.0 <= 595.28 - 56.0)
  }

  lemma LineSides(line: string, size: real, bold: bool, centered: bool, fonts: Fonts)
    requires size > 0.0 && Narrow(line, fonts.Face(bold), Limit(size, CONTENT_WIDTH))
    ensures BetweenSides(Mark(line, LineX(line, size, fonts.Face(bold), centered), size, bold), fonts.Face(bold))
  {
    if Fits(line, fonts.Face(bold), Limit(size, CONTENT_WIDTH)) {
      LineBetweenSides(line, size, fonts.Face(bold), centered);
    }
  }

  lemma ValueSides(line: string, size: real, bold: bool, keyWidth: real, w: Metric)
    requires size > 0.0 && keyWidth >= 0.0 && Narrow(line, w, Limit(size, CONTENT_WIDTH - keyWidth))
    ensures BetweenSides(Mark(line, MARGIN_X + keyWidth, size, bold), w)
  {
    LimitDecides(line, w, size, CONTENT_WIDTH - keyWidth);
  }

  predicate AllBetweenSides(marks: seq<Mark>, w: Metric) {
    forall i :: 0 <= i < |marks| ==> BetweenSides(marks[i], w)
  }

  lemma LinesSides(lines: seq<string>, size: real, bold: bool, centered: bool, fonts: Fonts)
    requires size > 0.0 && AllNarrow(lines, fonts.Face(bold), Limit(size, CONTENT_WIDTH))
    ensures AllBetweenSides(LineMarks(lines, size, bold, centered, fonts), fonts.Face(bold))
  {
    var marks := LineMarks(lines, size, bold, centered, fonts);
    forall i | 0 <= i < |marks|
      ensures BetweenSides(marks[i], fonts.Face(bold))
    {
      LineSides(lines[i], size, bold, centered, fonts);
    }
  }

  lemma ValuesSides(lines: seq<string>, size: real, bold: bool, keyWidth: real, w: Metric)
    requires size > 0.0 && keyWidth >= 0.0 && AllNarrow(lines, w, Limit(size, CONTENT_WIDTH - keyWidth))
    ensures AllBetweenSides(ValueMarks(lines, MARGIN_X + keyWidth, size, bold), w)
  {
    var marks := ValueMarks(lines, MARGIN_X + keyWidth, size, bold);
    forall i | 0 <= i < |marks|
      ensures BetweenSides(marks[i], w)
    {
      ValueSides(lines[i], size, bold, keyWidth, w);
    }
  }

  /** A heading is printed between the side margins, in bold, */
  lemma HeadingBetweenSides(block: Block, fonts: Fonts)
    requires block.Heading? && Wraps(block)
    ensures AllBetweenSides(MarksOf(block, fonts), fonts.bold)
  {
    WrapsHasLimit(block);
    LinesFit(block.text, fonts.bold, Limit(block.size, Column(block)));
    LinesSides(LinesOf(block, fonts), block.size, true, block.centered, fonts);
  }

  /** so is a paragraph, in its face, */
  lemma ParagraphBetweenSides(block: Block, fonts: Fonts)
    requires block.Paragraph? && Wraps(block)
    ensures AllBetweenSides(MarksOf(block, fonts), fonts.Face(block.bold))
  {
    WrapsHasLimit(block);
    LinesFit(block.text, fonts.Face(block.bold), Limit(block.size, Column(block)));
    LinesSides(LinesOf(block, fonts), block.size, block.bold, block.centered, fonts);
  }

  /** and every line of a value; the label before it is not wrapped. */
  lemma ValueBetweenSides(block: Block, fonts: Fonts)
    requires block.KeyValue? && Wraps(block) && block.keyWidth >= 0.0
    ensures AllBetweenSides(MarksOf(block, fonts)[1..], fonts.Face(block.boldValue))
  {
    WrapsHasLimit(block);
    LinesFit(block.value, fonts.Face(block.boldValue), Limit(block.size, Column(block)));
    ValuesSides(LinesOf(block, fonts), block.size, block.boldValue, block.keyWidth, fonts.Face(block.boldValue));
    assert MarksOf(block, fonts)[1..]
        == ValueMarks(LinesOf(block, fonts), MARGIN_X + block.keyWidth, block.size, block.boldValue);
  }
}
