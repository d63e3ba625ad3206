/** Pagination of the escrow certificate: blocks are wrapped and placed from the top of an A4 page down,
    and a new page starts whenever the next indivisible piece does not fit. Lengths are exact points. */
module PageLayout {
  import opened Texts
  import opened LineWrap

  const PAGE_WIDTH: real := 595.28
  const PAGE_HEIGHT: real := 841.89
  const MARGIN_X: real := 56.0
  const MARGIN_TOP: real := 56.0
  const MARGIN_BOTTOM: real := 64.0
  const CONTENT_WIDTH: real := PAGE_WIDTH - 2.0 * MARGIN_X
  const TOP: real := PAGE_HEIGHT - MARGIN_TOP
  const USABLE: real := TOP - MARGIN_BOTTOM

  datatype Block =
    | Heading(text: string, size: real, before: real, after: real, centered: bool)
    | Paragraph(text: string, size: real, bold: bool, before: real, after: real, leading: real, centered: bool)
    | KeyValue(key: string, value: string, size: real, keyWidth: real, after: real, boldValue: bool)
    | Rule(before: real, after: real, thickness: real)
    | Spacer(height: real)

  /** A drawing operator: a text with its baseline, or a horizontal line. */
  datatype Op =
    | ShowText(text: string, x: real, y: real, size: real, bold: bool)
    | Stroke(y: real, thickness: real)

  datatype Sheet = Sheet(pages: seq<seq<Op>>, y: real)

  /** The widths of the regular and the bold face. */
  datatype Fonts = Fonts(regular: Metric, bold: Metric) {
    function Face(isBold: bool): Metric {
      if isBold then bold else regular
    }
  }

  // ---------------------------------------------------------- placing

  function Ensured(s: Sheet, needed: real): Sheet {
    if s.y - needed < MARGIN_BOTTOM then Sheet(s.pages + [[]], TOP) else s
  }

  function Put(s: Sheet, op: Op): Sheet {
    if s.pages == [] then s
    else
      var last := |s.pages| - 1;
      s.(pages := s.pages[last := s.pages[last] + [op]])
  }

  function Lowered(s: Sheet, amount: real): Sheet {
    s.(y := s.y - amount)
  }

  function LineX(text: string, size: real, w: Metric, centered: bool): real {
    if centered then MARGIN_X + (CONTENT_WIDTH - Width(text, w) as real * size / 1000.0) / 2.0 else MARGIN_X
  }

  function TextPut(s: Sheet, x: real, text: string, size: real, bold: bool): Sheet {
    Put(s, ShowText(text, x, s.y - size, size, bold))
  }

  function LineDrawn(s: Sheet, text: string, size: real, bold: bool, centered: bool, fonts: Fonts): Sheet {
    var e := Ensured(s, size);
    Lowered(TextPut(e, LineX(text, size, fonts.Face(bold), centered), text, size, bold), size)
  }

  function RuleDrawn(s: Sheet, thickness: real): Sheet {
    var e := Ensured(s, thickness + 1.0);
    Lowered(Put(e, Stroke(e.y, thickness)), thickness)
  }

  function Advanced(s: Sheet, amount: real): Sheet {
    Lowered(Ensured(s, amount), amount)
  }

  /** Lines one below the other, each followed by `gap`. */
  function LinesDrawn(s: Sheet, lines: seq<string>, size: real, gap: real, bold: bool, centered: bool,
                      fonts: Fonts): Sheet {
    if lines == [] then s
    else
      var before := LinesDrawn(s, lines[..|lines| - 1], size, gap, bold, centered, fonts);
      Advanced(LineDrawn(before, lines[|lines| - 1], size, bold, centered, fonts), gap)
  }

  /** The first `k` lines of a value, with the cursor lowered between lines but not after the last. */
  function ValuesDrawn(s: Sheet, x: real, lines: seq<string>, k: nat, size: real, bold: bool): Sheet
    requires k <= |lines|
  {
    if k == 0 then s
    else
      var put := TextPut(ValuesDrawn(s, x, lines, k - 1, size, bold), x, lines[k - 1], size, bold);
      if k < |lines| then Lowered(put, size) else put
  }

  function Column(block: Block): real {
    if block.KeyValue? then CONTENT_WIDTH - block.keyWidth else CONTENT_WIDTH
  }

  /** Wrapping this block comes to an end. */
  predicate Wraps(block: Block) {
    block.Rule? || block.Spacer? || (block.size > 0.0 && Column(block) >= 0.0)
  }

  lemma WrapsHasLimit(block: Block)
    requires Wraps(block) && !block.Rule? && !block.Spacer?
    ensures Limit(block.size, Column(block)) >= 0
  {
    assert Column(block) * 1000.0 / block.size >= 0.0;
  }

  function LinesOf(block: Block, fonts: Fonts): seq<string>
    requires Wraps(block)
  {
    if block.Rule? || block.Spacer? then []
    else
      WrapsHasLimit(block);
      match block
      case Heading(text, size, _, _, _) => Wrap(text, fonts.bold, Limit(size, Column(block)))
      case Paragraph(text, size, bold, _, _, _, _) => Wrap(text, fonts.Face(bold), Limit(size, Column(block)))
      case KeyValue(_, value, size, _, _, bold) => Wrap(value, fonts.Face(bold), Limit(size, Column(block)))
  }

  /** The space below a line of text. */
  function Gap(size: real, leading: real): real {
    size * (leading - 1.0)
  }

  /** And below one of a heading. */
  function HeadingGap(size: real): real {
    size * 0.35
  }

  /** The height of `n` lines without space between them. */
  function Stack(size: real, n: nat): real {
    if n == 0 then 0.0 else Stack(size, n - 1) + size
  }

  lemma {:induction false} StackIsProduct(size: real, n: nat)
    ensures Stack(size, n) == size * n as real
  {
    if n > 0 {
      StackIsProduct(size, n - 1);
      assert size * n as real == size * (n - 1) as real + size;
    }
  }

  /** The sheet once room for `n` value lines is made and the key is shown. */
  function Keyed(s: Sheet, block: Block, n: nat): Sheet
    requires block.KeyValue?
  {
    TextPut(Ensured(s, Stack(block.size, n)), MARGIN_X, block.key, block.size, false)
  }

  function ValuesPut(s: Sheet, block: Block, lines: seq<string>): Sheet
    requires block.KeyValue?
  {
    Lowered(ValuesDrawn(s, MARGIN_X + block.keyWidth, lines, |lines|, block.size, block.boldValue), block.size)
  }

  function KeyValueDrawn(s: Sheet, block: Block, lines: seq<string>): Sheet
    requires block.KeyValue?
  {
    Advanced(ValuesPut(Keyed(s, block, |lines|), block, lines), block.after)
  }

  function TextDrawn(s: Sheet, lines: seq<string>, before: real, size: real, gap: real, after: real,
                     bold: bool, centered: bool, fonts: Fonts): Sheet
  {
    Advanced(LinesDrawn(Advanced(s, before), lines, size, gap, bold, centered, fonts), after)
  }

  function BlockDrawn(s: Sheet, block: Block, fonts: Fonts): Sheet
    requires Wraps(block)
  {
    match block
    case Spacer(height) => Advanced(s, height)
    case Rule(before, after, thickness) => Advanced(RuleDrawn(Advanced(s, before), thickness), after)
    case Heading(_, size, before, after, centered) =>
      TextDrawn(s, LinesOf(block, fonts), before, size, HeadingGap(size), after, true, centered, fonts)
    case Paragraph(_, size, bold, before, after, leading, centered) =>
      TextDrawn(s, LinesOf(block, fonts), before, size, Gap(size, leading), after, bold, centered, fonts)
    case KeyValue(_, _, _, _, _, _) => KeyValueDrawn(s, block, LinesOf(block, fonts))
  }

  predicate AllWrap(blocks: seq<Block>) {
    forall i :: 0 <= i < |blocks| ==> Wraps(blocks[i])
  }

  function Laid(blocks: seq<Block>, fonts: Fonts): Sheet
    requires AllWrap(blocks)
  {
    if blocks == [] then Sheet([[]], TOP)
    else BlockDrawn(Laid(blocks[..|blocks| - 1], fonts), blocks[|blocks| - 1], fonts)
  }

  // ---------------------------------------------------------- canvas

  class Canvas {
    var pages: seq<seq<Op>>
    var y: real

    function View(): Sheet
      reads this
    {
      Sheet(pages, y)
    }

    constructor ()
      ensures View() == Sheet([[]], TOP)
    {
      pages := [[]];
      y := TOP;
    }

    method Ensure(needed: real)
      modifies this
      ensures View() == Ensured(old(View()), needed)
    {
      if y - needed < MARGIN_BOTTOM {
        pages := pages + [[]];
        y := TOP;
      }
    }

    method Append(op: Op)
      requires pages != []
      modifies this`pages
      ensures View() == Put(old(View()), op)
    {
      pages := pages[|pages| - 1 := pages[|pages| - 1] + [op]];
    }

    method DrawLine(text: string, size: real, bold: bool, centered: bool, fonts: Fonts)
      requires pages != []
      modifies this
      ensures pages != [] && View() == LineDrawn(old(View()), text, size, bold, centered, fonts)
    {
      Ensure(size);
      var x := MARGIN_X;
      if centered {
        x := MARGIN_X + (CONTENT_WIDTH - Width(text, fonts.Face(bold)) as real * size / 1000.0) / 2.0;
      }
      Append(ShowText(text, x, y - size, size, bold));
      y := y - size;
    }

    method DrawAt(x: real, text: string, size: real, bold: bool)
      requires pages != []
      modifies this`pages
      ensures pages != [] && View() == TextPut(old(View()), x, text, size, bold)
    {
      Append(ShowText(text, x, y - size, size, bold));
    }

    method DrawRule(thickness: real)
      requires pages != []
      modifies this
      ensures pages != [] && View() == RuleDrawn(old(View()), thickness)
    {
      Ensure(thickness + 1.0);
      Append(Stroke(y, thickness));
      y := y - thickness;
    }

    method Advance(amount: real)
      requires pages != []
      modifies this
      ensures pages != [] && View() == Advanced(old(View()), amount)
    {
      Ensure(amount);
      y := y - amount;
    }

    method DrawLines(lines: seq<string>, size: real, gap: real, bold: bool, centered: bool, fonts: Fonts)
      requires pages != []
      modifies this
      ensures pages != [] && View() == LinesDrawn(old(View()), lines, size, gap, bold, centered, fonts)
    {
      for k := 0 to |lines|
        invariant pages != [] && View() == LinesDrawn(old(View()), lines[..k], size, gap, bold, centered, fonts)
      {
        assert lines[..k + 1][..k] == lines[..k];
        DrawLine(lines[k], size, bold, centered, fonts);
        Advance(gap);
      }
      assert lines[..|lines|] == lines;
    }

    method DrawValues(x: real, lines: seq<string>, size: real, bold: bool)
      requires pages != []
      modifies this
      ensures pages != [] && View() == ValuesDrawn(old(View()), x, lines, |lines|, size, bold)
    {
      for index := 0 to |lines|
        invariant pages != []
        invariant View() == ValuesDrawn(old(View()), x, lines, index, size, bold)
      {
        DrawAt(x, lines[index], size, bold);
        if index < |lines| - 1 {
          y := y - size;
        }
      }
    }

    method DrawKeyValue(block: Block, lines: seq<string>)
      requires block.KeyValue? && pages != []
      modifies this
      ensures pages != [] && View() == KeyValueDrawn(old(View()), block, lines)
    {
      var needed := Stack(block.size, |lines|);
      Ensure(needed);
      DrawAt(MARGIN_X, block.key, block.size, false);
      DrawValues(MARGIN_X + block.keyWidth, lines, block.size, block.boldValue);
      y := y - block.size;
      Advance(block.after);
    }

    method DrawText(block: Block, lines: seq<string>, gap: real, bold: bool, fonts: Fonts)
      requires (block.Heading? || block.Paragraph?) && pages != []
      modifies this
      ensures pages != []
      ensures View() == TextDrawn(old(View()), lines, block.before, block.size, gap, block.after, bold,
                                  block.centered, fonts)
    {
      Advance(block.before);
      DrawLines(lines, block.size, gap, bold, block.centered, fonts);
      Advance(block.after);
    }

    method DrawBlock(block: Block, fonts: Fonts)
      requires Wraps(block) && pages != []
      modifies this
      ensures pages != [] && View() == BlockDrawn(old(View()), block, fonts)
    {
      var lines := WrapBlock(block, fonts);
      match block
      case Spacer(height) =>
        Advance(height);
      case Rule(before, after, thickness) =>
        Advance(before);
        DrawRule(thickness);
        Advance(after);
      case Heading(_, size, _, _, _) =>
        DrawText(block, lines, HeadingGap(size), true, fonts);
      case Paragraph(_, size, bold, _, _, leading, _) =>
        DrawText(block, lines, Gap(size, leading), bold, fonts);
      case KeyValue(_, _, _, _, _, _) =>
        DrawKeyValue(block, lines);
    }
  }

  method WrapBlock(block: Block, fonts: Fonts) returns (lines: seq<string>)
    requires Wraps(block)
    ensures lines == LinesOf(block, fonts)
  {
    if block.Rule? || block.Spacer? {
      return [];
    }
    WrapsHasLimit(block);
    var limit := Limit(block.size, Column(block));
    match block
    case Heading(text, _, _, _, _) => lines := WrapText(text, fonts.bold, limit);
    case Paragraph(text, _, bold, _, _, _, _) => lines := WrapText(text, fonts.Face(bold), limit);
    case KeyValue(_, value, _, _, _, bold) => lines := WrapText(value, fonts.Face(bold), limit);
  }

  method Layout(blocks: seq<Block>, fonts: Fonts) returns (pages: seq<seq<Op>>)
    requires AllWrap(blocks)
    ensures pages == Laid(blocks, fonts).pages
  {
    var canvas := new Canvas();
    for k := 0 to |blocks|
      invariant AllWrap(blocks[..k]) && canvas.pages != []
      invariant canvas.View() == Laid(blocks[..k], fonts)
    {
      assert blocks[..k + 1][..k] == blocks[..k];
      canvas.DrawBlock(blocks[k], fonts);
    }
    assert blocks[..|blocks|] == blocks;
    pages := canvas.pages;
  }

  // ---------------------------------------------------------- margins

  /** A text stays between the margins. */
  predicate Inside(op: Op) {
    op.ShowText? ==> MARGIN_BOTTOM <= op.y && op.y + op.size <= TOP
  }

  predicate AllInside(pages: seq<seq<Op>>) {
    forall p, i :: 0 <= p < |pages| && 0 <= i < |pages[p]| ==> Inside(pages[p][i])
  }

  predicate Kept(s: Sheet) {
    s.pages != [] && MARGIN_BOTTOM <= s.y <= TOP && AllInside(s.pages)
  }

  /** What fits an empty page. */
  predicate Piece(amount: real) {
    0.0 <= amount <= USABLE
  }

  predicate Placeable(block: Block, fonts: Fonts)
    requires Wraps(block)
  {
    match block
    case Spacer(height) => Piece(height)
    case Rule(before, after, thickness) => Piece(before) && Piece(after) && Piece(thickness) && Piece(thickness + 1.0)
    case Heading(_, size, before, after, _) => Piece(before) && Piece(after) && Piece(size) && Piece(HeadingGap(size))
    case Paragraph(_, size, _, before, after, leading, _) =>
      Piece(before) && Piece(after) && Piece(size) && Piece(Gap(size, leading))
    case KeyValue(_, _, size, _, after, _) => Piece(after) && Piece(Stack(size, |LinesOf(block, fonts)|))
  }

  lemma EnsuredKeeps(s: Sheet, needed: real)
    requires Kept(s) && Piece(needed)
    ensures Kept(Ensured(s, needed)) && Ensured(s, needed).y - needed >= MARGIN_BOTTOM
  {
  }

  lemma PutInside(s: Sheet, op: Op)
    requires s.pages != [] && AllInside(s.pages) && Inside(op)
    ensures Put(s, op).pages != [] && AllInside(Put(s, op).pages)
  {
  }

  lemma LineKeeps(s: Sheet, text: string, size: real, bold: bool, centered: bool, fonts: Fonts)
    requires Kept(s) && Piece(size)
    ensures Kept(LineDrawn(s, text, size, bold, centered, fonts))
  {
  }

  lemma AdvanceKeeps(s: Sheet, amount: real)
    requires Kept(s) && Piece(amount)
    ensures Kept(Advanced(s, amount))
  {
    EnsuredKeeps(s, amount);
  }

  lemma {:induction false} LinesKeep(s: Sheet, lines: seq<string>, size: real, gap: real, bold: bool,
                                     centered: bool, fonts: Fonts)
    requires Kept(s) && Piece(size) && Piece(gap)
    ensures Kept(LinesDrawn(s, lines, size, gap, bold, centered, fonts))
  {
    if lines != [] {
      LinesKeep(s, lines[..|lines| - 1], size, gap, bold, centered, fonts);
      var before := LinesDrawn(s, lines[..|lines| - 1], size, gap, bold, centered, fonts);
      LineKeeps(before, lines[|lines| - 1], size, bold, centered, fonts);
      AdvanceKeeps(LineDrawn(before, lines[|lines| - 1], size, bold, centered, fonts), gap);
    }
  }

  lemma {:induction false} StackGrows(size: real, j: nat, k: nat)
    requires size > 0.0 && j <= k
    ensures 0.0 <= Stack(size, j) <= Stack(size, k)
    ensures j < k ==> Stack(size, j) + size <= Stack(size, k)
  {
    if j < k {
      StackGrows(size, j, k - 1);
    } else if j > 0 {
      StackGrows(size, j - 1, j - 1);
    }
  }

  /** The cursor after `k` of `n` value lines. */
  lemma {:induction false} ValuesKeep(s: Sheet, x: real, lines: seq<string>, k: nat, size: real, bold: bool)
    requires k <= |lines| && s.pages != [] && AllInside(s.pages) && size > 0.0
    requires s.y <= TOP && s.y - Stack(size, |lines|) >= MARGIN_BOTTOM
    ensures var d := ValuesDrawn(s, x, lines, k, size, bold);
      && d.pages != [] && AllInside(d.pages)
      && d.y == s.y - Stack(size, if k < |lines| then k else if k == 0 then 0 else k - 1)
  {
    if k > 0 {
      ValuesKeep(s, x, lines, k - 1, size, bold);
      StackGrows(size, k - 1, |lines|);
      var before := ValuesDrawn(s, x, lines, k - 1, size, bold);
      StackGrows(size, 0, k - 1);
      PutInside(before, ShowText(lines[k - 1], x, before.y - size, size, bold));
    }
  }

  lemma LastLineKept(s: Sheet, d: Sheet, size: real, n: nat)
    requires Kept(s) && size > 0.0 && n > 0 && s.y - Stack(size, n) >= MARGIN_BOTTOM
    requires d.pages != [] && AllInside(d.pages) && d.y == s.y - Stack(size, n - 1)
    ensures Kept(Lowered(d, size))
  {
    StackGrows(size, 0, n);
  }

  /** Below the last value line the cursor is one stack of lines lower. */
  lemma ValuesEnd(s: Sheet, block: Block, lines: seq<string>)
    requires block.KeyValue? && lines != [] && Kept(s) && block.size > 0.0
    requires s.y - Stack(block.size, |lines|) >= MARGIN_BOTTOM
    ensures Kept(ValuesPut(s, block, lines))
  {
    var n, x := |lines|, MARGIN_X + block.keyWidth;
    ValuesKeep(s, x, lines, n, block.size, block.boldValue);
    LastLineKept(s, ValuesDrawn(s, x, lines, n, block.size, block.boldValue), block.size, n);
  }

  lemma KeyedKeeps(s: Sheet, block: Block, n: nat)
    requires block.KeyValue? && Kept(s) && n > 0 && block.size > 0.0 && Piece(Stack(block.size, n))
    ensures Kept(Keyed(s, block, n)) && Keyed(s, block, n).y - Stack(block.size, n) >= MARGIN_BOTTOM
  {
    var e := Ensured(s, Stack(block.size, n));
    EnsuredKeeps(s, Stack(block.size, n));
    StackGrows(block.size, 0, n);
    PutInside(e, ShowText(block.key, MARGIN_X, e.y - block.size, block.size, false));
  }

  lemma KeyValueKeeps(s: Sheet, block: Block, lines: seq<string>)
    requires block.KeyValue? && Kept(s) && lines != [] && block.size > 0.0
    requires Piece(Stack(block.size, |lines|)) && Piece(block.after)
    ensures Kept(KeyValueDrawn(s, block, lines))
  {
    KeyedKeeps(s, block, |lines|);
    ValuesEnd(Keyed(s, block, |lines|), block, lines);
    AdvanceKeeps(ValuesPut(Keyed(s, block, |lines|), block, lines), block.after);
  }

  lemma LinesNotEmpty(block: Block, fonts: Fonts)
    requires Wraps(block) && !block.Rule? && !block.Spacer?
    ensures LinesOf(block, fonts) != []
  {
  }

  lemma TextKeeps(s: Sheet, lines: seq<string>, before: real, size: real, gap: real, after: real,
                  bold: bool, centered: bool, fonts: Fonts)
    requires Kept(s) && Piece(before) && Piece(size) && Piece(gap) && Piece(after)
    ensures Kept(TextDrawn(s, lines, before, size, gap, after, bold, centered, fonts))
  {
    AdvanceKeeps(s, before);
    LinesKeep(Advanced(s, before), lines, size, gap, bold, centered, fonts);
    AdvanceKeeps(LinesDrawn(Advanced(s, before), lines, size, gap, bold, centered, fonts), after);
  }

  lemma RuleKeeps(s: Sheet, before: real, after: real, thickness: real)
    requires Kept(s) && Piece(before) && Piece(after) && Piece(thickness) && Piece(thickness + 1.0)
    ensures Kept(Advanced(RuleDrawn(Advanced(s, before), thickness), after))
  {
  }

  lemma BlockKeeps(s: Sheet, block: Block, fonts: Fonts)
    requires Kept(s) && Wraps(block) && Placeable(block, fonts)
    ensures Kept(BlockDrawn(s, block, fonts))
  {
    match block
    case Spacer(height) => AdvanceKeeps(s, height);
    case Rule(before, after, thickness) => RuleKeeps(s, before, after, thickness);
    case Heading(_, size, before, after, centered) =>
      TextKeeps(s, LinesOf(block, fonts), before, size, HeadingGap(size), after, true, centered, fonts);
    case Paragraph(_, size, bold, before, after, leading, centered) =>
      TextKeeps(s, LinesOf(block, fonts), before, size, Gap(size, leading), after, bold, centered, fonts);
    case KeyValue(_, _, _, _, _, _) =>
      LinesNotEmpty(block, fonts);
      KeyValueKeeps(s, block, LinesOf(block, fonts));
  }

  /** When every indivisible piece fits a page, no text on any page leaves the margins and the cursor
      stays between them after every block. */
  lemma {:induction false} MarginsKept(blocks: seq<Block>, fonts: Fonts)
    requires AllWrap(blocks) && forall i :: 0 <= i < |blocks| ==> Placeable(blocks[i], fonts)
    ensures Kept(Laid(blocks, fonts))
  {
    if blocks != [] {
      MarginsKept(blocks[..|blocks| - 1], fonts);
      BlockKeeps(Laid(blocks[..|blocks| - 1], fonts), blocks[|blocks| - 1], fonts);
    }
  }

  // ------------------------------------------------------------- order

  /** A text as it is shown, wherever on the page it is placed. */
  datatype Mark = Mark(text: string, x: real, size: real, bold: bool)

  function MarksOn(page: seq<Op>): seq<Mark> {
    if page == [] then []
    else
      match page[|page| - 1]
      case ShowText(text, x, _, size, bold) => MarksOn(page[..|page| - 1]) + [Mark(text, x, size, bold)]
      case Stroke(_, _) => MarksOn(page[..|page| - 1])
  }

  /** Everything shown, page after page. */
  function Shown(pages: seq<seq<Op>>): seq<Mark> {
    if pages == [] then [] else Shown(pages[..|pages| - 1]) + MarksOn(pages[|pages| - 1])
  }

  function Lettering(marks: seq<Mark>): (texts: seq<string>)
    ensures |texts| == |marks|
    ensures forall i :: 0 <= i < |marks| ==> texts[i] == marks[i].text
  {
    seq(|marks|, i requires 0 <= i < |marks| => marks[i].text)
  }

  function LineMarks(lines: seq<string>, size: real, bold: bool, centered: bool, fonts: Fonts): (marks: seq<Mark>)
    ensures |marks| == |lines|
    ensures forall i :: 0 <= i < |lines| ==>
      marks[i] == Mark(lines[i], LineX(lines[i], size, fonts.Face(bold), centered), size, bold)
  {
    seq(|lines|, i requires 0 <= i < |lines| =>
      Mark(lines[i], LineX(lines[i], size, fonts.Face(bold), centered), size, bold))
  }

  function ValueMarks(lines: seq<string>, x: real, size: real, bold: bool): (marks: seq<Mark>)
    ensures |marks| == |lines|
    ensures forall i :: 0 <= i < |lines| ==> marks[i] == Mark(lines[i], x, size, bold)
  {
    seq(|lines|, i requires 0 <= i < |lines| => Mark(lines[i], x, size, bold))
  }

  lemma LastLineMark(lines: seq<string>, size: real, bold: bool, centered: bool, fonts: Fonts)
    requires lines != []
    ensures var n := |lines| - 1;
      LineMarks(lines, size, bold, centered, fonts)
      == LineMarks(lines[..n], size, bold, centered, fonts)
         + [Mark(lines[n], LineX(lines[n], size, fonts.Face(bold), centered), size, bold)]
  {
  }

  lemma LastValueMark(lines: seq<string>, k: nat, x: real, size: real, bold: bool)
    requires 0 < k <= |lines|
    ensures ValueMarks(lines[..k], x, size, bold)
            == ValueMarks(lines[..k - 1], x, size, bold) + [Mark(lines[k - 1], x, size, bold)]
  {
  }

  lemma LetteringConcat(a: seq<Mark>, b: seq<Mark>)
    ensures Lettering(a + b) == Lettering(a) + Lettering(b)
  {
  }

  /** What a block calls for, in order: headings in bold, labels at the margin, values in their column. */
  function MarksOf(block: Block, fonts: Fonts): seq<Mark>
    requires Wraps(block)
  {
    match block
    case Heading(_, size, _, _, centered) => LineMarks(LinesOf(block, fonts), size, true, centered, fonts)
    case Paragraph(_, size, bold, _, _, _, centered) => LineMarks(LinesOf(block, fonts), size, bold, centered, fonts)
    case KeyValue(key, _, size, keyWidth, _, bold) =>
      [Mark(key, MARGIN_X, size, false)] + ValueMarks(LinesOf(block, fonts), MARGIN_X + keyWidth, size, bold)
    case Rule(_, _, _) => []
    case Spacer(_) => []
  }

  function AllMarks(blocks: seq<Block>, fonts: Fonts): seq<Mark>
    requires AllWrap(blocks)
  {
    if blocks == [] then [] else AllMarks(blocks[..|blocks| - 1], fonts) + MarksOf(blocks[|blocks| - 1], fonts)
  }

  /** `d` shows what `s` shows, and then `marks`. */
  predicate Adds(s: Sheet, d: Sheet, marks: seq<Mark>) {
    s.pages != [] && d.pages != [] && Shown(d.pages) == Shown(s.pages) + marks
  }

  lemma AddsThen(s: Sheet, d: Sheet, e: Sheet, first: seq<Mark>, second: seq<Mark>)
    requires Adds(s, d, first) && Adds(d, e, second)
    ensures Adds(s, e, first + second)
  {
  }

  lemma AddsNothing(s: Sheet, d: Sheet, e: Sheet, marks: seq<Mark>)
    requires (Adds(s, d, marks) && Adds(d, e, [])) || (Adds(s, d, []) && Adds(d, e, marks))
    ensures Adds(s, e, marks)
  {
  }

  lemma PutShows(s: Sheet, op: Op)
    requires s.pages != []
    ensures Adds(s, Put(s, op), if op.ShowText? then [Mark(op.text, op.x, op.size, op.bold)] else [])
  {
  }

  lemma EnsuredShows(s: Sheet, needed: real)
    requires s.pages != []
    ensures Adds(s, Ensured(s, needed), [])
  {
    assert (s.pages + [[]])[..|s.pages|] == s.pages;
  }

  lemma AdvancedShows(s: Sheet, amount: real)
    requires s.pages != []
    ensures Adds(s, Advanced(s, amount), [])
  {
    EnsuredShows(s, amount);
  }

  lemma LineShows(s: Sheet, text: string, size: real, bold: bool, centered: bool, fonts: Fonts)
    requires s.pages != []
    ensures Adds(s, LineDrawn(s, text, size, bold, centered, fonts),
                 [Mark(text, LineX(text, size, fonts.Face(bold), centered), size, bold)])
  {
    var e := Ensured(s, size);
    var op := ShowText(text, LineX(text, size, fonts.Face(bold), centered), e.y - size, size, bold);
    EnsuredShows(s, size);
    PutShows(e, op);
    AddsNothing(s, e, Put(e, op), [Mark(op.text, op.x, size, bold)]);
  }

  lemma {:induction false} LinesShow(s: Sheet, lines: seq<string>, size: real, gap: real, bold: bool,
                                     centered: bool, fonts: Fonts)
    requires s.pages != []
    ensures Adds(s, LinesDrawn(s, lines, size, gap, bold, centered, fonts),
                 LineMarks(lines, size, bold, centered, fonts))
  {
    if lines != [] {
      var n := |lines| - 1;
      LinesShow(s, lines[..n], size, gap, bold, centered, fonts);
      var before := LinesDrawn(s, lines[..n], size, gap, bold, centered, fonts);
      var drawn := LineDrawn(before, lines[n], size, bold, centered, fonts);
      LineShows(before, lines[n], size, bold, centered, fonts);
      var marks := LineMarks(lines, size, bold, centered, fonts);
      LastLineMark(lines, size, bold, centered, fonts);
      AddsThen(s, before, drawn, LineMarks(lines[..n], size, bold, centered, fonts),
               [Mark(lines[n], LineX(lines[n], size, fonts.Face(bold), centered), size, bold)]);
      AdvancedShows(drawn, gap);
      AddsNothing(s, drawn, Advanced(drawn, gap), marks);
    }
  }

  lemma TextPutShows(s: Sheet, x: real, text: string, size: real, bold: bool)
    requires s.pages != []
    ensures Adds(s, TextPut(s, x, text, size, bold), [Mark(text, x, size, bold)])
  {
    PutShows(s, ShowText(text, x, s.y - size, size, bold));
  }

  lemma {:induction false} ValuesShow(s: Sheet, x: real, lines: seq<string>, k: nat, size: real, bold: bool)
    requires k <= |lines| && s.pages != []
    ensures Adds(s, ValuesDrawn(s, x, lines, k, size, bold), ValueMarks(lines[..k], x, size, bold))
  {
    if k > 0 {
      ValuesShow(s, x, lines, k - 1, size, bold);
      var before := ValuesDrawn(s, x, lines, k - 1, size, bold);
      TextPutShows(before, x, lines[k - 1], size, bold);
      var mark := Mark(lines[k - 1], x, size, bold);
      AddsThen(s, before, TextPut(before, x, lines[k - 1], size, bold),
               ValueMarks(lines[..k - 1], x, size, bold), [mark]);
      LastValueMark(lines, k, x, size, bold);
    }
  }

  lemma KeyShows(s: Sheet, block: Block, n: nat)
    requires block.KeyValue? && s.pages != []
    ensures Adds(s, Keyed(s, block, n), [Mark(block.key, MARGIN_X, block.size, false)])
  {
    var e := Ensured(s, Stack(block.size, n));
    EnsuredShows(s, Stack(block.size, n));
    TextPutShows(e, MARGIN_X, block.key, block.size, false);
    AddsNothing(s, e, Keyed(s, block, n), [Mark(block.key, MARGIN_X, block.size, false)]);
  }

  lemma ValuesPutShow(s: Sheet, block: Block, lines: seq<string>)
    requires block.KeyValue? && s.pages != []
    ensures Adds(s, ValuesPut(s, block, lines),
                 ValueMarks(lines, MARGIN_X + block.keyWidth, block.size, block.boldValue))
  {
    ValuesShow(s, MARGIN_X + block.keyWidth, lines, |lines|, block.size, block.boldValue);
    assert lines[..|lines|] == lines;
  }

  lemma KeyValueShows(s: Sheet, block: Block, lines: seq<string>)
    requires block.KeyValue? && s.pages != []
    ensures Adds(s, KeyValueDrawn(s, block, lines),
                 [Mark(block.key, MARGIN_X, block.size, false)]
                 + ValueMarks(lines, MARGIN_X + block.keyWidth, block.size, block.boldValue))
  {
    var keyed := Keyed(s, block, |lines|);
    var put := ValuesPut(keyed, block, lines);
    var key := [Mark(block.key, MARGIN_X, block.size, false)];
    var values := ValueMarks(lines, MARGIN_X + block.keyWidth, block.size, block.boldValue);
    KeyShows(s, block, |lines|);
    ValuesPutShow(keyed, block, lines);
    AddsThen(s, keyed, put, key, values);
    AdvancedShows(put, block.after);
    AddsNothing(s, put, Advanced(put, block.after), key + values);
  }

  lemma RuleShows(s: Sheet, before: real, after: real, thickness: real)
    requires s.pages != []
    ensures Adds(s, Advanced(RuleDrawn(Advanced(s, before), thickness), after), [])
  {
    var advanced := Advanced(s, before);
    var e := Ensured(advanced, thickness + 1.0);
    var ruled := Put(e, Stroke(e.y, thickness));
    AdvancedShows(s, before);
    EnsuredShows(advanced, thickness + 1.0);
    AddsNothing(s, advanced, e, []);
    PutShows(e, Stroke(e.y, thickness));
    AddsNothing(s, e, ruled, []);
    AdvancedShows(Lowered(ruled, thickness), after);
    AddsNothing(s, Lowered(ruled, thickness), Advanced(Lowered(ruled, thickness), after), []);
  }

  lemma TextShows(s: Sheet, lines: seq<string>, before: real, size: real, gap: real, after: real,
                  bold: bool, centered: bool, fonts: Fonts)
    requires s.pages != []
    ensures Adds(s, TextDrawn(s, lines, before, size, gap, after, bold, centered, fonts),
                 LineMarks(lines, size, bold, centered, fonts))
  {
    var marks := LineMarks(lines, size, bold, centered, fonts);
    var advanced := Advanced(s, before);
    var drawn := LinesDrawn(advanced, lines, size, gap, bold, centered, fonts);
    AdvancedShows(s, before);
    LinesShow(advanced, lines, size, gap, bold, centered, fonts);
    AddsNothing(s, advanced, drawn, marks);
    AdvancedShows(drawn, after);
    AddsNothing(s, drawn, Advanced(drawn, after), marks);
  }

  lemma PrintedShows(s: Sheet, block: Block, fonts: Fonts)
    requires s.pages != [] && Wraps(block) && (block.Heading? || block.Paragraph?)
    ensures Adds(s, BlockDrawn(s, block, fonts), MarksOf(block, fonts))
  {
    var lines := LinesOf(block, fonts);
    match block
    case Heading(_, size, before, after, centered) =>
      TextShows(s, lines, before, size, HeadingGap(size), after, true, centered, fonts);
    case Paragraph(_, size, bold, before, after, leading, centered) =>
      TextShows(s, lines, before, size, Gap(size, leading), after, bold, centered, fonts);
  }

  lemma BlockShows(s: Sheet, block: Block, fonts: Fonts)
    requires s.pages != [] && Wraps(block)
    ensures Adds(s, BlockDrawn(s, block, fonts), MarksOf(block, fonts))
  {
    match block
    case Spacer(height) => AdvancedShows(s, height);
    case Rule(before, after, thickness) => RuleShows(s, before, after, thickness);
    case KeyValue(_, _, _, _, _, _) => KeyValueShows(s, block, LinesOf(block, fonts));
    case _ => PrintedShows(s, block, fonts);
  }

  /** Read page after page, the document shows exactly the lines of its blocks, in block order, each in the
      size and face and at the place across the page its block asks for. */
  lemma {:induction false} AllShownInOrder(blocks: seq<Block>, fonts: Fonts)
    requires AllWrap(blocks)
    ensures Laid(blocks, fonts).pages != [] && Shown(Laid(blocks, fonts).pages) == AllMarks(blocks, fonts)
  {
    if blocks == [] {
      assert Shown([[]]) == Shown([[]][..0]) + MarksOn([]);
    } else {
      AllShownInOrder(blocks[..|blocks| - 1], fonts);
      BlockShows(Laid(blocks[..|blocks| - 1], fonts), blocks[|blocks| - 1], fonts);
    }
  }

  /** The text a block carries. */
  function Source(block: Block): string {
    match block
    case Heading(text, _, _, _, _) => text
    case Paragraph(text, _, _, _, _, _, _) => text
    case KeyValue(key, value, _, _, _, _) => key + value
    case Rule(_, _, _) => ""
    case Spacer(_) => ""
  }

  function Sources(blocks: seq<Block>): (sources: seq<string>)
    ensures |sources| == |blocks|
    ensures forall i :: 0 <= i < |blocks| ==> sources[i] == Source(blocks[i])
  {
    seq(|blocks|, i requires 0 <= i < |blocks| => Source(blocks[i]))
  }

  lemma KeyValueInk(block: Block, fonts: Fonts)
    requires Wraps(block) && block.KeyValue?
    ensures InkOf([block.key] + LinesOf(block, fonts)) == Ink(block.key + block.value)
  {
    WrapsHasLimit(block);
    NothingLost(block.value, fonts.Face(block.boldValue), Limit(block.size, Column(block)));
    InkOfFirst(block.key, LinesOf(block, fonts));
    InkConcat(block.key, block.value);
  }

  lemma PrintedInk(block: Block, fonts: Fonts)
    requires Wraps(block) && (block.Heading? || block.Paragraph?)
    ensures InkOf(LinesOf(block, fonts)) == Ink(block.text)
  {
    WrapsHasLimit(block);
    var limit := Limit(block.size, Column(block));
    NothingLost(block.text, if block.Heading? then fonts.bold else fonts.Face(block.bold), limit);
  }

  lemma Lettered(block: Block, fonts: Fonts)
    requires Wraps(block)
    ensures Lettering(MarksOf(block, fonts))
            == (if block.KeyValue? then [block.key] else []) + LinesOf(block, fonts)
  {
  }

  lemma BlockInk(block: Block, fonts: Fonts)
    requires Wraps(block)
    ensures InkOf(Lettering(MarksOf(block, fonts))) == Ink(Source(block))
  {
    Lettered(block, fonts);
    if block.KeyValue? {
      KeyValueInk(block, fonts);
    } else {
      assert [] + LinesOf(block, fonts) == LinesOf(block, fonts);
      if !block.Rule? && !block.Spacer? {
        PrintedInk(block, fonts);
      }
    }
  }

  lemma {:induction false} TextsInk(blocks: seq<Block>, fonts: Fonts)
    requires AllWrap(blocks)
    ensures InkOf(Lettering(AllMarks(blocks, fonts))) == InkOf(Sources(blocks))
  {
    if blocks != [] {
      var front, last := blocks[..|blocks| - 1], blocks[|blocks| - 1];
      TextsInk(front, fonts);
      InkOfConcat(Lettering(AllMarks(front, fonts)), Lettering(MarksOf(last, fonts)));
      LetteringConcat(AllMarks(front, fonts), MarksOf(last, fonts));
      BlockInk(last, fonts);
      assert Sources(blocks)[..|blocks| - 1] == Sources(front);
    }
  }

  /** From the blocks through wrapping and pagination to the pages, no visible character is lost, added or
      moved. */
  lemma DocumentKeepsInk(blocks: seq<Block>, fonts: Fonts)
    requires AllWrap(blocks)
    ensures InkOf(Lettering(Shown(Laid(blocks, fonts).pages))) == InkOf(Sources(blocks))
  {
    AllShownInOrder(blocks, fonts);
    TextsInk(blocks, fonts);
  }

  /** A centred line leaves as much room on its left as on its right; any other starts at the margin. */
  lemma CentredInTheMiddle(text: string, size: real, w: Metric)
    ensures var x, width := LineX(text, size, w, true), Width(text, w) as real * size / 1000.0;
      x - 56.0 == (595.28 - 56.0) - (x + width)
    ensures LineX(text, size, w, false) == 56.0
  {
  }

  // --------------------------------------------------- exact conditions

  lemma PutOutside(s: Sheet, op: Op)
    requires s.pages != [] && !Inside(op)
    ensures !AllInside(Put(s, op).pages)
  {
    var last := |s.pages| - 1;
    assert Put(s, op).pages[last][|s.pages[last]|] == op;
  }

  lemma EnsuredOutside(s: Sheet, needed: real)
    requires !AllInside(s.pages)
    ensures !AllInside(Ensured(s, needed).pages)
  {
    var p, i :| 0 <= p < |s.pages| && 0 <= i < |s.pages[p]| && !Inside(s.pages[p][i]);
    assert Ensured(s, needed).pages[p][i] == s.pages[p][i];
  }

  lemma {:induction false} ValuesLower(s: Sheet, x: real, lines: seq<string>, k: nat, size: real, bold: bool)
    requires k < |lines| && s.pages != []
    ensures ValuesDrawn(s, x, lines, k, size, bold).y == s.y - Stack(size, k)
    ensures ValuesDrawn(s, x, lines, k, size, bold).pages != []
  {
    if k > 0 {
      ValuesLower(s, x, lines, k - 1, size, bold);
    }
  }

  lemma TooTall(s: Sheet, x: real, lines: seq<string>, size: real, bold: bool)
    requires lines != [] && s.pages != [] && s.y - Stack(size, |lines|) < MARGIN_BOTTOM
    ensures !AllInside(ValuesDrawn(s, x, lines, |lines|, size, bold).pages)
  {
    var n := |lines| - 1;
    ValuesLower(s, x, lines, n, size, bold);
    var before := ValuesDrawn(s, x, lines, n, size, bold);
    PutOutside(before, ShowText(lines[n], x, before.y - size, size, bold));
  }

  lemma KeyValueRunsOff(s: Sheet, block: Block, lines: seq<string>)
    requires block.KeyValue? && Kept(s) && lines != [] && Stack(block.size, |lines|) > USABLE
    ensures !AllInside(KeyValueDrawn(s, block, lines).pages)
  {
    var keyed := Keyed(s, block, |lines|);
    KeyedAtTop(s, block, |lines|);
    TooTall(keyed, MARGIN_X + block.keyWidth, lines, block.size, block.boldValue);
    EnsuredOutside(ValuesPut(keyed, block, lines), block.after);
  }

  /** A key-value row stays above the bottom margin exactly when its lines together fit an empty page:
      a taller value runs off the page even though the writer asked for room first. */
  lemma KeyValueFitsIff(s: Sheet, block: Block, lines: seq<string>)
    requires block.KeyValue? && Kept(s) && lines != [] && block.size > 0.0 && Piece(block.after)
    ensures Kept(KeyValueDrawn(s, block, lines)) <==> block.size * |lines| as real <= USABLE
  {
    StackIsProduct(block.size, |lines|);
    StackGrows(block.size, 0, |lines|);
    if Stack(block.size, |lines|) <= USABLE {
      KeyValueKeeps(s, block, lines);
    } else {
      KeyValueRunsOff(s, block, lines);
    }
  }

  lemma KeyedAtTop(s: Sheet, block: Block, n: nat)
    requires block.KeyValue? && Kept(s) && Stack(block.size, n) > USABLE
    ensures Keyed(s, block, n).pages != [] && Keyed(s, block, n).y - Stack(block.size, n) < MARGIN_BOTTOM
  {
  }

  /** A wrapped line that fits its column starts and ends between the side margins, centred or not. */
  lemma LineBetweenSides(text: string, size: real, w: Metric, centered: bool)
    requires size > 0.0 && Fits(text, w, Limit(size, CONTENT_WIDTH))
    ensures var x := LineX(text, size, w, centered);
      MARGIN_X <= x && x + Width(text, w) as real * size / 1000.0 <= PAGE_WIDTH - MARGIN_X
  {
    var points := Width(text, w) as real * size / 1000.0;
    LimitDecides(text, w, size, CONTENT_WIDTH);
    assert 0.0 <= points <= CONTENT_WIDTH;
  }
}
