/** Greedy word wrap with hard splits, over any table of glyph widths. Widths are in thousandths of an em;
    the limit is the column width in the same unit. */
module LineWrap {
  import opened Texts

  type Metric = char -> nat

  function Width(s: string, w: Metric): nat {
    if s == "" then 0 else Width(s[..|s| - 1], w) + w(s[|s| - 1])
  }

  predicate Fits(s: string, w: Metric, limit: int) {
    Width(s, w) <= limit
  }

  /** The widest column, in thousandths of an em, that `maxWidth` points hold at `size`. */
  function Limit(size: real, maxWidth: real): int
    requires size > 0.0
  {
    (maxWidth * 1000.0 / size).Floor
  }

  lemma ScaleIff(a: real, b: real, scale: real)
    requires scale > 0.0
    ensures a * scale <= b * scale <==> a <= b
  {
    if a <= b {
      assert a * scale <= b * scale;
    } else {
      assert a * scale > b * scale;
    }
  }

  lemma PointsDecide(width: nat, size: real, maxWidth: real)
    requires size > 0.0
    ensures width as real * size / 1000.0 <= maxWidth <==> width <= (maxWidth * 1000.0 / size).Floor
  {
    var bound := maxWidth * 1000.0 / size;
    assert bound * size == maxWidth * 1000.0;
    ScaleIff(width as real, bound, size);
    assert width as real <= bound <==> width <= bound.Floor;
  }

  /** Comparing widths in points is comparing them with the limit. */
  lemma LimitDecides(s: string, w: Metric, size: real, maxWidth: real)
    requires size > 0.0
    ensures Width(s, w) as real * size / 1000.0 <= maxWidth <==> Fits(s, w, Limit(size, maxWidth))
  {
    PointsDecide(Width(s, w), size, maxWidth);
  }

  // --------------------------------------------------- paragraphs, words

  /** `text.split("\n")`. */
  function Paragraphs(text: string): (paragraphs: seq<string>)
    ensures paragraphs != []
  {
    if text == "" then [""]
    else
      var others := Paragraphs(text[1..]);
      if text[0] == '\n' then [""] + others else [[text[0]] + others[0]] + others[1..]
  }

  /** Each line of a text is one of its paragraphs: split apart at line feeds, nothing else is changed. */
  lemma {:induction false} ParagraphsJoin(text: string)
    ensures JoinLines(Paragraphs(text)) == text
    ensures forall i :: 0 <= i < |Paragraphs(text)| ==> '\n' !in Paragraphs(text)[i]
  {
    if text != "" {
      var others := Paragraphs(text[1..]);
      ParagraphsJoin(text[1..]);
      if text[0] == '\n' {
        JoinLinesFirst("", others);
        assert text == "" + "\n" + text[1..];
      } else {
        JoinLinesPrepend(text[0], others);
        assert text == [text[0]] + text[1..];
      }
    }
  }

  /** `"\n".join(lines)`. */
  function JoinLines(lines: seq<string>): string {
    if lines == [] then ""
    else if |lines| == 1 then lines[0]
    else JoinLines(lines[..|lines| - 1]) + "\n" + lines[|lines| - 1]
  }

  lemma {:induction false} JoinLinesFirst(first: string, others: seq<string>)
    requires others != []
    ensures JoinLines([first] + others) == first + "\n" + JoinLines(others)
  {
    var last := |others| - 1;
    assert ([first] + others)[..|others|] == [first] + others[..last];
    if last > 0 {
      JoinLinesFirst(first, others[..last]);
    }
  }

  lemma JoinLinesPrepend(c: char, lines: seq<string>)
    requires lines != []
    ensures JoinLines([[c] + lines[0]] + lines[1..]) == [c] + JoinLines(lines)
  {
    if |lines| > 1 {
      JoinLinesFirst([c] + lines[0], lines[1..]);
      JoinLinesFirst(lines[0], lines[1..]);
      assert lines == [lines[0]] + lines[1..];
    } else {
      assert lines[1..] == [];
    }
  }

  /** Splitting joined lines gives the lines back exactly when there are some and none holds a line feed. */
  lemma SplitJoinIff(lines: seq<string>)
    ensures Paragraphs(JoinLines(lines)) == lines
       <==> lines != [] && forall i :: 0 <= i < |lines| ==> '\n' !in lines[i]
  {
    ParagraphsJoin(JoinLines(lines));
    if lines != [] && forall i :: 0 <= i < |lines| ==> '\n' !in lines[i] {
      SplitJoined(lines);
    }
  }

  lemma {:induction false} SplitPrepend(line: string, rest: string)
    requires '\n' !in line
    ensures Paragraphs(line + "\n" + rest) == [line] + Paragraphs(rest)
    ensures Paragraphs(line) == [line]
  {
    var text := line + "\n" + rest;
    if line == "" {
      assert text[1..] == rest;
    } else {
      SplitPrepend(line[1..], rest);
      assert text[1..] == line[1..] + "\n" + rest;
      assert [line[0]] + line[1..] == line;
    }
  }

  lemma {:induction false} SplitJoined(lines: seq<string>)
    requires lines != [] && forall i :: 0 <= i < |lines| ==> '\n' !in lines[i]
    ensures Paragraphs(JoinLines(lines)) == lines
  {
    SplitPrepend(lines[0], "");
    if |lines| > 1 {
      assert lines == [lines[0]] + lines[1..];
      JoinLinesFirst(lines[0], lines[1..]);
      SplitPrepend(lines[0], JoinLines(lines[1..]));
      SplitJoined(lines[1..]);
    }
  }

  function WordLength(s: string): (k: nat)
    ensures k <= |s|
    ensures forall i :: 0 <= i < k ==> !Space(s[i])
    ensures k < |s| ==> Space(s[k])
  {
    if s == "" || Space(s[0]) then 0 else 1 + WordLength(s[1..])
  }

  predicate Inked(s: string) {
    s != "" && forall i :: 0 <= i < |s| ==> !Space(s[i])
  }

  /** `paragraph.split()`: the maximal runs without whitespace. */
  function Words(s: string): (words: seq<string>)
    ensures forall i :: 0 <= i < |words| ==> Inked(words[i])
    ensures words == [] <==> Blank(s)
    decreases |s|
  {
    if s == "" then []
    else if Space(s[0]) then
      assert forall i :: 0 <= i < |s| - 1 ==> s[1..][i] == s[i + 1];
      Words(s[1..])
    else
      var k := WordLength(s);
      [s[..k]] + Words(s[k..])
  }

  // ---------------------------------------------------------------- wrap

  /** The longest prefix, at most `k` long, that fits; a single character when none does. */
  function Cut(word: string, k: nat, w: Metric, limit: int): (cut: nat)
    requires k <= |word|
    ensures cut <= k && (k > 0 ==> cut > 0)
    ensures cut > 1 ==> Fits(word[..cut], w, limit)
    ensures cut < k ==> !Fits(word[..cut + 1], w, limit)
  {
    if k > 1 && !Fits(word[..k], w, limit) then Cut(word, k - 1, w, limit) else k
  }

  /** The lines cut off a word, and what is left of it. */
  function Chop(word: string, w: Metric, limit: int): (seq<string>, string)
    requires limit >= 0
    decreases |word|
  {
    if Fits(word, w, limit) then ([], word)
    else
      var cut := Cut(word, |word|, w, limit);
      var (pieces, rest) := Chop(word[cut..], w, limit);
      ([word[..cut]] + pieces, rest)
  }

  /** The finished lines, and the line being filled. */
  datatype Packing = Packing(lines: seq<string>, current: string) {
    function Flushed(): seq<string> {
      lines + if current == "" then [] else [current]
    }
  }

  function Candidate(current: string, word: string): string {
    if current == "" then word else current + " " + word
  }

  function Add(p: Packing, word: string, w: Metric, limit: int): Packing
    requires limit >= 0
  {
    var candidate := Candidate(p.current, word);
    if Fits(candidate, w, limit) then Packing(p.lines, candidate)
    else
      var (pieces, rest) := Chop(word, w, limit);
      Packing(p.Flushed() + pieces, rest)
  }

  function Pack(words: seq<string>, w: Metric, limit: int): Packing
    requires limit >= 0 || words == []
  {
    if words == [] then Packing([], "")
    else Add(Pack(words[..|words| - 1], w, limit), words[|words| - 1], w, limit)
  }

  function WrapParagraph(paragraph: string, w: Metric, limit: int): seq<string>
    requires limit >= 0 || Blank(paragraph)
  {
    if Blank(paragraph) then [""] else Pack(Words(paragraph), w, limit).Flushed()
  }

  predicate Wrappable(paragraphs: seq<string>, limit: int) {
    forall i :: 0 <= i < |paragraphs| ==> limit >= 0 || Blank(paragraphs[i])
  }

  lemma WrapAllStep(paragraphs: seq<string>, i: nat, w: Metric, limit: int)
    requires Wrappable(paragraphs, limit) && i < |paragraphs|
    ensures Wrappable(paragraphs[..i], limit) && Wrappable(paragraphs[..i + 1], limit)
    ensures WrapAll(paragraphs[..i + 1], w, limit)
            == WrapAll(paragraphs[..i], w, limit) + WrapParagraph(paragraphs[i], w, limit)
  {
    assert paragraphs[..i + 1][..i] == paragraphs[..i];
  }

  function WrapAll(paragraphs: seq<string>, w: Metric, limit: int): seq<string>
    requires Wrappable(paragraphs, limit)
  {
    if paragraphs == [] then []
    else WrapAll(paragraphs[..|paragraphs| - 1], w, limit) + WrapParagraph(paragraphs[|paragraphs| - 1], w, limit)
  }

  function Wrap(text: string, w: Metric, limit: int): seq<string>
    requires limit >= 0 || Blank(text)
  {
    BlankParagraphs(text);
    WrapAll(Paragraphs(text), w, limit)
  }

  lemma {:induction false} BlankParagraphs(text: string)
    ensures Blank(text) ==> forall i :: 0 <= i < |Paragraphs(text)| ==> Blank(Paragraphs(text)[i])
  {
    if text != "" && Blank(text) {
      assert forall i :: 0 <= i < |text| - 1 ==> text[1..][i] == text[i + 1];
      BlankParagraphs(text[1..]);
    }
  }

  /** The wrapper. It returns for every column of non-negative width, and for blank text. */
  method WrapText(text: string, w: Metric, limit: int) returns (lines: seq<string>)
    requires limit >= 0 || Blank(text)
    ensures lines == Wrap(text, w, limit)
  {
    lines := [];
    var paragraphs := Paragraphs(text);
    BlankParagraphs(text);
    for i := 0 to |paragraphs|
      invariant Wrappable(paragraphs[..i], limit) && lines == WrapAll(paragraphs[..i], w, limit)
    {
      WrapAllStep(paragraphs, i, w, limit);
      if Blank(paragraphs[i]) {
        lines := lines + [""];
      } else {
        var wrapped := WrapWords(Words(paragraphs[i]), w, limit);
        lines := lines + wrapped;
      }
    }
    assert paragraphs[..|paragraphs|] == paragraphs;
  }

  method WrapWords(words: seq<string>, w: Metric, limit: int) returns (lines: seq<string>)
    requires limit >= 0
    ensures lines == Pack(words, w, limit).Flushed()
  {
    lines := [];
    var current := "";
    for k := 0 to |words|
      invariant Pack(words[..k], w, limit) == Packing(lines, current)
    {
      PackStep(words, k, w, limit);
      ghost var p := Packing(lines, current);
      var candidate := Candidate(current, words[k]);
      if Fits(candidate, w, limit) {
        current := candidate;
        continue;
      }
      if current != "" {
        lines := lines + [current];
      }
      assert lines == p.Flushed();
      var pieces;
      pieces, current := ChopWord(words[k], w, limit);
      lines := lines + pieces;
    }
    assert words[..|words|] == words;
    if current != "" {
      lines := lines + [current];
    }
  }

  lemma PackStep(words: seq<string>, k: nat, w: Metric, limit: int)
    requires limit >= 0 && k < |words|
    ensures Pack(words[..k + 1], w, limit) == Add(Pack(words[..k], w, limit), words[k], w, limit)
  {
    assert words[..k + 1][..k] == words[..k];
  }

  lemma ChopStep(word: string, cut: nat, w: Metric, limit: int)
    requires limit >= 0 && !Fits(word, w, limit) && cut == Cut(word, |word|, w, limit)
    ensures word != "" && 0 < cut
    ensures Chop(word, w, limit).0 == [word[..cut]] + Chop(word[cut..], w, limit).0
    ensures Chop(word, w, limit).1 == Chop(word[cut..], w, limit).1
  {
  }

  /** Hard-split a word that is too wide for the column. */
  method ChopWord(whole: string, w: Metric, limit: int) returns (pieces: seq<string>, word: string)
    requires limit >= 0
    ensures pieces == Chop(whole, w, limit).0 && word == Chop(whole, w, limit).1
  {
    pieces, word := [], whole;
    while !Fits(word, w, limit)
      invariant Chop(whole, w, limit).0 == pieces + Chop(word, w, limit).0
      invariant Chop(whole, w, limit).1 == Chop(word, w, limit).1
      decreases |word|
    {
      var cut := |word|;
      while cut > 1 && !Fits(word[..cut], w, limit)
        invariant cut <= |word| && (|word| > 0 ==> cut > 0)
        invariant Cut(word, |word|, w, limit) == Cut(word, cut, w, limit)
      {
        cut := cut - 1;
      }
      ChopStep(word, cut, w, limit);
      assert pieces + Chop(word, w, limit).0 == pieces + [word[..cut]] + Chop(word[cut..], w, limit).0;
      pieces := pieces + [word[..cut]];
      word := word[cut..];
    }
  }

  // --------------------------------------------------------- termination

  /** `n` rounds of the hard-split loop, whatever its guard says. */
  function Rounds(word: string, n: nat, w: Metric, limit: int): string {
    if n == 0 then word
    else
      var before := Rounds(word, n - 1, w, limit);
      before[Cut(before, |before|, w, limit)..]
  }

  lemma {:induction false} RoundsShrink(word: string, n: nat, w: Metric, limit: int)
    ensures |Rounds(word, n, w, limit)| <= if n < |word| then |word| - n else 0
  {
    if n > 0 {
      RoundsShrink(word, n - 1, w, limit);
    }
  }

  /** The hard-split loop comes to an end exactly when the column is not narrower than nothing. */
  lemma SplitStopsIff(word: string, w: Metric, limit: int)
    ensures (exists n: nat :: Fits(Rounds(word, n, w, limit), w, limit)) <==> limit >= 0
  {
    RoundsShrink(word, |word|, w, limit);
    if limit >= 0 {
      assert Fits(Rounds(word, |word|, w, limit), w, limit);
    }
  }

  // --------------------------------------------------------- every line

  predicate Narrow(line: string, w: Metric, limit: int) {
    Fits(line, w, limit) || |line| == 1
  }

  predicate AllNarrow(lines: seq<string>, w: Metric, limit: int) {
    forall i :: 0 <= i < |lines| ==> Narrow(lines[i], w, limit)
  }

  lemma {:induction false} ChopNarrow(word: string, w: Metric, limit: int)
    requires limit >= 0
    ensures AllNarrow(Chop(word, w, limit).0, w, limit) && Fits(Chop(word, w, limit).1, w, limit)
    decreases |word|
  {
    if !Fits(word, w, limit) {
      var cut := Cut(word, |word|, w, limit);
      ChopNarrow(word[cut..], w, limit);
    }
  }

  lemma {:induction false} PackNarrow(words: seq<string>, w: Metric, limit: int)
    requires limit >= 0
    ensures AllNarrow(Pack(words, w, limit).lines, w, limit) && Fits(Pack(words, w, limit).current, w, limit)
  {
    if words != [] {
      PackNarrow(words[..|words| - 1], w, limit);
      ChopNarrow(words[|words| - 1], w, limit);
    }
  }

  lemma {:induction false} WrapAllNarrow(paragraphs: seq<string>, w: Metric, limit: int)
    requires limit >= 0
    ensures AllNarrow(WrapAll(paragraphs, w, limit), w, limit)
  {
    if paragraphs != [] {
      WrapAllNarrow(paragraphs[..|paragraphs| - 1], w, limit);
      PackNarrow(Words(paragraphs[|paragraphs| - 1]), w, limit);
    }
  }

  /** Every line fits the column, or is a single character. */
  lemma LinesFit(text: string, w: Metric, limit: int)
    requires limit >= 0
    ensures AllNarrow(Wrap(text, w, limit), w, limit)
  {
    WrapAllNarrow(Paragraphs(text), w, limit);
  }

  // ----------------------------------------------------- nothing is lost

  /** The characters that leave a mark. */
  function Ink(s: string): string {
    if s == "" then "" else (if Space(s[0]) then "" else [s[0]]) + Ink(s[1..])
  }

  function InkOf(lines: seq<string>): string {
    if lines == [] then "" else InkOf(lines[..|lines| - 1]) + Ink(lines[|lines| - 1])
  }

  lemma {:induction false} InkConcat(a: string, b: string)
    ensures Ink(a + b) == Ink(a) + Ink(b)
  {
    if a == "" {
      assert a + b == b;
    } else {
      assert (a + b)[1..] == a[1..] + b;
      InkConcat(a[1..], b);
    }
  }

  lemma {:induction false} InkOfConcat(a: seq<string>, b: seq<string>)
    ensures InkOf(a + b) == InkOf(a) + InkOf(b)
  {
    if b == [] {
      assert a + b == a;
    } else {
      assert (a + b)[..|a + b| - 1] == a + b[..|b| - 1];
      InkOfConcat(a, b[..|b| - 1]);
    }
  }

  lemma InkOfOne(line: string)
    ensures InkOf([line]) == Ink(line)
  {
    assert [line][..0] == [];
  }

  lemma {:induction false} BlankInk(s: string)
    ensures Blank(s) ==> Ink(s) == ""
  {
    if s != "" && Blank(s) {
      assert forall i :: 0 <= i < |s| - 1 ==> s[1..][i] == s[i + 1];
      BlankInk(s[1..]);
    }
  }

  lemma {:induction false} WordsInk(s: string)
    ensures InkOf(Words(s)) == Ink(s)
    decreases |s|
  {
    if s != "" {
      if Space(s[0]) {
        WordsInk(s[1..]);
      } else {
        var k := WordLength(s);
        WordsInk(s[k..]);
        InkOfConcat([s[..k]], Words(s[k..]));
        InkOfOne(s[..k]);
        InkConcat(s[..k], s[k..]);
        assert s == s[..k] + s[k..];
      }
    }
  }

  lemma {:induction false} ChopInk(word: string, w: Metric, limit: int)
    requires limit >= 0
    ensures InkOf(Chop(word, w, limit).0) + Ink(Chop(word, w, limit).1) == Ink(word)
    decreases |word|
  {
    if Fits(word, w, limit) {
      assert InkOf([]) + Ink(word) == Ink(word);
    } else {
      var cut := Cut(word, |word|, w, limit);
      var (pieces, rest) := Chop(word[cut..], w, limit);
      ChopStep(word, cut, w, limit);
      ChopInk(word[cut..], w, limit);
      InkOfFirst(word[..cut], pieces);
      Assoc(Ink(word[..cut]), InkOf(pieces), Ink(rest));
      InkConcat(word[..cut], word[cut..]);
      assert word == word[..cut] + word[cut..];
    }
  }

  lemma FlushedInk(p: Packing)
    ensures InkOf(p.Flushed()) == InkOf(p.lines) + Ink(p.current)
  {
    if p.current == "" {
      assert p.Flushed() == p.lines;
    } else {
      InkOfConcat(p.lines, [p.current]);
      InkOfOne(p.current);
    }
  }

  lemma CandidateInk(current: string, word: string)
    ensures Ink(Candidate(current, word)) == Ink(current) + Ink(word)
  {
    if current != "" {
      InkConcat(current + " ", word);
      InkConcat(current, " ");
      assert Ink(" ") == "";
    }
  }

  lemma AddInk(p: Packing, word: string, w: Metric, limit: int)
    requires limit >= 0
    ensures InkOf(Add(p, word, w, limit).Flushed()) == InkOf(p.Flushed()) + Ink(word)
  {
    FlushedInk(Add(p, word, w, limit));
    if Fits(Candidate(p.current, word), w, limit) {
      FlushedInk(p);
      CandidateInk(p.current, word);
      Assoc(InkOf(p.lines), Ink(p.current), Ink(word));
    } else {
      var (pieces, rest) := Chop(word, w, limit);
      ChopInk(word, w, limit);
      InkOfConcat(p.Flushed(), pieces);
      Assoc(InkOf(p.Flushed()), InkOf(pieces), Ink(rest));
    }
  }

  lemma {:induction false} PackInk(words: seq<string>, w: Metric, limit: int)
    requires limit >= 0
    ensures InkOf(Pack(words, w, limit).Flushed()) == InkOf(words)
  {
    if words != [] {
      PackInk(words[..|words| - 1], w, limit);
      AddInk(Pack(words[..|words| - 1], w, limit), words[|words| - 1], w, limit);
    }
  }

  lemma InkOfFirst(first: string, others: seq<string>)
    ensures InkOf([first] + others) == Ink(first) + InkOf(others)
  {
    InkOfConcat([first], others);
    InkOfOne(first);
  }

  lemma ExtendFirst(front: string, first: string, others: seq<string>)
    ensures InkOf([front + first] + others) == Ink(front) + InkOf([first] + others)
  {
    InkOfFirst(front + first, others);
    InkOfFirst(first, others);
    InkConcat(front, first);
  }

  lemma {:induction false} ParagraphsInk(text: string)
    ensures InkOf(Paragraphs(text)) == Ink(text)
  {
    if text == "" {
      InkOfOne("");
    } else {
      var others := Paragraphs(text[1..]);
      ParagraphsInk(text[1..]);
      if text[0] == '\n' {
        InkOfConcat([""], others);
        InkOfOne("");
      } else {
        ExtendFirst([text[0]], others[0], others[1..]);
        assert others == [others[0]] + others[1..];
        InkConcat([text[0]], text[1..]);
        assert text == [text[0]] + text[1..];
      }
    }
  }

  lemma {:induction false} WrapAllInk(paragraphs: seq<string>, w: Metric, limit: int)
    requires Wrappable(paragraphs, limit)
    ensures InkOf(WrapAll(paragraphs, w, limit)) == InkOf(paragraphs)
  {
    if paragraphs != [] {
      var front, last := paragraphs[..|paragraphs| - 1], paragraphs[|paragraphs| - 1];
      WrapAllInk(front, w, limit);
      InkOfConcat(WrapAll(front, w, limit), WrapParagraph(last, w, limit));
      if Blank(last) {
        BlankInk(last);
        InkOfOne("");
      } else {
        PackInk(Words(last), w, limit);
        WordsInk(last);
      }
    }
  }

  /** Wrapping loses, adds and reorders nothing but whitespace. */
  lemma NothingLost(text: string, w: Metric, limit: int)
    requires limit >= 0 || Blank(text)
    ensures InkOf(Wrap(text, w, limit)) == Ink(text)
  {
    BlankParagraphs(text);
    WrapAllInk(Paragraphs(text), w, limit);
    ParagraphsInk(text);
  }

  /** Every paragraph leaves a line, so the fallback for an empty result is never taken. */
  lemma WrapNeverEmpty(text: string, w: Metric, limit: int)
    requires limit >= 0 || Blank(text)
    ensures Wrap(text, w, limit) != []
  {
  }

  // ---------------------------------------------------------- optimality

  /** The words of a line, separated by single spaces. */
  function Join(words: seq<string>): string {
    if words == [] then ""
    else if |words| == 1 then words[0]
    else Join(words[..|words| - 1]) + " " + words[|words| - 1]
  }

  function Flatten(groups: seq<seq<string>>): seq<string> {
    if groups == [] then [] else Flatten(groups[..|groups| - 1]) + groups[|groups| - 1]
  }

  /** An order-preserving division of the words into lines of at least one word that all fit. */
  predicate Divides(groups: seq<seq<string>>, words: seq<string>, w: Metric, limit: int) {
    Flatten(groups) == words && LinesFitIn(groups, w, limit)
  }

  predicate LinesFitIn(groups: seq<seq<string>>, w: Metric, limit: int) {
    forall i :: 0 <= i < |groups| ==> groups[i] != [] && Fits(Join(groups[i]), w, limit)
  }

  predicate AllFit(words: seq<string>, w: Metric, limit: int) {
    forall i :: 0 <= i < |words| ==> words[i] != "" && Fits(words[i], w, limit)
  }

  /** Put one more word on the last line when it fits there, and on a new line otherwise. */
  function Grow(groups: seq<seq<string>>, word: string, w: Metric, limit: int): (grown: seq<seq<string>>)
    ensures grown != []
  {
    if groups != [] && Fits(Join(groups[|groups| - 1] + [word]), w, limit) then
      groups[..|groups| - 1] + [groups[|groups| - 1] + [word]]
    else
      groups + [[word]]
  }

  /** The division greedy wrapping makes. */
  function Greedy(words: seq<string>, w: Metric, limit: int): (groups: seq<seq<string>>)
    ensures words != [] ==> groups != []
  {
    if words == [] then [] else Grow(Greedy(words[..|words| - 1], w, limit), words[|words| - 1], w, limit)
  }

  function JoinAll(groups: seq<seq<string>>): (lines: seq<string>)
    ensures |lines| == |groups|
    ensures forall i :: 0 <= i < |groups| ==> lines[i] == Join(groups[i])
  {
    seq(|groups|, i requires 0 <= i < |groups| => Join(groups[i]))
  }

  lemma {:induction false} WidthConcat(a: string, b: string, w: Metric)
    ensures Width(a + b, w) == Width(a, w) + Width(b, w)
  {
    if b == "" {
      assert a + b == a;
    } else {
      assert (a + b)[..|a + b| - 1] == a + b[..|b| - 1];
      WidthConcat(a, b[..|b| - 1], w);
    }
  }

  /** A text is as wide as its characters together. */
  lemma WidthIsSum(a: string, c: char, b: string, w: Metric)
    ensures Width("", w) == 0 && Width([c], w) == w(c)
    ensures Width(a + [c] + b, w) == Width(a + b, w) + w(c)
  {
    assert [c][..0] == "";
    WidthConcat(a + [c], b, w);
    WidthConcat(a, [c], w);
    WidthConcat(a, b, w);
  }

  lemma JoinMore(words: seq<string>, word: string)
    requires words != []
    ensures Join(words + [word]) == Join(words) + " " + word
  {
    assert (words + [word])[..|words|] == words;
  }

  /** Dropping words from the front of a line never makes it wider. */
  lemma {:induction false} JoinWidens(words: seq<string>, s: nat, w: Metric)
    requires s < |words|
    ensures Width(Join(words[s..]), w) <= Width(Join(words), w)
  {
    var n := |words| - 1;
    if s == n {
      if n > 0 {
        WidthConcat(Join(words[..n]) + " ", words[n], w);
      }
      assert Join(words[s..]) == words[n];
    } else {
      JoinWidens(words[..n], s, w);
      assert words[s..] == words[..n][s..] + [words[n]] && words == words[..n] + [words[n]];
      JoinMore(words[..n][s..], words[n]);
      JoinMore(words[..n], words[n]);
      WidthConcat(Join(words[..n][s..]) + " ", words[n], w);
      WidthConcat(Join(words[..n][s..]), " ", w);
      WidthConcat(Join(words[..n]) + " ", words[n], w);
      WidthConcat(Join(words[..n]), " ", w);
    }
  }

  lemma FlattenLast(groups: seq<seq<string>>)
    requires groups != []
    ensures var last := groups[|groups| - 1];
      && |last| <= |Flatten(groups)|
      && last == Flatten(groups)[|Flatten(groups)| - |last|..]
  {
  }

  lemma FlattenAppend(groups: seq<seq<string>>, group: seq<string>)
    ensures Flatten(groups + [group]) == Flatten(groups) + group
  {
    assert (groups + [group])[..|groups|] == groups;
  }

  lemma JoinNotEmpty(words: seq<string>)
    requires words != [] && forall i :: 0 <= i < |words| ==> words[i] != ""
    ensures Join(words) != ""
  {
  }

  lemma FirstWordIsGreedy(word: string, w: Metric, limit: int)
    requires limit >= 0 && word != "" && Fits(word, w, limit)
    ensures Divides(Greedy([word], w, limit), [word], w, limit)
    ensures Tracks(Pack([word], w, limit), Greedy([word], w, limit))
  {
    var words: seq<string>, groups: seq<seq<string>> := [], [];
    assert words + [word] == [word] && groups + [[word]] == [[word]];
    assert Greedy([word], w, limit) == [[word]] by {
      GreedyGrow(words, word, w, limit);
    }
    assert Flatten([[word]]) == [word] by {
      FlattenAppend(groups, [word]);
    }
    assert Pack([word], w, limit) == Packing([], word) by {
      PackGrow(words, word, w, limit);
    }
    assert Join([word]) == word;
  }

  /** For words that each fit, the wrapped lines are the greedy division's lines. */
  lemma {:induction false} PackIsGreedy(words: seq<string>, w: Metric, limit: int)
    requires limit >= 0 && AllFit(words, w, limit) && words != []
    ensures Divides(Greedy(words, w, limit), words, w, limit)
    ensures Tracks(Pack(words, w, limit), Greedy(words, w, limit))
  {
    var n := |words| - 1;
    var before, word := Greedy(words[..n], w, limit), words[n];
    assert words == words[..n] + [word];
    if n == 0 {
      assert words == [word];
      FirstWordIsGreedy(word, w, limit);
    } else {
      PackIsGreedy(words[..n], w, limit);
      GreedyStep(before, words[..n], word, w, limit);
    }
  }

  /** Greedy's state after `words`: all but the last line finished, the last one being filled. */
  predicate Tracks(p: Packing, groups: seq<seq<string>>) {
    groups != [] && p.lines == JoinAll(groups[..|groups| - 1]) && p.current == Join(groups[|groups| - 1])
  }

  lemma GreedyGrow(words: seq<string>, word: string, w: Metric, limit: int)
    ensures Greedy(words + [word], w, limit) == Grow(Greedy(words, w, limit), word, w, limit)
  {
    assert (words + [word])[..|words|] == words;
  }

  lemma PackGrow(words: seq<string>, word: string, w: Metric, limit: int)
    requires limit >= 0
    ensures Pack(words + [word], w, limit) == Add(Pack(words, w, limit), word, w, limit)
  {
    assert (words + [word])[..|words|] == words;
  }

  lemma AddJoins(front: seq<seq<string>>, last: seq<string>, word: string, w: Metric, limit: int)
    requires limit >= 0 && last != [] && Join(last) != "" && Fits(Join(last + [word]), w, limit)
    ensures Tracks(Add(Packing(JoinAll(front), Join(last)), word, w, limit), front + [last + [word]])
  {
  }

  lemma AddBreaks(front: seq<seq<string>>, last: seq<string>, word: string, w: Metric, limit: int)
    requires limit >= 0 && last != [] && Join(last) != ""
    requires !Fits(Join(last + [word]), w, limit) && Fits(word, w, limit)
    ensures Tracks(Add(Packing(JoinAll(front), Join(last)), word, w, limit), front + [last] + [[word]])
  {
  }

  lemma GreedyStep(before: seq<seq<string>>, words: seq<string>, word: string, w: Metric, limit: int)
    requires limit >= 0 && words != [] && AllFit(words, w, limit) && word != "" && Fits(word, w, limit)
    requires before == Greedy(words, w, limit) && Divides(before, words, w, limit)
    requires Tracks(Pack(words, w, limit), before)
    ensures Divides(Greedy(words + [word], w, limit), words + [word], w, limit)
    ensures Tracks(Pack(words + [word], w, limit), Greedy(words + [word], w, limit))
  {
    var front, last := before[..|before| - 1], before[|before| - 1];
    assert before == front + [last];
    LastNotEmpty(before, words, w, limit);
    GreedyGrow(words, word, w, limit);
    PackGrow(words, word, w, limit);
    if Fits(Join(last + [word]), w, limit) {
      AddJoins(front, last, word, w, limit);
      DivisionGrows(front, last, words, word, w, limit);
    } else {
      AddBreaks(front, last, word, w, limit);
      DivisionBreaks(before, words, word, w, limit);
    }
  }

  lemma LastNotEmpty(groups: seq<seq<string>>, words: seq<string>, w: Metric, limit: int)
    requires groups != [] && Divides(groups, words, w, limit) && AllFit(words, w, limit)
    ensures Join(groups[|groups| - 1]) != ""
  {
    FlattenLast(groups);
    JoinNotEmpty(groups[|groups| - 1]);
  }

  lemma DivisionGrows(front: seq<seq<string>>, last: seq<string>, words: seq<string>, word: string, w: Metric,
                      limit: int)
    requires Divides(front + [last], words, w, limit) && Fits(Join(last + [word]), w, limit)
    ensures Divides(front + [last + [word]], words + [word], w, limit)
  {
  }

  lemma DivisionBreaks(groups: seq<seq<string>>, words: seq<string>, word: string, w: Metric, limit: int)
    requires Divides(groups, words, w, limit) && Fits(word, w, limit)
    ensures Divides(groups + [[word]], words + [word], w, limit)
  {
    FlattenAppend(groups, [word]);
  }

  /** A division without its last word. */
  function Shorter(groups: seq<seq<string>>): (shorter: seq<seq<string>>)
    requires groups != [] && groups[|groups| - 1] != []
    ensures var last := groups[|groups| - 1];
      if |last| == 1 then |shorter| == |groups| - 1
      else |shorter| == |groups| && |shorter[|shorter| - 1]| == |last| - 1
  {
    var front, last := groups[..|groups| - 1], groups[|groups| - 1];
    if |last| == 1 then front else front + [last[..|last| - 1]]
  }

  lemma OneWordLess(kept: seq<string>, word: string, w: Metric, limit: int)
    requires kept != [] && Fits(Join(kept + [word]), w, limit)
    ensures Fits(Join(kept), w, limit)
  {
    JoinMore(kept, word);
    WidthConcat(Join(kept) + " ", word, w);
    WidthConcat(Join(kept), " ", w);
  }

  lemma ShorterFlattens(groups: seq<seq<string>>)
    requires groups != [] && groups[|groups| - 1] != []
    ensures Flatten(groups) != [] && Flatten(Shorter(groups)) == Flatten(groups)[..|Flatten(groups)| - 1]
  {
    var front, last := groups[..|groups| - 1], groups[|groups| - 1];
    assert groups == front + [last];
    FlattenAppend(front, last);
    if |last| > 1 {
      FlattenAppend(front, last[..|last| - 1]);
    }
  }

  lemma ShorterFits(groups: seq<seq<string>>, w: Metric, limit: int)
    requires groups != [] && LinesFitIn(groups, w, limit)
    ensures LinesFitIn(Shorter(groups), w, limit)
  {
    var last := groups[|groups| - 1];
    if |last| > 1 {
      assert last == last[..|last| - 1] + [last[|last| - 1]];
      OneWordLess(last[..|last| - 1], last[|last| - 1], w, limit);
    }
  }

  lemma NoGroups(groups: seq<seq<string>>, words: seq<string>)
    requires Flatten(groups) == words && words != []
    ensures groups != []
  {
  }

  lemma ShorterDivides(groups: seq<seq<string>>, words: seq<string>, w: Metric, limit: int)
    requires words != [] && Divides(groups, words, w, limit)
    ensures groups != [] && Divides(Shorter(groups), words[..|words| - 1], w, limit)
  {
    NoGroups(groups, words);
    ShorterFlattens(groups);
    ShorterFits(groups, w, limit);
  }

  /** `greedy` has no more lines than `groups`, and on equally many no more words on the last one. */
  predicate Ahead(greedy: seq<seq<string>>, groups: seq<seq<string>>) {
    && |greedy| <= |groups|
    && (greedy != [] && |greedy| == |groups| ==> |greedy[|greedy| - 1]| <= |groups[|groups| - 1]|)
  }

  lemma AheadStep(greedy: seq<seq<string>>, groups: seq<seq<string>>, word: string, w: Metric, limit: int)
    requires greedy != [] && groups != [] && groups[|groups| - 1] != [] && Ahead(greedy, Shorter(groups))
    requires |greedy| == |groups| && |greedy[|greedy| - 1]| < |groups[|groups| - 1]|
             ==> Fits(Join(greedy[|greedy| - 1] + [word]), w, limit)
    ensures Ahead(Grow(greedy, word, w, limit), groups)
  {
  }

  /** Greedy stays ahead of every division. */
  lemma {:induction false} GreedyAhead(groups: seq<seq<string>>, words: seq<string>, w: Metric, limit: int)
    requires limit >= 0 && AllFit(words, w, limit) && words != [] && Divides(groups, words, w, limit)
    ensures Ahead(Greedy(words, w, limit), groups)
    decreases |words|
  {
    var n := |words| - 1;
    ShorterDivides(groups, words, w, limit);
    assert words == words[..n] + [words[n]];
    GreedyGrow(words[..n], words[n], w, limit);
    if n > 0 {
      GreedyAhead(Shorter(groups), words[..n], w, limit);
      var before := Greedy(words[..n], w, limit);
      if |before| == |groups| && |before[|before| - 1]| < |groups[|groups| - 1]| {
        assert Flatten(before) == words[..n] by {
          PackIsGreedy(words[..n], w, limit);
        }
        LongerFits(groups, before, words, w, limit);
      }
      AheadStep(before, groups, words[n], w, limit);
    }
  }

  lemma LongerFits(groups: seq<seq<string>>, before: seq<seq<string>>, words: seq<string>, w: Metric, limit: int)
    requires |words| > 1 && groups != [] && before != [] && Divides(groups, words, w, limit)
    requires Flatten(before) == words[..|words| - 1] && |before[|before| - 1]| < |groups[|groups| - 1]|
    ensures Fits(Join(before[|before| - 1] + [words[|words| - 1]]), w, limit)
  {
    var last := before[|before| - 1];
    FlattenLast(before);
    assert last + [words[|words| - 1]] == words[|words| - 1 - |last|..];
    LongerLineFits(groups, words, last + [words[|words| - 1]], w, limit);
  }

  /** Of two ends of the same list the shorter is an end of the longer. */
  lemma EndOfEnd(words: seq<string>, long: seq<string>, short: seq<string>)
    requires |short| <= |long| <= |words|
    requires long == words[|words| - |long|..] && short == words[|words| - |short|..]
    ensures short == long[|long| - |short|..]
  {
  }

  /** The last words of a line are no wider than the line. */
  lemma EndNarrower(line: seq<string>, k: nat, end: seq<string>, w: Metric)
    requires k < |line| && end == line[k..]
    ensures Width(Join(end), w) <= Width(Join(line), w)
  {
    JoinWidens(line, k, w);
  }

  lemma NarrowerFits(a: string, b: string, w: Metric, limit: int)
    requires Width(a, w) <= Width(b, w) && Fits(b, w, limit)
    ensures Fits(a, w, limit)
  {
  }

  lemma ShorterEndFits(words: seq<string>, long: seq<string>, short: seq<string>, w: Metric, limit: int)
    requires short != [] && |short| <= |long| <= |words| && Fits(Join(long), w, limit)
    requires long == words[|words| - |long|..] && short == words[|words| - |short|..]
    ensures Fits(Join(short), w, limit)
  {
    EndOfEnd(words, long, short);
    EndNarrower(long, |long| - |short|, short, w);
    NarrowerFits(Join(short), Join(long), w, limit);
  }

  lemma LastLineEnds(groups: seq<seq<string>>, words: seq<string>, w: Metric, limit: int)
    requires groups != [] && Divides(groups, words, w, limit)
    ensures var last := groups[|groups| - 1];
      && last != [] && |last| <= |words| && last == words[|words| - |last|..] && Fits(Join(last), w, limit)
  {
    FlattenLast(groups);
  }

  /** What a longer last line has room for, the words at its end fit as well. */
  lemma LongerLineFits(groups: seq<seq<string>>, words: seq<string>, end: seq<string>, w: Metric, limit: int)
    requires groups != [] && Divides(groups, words, w, limit)
    requires 0 < |end| <= |groups[|groups| - 1]| && |end| <= |words| && end == words[|words| - |end|..]
    ensures Fits(Join(end), w, limit)
  {
    LastLineEnds(groups, words, w, limit);
    ShorterEndFits(words, groups[|groups| - 1], end, w, limit);
  }

  lemma GreedyWraps(paragraph: string, w: Metric, limit: int)
    requires limit >= 0 && !Blank(paragraph) && AllFit(Words(paragraph), w, limit)
    ensures var greedy := Greedy(Words(paragraph), w, limit);
      && Divides(greedy, Words(paragraph), w, limit)
      && WrapParagraph(paragraph, w, limit) == JoinAll(greedy)
  {
    var words := Words(paragraph);
    PackIsGreedy(words, w, limit);
    LastNotEmpty(Greedy(words, w, limit), words, w, limit);
    TracksFlushed(Pack(words, w, limit), Greedy(words, w, limit));
  }

  lemma TracksFlushed(p: Packing, groups: seq<seq<string>>)
    requires Tracks(p, groups) && Join(groups[|groups| - 1]) != ""
    ensures p.Flushed() == JoinAll(groups)
  {
  }

  /** Greedy wrapping is optimal: the lines of a paragraph whose words each fit are an order-preserving
      division of its words, and no such division has fewer lines. */
  lemma WrapIsOptimal(paragraph: string, w: Metric, limit: int)
    requires limit >= 0 && !Blank(paragraph) && AllFit(Words(paragraph), w, limit)
    ensures var words, lines := Words(paragraph), WrapParagraph(paragraph, w, limit);
      && (exists groups :: Divides(groups, words, w, limit) && lines == JoinAll(groups))
      && (forall groups :: Divides(groups, words, w, limit) ==> |lines| <= |groups|)
  {
    var words := Words(paragraph);
    GreedyWraps(paragraph, w, limit);
    forall groups | Divides(groups, words, w, limit)
      ensures |Greedy(words, w, limit)| <= |groups|
    {
      GreedyAhead(groups, words, w, limit);
    }
  }
}
