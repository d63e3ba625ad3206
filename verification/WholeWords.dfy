/** What both wrappers leave whole: a tidy paragraph that fits is one line, and every word that fits the
    column stands unbroken in a line. */
module WholeWords {
  import opened Texts
  import opened LineWrap
  import opened PropertyWrap

  // -------------------------------------------------------- words in text

  predicate EndsOpen(s: string) {
    s == "" || Space(s[|s| - 1])
  }

  predicate StartsOpen(s: string) {
    s == "" || Space(s[0])
  }

  /** `word` is a maximal run without whitespace, between `before` and `after`. */
  predicate Run(before: string, word: string, after: string) {
    EndsOpen(before) && Inked(word) && StartsOpen(after)
  }

  predicate Parts(line: string, before: string, word: string, after: string) {
    line == before + word + after && Run(before, word, after)
  }

  /** The word stands in the line, between whitespace or the line's ends. */
  ghost predicate Stands(line: string, word: string) {
    exists before, after :: Parts(line, before, word, after)
  }

  ghost predicate StandsIn(lines: seq<string>, word: string) {
    exists k :: 0 <= k < |lines| && Stands(lines[k], word)
  }

  lemma {:induction false} WordLengthIs(word: string, after: string)
    requires StartsOpen(after) && forall i :: 0 <= i < |word| ==> !Space(word[i])
    ensures WordLength(word + after) == |word|
  {
    if word == "" {
      assert word + after == after;
    } else {
      assert (word + after)[1..] == word[1..] + after;
      WordLengthIs(word[1..], after);
    }
  }

  /** A word is taken whole, up to the whitespace after it. */
  lemma FirstWord(word: string, after: string)
    requires Inked(word) && StartsOpen(after)
    ensures Words(word + after) == [word] + Words(after)
  {
    var s := word + after;
    WordLengthIs(word, after);
    assert s[..|word|] == word && s[|word|..] == after;
  }

  lemma SkipSpace(c: char, s: string)
    requires Space(c)
    ensures Words([c] + s) == Words(s)
  {
    assert ([c] + s)[1..] == s;
  }

  lemma SpaceConcat(c: char, a: string, b: string)
    requires Space(c) && Words(a + b) == Words(a) + Words(b)
    ensures Words(([c] + a) + b) == Words([c] + a) + Words(b)
  {
    SkipSpace(c, a);
    SkipSpace(c, a + b);
    Assoc([c], a, b);
  }

  lemma WordConcat(word: string, a: string, b: string)
    requires Inked(word) && a != "" && StartsOpen(a) && Words(a + b) == Words(a) + Words(b)
    ensures Words((word + a) + b) == Words(word + a) + Words(b)
  {
    FirstWord(word, a);
    assert (a + b)[0] == a[0];
    FirstWord(word, a + b);
    Assoc(word, a, b);
    Regrouped([word], Words(a), Words(b));
  }

  /** Text that ends in whitespace starts with a whitespace character, or with a word. */
  lemma SplitOff(a: string) returns (first: string, rest: string)
    requires a != "" && EndsOpen(a)
    ensures a == first + rest && first != "" && EndsOpen(rest)
    ensures (|first| == 1 && Space(first[0])) || (Inked(first) && rest != "" && StartsOpen(rest))
  {
    var k := if Space(a[0]) then 1 else WordLength(a);
    first, rest := a[..k], a[k..];
    if k < |a| {
      assert rest[|rest| - 1] == a[|a| - 1] && rest[0] == a[k];
    } else {
      assert first[|a| - 1] == a[|a| - 1];
    }
  }

  /** Text behind whitespace has its words to itself. */
  lemma {:induction false} WordsConcat(a: string, b: string)
    requires EndsOpen(a)
    ensures Words(a + b) == Words(a) + Words(b)
    decreases |a|
  {
    if a == "" {
      assert a + b == b;
    } else {
      var first, rest := SplitOff(a);
      WordsConcat(rest, b);
      if |first| == 1 && Space(first[0]) {
        SpaceConcat(first[0], rest, b);
        assert first == [first[0]];
      } else {
        WordConcat(first, rest, b);
      }
    }
  }

  lemma Regrouped(a: seq<string>, b: seq<string>, c: seq<string>)
    ensures (a + b) + c == a + (b + c)
  {
  }

  /** A maximal run is one of the words. */
  lemma RunIsWord(before: string, word: string, after: string)
    requires Run(before, word, after)
    ensures word in Words(before + word + after)
  {
    WordsConcat(before, word + after);
    FirstWord(word, after);
    Assoc(before, word, after);
  }

  // --------------------------------------------------- words in paragraphs

  /** Where two texts meet, the last paragraph of one runs on into the first of the other. */
  function Meet(a: seq<string>, b: seq<string>): seq<string>
    requires a != [] && b != []
  {
    a[..|a| - 1] + [a[|a| - 1] + b[0]] + b[1..]
  }

  lemma MeetFirst(first: string, others: seq<string>, b: seq<string>)
    requires others != [] && b != []
    ensures Meet([first] + others, b) == [first] + Meet(others, b)
  {
  }

  lemma MeetPrepend(c: char, others: seq<string>, b: seq<string>)
    requires others != [] && b != []
    ensures Meet([[c] + others[0]] + others[1..], b) == [[c] + Meet(others, b)[0]] + Meet(others, b)[1..]
  {
    var longer := [[c] + others[0]] + others[1..];
    if |others| == 1 {
      assert longer == [[c] + others[0]] && others[..0] == [] && longer[..0] == [];
      assert [c] + others[0] + b[0] == [c] + (others[0] + b[0]);
    } else {
      MeetFirst([c] + others[0], others[1..], b);
      MeetFirst(others[0], others[1..], b);
      assert others == [others[0]] + others[1..];
    }
  }

  lemma {:induction false} ParagraphsConcat(a: string, b: string)
    ensures Paragraphs(a + b) == Meet(Paragraphs(a), Paragraphs(b))
  {
    if a == "" {
      assert a + b == b;
      assert "" + Paragraphs(b)[0] == Paragraphs(b)[0];
      assert Paragraphs(a)[..0] == [];
    } else {
      ParagraphsConcat(a[1..], b);
      assert (a + b)[1..] == a[1..] + b;
      if a[0] == '\n' {
        MeetFirst("", Paragraphs(a[1..]), Paragraphs(b));
      } else {
        MeetPrepend(a[0], Paragraphs(a[1..]), Paragraphs(b));
      }
    }
  }

  lemma {:induction false} LastParagraph(s: string)
    requires EndsOpen(s)
    ensures EndsOpen(Paragraphs(s)[|Paragraphs(s)| - 1])
  {
    if s != "" {
      var front, c := s[..|s| - 1], s[|s| - 1];
      assert s == front + [c];
      ParagraphsConcat(front, [c]);
      OneCharacter(c);
    }
  }

  lemma OneCharacter(c: char)
    ensures Paragraphs([c]) == if c == '\n' then ["", ""] else [[c]]
  {
    assert [c][1..] == "" && Paragraphs("") == [""];
    assert [c] + "" == [c];
  }

  lemma FirstParagraph(s: string)
    requires StartsOpen(s)
    ensures StartsOpen(Paragraphs(s)[0])
  {
  }

  lemma {:induction false} WordParagraph(word: string)
    requires Inked(word)
    ensures Paragraphs(word) == [word]
  {
    assert [word[0]] + word[1..] == word;
    if |word| > 1 {
      WordParagraph(word[1..]);
    } else {
      assert word[1..] == "";
    }
  }

  /** The paragraph a maximal run of the text lies in, and the run within it. */
  lemma RunInParagraph(before: string, word: string, after: string)
    returns (m: nat, front: string, rest: string)
    requires Run(before, word, after)
    ensures m < |Paragraphs(before + word + after)|
    ensures Paragraphs(before + word + after)[m] == front + word + rest && Run(front, word, rest)
  {
    var a, b := Paragraphs(before), Paragraphs(after);
    ParagraphsConcat(before + word, after);
    ParagraphsConcat(before, word);
    WordParagraph(word);
    LastParagraph(before);
    FirstParagraph(after);
    m, front, rest := |a| - 1, a[|a| - 1], b[0];
    assert Paragraphs(before + word) == a[..m] + [front + word];
  }

  // -------------------------------------------------------- words in lines

  /** The line gets longer by a blank and more; what stood in it stands. */
  lemma StandsLonger(line: string, more: string, word: string)
    requires Stands(line, word)
    ensures Stands(line + " " + more, word)
  {
    var before, after :| Parts(line, before, word, after);
    var longer := after + " " + more;
    assert StartsOpen(longer) by {
      assert longer[0] == if after == "" then ' ' else after[0];
    }
    assert line + " " + more == before + word + longer;
    assert Parts(line + " " + more, before, word, longer);
  }

  lemma StandsLast(line: string, word: string)
    requires Inked(word)
    ensures Stands(word, word) && Stands(line + " " + word, word)
  {
    assert word == "" + word + "" && line + " " + word == (line + " ") + word + "";
    assert Parts(word, "", word, "");
    assert Parts(line + " " + word, line + " ", word, "");
  }

  lemma StandsThere(lines: seq<string>, k: int, word: string)
    requires 0 <= k < |lines| && Stands(lines[k], word)
    ensures StandsIn(lines, word)
  {
  }

  lemma StandsInEither(before: seq<string>, after: seq<string>, word: string)
    requires StandsIn(before, word) || StandsIn(after, word)
    ensures StandsIn(before + after, word)
  {
    if StandsIn(before, word) {
      var k :| 0 <= k < |before| && Stands(before[k], word);
      StandsThere(before + after, k, word);
    } else {
      var k :| 0 <= k < |after| && Stands(after[k], word);
      StandsThere(before + after, |before| + k, word);
    }
  }

  /** The word stands in a finished line or in the one being filled. */
  ghost predicate Placed(p: Packing, word: string) {
    StandsIn(p.lines, word) || Stands(p.current, word)
  }

  lemma PlacedFlushed(p: Packing, word: string)
    requires Placed(p, word) && word != ""
    ensures StandsIn(p.Flushed(), word)
  {
    if StandsIn(p.lines, word) {
      StandsInEither(p.lines, if p.current == "" then [] else [p.current], word);
    } else {
      StandsThere(p.Flushed(), |p.lines|, word);
    }
  }

  lemma PlacedGrows(p: Packing, next: string, word: string)
    requires Placed(p, word) && word != ""
    ensures Placed(Packing(p.lines, Candidate(p.current, next)), word)
  {
    if !StandsIn(p.lines, word) {
      StandsLonger(p.current, next, word);
    }
  }

  lemma PlacedBehind(p: Packing, pieces: seq<string>, rest: string, word: string)
    requires Placed(p, word) && word != ""
    ensures Placed(Packing(p.Flushed() + pieces, rest), word)
  {
    PlacedFlushed(p, word);
    StandsInEither(p.Flushed(), pieces, word);
  }

  lemma CandidateStands(current: string, word: string)
    requires Inked(word)
    ensures Stands(Candidate(current, word), word)
  {
    StandsLast(current, word);
  }

  lemma AddPlaces(p: Packing, next: string, word: string, w: Metric, limit: int)
    requires limit >= 0 && Inked(word) && Fits(word, w, limit) && (Placed(p, word) || next == word)
    ensures Placed(Add(p, next, w, limit), word)
  {
    if Fits(Candidate(p.current, next), w, limit) {
      if next == word {
        CandidateStands(p.current, word);
      } else {
        PlacedGrows(p, next, word);
      }
    } else {
      var (pieces, rest) := Chop(next, w, limit);
      if next == word {
        StandsLast("", word);
      } else {
        PlacedBehind(p, pieces, rest, word);
      }
    }
  }

  lemma {:induction false} PackPlaces(words: seq<string>, word: string, w: Metric, limit: int)
    requires limit >= 0 && word in words && Inked(word) && Fits(word, w, limit)
    ensures Placed(Pack(words, w, limit), word)
  {
    var front, last := words[..|words| - 1], words[|words| - 1];
    assert words == front + [last];
    if last != word {
      PackPlaces(front, word, w, limit);
    }
    AddPlaces(Pack(front, w, limit), last, word, w, limit);
  }

  lemma WrapAllOne(front: seq<string>, last: string, w: Metric, limit: int)
    requires limit >= 0
    ensures WrapAll(front + [last], w, limit) == WrapAll(front, w, limit) + WrapParagraph(last, w, limit)
  {
    assert (front + [last])[..|front|] == front;
  }

  lemma {:induction false} WrapAllConcat(a: seq<string>, b: seq<string>, w: Metric, limit: int)
    requires limit >= 0
    ensures WrapAll(a + b, w, limit) == WrapAll(a, w, limit) + WrapAll(b, w, limit)
  {
    if b == [] {
      assert a + b == a;
    } else {
      var front, last := b[..|b| - 1], b[|b| - 1];
      assert b == front + [last];
      Regrouped(a, front, [last]);
      WrapAllConcat(a, front, w, limit);
      WrapAllOne(a + front, last, w, limit);
      WrapAllOne(front, last, w, limit);
      Regrouped(WrapAll(a, w, limit), WrapAll(front, w, limit), WrapParagraph(last, w, limit));
    }
  }

  lemma WrapAllHas(before: seq<string>, paragraph: string, after: seq<string>, word: string, w: Metric, limit: int)
    requires limit >= 0 && StandsIn(WrapParagraph(paragraph, w, limit), word)
    ensures StandsIn(WrapAll(before + [paragraph] + after, w, limit), word)
  {
    WrapAllConcat(before + [paragraph], after, w, limit);
    WrapAllOne(before, paragraph, w, limit);
    StandsInEither(WrapAll(before, w, limit), WrapParagraph(paragraph, w, limit), word);
    StandsInEither(WrapAll(before + [paragraph], w, limit), WrapAll(after, w, limit), word);
  }

  lemma Around(paragraphs: seq<string>, m: nat)
    requires m < |paragraphs|
    ensures paragraphs == paragraphs[..m] + [paragraphs[m]] + paragraphs[m + 1..]
  {
  }

  lemma ParagraphHas(paragraph: string, word: string, w: Metric, limit: int)
    requires limit >= 0 && word in Words(paragraph) && Inked(word) && Fits(word, w, limit)
    ensures StandsIn(WrapParagraph(paragraph, w, limit), word)
  {
    PackPlaces(Words(paragraph), word, w, limit);
    PlacedFlushed(Pack(Words(paragraph), w, limit), word);
  }

  /** Every maximal run without whitespace that fits the column stands unbroken in a line. */
  lemma WordsStandWhole(before: string, word: string, after: string, w: Metric, limit: int)
    requires limit >= 0 && Run(before, word, after) && Fits(word, w, limit)
    ensures StandsIn(Wrap(before + word + after, w, limit), word)
  {
    var text := before + word + after;
    var m, front, rest := RunInParagraph(before, word, after);
    RunIsWord(front, word, rest);
    ParagraphHas(Paragraphs(text)[m], word, w, limit);
    Around(Paragraphs(text), m);
    WrapAllHas(Paragraphs(text)[..m], Paragraphs(text)[m], Paragraphs(text)[m + 1..], word, w, limit);
  }

  // ------------------------------------------------ the property wrapper

  lemma AddWordPlaces(p: Packing, next: string, word: string, w: Metric, limit: int)
    requires Inked(word) && Fits(word, w, limit) && (Placed(p, word) || next == word)
    ensures Placed(AddWord(p, next, w, limit), word)
  {
    var candidate := Candidate(p.current, next);
    if Fits(candidate, w, limit) {
      assert AddWord(p, next, w, limit) == Packing(p.lines + [], candidate) && p.lines + [] == p.lines;
      if next == word {
        CandidateStands(p.current, word);
      } else {
        PlacedGrows(p, next, word);
      }
    } else if p.current == "" {
      var (pieces, rest) := Trim(candidate, w, limit);
      PlacedBehind(p, pieces, rest, word);
      assert p.Flushed() == p.lines;
    } else if next == word {
      StandsLast("", word);
    } else {
      PlacedBehind(p, [], next, word);
      assert p.Flushed() + [] == p.lines + [p.current];
    }
  }

  lemma {:induction false} PackWordsPlaces(words: seq<string>, word: string, w: Metric, limit: int)
    requires word in words && Inked(word) && Fits(word, w, limit)
    ensures Placed(PackWords(words, w, limit), word)
  {
    var front, last := words[..|words| - 1], words[|words| - 1];
    assert words == front + [last];
    if last != word {
      PackWordsPlaces(front, word, w, limit);
    }
    AddWordPlaces(PackWords(front, w, limit), last, word, w, limit);
  }

  lemma WrapEachOne(front: seq<string>, last: string, w: Metric, limit: int)
    ensures WrapEach(front + [last], w, limit) == WrapEach(front, w, limit) + WrapOne(last, w, limit)
  {
    assert (front + [last])[..|front|] == front;
  }

  lemma {:induction false} WrapEachConcat(a: seq<string>, b: seq<string>, w: Metric, limit: int)
    ensures WrapEach(a + b, w, limit) == WrapEach(a, w, limit) + WrapEach(b, w, limit)
  {
    if b == [] {
      assert a + b == a;
    } else {
      var front, last := b[..|b| - 1], b[|b| - 1];
      assert b == front + [last];
      Regrouped(a, front, [last]);
      WrapEachConcat(a, front, w, limit);
      WrapEachOne(a + front, last, w, limit);
      WrapEachOne(front, last, w, limit);
      Regrouped(WrapEach(a, w, limit), WrapEach(front, w, limit), WrapOne(last, w, limit));
    }
  }

  lemma WrapEachHas(before: seq<string>, paragraph: string, after: seq<string>, word: string, w: Metric, limit: int)
    requires StandsIn(WrapOne(paragraph, w, limit), word)
    ensures StandsIn(WrapEach(before + [paragraph] + after, w, limit), word)
  {
    WrapEachConcat(before + [paragraph], after, w, limit);
    WrapEachOne(before, paragraph, w, limit);
    StandsInEither(WrapEach(before, w, limit), WrapOne(paragraph, w, limit), word);
    StandsInEither(WrapEach(before + [paragraph], w, limit), WrapEach(after, w, limit), word);
  }

  lemma OneHas(paragraph: string, word: string, w: Metric, limit: int)
    requires word in Words(paragraph) && Inked(word) && Fits(word, w, limit)
    ensures StandsIn(WrapOne(paragraph, w, limit), word)
  {
    PackWordsPlaces(Words(paragraph), word, w, limit);
    PlacedFlushed(PackWords(Words(paragraph), w, limit), word);
  }

  /** So it does in the property wrapper's lines, for every width. */
  lemma WordsStandWholeEither(before: string, word: string, after: string, w: Metric, limit: int)
    requires Run(before, word, after) && Fits(word, w, limit)
    ensures StandsIn(WrapEach(Paragraphs(before + word + after), w, limit), word)
  {
    var text := before + word + after;
    var m, front, rest := RunInParagraph(before, word, after);
    RunIsWord(front, word, rest);
    OneHas(Paragraphs(text)[m], word, w, limit);
    Around(Paragraphs(text), m);
    WrapEachHas(Paragraphs(text)[..m], Paragraphs(text)[m], Paragraphs(text)[m + 1..], word, w, limit);
  }

  // ------------------------------------------------------ tidy paragraphs

  /** Words with one blank between them, and no other whitespace. */
  predicate Tidy(s: string) {
    && s != "" && !Space(s[0]) && !Space(s[|s| - 1])
    && (forall i :: 0 <= i < |s| && Space(s[i]) ==> s[i] == ' ')
    && (forall i :: 0 < i < |s| && Space(s[i]) ==> !Space(s[i - 1]))
  }

  lemma {:induction false} TidyParagraph(s: string)
    requires forall i :: 0 <= i < |s| ==> s[i] != '\n'
    ensures Paragraphs(s) == [s]
  {
    if s != "" {
      TidyParagraph(s[1..]);
      assert s == [s[0]] + s[1..];
    }
  }

  lemma {:induction false} JoinFirst(word: string, words: seq<string>)
    requires words != []
    ensures Join([word] + words) == word + " " + Join(words)
  {
    var last := |words| - 1;
    assert ([word] + words)[..|words|] == [word] + words[..last];
    if last > 0 {
      JoinFirst(word, words[..last]);
    }
  }

  lemma TidyRest(s: string, k: nat)
    requires Tidy(s) && k < |s| && Space(s[k])
    ensures k + 1 < |s| && Tidy(s[k + 1..]) && s[k] == ' '
  {
    var rest := s[k + 1..];
    assert forall i :: 0 <= i < |rest| ==> rest[i] == s[k + 1 + i];
  }

  /** A tidy text is its words joined by blanks. */
  lemma {:induction false} TidyJoins(s: string)
    requires Tidy(s)
    ensures Words(s) != [] && Join(Words(s)) == s
    decreases |s|
  {
    var k := WordLength(s);
    var word, rest := s[..k], s[k..];
    assert s == word + rest;
    FirstWord(word, rest);
    if rest != "" {
      var others := s[k + 1..];
      TidyRest(s, k);
      assert rest == [' '] + others;
      SkipSpace(' ', others);
      TidyJoins(others);
      JoinFirst(word, Words(others));
      Assoc(word, " ", others);
    }
  }

  lemma FrontFits(words: seq<string>, w: Metric, limit: int)
    requires |words| > 1 && Fits(Join(words), w, limit)
    ensures Fits(Join(words[..|words| - 1]), w, limit)
    ensures Join(words) == Join(words[..|words| - 1]) + " " + words[|words| - 1]
  {
    var front, last := words[..|words| - 1], words[|words| - 1];
    WidthConcat(Join(front) + " ", last, w);
    WidthConcat(Join(front), " ", w);
  }

  /** Words that fit one line together stay on it. */
  lemma {:induction false} PackTogether(words: seq<string>, w: Metric, limit: int)
    requires limit >= 0 && words != [] && Fits(Join(words), w, limit)
    requires forall i :: 0 <= i < |words| ==> Inked(words[i])
    ensures Pack(words, w, limit) == Packing([], Join(words))
  {
    if |words| == 1 {
      assert words == [] + [words[0]] && words[..0] == [];
    } else {
      var front := words[..|words| - 1];
      FrontFits(words, w, limit);
      PackTogether(front, w, limit);
      JoinNotEmpty(front);
    }
  }

  lemma {:induction false} PackWordsTogether(words: seq<string>, w: Metric, limit: int)
    requires words != [] && Fits(Join(words), w, limit)
    requires forall i :: 0 <= i < |words| ==> Inked(words[i])
    ensures PackWords(words, w, limit) == Packing([], Join(words))
  {
    if |words| == 1 {
      assert words == [] + [words[0]] && words[..0] == [];
    } else {
      var front := words[..|words| - 1];
      FrontFits(words, w, limit);
      PackWordsTogether(front, w, limit);
      JoinNotEmpty(front);
    }
  }

  lemma OnlyParagraph(text: string, w: Metric, limit: int)
    requires limit >= 0
    ensures WrapAll([text], w, limit) == WrapParagraph(text, w, limit)
    ensures WrapEach([text], w, limit) == WrapOne(text, w, limit)
  {
    WrapAllOne([], text, w, limit);
    WrapEachOne([], text, w, limit);
    assert [] + [text] == [text];
  }

  /** A tidy text that fits the column comes back from either wrapper as that one line. */
  lemma TidyIsOneLine(text: string, w: Metric, limit: int)
    requires limit >= 0 && Tidy(text) && Fits(text, w, limit)
    ensures Wrap(text, w, limit) == [text] && WrapEach(Paragraphs(text), w, limit) == [text]
  {
    TidyParagraph(text);
    TidyJoins(text);
    PackTogether(Words(text), w, limit);
    PackWordsTogether(Words(text), w, limit);
    assert !Blank(text) by { assert !Space(text[0]); }
    OnlyParagraph(text, w, limit);
  }

  // ---------------------------------------------------------- line breaks

  lemma BreakParagraphs(a: string, b: string)
    ensures Paragraphs(a + "\n" + b) == Paragraphs(a) + Paragraphs(b)
  {
    var all := Paragraphs(a);
    ParagraphsConcat(a + "\n", b);
    ParagraphsConcat(a, "\n");
    OneCharacter('\n');
    assert all[|all| - 1] + "" == all[|all| - 1] && "" + Paragraphs(b)[0] == Paragraphs(b)[0];
    assert Paragraphs(a + "\n") == all + [""];
  }

  /** A line feed always ends a line: what is before it and what is behind it are wrapped by themselves. */
  lemma BreaksKept(a: string, b: string, w: Metric, limit: int)
    requires limit >= 0
    ensures Wrap(a + "\n" + b, w, limit) == Wrap(a, w, limit) + Wrap(b, w, limit)
    ensures WrapEach(Paragraphs(a + "\n" + b), w, limit)
            == WrapEach(Paragraphs(a), w, limit) + WrapEach(Paragraphs(b), w, limit)
  {
    BreakParagraphs(a, b);
    WrapAllConcat(Paragraphs(a), Paragraphs(b), w, limit);
    WrapEachConcat(Paragraphs(a), Paragraphs(b), w, limit);
  }

  /** A blank line is one empty line, in both. */
  lemma BlankIsEmptyLine(text: string, w: Metric, limit: int)
    requires limit >= 0 && Blank(text) && '\n' !in text
    ensures Wrap(text, w, limit) == [""] && WrapEach(Paragraphs(text), w, limit) == [""]
  {
    TidyParagraph(text);
    OnlyParagraph(text, w, limit);
  }
}
