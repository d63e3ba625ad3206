/** The property certificate's word wrap. It hard-splits an over-wide word only where a paragraph starts. */
module PropertyWrap {
  import opened Texts
  import opened LineWrap

  /** Split the text under way until it fits or is a single character. */
  function Trim(current: string, w: Metric, limit: int): (seq<string>, string)
    decreases |current|
  {
    if Fits(current, w, limit) || |current| <= 1 then ([], current)
    else
      var cut := Cut(current, |current| - 1, w, limit);
      var (pieces, rest) := Trim(current[cut..], w, limit);
      ([current[..cut]] + pieces, rest)
  }

  function AddWord(p: Packing, word: string, w: Metric, limit: int): Packing {
    var candidate := Candidate(p.current, word);
    if Fits(candidate, w, limit) || p.current == "" then
      var (pieces, rest) := Trim(candidate, w, limit);
      Packing(p.lines + pieces, rest)
    else
      Packing(p.lines + [p.current], word)
  }

  function PackWords(words: seq<string>, w: Metric, limit: int): Packing {
    if words == [] then Packing([], "")
    else AddWord(PackWords(words[..|words| - 1], w, limit), words[|words| - 1], w, limit)
  }

  function WrapOne(paragraph: string, w: Metric, limit: int): seq<string> {
    if Words(paragraph) == [] then [""] else PackWords(Words(paragraph), w, limit).Flushed()
  }

  function WrapEach(paragraphs: seq<string>, w: Metric, limit: int): seq<string> {
    if paragraphs == [] then []
    else WrapEach(paragraphs[..|paragraphs| - 1], w, limit) + WrapOne(paragraphs[|paragraphs| - 1], w, limit)
  }

  lemma WrapEachStep(paragraphs: seq<string>, i: nat, w: Metric, limit: int)
    requires i < |paragraphs|
    ensures WrapEach(paragraphs[..i + 1], w, limit)
            == WrapEach(paragraphs[..i], w, limit) + WrapOne(paragraphs[i], w, limit)
  {
    assert paragraphs[..i + 1][..i] == paragraphs[..i];
  }

  /** Unlike the escrow wrapper, this one returns for every width. */
  method WrapLines(text: string, w: Metric, limit: int) returns (lines: seq<string>)
    ensures lines == WrapEach(Paragraphs(text), w, limit)
  {
    lines := [];
    var paragraphs := Paragraphs(text);
    for i := 0 to |paragraphs|
      invariant lines == WrapEach(paragraphs[..i], w, limit)
    {
      WrapEachStep(paragraphs, i, w, limit);
      var words := Words(paragraphs[i]);
      if words == [] {
        lines := lines + [""];
      } else {
        var wrapped := PackLines(words, w, limit);
        lines := lines + wrapped;
      }
    }
    assert paragraphs[..|paragraphs|] == paragraphs;
  }

  method PackLines(words: seq<string>, w: Metric, limit: int) returns (lines: seq<string>)
    ensures lines == PackWords(words, w, limit).Flushed()
  {
    lines := [];
    var current := "";
    for k := 0 to |words|
      invariant PackWords(words[..k], w, limit) == Packing(lines, current)
    {
      PackWordsStep(words, k, w, limit);
      var candidate := Candidate(current, words[k]);
      if Fits(candidate, w, limit) || current == "" {
        var pieces;
        pieces, current := TrimLine(candidate, w, limit);
        lines := lines + pieces;
      } else {
        lines := lines + [current];
        current := words[k];
      }
    }
    assert words[..|words|] == words;
    if current != "" {
      lines := lines + [current];
    }
  }

  lemma PackWordsStep(words: seq<string>, k: nat, w: Metric, limit: int)
    requires k < |words|
    ensures PackWords(words[..k + 1], w, limit) == AddWord(PackWords(words[..k], w, limit), words[k], w, limit)
  {
    assert words[..k + 1][..k] == words[..k];
  }

  method TrimLine(whole: string, w: Metric, limit: int) returns (pieces: seq<string>, current: string)
    ensures pieces == Trim(whole, w, limit).0 && current == Trim(whole, w, limit).1
  {
    pieces, current := [], whole;
    while !Fits(current, w, limit) && |current| > 1
      invariant Trim(whole, w, limit).0 == pieces + Trim(current, w, limit).0
      invariant Trim(whole, w, limit).1 == Trim(current, w, limit).1
      decreases |current|
    {
      var cut := |current| - 1;
      while cut > 1 && !Fits(current[..cut], w, limit)
        invariant 0 < cut < |current|
        invariant Cut(current, |current| - 1, w, limit) == Cut(current, cut, w, limit)
      {
        cut := cut - 1;
      }
      TrimStep(current, cut, w, limit);
      assert pieces + Trim(current, w, limit).0 == pieces + [current[..cut]] + Trim(current[cut..], w, limit).0;
      pieces := pieces + [current[..cut]];
      current := current[cut..];
    }
  }

  lemma TrimStep(current: string, cut: nat, w: Metric, limit: int)
    requires !Fits(current, w, limit) && |current| > 1 && cut == Cut(current, |current| - 1, w, limit)
    ensures 0 < cut < |current|
    ensures Trim(current, w, limit).0 == [current[..cut]] + Trim(current[cut..], w, limit).0
    ensures Trim(current, w, limit).1 == Trim(current[cut..], w, limit).1
  {
  }

  // --------------------------------------------------------- every line

  lemma {:induction false} TrimNarrow(current: string, w: Metric, limit: int)
    requires current != ""
    ensures AllNarrow(Trim(current, w, limit).0, w, limit)
    ensures Narrow(Trim(current, w, limit).1, w, limit) && Trim(current, w, limit).1 != ""
    decreases |current|
  {
    if !Fits(current, w, limit) && |current| > 1 {
      var cut := Cut(current, |current| - 1, w, limit);
      TrimStep(current, cut, w, limit);
      TrimNarrow(current[cut..], w, limit);
    }
  }

  /** The words after the first are narrow enough for a line of their own. */
  predicate LaterNarrow(words: seq<string>, w: Metric, limit: int) {
    forall i :: 0 < i < |words| ==> Narrow(words[i], w, limit)
  }

  lemma CandidateWider(current: string, word: string, w: Metric)
    ensures Width(current, w) <= Width(Candidate(current, word), w)
    ensures Width(word, w) <= Width(Candidate(current, word), w)
  {
    if current != "" {
      WidthConcat(current + " ", word, w);
      WidthConcat(current, " ", w);
    }
  }

  lemma {:induction false} PackNarrowIff(words: seq<string>, w: Metric, limit: int)
    requires words != [] && forall i :: 0 <= i < |words| ==> words[i] != ""
    ensures var p := PackWords(words, w, limit);
      p.current != "" && (AllNarrow(p.lines, w, limit) && Narrow(p.current, w, limit) <==> LaterNarrow(words, w, limit))
  {
    var n := |words| - 1;
    if n == 0 {
      assert PackWords(words, w, limit) == AddWord(PackWords([], w, limit), words[0], w, limit);
      TrimNarrow(words[0], w, limit);
    } else {
      var p := PackWords(words[..n], w, limit);
      PackNarrowIff(words[..n], w, limit);
      CandidateWider(p.current, words[n], w);
      LaterStep(words, w, limit);
      AddNarrowIff(p, words[n], w, limit);
    }
  }

  lemma LaterStep(words: seq<string>, w: Metric, limit: int)
    requires |words| > 1
    ensures LaterNarrow(words, w, limit)
       <==> LaterNarrow(words[..|words| - 1], w, limit) && Narrow(words[|words| - 1], w, limit)
  {
    assert forall i :: 0 <= i < |words| - 1 ==> words[..|words| - 1][i] == words[i];
  }

  lemma AddNarrowIff(p: Packing, word: string, w: Metric, limit: int)
    requires p.current != "" && word != ""
    requires Width(p.current, w) <= Width(Candidate(p.current, word), w)
    requires Width(word, w) <= Width(Candidate(p.current, word), w)
    ensures var q := AddWord(p, word, w, limit);
      && q.current != ""
      && (AllNarrow(q.lines, w, limit) && Narrow(q.current, w, limit)
          <==> AllNarrow(p.lines, w, limit) && Narrow(p.current, w, limit) && Narrow(word, w, limit))
  {
    var q := AddWord(p, word, w, limit);
    if Fits(Candidate(p.current, word), w, limit) {
      assert q.lines == p.lines;
    } else {
      assert q.lines == p.lines + [p.current];
      assert AllNarrow(q.lines, w, limit) <==> AllNarrow(p.lines, w, limit) && Narrow(p.current, w, limit) by {
        assert q.lines[|p.lines|] == p.current;
        assert forall i :: 0 <= i < |p.lines| ==> q.lines[i] == p.lines[i];
      }
    }
  }

  lemma FlushedNarrowIff(p: Packing, w: Metric, limit: int)
    requires p.current != ""
    ensures AllNarrow(p.Flushed(), w, limit) <==> AllNarrow(p.lines, w, limit) && Narrow(p.current, w, limit)
  {
    assert p.Flushed()[|p.lines|] == p.current;
    assert forall i :: 0 <= i < |p.lines| ==> p.Flushed()[i] == p.lines[i];
  }

  predicate AllLaterNarrow(paragraphs: seq<string>, w: Metric, limit: int) {
    forall i :: 0 <= i < |paragraphs| ==> LaterNarrow(Words(paragraphs[i]), w, limit)
  }

  lemma NarrowConcat(a: seq<string>, b: seq<string>, w: Metric, limit: int)
    ensures AllNarrow(a + b, w, limit) <==> AllNarrow(a, w, limit) && AllNarrow(b, w, limit)
  {
    assert forall i :: 0 <= i < |a| ==> (a + b)[i] == a[i];
    assert forall i :: 0 <= i < |b| ==> (a + b)[|a| + i] == b[i];
  }

  lemma OneNarrowIff(paragraph: string, w: Metric, limit: int)
    requires limit >= 0
    ensures AllNarrow(WrapOne(paragraph, w, limit), w, limit) <==> LaterNarrow(Words(paragraph), w, limit)
  {
    var words := Words(paragraph);
    if words != [] {
      PackNarrowIff(words, w, limit);
      FlushedNarrowIff(PackWords(words, w, limit), w, limit);
    }
  }

  lemma LaterAppend(front: seq<string>, last: string, w: Metric, limit: int)
    ensures AllLaterNarrow(front + [last], w, limit)
       <==> AllLaterNarrow(front, w, limit) && LaterNarrow(Words(last), w, limit)
  {
    assert (front + [last])[|front|] == last;
    assert forall i :: 0 <= i < |front| ==> (front + [last])[i] == front[i];
  }

  /** "Over-long single words are hard-split" holds exactly where no over-wide word of more than one
      character follows another word of its paragraph: only then does every line fit or hold a single
      character. */
  lemma {:induction false} LinesFitIff(paragraphs: seq<string>, w: Metric, limit: int)
    requires limit >= 0
    ensures AllNarrow(WrapEach(paragraphs, w, limit), w, limit) <==> AllLaterNarrow(paragraphs, w, limit)
  {
    if paragraphs != [] {
      var front, last := paragraphs[..|paragraphs| - 1], paragraphs[|paragraphs| - 1];
      assert paragraphs == front + [last];
      calc {
        AllNarrow(WrapEach(paragraphs, w, limit), w, limit);
      ==  { NarrowConcat(WrapEach(front, w, limit), WrapOne(last, w, limit), w, limit); }
        AllNarrow(WrapEach(front, w, limit), w, limit) && AllNarrow(WrapOne(last, w, limit), w, limit);
      ==  { LinesFitIff(front, w, limit); OneNarrowIff(last, w, limit); }
        AllLaterNarrow(front, w, limit) && LaterNarrow(Words(last), w, limit);
      ==  { LaterAppend(front, last, w, limit); }
        AllLaterNarrow(paragraphs, w, limit);
      }
    }
  }

  // ----------------------------------------------------- nothing is lost

  lemma {:induction false} TrimInk(current: string, w: Metric, limit: int)
    ensures InkOf(Trim(current, w, limit).0) + Ink(Trim(current, w, limit).1) == Ink(current)
    decreases |current|
  {
    if Fits(current, w, limit) || |current| <= 1 {
      assert InkOf([]) + Ink(current) == Ink(current);
    } else {
      var cut := Cut(current, |current| - 1, w, limit);
      var (pieces, rest) := Trim(current[cut..], w, limit);
      TrimStep(current, cut, w, limit);
      TrimInk(current[cut..], w, limit);
      InkOfFirst(current[..cut], pieces);
      Assoc(Ink(current[..cut]), InkOf(pieces), Ink(rest));
      InkConcat(current[..cut], current[cut..]);
      assert current == current[..cut] + current[cut..];
    }
  }

  lemma AddWordInk(p: Packing, word: string, w: Metric, limit: int)
    ensures InkOf(AddWord(p, word, w, limit).Flushed()) == InkOf(p.Flushed()) + Ink(word)
  {
    FlushedInk(AddWord(p, word, w, limit));
    FlushedInk(p);
    var candidate := Candidate(p.current, word);
    if Fits(candidate, w, limit) || p.current == "" {
      var (pieces, rest) := Trim(candidate, w, limit);
      TrimInk(candidate, w, limit);
      CandidateInk(p.current, word);
      InkOfConcat(p.lines, pieces);
      Assoc(InkOf(p.lines), InkOf(pieces), Ink(rest));
      Assoc(InkOf(p.lines), Ink(p.current), Ink(word));
    } else {
      InkOfConcat(p.lines, [p.current]);
      InkOfOne(p.current);
    }
  }

  lemma {:induction false} PackWordsInk(words: seq<string>, w: Metric, limit: int)
    ensures InkOf(PackWords(words, w, limit).Flushed()) == InkOf(words)
  {
    if words != [] {
      PackWordsInk(words[..|words| - 1], w, limit);
      AddWordInk(PackWords(words[..|words| - 1], w, limit), words[|words| - 1], w, limit);
    }
  }

  lemma {:induction false} WrapEachInk(paragraphs: seq<string>, w: Metric, limit: int)
    ensures InkOf(WrapEach(paragraphs, w, limit)) == InkOf(paragraphs)
  {
    if paragraphs != [] {
      var front, last := paragraphs[..|paragraphs| - 1], paragraphs[|paragraphs| - 1];
      WrapEachInk(front, w, limit);
      InkOfConcat(WrapEach(front, w, limit), WrapOne(last, w, limit));
      PackWordsInk(Words(last), w, limit);
      WordsInk(last);
      if Words(last) == [] {
        InkOfOne("");
      }
    }
  }

  /** This wrap, too, loses, adds and reorders nothing but whitespace, whatever the width. */
  lemma NothingLostEither(text: string, w: Metric, limit: int)
    ensures InkOf(WrapEach(Paragraphs(text), w, limit)) == Ink(text)
  {
    WrapEachInk(Paragraphs(text), w, limit);
    ParagraphsInk(text);
  }
}
