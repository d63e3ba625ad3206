/** PDF literal strings: how the writers escape text, and a parser that follows section 7.3.4.2 of
    ISO 32000-1:2008. A byte is written as the character with its code. */
module PdfStrings {
  import opened Outcomes

  // ------------------------------------------------------------ escaping

  /** `bytes.replace` with a one-byte pattern. */
  function Replace(s: string, c: char, with: string): string {
    if s == "" then "" else (if s[0] == c then with else [s[0]]) + Replace(s[1..], c, with)
  }

  /** What the writers do: three replacements, one after the other. */
  function EscapeByReplacing(s: string): string {
    Replace(Replace(Replace(s, '\\', "\\\\"), '(', "\\("), ')', "\\)")
  }

  predicate Special(c: char) {
    c == '\\' || c == '(' || c == ')'
  }

  function Escaped(c: char): string {
    if Special(c) then ['\\', c] else [c]
  }

  /** One pass: a backslash in front of every backslash and parenthesis. */
  function Escape(s: string): string {
    if s == "" then "" else Escaped(s[0]) + Escape(s[1..])
  }

  lemma {:induction false} ReplaceConcat(a: string, b: string, c: char, with: string)
    ensures Replace(a + b, c, with) == Replace(a, c, with) + Replace(b, c, with)
  {
    if a == "" {
      assert a + b == b;
    } else {
      assert (a + b)[1..] == a[1..] + b;
      ReplaceConcat(a[1..], b, c, with);
    }
  }

  lemma ReplaceOne(x: char, c: char, with: string)
    ensures Replace([x], c, with) == if x == c then with else [x]
  {
  }

  lemma EscapedByReplacing(x: char)
    ensures EscapeByReplacing([x]) == Escaped(x)
  {
    ReplaceOne(x, '\\', "\\\\");
    ReplaceOne(x, '(', "\\(");
    ReplaceOne(x, ')', "\\)");
    ReplacePair('\\', '\\', '(', "\\(");
    ReplacePair('\\', '\\', ')', "\\)");
    ReplacePair('\\', '(', ')', "\\)");
  }

  lemma ReplacePair(x: char, y: char, c: char, with: string)
    ensures Replace([x, y], c, with) == (if x == c then with else [x]) + (if y == c then with else [y])
  {
    assert [x, y] == [x] + [y];
    ReplaceConcat([x], [y], c, with);
    ReplaceOne(x, c, with);
    ReplaceOne(y, c, with);
  }

  /** No replacement disturbs what an earlier one wrote: together they escape every byte once. */
  lemma {:induction false} ReplacingIsEscaping(s: string)
    ensures EscapeByReplacing(s) == Escape(s)
  {
    if s != "" {
      var first, others := [s[0]], s[1..];
      assert s == first + others;
      ReplaceConcat(first, others, '\\', "\\\\");
      ReplaceConcat(Replace(first, '\\', "\\\\"), Replace(others, '\\', "\\\\"), '(', "\\(");
      ReplaceConcat(Replace(Replace(first, '\\', "\\\\"), '(', "\\("),
                    Replace(Replace(others, '\\', "\\\\"), '(', "\\("), ')', "\\)");
      EscapedByReplacing(s[0]);
      ReplacingIsEscaping(others);
    }
  }

  // ------------------------------------------------------------- parsing

  predicate Octal(c: char) {
    '0' <= c <= '7'
  }

  /** The length of the octal code at the front of `s`: at most three digits. */
  function OctalRun(s: string): (k: nat)
    ensures k <= 3 && k <= |s|
    ensures forall i :: 0 <= i < k ==> Octal(s[i])
    ensures |s| > 0 && Octal(s[0]) ==> k > 0
  {
    if |s| == 0 || !Octal(s[0]) then 0
    else if |s| == 1 || !Octal(s[1]) then 1
    else if |s| == 2 || !Octal(s[2]) then 2
    else 3
  }

  function OctalDigit(c: char): nat
    requires Octal(c)
  {
    (c - '0') as nat
  }

  function OctalValue(s: string): nat
    requires forall i :: 0 <= i < |s| ==> Octal(s[i])
  {
    if s == "" then 0 else OctalValue(s[..|s| - 1]) * 8 + OctalDigit(s[|s| - 1])
  }

  /** A parsed string and the text after its closing parenthesis. */
  datatype Literal = Literal(text: string, rest: string)

  function Prepend(text: string, parsed: Option<Literal>): Option<Literal> {
    if parsed.None? then None else Some(Literal(text + parsed.value.text, parsed.value.rest))
  }

  /** What a backslash and this character stand for, when they stand for one byte. */
  function Named(c: char): Option<char> {
    if c == 'n' then Some('\n')
    else if c == 'r' then Some('\r')
    else if c == 't' then Some('\t')
    else if c == 'b' then Some('\U{8}')
    else if c == 'f' then Some('\U{c}')
    else if Special(c) then Some(c)
    else None
  }

  /** Parse from inside a string, `depth` unescaped parentheses deep, to its end. */
  function ParseFrom(s: string, depth: nat): Option<Literal>
    decreases |s|
  {
    if s == "" then None
    else if s[0] == ')' then
      if depth == 0 then Some(Literal("", s[1..])) else Prepend(")", ParseFrom(s[1..], depth - 1))
    else if s[0] == '(' then Prepend("(", ParseFrom(s[1..], depth + 1))
    else if s[0] == '\\' then ParseEscape(s, depth)
    else if s[0] == '\r' then Prepend("\n", ParseFrom(if |s| > 1 && s[1] == '\n' then s[2..] else s[1..], depth))
    else Prepend([s[0]], ParseFrom(s[1..], depth))
  }

  function ParseEscape(s: string, depth: nat): Option<Literal>
    requires s != "" && s[0] == '\\'
    decreases |s|, 0
  {
    var code := OctalRun(s[1..]);
    if |s| == 1 then None
    else if Named(s[1]).Some? then Prepend([Named(s[1]).value], ParseFrom(s[2..], depth))
    else if code > 0 then Prepend([(OctalValue(s[1..][..code]) % 256) as char], ParseFrom(s[1 + code..], depth))
    else if s[1] == '\r' && |s| > 2 && s[2] == '\n' then ParseFrom(s[3..], depth)
    else if s[1] == '\r' || s[1] == '\n' then ParseFrom(s[2..], depth)
    else ParseFrom(s[1..], depth)
  }

  function Parse(s: string): Option<Literal> {
    var _ :- Check(s != "" && s[0] == '(');
    ParseFrom(s[1..], 0)
  }

  // ---------------------------------------------------------- round trip

  /** End-of-line markers inside a string read as one line feed each. */
  function NormaliseEol(s: string): string {
    if s == "" then ""
    else if s[0] == '\r' then "\n" + NormaliseEol(if |s| > 1 && s[1] == '\n' then s[2..] else s[1..])
    else [s[0]] + NormaliseEol(s[1..])
  }

  lemma ParseSpecial(c: char, after: string)
    requires Special(c)
    ensures ParseFrom(['\\', c] + after, 0) == Prepend([c], ParseFrom(after, 0))
  {
    assert (['\\', c] + after)[2..] == after;
  }

  lemma ParsePlain(c: char, after: string)
    requires !Special(c) && c != '\r'
    ensures ParseFrom([c] + after, 0) == Prepend([c], ParseFrom(after, 0))
  {
    assert ([c] + after)[1..] == after;
  }

  lemma ParseReturn(after: string)
    requires after != "" && after[0] != '\n'
    ensures ParseFrom(['\r'] + after, 0) == Prepend("\n", ParseFrom(after, 0))
  {
    assert (['\r'] + after)[1..] == after;
  }

  lemma ParseReturnFeed(after: string)
    ensures ParseFrom(['\r', '\n'] + after, 0) == Prepend("\n", ParseFrom(after, 0))
  {
    assert (['\r', '\n'] + after)[2..] == after;
  }

  lemma EscapeStep(s: string, tail: string)
    requires s != ""
    ensures Escape(s) + tail == Escaped(s[0]) + (Escape(s[1..]) + tail)
  {
  }

  lemma ReturnFeedStays(s: string, tail: string)
    requires |s| > 1 && s[0] == '\r' && s[1] == '\n'
    ensures Escape(s) + tail == ['\r', '\n'] + (Escape(s[2..]) + tail)
  {
    EscapeStep(s, tail);
    EscapeStep(s[1..], tail);
    assert s[1..][1..] == s[2..];
  }

  /** A carriage return with its line feed is parsed as one line feed. */
  lemma ReturnFeedParses(s: string, tail: string)
    requires |s| > 1 && s[0] == '\r' && s[1] == '\n'
    ensures ParseFrom(Escape(s) + tail, 0) == Prepend("\n", ParseFrom(Escape(s[2..]) + tail, 0))
  {
    ReturnFeedStays(s, tail);
    ParseReturnFeed(Escape(s[2..]) + tail);
  }

  lemma LoneReturnParses(s: string, tail: string)
    requires s != "" && s[0] == '\r' && (|s| > 1 ==> s[1] != '\n') && tail != "" && tail[0] != '\n'
    ensures ParseFrom(Escape(s) + tail, 0) == Prepend("\n", ParseFrom(Escape(s[1..]) + tail, 0))
  {
    EscapeStep(s, tail);
    if |s| > 1 {
      EscapeStep(s[1..], tail);
    }
    ParseReturn(Escape(s[1..]) + tail);
  }

  lemma {:induction false} EscapedParses(s: string, rest: string)
    ensures ParseFrom(Escape(s) + (")" + rest), 0) == Some(Literal(NormaliseEol(s), rest))
    decreases |s|
  {
    var tail := ")" + rest;
    if s == "" {
      assert Escape(s) + tail == tail && tail[1..] == rest;
    } else if s[0] == '\r' && |s| > 1 && s[1] == '\n' {
      EscapedParses(s[2..], rest);
      ReturnFeedParses(s, tail);
    } else {
      EscapedParses(s[1..], rest);
      if s[0] == '\r' {
        LoneReturnParses(s, tail);
      } else {
        EscapeStep(s, tail);
        if Special(s[0]) {
          ParseSpecial(s[0], Escape(s[1..]) + tail);
        } else {
          ParsePlain(s[0], Escape(s[1..]) + tail);
        }
      }
    }
  }

  lemma {:induction false} NormaliseIdentity(s: string)
    ensures NormaliseEol(s) == s <==> '\r' !in s
    ensures '\r' !in NormaliseEol(s)
    decreases |s|
  {
    if s != "" {
      assert s == [s[0]] + s[1..];
      if s[0] == '\r' {
        NormaliseIdentity(if |s| > 1 && s[1] == '\n' then s[2..] else s[1..]);
      } else {
        NormaliseIdentity(s[1..]);
      }
    }
  }

  /** What the writers put between parentheses is read back to its end, never cut short by a parenthesis of
      its own, with line ends normalised. */
  lemma LiteralReadsBack(s: string, rest: string)
    ensures Parse("(" + (EscapeByReplacing(s) + (")" + rest))) == Some(Literal(NormaliseEol(s), rest))
  {
    ReplacingIsEscaping(s);
    EscapedParses(s, rest);
    var written := "(" + (Escape(s) + (")" + rest));
    assert written[1..] == Escape(s) + (")" + rest);
  }

  /** It is read back unchanged exactly when it holds no carriage return, which the writers do not escape. */
  lemma LiteralExactIff(s: string, rest: string)
    ensures Parse("(" + (EscapeByReplacing(s) + (")" + rest))) == Some(Literal(s, rest)) <==> '\r' !in s
  {
    LiteralReadsBack(s, rest);
    NormaliseIdentity(s);
  }
}
