/** Whitespace as the source language's `str.split` and `str.strip` see it, and joining text. */
module Texts {

  predicate Space(c: char) {
    || '\t' <= c <= '\r'
    || '\U{1c}' <= c <= ' '
    || c == '\U{85}' || c == '\U{a0}' || c == '\U{1680}'
    || '\U{2000}' <= c <= '\U{200a}'
    || c == '\U{2028}' || c == '\U{2029}' || c == '\U{202f}' || c == '\U{205f}' || c == '\U{3000}'
  }

  /** By their codes: tab to carriage return, the four separators and the blank, and the wide spaces. */
  lemma SpaceCodes(c: char)
    ensures var code := c as int;
      Space(c) <==> || 9 <= code <= 13 || 28 <= code <= 32 || code == 133 || code == 160 || code == 5760
                    || 8192 <= code <= 8202 || code == 8232 || code == 8233 || code == 8239 || code == 8287
                    || code == 12288
  {
  }

  predicate Blank(s: string) {
    forall i :: 0 <= i < |s| ==> Space(s[i])
  }

  lemma Assoc(a: string, b: string, c: string)
    ensures (a + b) + c == a + (b + c)
  {
  }
}
