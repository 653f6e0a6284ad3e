/**
 * Character classes of the line-shape patterns and the UTF-8 byte length
 * that every size counter of the analyser is measured in.
 *
 * The patterns use `\w`, `\s` and `\d`; here they are the ASCII members of
 * those classes (letters, digits and `_`; the ten ASCII characters
 * `str.isspace` accepts; `0`-`9`).
 */
module Text {

  /** `\w`: a letter, a digit or the underscore. */
  predicate IsWordChar(c: char) {
    ('a' <= c <= 'z') || ('A' <= c <= 'Z') || ('0' <= c <= '9') || c == '_'
  }

  /**
   * `\s`: space, tab, line feed, carriage return, vertical tab, form feed,
   * and the file, group, record and unit separators U+001C-U+001F.
   */
  predicate IsSpace(c: char) {
    c == ' ' || c == '\t' || c == '\n' || c == '\r' || c == '\U{B}' || c == '\U{C}'
    || ('\U{1C}' <= c <= '\U{1F}')
  }

  /** `\d`: a decimal digit. */
  predicate IsDigit(c: char) {
    '0' <= c <= '9'
  }

  /** `[\w\d,-]`: the characters of the line-range prefix of a standalone command. */
  predicate IsCommandIdChar(c: char) {
    IsWordChar(c) || c == ',' || c == '-'
  }

  predicate IsAscii(c: char) {
    c as int < 0x80
  }

  /** Number of bytes UTF-8 spends on one Unicode scalar value. */
  function Utf8Width(c: char): (w: nat)
    ensures 1 <= w <= 4
    ensures w == 1 <==> IsAscii(c)
  {
    if c as int < 0x80 then 1
    else if c as int < 0x800 then 2
    else if c as int < 0x1_0000 then 3
    else 4
  }

  /** `len(s.encode('utf-8'))`: the byte length of `s` in UTF-8. */
  function Utf8Length(s: string): (n: nat)
    ensures |s| <= n <= 4 * |s|
  {
    if s == [] then 0 else Utf8Length(s[..|s| - 1]) + Utf8Width(s[|s| - 1])
  }

  /** The byte length of a concatenation is the sum of the byte lengths. */
  lemma {:induction false} Utf8LengthAppend(a: string, b: string)
    ensures Utf8Length(a + b) == Utf8Length(a) + Utf8Length(b)
    decreases |b|
  {
    if b == [] {
      assert a + b == a;
    } else {
      var b' := b[..|b| - 1];
      assert (a + b)[..|a + b| - 1] == a + b';
      Utf8LengthAppend(a, b');
    }
  }

  /** A string of ASCII characters takes exactly one byte per character. */
  lemma {:induction false} Utf8LengthAscii(s: string)
    requires forall k :: 0 <= k < |s| ==> IsAscii(s[k])
    ensures Utf8Length(s) == |s|
  {
    if s != [] {
      Utf8LengthAscii(s[..|s| - 1]);
    }
  }

  /** The characters the patterns treat specially are all single-byte. */
  lemma WordCharsAreAscii(c: char)
    ensures IsWordChar(c) ==> IsAscii(c)
    ensures IsSpace(c) ==> IsAscii(c) && !IsWordChar(c)
    ensures IsDigit(c) ==> IsWordChar(c)
  {
  }
}
