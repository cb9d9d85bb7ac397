/** Character classes used by the word statistics accumulator. A Java `char`
    (a UTF-16 code unit) is modelled as a Dafny `char`. */
module Chars {

  /** The separator `String.split(" ")` cuts a line at. */
  const Space: char := ' '

  /** `String.trim` removes leading and trailing characters whose code is at
      most U+0020 (space and every ASCII control character). */
  predicate IsTrimmable(c: char) {
    c <= ' '
  }

  /** The character class `[a-zA-Z0-9]`. */
  predicate IsAsciiAlnum(c: char) {
    ('a' <= c <= 'z') || ('A' <= c <= 'Z') || ('0' <= c <= '9')
  }

  /** The character class `[,.?!:;]`. */
  predicate IsTrailingPunct(c: char) {
    c == ',' || c == '.' || c == '?' || c == '!' || c == ':' || c == ';'
  }

  /** The line terminators of `java.util.regex` when neither UNIX_LINES nor
      DOTALL is set: `.` does not match them and `$` may match before one. */
  predicate IsLineTerminator(c: char) {
    c == '\n' || c == '\r' || c == '\U{0085}' || c == '\U{2028}' || c == '\U{2029}'
  }

  /** Only `\n` and `\r` among the line terminators are trimmable, and no
      character of `[a-zA-Z0-9]` or `[,.?!:;]` is a line terminator. */
  lemma ClassesDisjoint(c: char)
    ensures IsAsciiAlnum(c) ==> !IsLineTerminator(c) && !IsTrimmable(c) && !IsTrailingPunct(c)
    ensures IsTrailingPunct(c) ==> !IsLineTerminator(c) && !IsTrimmable(c)
    ensures IsLineTerminator(c) && IsTrimmable(c) <==> c == '\n' || c == '\r'
  {
  }
}
