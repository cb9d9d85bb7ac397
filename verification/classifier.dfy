/** The word classifier `trimWord`: trim, strip one trailing punctuation mark,
    then accept the result if it ends in an ASCII letter or digit or is a
    single character. */
module Classifier {
  import opened Chars
  import opened Wrappers

  /** The number of leading characters of `s` with code at most U+0020. */
  function LeadingTrimmable(s: string): (n: nat)
    ensures n <= |s|
    ensures forall k :: 0 <= k < n ==> IsTrimmable(s[k])
    ensures n < |s| ==> !IsTrimmable(s[n])
    decreases |s|
  {
    if s != [] && IsTrimmable(s[0]) then 1 + LeadingTrimmable(s[1..]) else 0
  }

  /** The end of `s[lo..hi]` once its trailing characters of code at most
      U+0020 are dropped. */
  function TrimmedEnd(s: string, lo: nat, hi: nat): (j: nat)
    requires lo <= hi <= |s|
    ensures lo <= j <= hi
    ensures forall k :: j <= k < hi ==> IsTrimmable(s[k])
    ensures lo < j ==> !IsTrimmable(s[j - 1])
    decreases hi - lo
  {
    if lo < hi && IsTrimmable(s[hi - 1]) then TrimmedEnd(s, lo, hi - 1) else hi
  }

  /** `s[i..j]` is what `String.trim` leaves of `s`: everything before `i` and
      from `j` on is trimmable, and the kept part neither starts nor ends with a
      trimmable character. */
  ghost predicate IsTrimOf(s: string, i: int, j: int) {
    && 0 <= i <= j <= |s|
    && (forall k :: 0 <= k < i ==> IsTrimmable(s[k]))
    && (forall k :: j <= k < |s| ==> IsTrimmable(s[k]))
    && (i < j ==> !IsTrimmable(s[i]) && !IsTrimmable(s[j - 1]))
  }

  /** Where `String.trim` cuts `s`. */
  function TrimBounds(s: string): (b: (nat, nat))
    ensures IsTrimOf(s, b.0, b.1)
  {
    var i := LeadingTrimmable(s);
    (i, TrimmedEnd(s, i, |s|))
  }

  /** `String.trim`: the part of `s` that `IsTrimOf` describes (see
      `TrimIsTrimOf`). */
  function Trim(s: string): string {
    s[TrimBounds(s).0..TrimBounds(s).1]
  }

  /** The trimmed part of a string is unique: whatever bounds satisfy
      `IsTrimOf` cut out the same text (the empty text when all of `s` is
      trimmable). */
  lemma TrimBoundsUnique(s: string, i: int, j: int, i': int, j': int)
    requires IsTrimOf(s, i, j) && IsTrimOf(s, i', j')
    ensures s[i..j] == s[i'..j']
  {
  }

  /** `Trim` keeps exactly the part `IsTrimOf` describes. */
  lemma TrimIsTrimOf(s: string, i: int, j: int)
    requires IsTrimOf(s, i, j)
    ensures Trim(s) == s[i..j]
  {
    TrimBoundsUnique(s, i, j, TrimBounds(s).0, TrimBounds(s).1);
  }

  /** Trimming twice is trimming once. */
  lemma TrimIdempotent(s: string)
    ensures Trim(Trim(s)) == Trim(s)
  {
    var t := Trim(s);
    if t != [] {
      assert IsTrimOf(t, 0, |t|);
      TrimIsTrimOf(t, 0, |t|);
    } else {
      assert IsTrimOf(t, 0, 0);
      TrimIsTrimOf(t, 0, 0);
    }
  }

  /** Java's `$` without MULTILINE holds at position `i` of `t`: at the end of
      the input, before a final line terminator (but not between `\r` and
      `\n`), or before a final `\r\n`. */
  predicate EndAnchor(t: string, i: int) {
    || i == |t|
    || (0 <= i && i + 1 == |t| && IsLineTerminator(t[i]) && !(t[i] == '\n' && i > 0 && t[i - 1] == '\r'))
    || (0 <= i && i + 2 == |t| && t[i] == '\r' && t[i + 1] == '\n')
  }

  /** The regular expression `[,.?!:;]$` matches the character at `k`. */
  predicate PunctMatchAt(t: string, k: int) {
    0 <= k < |t| && IsTrailingPunct(t[k]) && EndAnchor(t, k + 1)
  }

  /** `[,.?!:;]$` matches at most once in a string, so `replaceAll` removes at
      most one character. */
  lemma AtMostOnePunctMatch(t: string, a: int, b: int)
    requires PunctMatchAt(t, a) && PunctMatchAt(t, b)
    ensures a == b
  {
  }

  /** `t.replaceAll("[,.?!:;]$", "")`: the matched punctuation mark, if any,
      is removed and nothing else changes. */
  function DropTrailingPunct(t: string): (r: string)
    ensures |r| == |t| || |r| + 1 == |t|
  {
    var n := |t|;
    if n >= 1 && IsTrailingPunct(t[n - 1]) then t[..n - 1]
    else if n >= 2 && IsTrailingPunct(t[n - 2]) && IsLineTerminator(t[n - 1]) then t[..n - 2] + t[n - 1..]
    else if n >= 3 && IsTrailingPunct(t[n - 3]) && t[n - 2] == '\r' && t[n - 1] == '\n' then t[..n - 3] + t[n - 2..]
    else t
  }

  /** `DropTrailingPunct` removes exactly the character `[,.?!:;]$` matches,
      and leaves the text unchanged when the expression does not match. */
  lemma DropTrailingPunctSpec(t: string)
    ensures forall k :: PunctMatchAt(t, k) ==> DropTrailingPunct(t) == t[..k] + t[k + 1..]
    ensures (forall k :: !PunctMatchAt(t, k)) ==> DropTrailingPunct(t) == t
  {
    var n := |t|;
    if n >= 1 && IsTrailingPunct(t[n - 1]) {
      assert PunctMatchAt(t, n - 1) && t[..n - 1] == t[..n - 1] + t[n..];
    } else if n >= 2 && IsTrailingPunct(t[n - 2]) && IsLineTerminator(t[n - 1]) {
      assert PunctMatchAt(t, n - 2);
    } else if n >= 3 && IsTrailingPunct(t[n - 3]) && t[n - 2] == '\r' && t[n - 1] == '\n' {
      assert PunctMatchAt(t, n - 3);
    }
  }

  /** `matches(".+[a-zA-Z0-9]")`: at least two characters, none but the last
      a line terminator (`.` does not match those), the last one in
      `[a-zA-Z0-9]`. */
  predicate MatchesWordPattern(p: string) {
    && |p| >= 2
    && (forall i :: 0 <= i < |p| - 1 ==> !IsLineTerminator(p[i]))
    && IsAsciiAlnum(p[|p| - 1])
  }

  /** The text `trimWord` classifies: the trimmed token, with its trailing
      punctuation mark removed when the RAW token is longer than one
      character. */
  function Candidate(word: string): string {
    var t := Trim(word);
    if |word| > 1 then DropTrailingPunct(t) else t
  }

  /** `trimWord`: `Some` of the cleaned word, or `None` where Java returns
      `null`. An accepted word is never empty and is one character long or
      ends in `[a-zA-Z0-9]`; `TrimWordValue` says which word it is. */
  function TrimWord(word: string): (r: Option<string>)
    ensures r.Some? ==> r.value != [] && (|r.value| == 1 || IsAsciiAlnum(r.value[|r.value| - 1]))
    ensures r.Some? <==> |Candidate(word)| == 1 || MatchesWordPattern(Candidate(word))
  {
    var p := Candidate(word);
    if MatchesWordPattern(p) then Some(p)
    else if |p| == 1 then Some(p)
    else None
  }

  /** The word `trimWord` returns is the trimmed token, less the punctuation
      mark the end-anchored pattern matches when the raw token is longer than
      one character, and the trimmed token itself otherwise. */
  lemma TrimWordValue(word: string)
    ensures TrimWord(word).Some? && |word| > 1 ==>
      forall k :: PunctMatchAt(Trim(word), k) ==> TrimWord(word).value == Trim(word)[..k] + Trim(word)[k + 1..]
    ensures TrimWord(word).Some? && (|word| <= 1 || forall k :: !PunctMatchAt(Trim(word), k)) ==>
      TrimWord(word).value == Trim(word)
  {
    DropTrailingPunctSpec(Trim(word));
  }

  /** A clean token: not empty, no trimmable character, no line terminator,
      and either a single character or ending in a letter or digit. */
  predicate Clean(word: string) {
    && word != []
    && (forall i :: 0 <= i < |word| ==> !IsTrimmable(word[i]) && !IsLineTerminator(word[i]))
    && (|word| == 1 || IsAsciiAlnum(word[|word| - 1]))
  }

  /** A clean token is accepted unchanged. */
  lemma CleanWordAccepted(word: string)
    requires Clean(word)
    ensures TrimWord(word) == Some(word)
  {
    assert |word| == 1 || MatchesWordPattern(word);
    TrimOfUntrimmable(word);
    ClassesDisjoint(word[|word| - 1]);
    assert Candidate(word) == word;
  }

  /** A string with no character of code at most U+0020 is its own trim. */
  lemma TrimOfUntrimmable(s: string)
    requires forall i :: 0 <= i < |s| ==> !IsTrimmable(s[i])
    ensures Trim(s) == s
  {
    assert IsTrimOf(s, 0, |s|);
    TrimIsTrimOf(s, 0, |s|);
  }

  /** A clean word followed by one punctuation mark is accepted without the
      mark. */
  lemma PunctuatedWordAccepted(w: string, p: char)
    requires Clean(w)
    requires IsTrailingPunct(p)
    ensures TrimWord(w + [p]) == Some(w)
  {
    var word := w + [p];
    ClassesDisjoint(p);
    assert forall k :: 0 <= k < |word| ==> !IsTrimmable(word[k]);
    TrimOfUntrimmable(word);
    assert word[..|word| - 1] == w;
    assert Candidate(word) == w;
    assert |w| == 1 || MatchesWordPattern(w);
  }

  /** `part` is the clean `word`, possibly followed by one punctuation mark. */
  predicate CleansTo(part: string, word: string) {
    && Clean(word)
    && (part == word || (|part| == |word| + 1 && part[..|word|] == word && IsTrailingPunct(part[|word|])))
  }

  /** A token that `CleansTo` a word is accepted as that word. */
  lemma CleansToAccepted(part: string, word: string)
    requires CleansTo(part, word)
    ensures TrimWord(part) == Some(word)
  {
    if part == word {
      CleanWordAccepted(word);
    } else {
      assert part == word + [part[|word|]];
      PunctuatedWordAccepted(word, part[|word|]);
    }
  }

  /** A token with no ASCII letter or digit is accepted only when what is
      left of it is a single character: runs of symbols such as `***` are not
      words. */
  lemma SymbolRunsRejected(word: string)
    requires forall i :: 0 <= i < |word| ==> !IsAsciiAlnum(word[i])
    ensures TrimWord(word).None? || |TrimWord(word).value| == 1
  {
  }

  /** A token of two or more characters with nothing to trim, whose last
      character is neither a letter or digit, nor punctuation, nor a line
      terminator, is rejected. */
  lemma SymbolRunRejected(word: string)
    requires |word| >= 2
    requires forall i :: 0 <= i < |word| ==> !IsTrimmable(word[i])
    requires !IsAsciiAlnum(word[|word| - 1]) && !IsTrailingPunct(word[|word| - 1])
    requires !IsLineTerminator(word[|word| - 1])
    ensures TrimWord(word) == None
  {
    TrimOfUntrimmable(word);
    assert Candidate(word) == word;
  }

  /** A run of symbols is not a word (`***` in `TextFileReaderTest`). */
  lemma StarsRejected()
    ensures TrimWord("***") == None
  {
    SymbolRunRejected("***");
  }

  /** A lone joining symbol is a word. */
  lemma AmpersandAccepted()
    ensures TrimWord("&") == Some("&")
  {
    CleanWordAccepted("&");
  }

  /** One trailing punctuation mark is stripped, even after a single letter. */
  lemma PunctuationStripped()
    ensures TrimWord("A:") == Some("A")
    ensures TrimWord("Rubbish!") == Some("Rubbish")
  {
    assert "A:" == "A" + [':'];
    PunctuatedWordAccepted("A", ':');
    assert "Rubbish!" == "Rubbish" + ['!'];
    PunctuatedWordAccepted("Rubbish", '!');
  }

  /** Only a mark at the end is stripped: the `.` inside `ab.c` stays, after
      the leading tab is trimmed. */
  lemma InnerPunctuationKept()
    ensures TrimWord("\tab.c") == Some("ab.c")
  {
    var word := "\tab.c";
    assert IsTrimOf(word, 1, 5);
    TrimIsTrimOf(word, 1, 5);
    assert word[1..5] == "ab.c";
    assert DropTrailingPunct("ab.c") == "ab.c";
    assert MatchesWordPattern("ab.c");
  }

  /** Only one punctuation mark is stripped: `word..` keeps a `.` and is not a
      word. */
  lemma DoublePunctuationRejected()
    ensures TrimWord("word..") == None
  {
    TrimOfUntrimmable("word..");
    assert Candidate("word..") == "word.";
  }

  /** The punctuation guard looks at the RAW token length: `"."` is a
      one-character word, but a tab followed by `"."` trims to the same `"."`
      and then loses it, leaving nothing to accept. */
  lemma RawLengthGuard()
    ensures TrimWord(".") == Some(".")
    ensures TrimWord("\t.") == None
  {
    CleanWordAccepted(".");
    assert Trim("\t.") == ".";
  }

  /** A line terminator after a punctuation mark does not protect it: `$`
      matches before the terminator, so `"a. "` loses its `.`; since the
      terminator is then last the word is rejected, unless nothing else is
      left. Nor does `.` match a line terminator inside a word, so such a
      word fails the pattern even though it ends in a letter. */
  lemma PunctBeforeLineTerminator()
    ensures TrimWord("a.\U{2028}") == None
    ensures TrimWord(".\U{2028}") == Some("\U{2028}")
    ensures TrimWord("a\U{2028}b") == None
  {
    assert Trim("a\U{2028}b") == "a\U{2028}b";
    assert Candidate("a\U{2028}b") == "a\U{2028}b";
    assert Trim("a.\U{2028}") == "a.\U{2028}";
    assert Trim(".\U{2028}") == ".\U{2028}";
    assert Candidate("a.\U{2028}") == "a\U{2028}";
    assert Candidate(".\U{2028}") == "\U{2028}";
  }
}
