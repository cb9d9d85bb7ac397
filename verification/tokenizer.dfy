/** The line tokeniser of `parseFileLine`: `String.split(" ")` followed by
    skipping the empty pieces. Only the ASCII space separates tokens; tabs and
    every other character stay inside the token they occur in. */
module Tokenizer {
  import opened Chars

  /** Every piece of `line` between consecutive spaces, in order, empty pieces
      included: what `String.split` yields before Java drops trailing empty
      strings. */
  function Segments(line: string): (parts: seq<string>)
    ensures |parts| >= 1
    ensures forall i :: 0 <= i < |parts| ==> Space !in parts[i]
    ensures Space !in line ==> parts == [line]
    decreases |line|
  {
    if line == [] then [[]]
    else
      var rest := Segments(line[1..]);
      if line[0] == Space then [[]] + rest
      else
        assert line == [line[0]] + line[1..];
        [[line[0]] + rest[0]] + rest[1..]
  }

  /** The pieces glued back together with one space between neighbours. */
  function Join(parts: seq<string>): string
    requires |parts| >= 1
    decreases |parts|
  {
    if |parts| == 1 then parts[0] else parts[0] + [Space] + Join(parts[1..])
  }

  /** Joining two runs of pieces puts one space between them. */
  lemma {:induction false} JoinAppend(a: seq<string>, b: seq<string>)
    requires |a| >= 1 && |b| >= 1
    ensures Join(a + b) == Join(a) + [Space] + Join(b)
    decreases |a|
  {
    if |a| == 1 {
      assert (a + b)[1..] == b;
    } else {
      assert (a + b)[1..] == a[1..] + b;
      JoinAppend(a[1..], b);
    }
  }

  /** Drops the empty strings at the end of `parts`, as `String.split` with
      limit zero does. */
  function DropTrailingEmpty(parts: seq<string>): (r: seq<string>)
    ensures |r| <= |parts| && r == parts[..|r|]
    ensures r != [] ==> r[|r| - 1] != []
    ensures forall i :: |r| <= i < |parts| ==> parts[i] == []
    decreases |parts|
  {
    if parts != [] && parts[|parts| - 1] == [] then DropTrailingEmpty(parts[..|parts| - 1])
    else parts
  }

  /** `line.split(" ")`: a line without a space comes back whole (even when it
      is empty); otherwise the pieces without the trailing empty ones. */
  function JavaSplit(line: string): seq<string> {
    if Space !in line then [line] else DropTrailingEmpty(Segments(line))
  }

  /** The non-empty strings of `parts`, in order. */
  function NonEmpty(parts: seq<string>): (r: seq<string>)
    ensures |r| <= |parts|
    ensures forall i :: 0 <= i < |r| ==> r[i] != [] && r[i] in parts
    ensures forall i :: 0 <= i < |parts| && parts[i] != [] ==> parts[i] in r
    decreases |parts|
  {
    if parts == [] then []
    else if parts[0] == [] then NonEmpty(parts[1..])
    else [parts[0]] + NonEmpty(parts[1..])
  }

  /** The tokens `parseFileLine` hands to the classifier. */
  function Tokens(line: string): seq<string> {
    NonEmpty(JavaSplit(line))
  }

  /** Gluing the pieces back with spaces gives the line: no character is lost,
      added or moved by splitting. */
  lemma {:induction false} JoinSegments(line: string)
    ensures Join(Segments(line)) == line
    decreases |line|
  {
    if line != [] {
      var rest := Segments(line[1..]);
      JoinSegments(line[1..]);
      if line[0] == Space {
        assert Segments(line) == [[]] + rest;
        assert Join(Segments(line)) == [] + [Space] + Join(rest);
        assert line == [line[0]] + line[1..];
      } else {
        JoinConsFirst(line[0], rest);
        assert line == [line[0]] + line[1..];
      }
    }
  }

  /** Prepending a character to the first piece prepends it to the join. */
  lemma {:induction false} JoinConsFirst(c: char, parts: seq<string>)
    requires |parts| >= 1
    ensures Join([[c] + parts[0]] + parts[1..]) == [c] + Join(parts)
  {
    var q := [[c] + parts[0]] + parts[1..];
    assert q[1..] == parts[1..];
    if |parts| > 1 {
      assert Join(q) == ([c] + parts[0]) + [Space] + Join(parts[1..]);
    }
  }

  /** Splitting a space-free word followed by a space and more text yields the
      word and then the pieces of the remaining text. */
  lemma {:induction false} SegmentsAfterWord(w: string, rest: string)
    requires Space !in w
    ensures Segments(w + [Space] + rest) == [w] + Segments(rest)
    decreases |w|
  {
    if w == [] {
      assert w + [Space] + rest == [Space] + rest;
      assert ([Space] + rest)[1..] == rest;
    } else {
      SegmentsAfterWord(w[1..], rest);
      assert (w + [Space] + rest)[1..] == w[1..] + [Space] + rest;
      assert [w[0]] + w[1..] == w;
    }
  }

  /** Splitting is the inverse of joining space-free pieces. */
  lemma {:induction false} SegmentsJoin(parts: seq<string>)
    requires |parts| >= 1
    requires forall i :: 0 <= i < |parts| ==> Space !in parts[i]
    ensures Segments(Join(parts)) == parts
    decreases |parts|
  {
    if |parts| > 1 {
      SegmentsAfterWord(parts[0], Join(parts[1..]));
      SegmentsJoin(parts[1..]);
      assert [parts[0]] + parts[1..] == parts;
    }
  }

  /** Filtering a list with no empty string changes nothing. */
  lemma {:induction false} NonEmptyUnchanged(parts: seq<string>)
    requires forall i :: 0 <= i < |parts| ==> parts[i] != []
    ensures NonEmpty(parts) == parts
    decreases |parts|
  {
    if parts != [] {
      NonEmptyUnchanged(parts[1..]);
    }
  }

  /** Dropping trailing empty pieces does not change the non-empty ones. */
  lemma {:induction false} NonEmptyDropTrailing(parts: seq<string>)
    ensures NonEmpty(DropTrailingEmpty(parts)) == NonEmpty(parts)
    decreases |parts|
  {
    if parts != [] && parts[|parts| - 1] == [] {
      var init := parts[..|parts| - 1];
      NonEmptyDropTrailing(init);
      assert parts == init + [[]];
      NonEmptyAppend(init, [[]]);
      assert NonEmpty([[]]) == [];
    }
  }

  /** Filtering distributes over concatenation. */
  lemma {:induction false} NonEmptyAppend(a: seq<string>, b: seq<string>)
    ensures NonEmpty(a + b) == NonEmpty(a) + NonEmpty(b)
    decreases |a|
  {
    if a != [] {
      NonEmptyAppend(a[1..], b);
      assert (a + b)[1..] == a[1..] + b;
    } else {
      assert a + b == b;
    }
  }

  /** No piece of `line.split(" ")` holds a space, and Java's special cases
      (a line without a space comes back whole, trailing empty pieces are
      dropped) lose no non-empty piece. */
  lemma JavaSplitPieces(line: string)
    ensures forall i :: 0 <= i < |JavaSplit(line)| ==> Space !in JavaSplit(line)[i]
    ensures NonEmpty(JavaSplit(line)) == NonEmpty(Segments(line))
  {
    if Space in line {
      NonEmptyDropTrailing(Segments(line));
    }
  }

  /** The tokens are the non-empty pieces between spaces: each is non-empty
      and free of spaces. */
  lemma TokensAreNonEmptySegments(line: string)
    ensures Tokens(line) == NonEmpty(Segments(line))
    ensures forall i :: 0 <= i < |Tokens(line)| ==> Tokens(line)[i] != [] && Space !in Tokens(line)[i]
  {
    JavaSplitPieces(line);
  }

  /** A line made of space-free words separated by one or more spaces has
      exactly those words as its tokens. */
  lemma TokensOfJoin(parts: seq<string>)
    requires |parts| >= 1
    requires forall i :: 0 <= i < |parts| ==> Space !in parts[i]
    ensures Tokens(Join(parts)) == NonEmpty(parts)
  {
    SegmentsJoin(parts);
    TokensAreNonEmptySegments(Join(parts));
  }

  /** A space at the end of a line adds no token (`TextFileReaderTest`'s multi-line
      test lines end in one). */
  lemma TrailingSpaceIgnored(line: string)
    ensures Tokens(line + [Space]) == Tokens(line)
  {
    var parts := Segments(line);
    JoinSegments(line);
    JoinAppend(parts, [[]]);
    assert Join([[]]) == [];
    assert Join(parts + [[]]) == line + [Space];
    assert forall i :: 0 <= i < |parts + [[]]| ==> Space !in (parts + [[]])[i];
    TokensOfJoin(parts + [[]]);
    TokensOfJoin(parts);
    NonEmptyAppend(parts, [[]]);
  }

  /** The empty line has no tokens, nor does a line of spaces only. */
  lemma NoTokensWithoutWords(line: string)
    requires forall i :: 0 <= i < |line| ==> line[i] == Space
    ensures Tokens(line) == []
  {
    if line != [] {
      assert line[0] == Space;
      TokensAreNonEmptySegments(line);
      AllEmptySegments(line);
    }
  }

  /** Every piece of a line of spaces is empty. */
  lemma {:induction false} AllEmptySegments(line: string)
    requires forall i :: 0 <= i < |line| ==> line[i] == Space
    ensures NonEmpty(Segments(line)) == []
    decreases |line|
  {
    if line != [] {
      AllEmptySegments(line[1..]);
    }
  }

  /** A tab is not a separator: it stays inside its token. */
  lemma TabStaysInToken()
    ensures Tokens("a\tb c") == ["a\tb", "c"]
  {
    assert "a\tb c" == Join(["a\tb", "c"]);
    TokensOfJoin(["a\tb", "c"]);
  }
}
