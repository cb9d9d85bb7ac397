/** The accumulator of `TextFileReader`: the three running totals, the
    per-word update of `parseFileLine` and the line loop of `readInFile`,
    with the input file given as its sequence of lines. */
module Accumulator {
  import opened Wrappers
  import opened Tokenizer
  import opened Classifier
  import opened Histogram

  /** The fields `wordCount`, `totalWordsLength` and `wordLengthCounts`. */
  datatype Stats = Stats(wordCount: nat, totalWordsLength: nat, hist: Hist)

  /** The state the constructor sets up before reading anything. */
  const Initial: Stats := Stats(0, 0, map[])

  /** `s` grows into `r`: no total decreases and no bucket shrinks or
      disappears. */
  predicate Grows(s: Stats, r: Stats) {
    && s.wordCount <= r.wordCount
    && s.totalWordsLength <= r.totalWordsLength
    && forall k :: k in s.hist ==> k in r.hist && s.hist[k] <= r.hist[k]
  }

  /** The update for one accepted word (see `PerWordUpdate`). */
  function AddWord(s: Stats, w: string): Stats {
    Stats(s.wordCount + 1, s.totalWordsLength + |w|, Increment(s.hist, |w|))
  }

  /** One token of `parseFileLine`: classified, then counted if accepted (see
      `ParseWordEffect`). */
  function ParseWord(s: Stats, token: string): Stats {
    match TrimWord(token)
    case None => s
    case Some(w) => AddWord(s, w)
  }

  /** The loop of `parseFileLine` over the pieces of the split line, skipping
      empty pieces. */
  function ParseTokens(s: Stats, parts: seq<string>): (r: Stats)
    ensures Grows(s, r)
    decreases |parts|
  {
    if parts == [] then s
    else
      var next := if parts[0] == [] then s else ParseWord(s, parts[0]);
      ParseTokens(next, parts[1..])
  }

  /** `parseFileLine` (see `ParseLineByTokens`). */
  function ParseLine(s: Stats, line: string): Stats {
    ParseTokens(s, JavaSplit(line))
  }

  /** The loop of `readInFile` over the lines of the file, skipping empty
      lines. The state is only ever added to. */
  function ReadLines(s: Stats, lines: seq<string>): (r: Stats)
    ensures Grows(s, r)
    decreases |lines|
  {
    if lines == [] then s
    else
      var next := if lines[0] == [] then s else ParseLine(s, lines[0]);
      ReadLines(next, lines[1..])
  }

  /** The constructor: zeroed totals, then one pass over the file (see
      `LoadConsistent` and `Reference.LoadIsSummary`). */
  function Load(lines: seq<string>): Stats {
    ReadLines(Initial, lines)
  }

  // ---------------------------------------------------------------------
  // The per-word update

  /** Each accepted word adds one to the count, its length to the total
      length and one to its own bucket; every other bucket stays as it was. */
  lemma PerWordUpdate(s: Stats, w: string)
    ensures AddWord(s, w).wordCount == s.wordCount + 1
    ensures AddWord(s, w).totalWordsLength == s.totalWordsLength + |w|
    ensures Bucket(AddWord(s, w).hist, |w|) == Bucket(s.hist, |w|) + 1
    ensures forall k :: k != |w| ==> Bucket(AddWord(s, w).hist, k) == Bucket(s.hist, k)
  {
  }

  /** A token changes the state exactly when the classifier accepts it, and
      then by one word of the cleaned word's length. */
  lemma ParseWordEffect(s: Stats, token: string)
    ensures ParseWord(s, token) == s <==> TrimWord(token).None?
    ensures TrimWord(token).Some? ==>
      && ParseWord(s, token).wordCount == s.wordCount + 1
      && ParseWord(s, token).totalWordsLength == s.totalWordsLength + |TrimWord(token).value|
    ensures TrimWord(token).Some? ==> ParseWord(s, token) == AddWord(s, TrimWord(token).value)
  {
  }

  // ---------------------------------------------------------------------
  // What is skipped

  /** An empty token is rejected by the classifier anyway, so skipping it
      changes nothing. */
  lemma EmptyTokenRejected()
    ensures TrimWord([]) == None
  {
    assert Trim([]) == [];
  }

  /** Empty pieces of a split line contribute nothing. */
  lemma {:induction false} EmptyTokensIgnored(s: Stats, parts: seq<string>)
    ensures ParseTokens(s, parts) == ParseTokens(s, NonEmpty(parts))
    decreases |parts|
  {
    if parts != [] {
      if parts[0] == [] {
        EmptyTokensIgnored(s, parts[1..]);
      } else {
        EmptyTokensIgnored(ParseWord(s, parts[0]), parts[1..]);
        assert NonEmpty(parts)[1..] == NonEmpty(parts[1..]);
      }
    }
  }

  /** A line is processed token by token: only the tokens of `Tokens`
      matter, not the empty pieces `split` leaves. */
  lemma ParseLineByTokens(s: Stats, line: string)
    ensures ParseLine(s, line) == ParseTokens(s, Tokens(line))
  {
    EmptyTokensIgnored(s, JavaSplit(line));
  }

  /** An empty line contributes nothing, and neither does a line of spaces. */
  lemma BlankLineIgnored(s: Stats, line: string)
    requires forall i :: 0 <= i < |line| ==> line[i] == Chars.Space
    ensures ParseLine(s, line) == s
  {
    ParseLineByTokens(s, line);
    NoTokensWithoutWords(line);
  }

  /** Empty lines of the file contribute nothing. */
  lemma {:induction false} EmptyLinesIgnored(s: Stats, lines: seq<string>)
    ensures ReadLines(s, lines) == ReadLines(s, NonEmpty(lines))
    decreases |lines|
  {
    if lines != [] {
      if lines[0] == [] {
        EmptyLinesIgnored(s, lines[1..]);
      } else {
        EmptyLinesIgnored(ParseLine(s, lines[0]), lines[1..]);
        assert NonEmpty(lines)[1..] == NonEmpty(lines[1..]);
      }
    }
  }

  /** Reading is additive: reading `a` then `b` is reading `a + b`. Nothing
      resets the totals between reads. */
  lemma {:induction false} ReadLinesAppend(s: Stats, a: seq<string>, b: seq<string>)
    ensures ReadLines(s, a + b) == ReadLines(ReadLines(s, a), b)
    decreases |a|
  {
    if a == [] {
      assert a + b == b;
    } else {
      var next := if a[0] == [] then s else ParseLine(s, a[0]);
      assert (a + b)[1..] == a[1..] + b;
      ReadLinesAppend(next, a[1..], b);
    }
  }

  /** Reading more lines into a loaded state gives the totals of one read
      over all the lines together. */
  lemma LoadThenRead(a: seq<string>, b: seq<string>)
    ensures ReadLines(Load(a), b) == Load(a + b)
  {
    ReadLinesAppend(Initial, a, b);
  }

  // ---------------------------------------------------------------------
  // The histogram invariant

  /** The count is the sum of the buckets, the total length is the sum of
      length times bucket, and every bucket is a positive length with a
      positive count. */
  ghost predicate Consistent(s: Stats) {
    && s.wordCount == Total(s.hist, CountTerm)
    && s.totalWordsLength == Total(s.hist, WeightTerm)
    && WellFormed(s.hist)
  }

  /** Adding a non-empty word keeps the totals consistent. */
  lemma AddWordConsistent(s: Stats, w: string)
    requires Consistent(s) && w != []
    ensures Consistent(AddWord(s, w))
  {
    var n := |w|;
    var h := s.hist;
    var r := AddWord(s, w);
    TotalIncrement(h, CountTerm, n);
    TotalIncrement(h, WeightTerm, n);
    if n in h {
      WeightStep(n, h[n]);
      assert Total(r.hist, CountTerm) == Total(h, CountTerm) + 1;
      assert Total(r.hist, WeightTerm) == Total(h, WeightTerm) + n;
    } else {
      assert Total(r.hist, CountTerm) == Total(h, CountTerm) + 1;
      assert Total(r.hist, WeightTerm) == Total(h, WeightTerm) + n;
    }
    IncrementWellFormed(h, n);
  }

  /** One more word of length `n` adds `n` to its bucket's weight. */
  lemma WeightStep(n: nat, v: nat)
    ensures WeightTerm(n, v + 1) == WeightTerm(n, v) + n
  {
  }

  /** Classifying and counting one token keeps the totals consistent. */
  lemma ParseWordConsistent(s: Stats, token: string)
    requires Consistent(s)
    ensures Consistent(ParseWord(s, token))
  {
    match TrimWord(token)
    case None =>
    case Some(w) => AddWordConsistent(s, w);
  }

  /** Processing the pieces of a line keeps the totals consistent. */
  lemma {:induction false} ParseTokensConsistent(s: Stats, parts: seq<string>)
    requires Consistent(s)
    ensures Consistent(ParseTokens(s, parts))
    decreases |parts|
  {
    if parts != [] {
      var next := if parts[0] == [] then s else ParseWord(s, parts[0]);
      if parts[0] != [] {
        ParseWordConsistent(s, parts[0]);
      }
      ParseTokensConsistent(next, parts[1..]);
    }
  }

  /** Reading lines keeps the totals consistent. */
  lemma {:induction false} ReadLinesConsistent(s: Stats, lines: seq<string>)
    requires Consistent(s)
    ensures Consistent(ReadLines(s, lines))
    decreases |lines|
  {
    if lines != [] {
      var next := if lines[0] == [] then s else ParseLine(s, lines[0]);
      if lines[0] != [] {
        ParseTokensConsistent(s, JavaSplit(lines[0]));
      }
      ReadLinesConsistent(next, lines[1..]);
    }
  }

  /** Whatever the file holds, the loaded totals are consistent. */
  lemma LoadConsistent(lines: seq<string>)
    ensures Consistent(Load(lines))
  {
    assert Consistent(Initial);
    ReadLinesConsistent(Initial, lines);
  }

  /** In a consistent state no words, no characters and no buckets go
      together: the two halves of the average's zero guard agree. */
  lemma NoWordsIffNoLength(s: Stats)
    requires Consistent(s)
    ensures s.wordCount == 0 <==> s.hist == map[]
    ensures s.totalWordsLength == 0 <==> s.hist == map[]
  {
    TotalZeroIffEmpty(s.hist, CountTerm);
    assert forall k :: k in s.hist ==> WeightTerm(k, s.hist[k]) >= 1 by {
      forall k | k in s.hist
        ensures WeightTerm(k, s.hist[k]) >= 1
      {
        assert k >= 1 && s.hist[k] >= 1;
        assert k * s.hist[k] >= 1 * s.hist[k];
      }
    }
    TotalZeroIffEmpty(s.hist, WeightTerm);
  }
}
