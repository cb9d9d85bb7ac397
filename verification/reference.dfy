/** An independent description of what `readInFile` computes: list the
    accepted words of the whole file, then count them, add up their lengths
    and tally how many have each length. The fold of `Accumulator` is proved
    to agree with it. */
module Reference {
  import opened Chars
  import opened Wrappers
  import opened Tokenizer
  import opened Classifier
  import opened Histogram
  import opened Accumulator

  /** What one piece contributes to the word list: its cleaned form when the
      classifier accepts it, nothing otherwise. */
  function Kept(part: string): (ws: seq<string>)
    ensures |ws| <= 1
  {
    match TrimWord(part)
    case None => []
    case Some(w) => [w]
  }

  /** The lists `keep` makes of each of `parts`, concatenated in order. */
  function Collect(keep: string -> seq<string>, parts: seq<string>): seq<string>
    decreases |parts|
  {
    if parts == [] then [] else keep(parts[0]) + Collect(keep, parts[1..])
  }

  /** Collecting over `a + b` is collecting over `a`, then over `b`. */
  lemma {:induction false} CollectAppend(keep: string -> seq<string>, a: seq<string>, b: seq<string>)
    ensures Collect(keep, a + b) == Collect(keep, a) + Collect(keep, b)
    decreases |a|
  {
    if a == [] {
      assert a + b == b;
    } else {
      assert (a + b)[0] == a[0];
      assert (a + b)[1..] == a[1..] + b;
      CollectAppend(keep, a[1..], b);
    }
  }

  /** The words the classifier accepts among `parts`, in order. */
  function Words(parts: seq<string>): seq<string> {
    Collect(Kept, parts)
  }

  /** The accepted words of `a + b` are those of `a`, then those of `b`. */
  lemma WordsAppend(a: seq<string>, b: seq<string>)
    ensures Words(a + b) == Words(a) + Words(b)
  {
    CollectAppend(Kept, a, b);
  }

  /** When every piece is accepted, the words are the pieces' cleaned forms,
      in order. */
  lemma {:induction false} WordsOfAccepted(parts: seq<string>, words: seq<string>)
    requires |parts| == |words|
    requires forall i :: 0 <= i < |parts| ==> TrimWord(parts[i]) == Some(words[i])
    ensures Words(parts) == words
    decreases |parts|
  {
    if parts != [] {
      WordsOfAccepted(parts[1..], words[1..]);
    }
  }

  /** Empty pieces hold no accepted word. */
  lemma {:induction false} WordsIgnoreEmpty(parts: seq<string>)
    ensures Words(parts) == Words(NonEmpty(parts))
    decreases |parts|
  {
    if parts != [] {
      WordsIgnoreEmpty(parts[1..]);
      if parts[0] == [] {
        Accumulator.EmptyTokenRejected();
      } else {
        assert NonEmpty(parts)[1..] == NonEmpty(parts[1..]);
      }
    }
  }

  /** The accepted words of a line are those of its tokens. */
  lemma LineWords(line: string)
    ensures Words(JavaSplit(line)) == Words(Tokens(line))
  {
    WordsIgnoreEmpty(JavaSplit(line));
  }

  /** The accepted words of a line written as space-free pieces joined by
      spaces are the accepted words of those pieces. */
  lemma JoinedLineWords(parts: seq<string>)
    requires |parts| >= 1
    requires forall i :: 0 <= i < |parts| ==> Space !in parts[i]
    ensures Words(JavaSplit(Join(parts))) == Words(parts)
  {
    LineWords(Join(parts));
    TokensOfJoin(parts);
    WordsIgnoreEmpty(parts);
  }

  /** A trailing space changes nothing in a line's accepted words. */
  lemma TrailingSpaceWords(line: string)
    ensures Words(JavaSplit(line + [Space])) == Words(JavaSplit(line))
  {
    LineWords(line + [Space]);
    LineWords(line);
    TrailingSpaceIgnored(line);
  }

  /** Pieces that each clean to a word yield exactly those words. */
  lemma CleanWords(parts: seq<string>, words: seq<string>)
    requires |parts| == |words|
    requires forall i :: 0 <= i < |parts| ==> CleansTo(parts[i], words[i])
    ensures Words(parts) == words
  {
    forall i | 0 <= i < |parts|
      ensures TrimWord(parts[i]) == Some(words[i])
    {
      CleansToAccepted(parts[i], words[i]);
    }
    WordsOfAccepted(parts, words);
  }

  /** The accepted words of a whole file, line after line. */
  function FileWords(lines: seq<string>): seq<string>
    decreases |lines|
  {
    if lines == [] then [] else Words(JavaSplit(lines[0])) + FileWords(lines[1..])
  }

  /** The total number of characters in `ws`. */
  function SumLengths(ws: seq<string>): nat
    decreases |ws|
  {
    if ws == [] then 0 else SumLengths(ws[..|ws| - 1]) + |ws[|ws| - 1]|
  }

  /** How many words of `ws` have length `k`. */
  function CountLength(ws: seq<string>, k: nat): nat
    decreases |ws|
  {
    if ws == [] then 0
    else CountLength(ws[..|ws| - 1], k) + (if |ws[|ws| - 1]| == k then 1 else 0)
  }

  /** The lengths that occur in `ws`. */
  function Lengths(ws: seq<string>): set<nat> {
    set i | 0 <= i < |ws| :: |ws[i]|
  }

  /** The length histogram of `ws`: one bucket per occurring length. */
  function LengthHistogram(ws: seq<string>): Hist {
    map k | k in Lengths(ws) :: CountLength(ws, k)
  }

  /** The totals `ws` should produce. */
  function Summary(ws: seq<string>): Stats {
    Stats(|ws|, SumLengths(ws), LengthHistogram(ws))
  }

  /** Counting the words of `ws` one by one into `s`. */
  function AddWords(s: Stats, ws: seq<string>): Stats
    decreases |ws|
  {
    if ws == [] then s else AddWords(AddWord(s, ws[0]), ws[1..])
  }

  /** Counting `a + b` is counting `a`, then `b`. */
  lemma {:induction false} AddWordsAppend(s: Stats, a: seq<string>, b: seq<string>)
    ensures AddWords(s, a + b) == AddWords(AddWords(s, a), b)
    decreases |a|
  {
    if a == [] {
      assert a + b == b;
    } else {
      assert (a + b)[1..] == a[1..] + b;
      AddWordsAppend(AddWord(s, a[0]), a[1..], b);
    }
  }

  /** A length that does not occur has no words. */
  lemma {:induction false} CountAbsentLength(ws: seq<string>, k: nat)
    requires k !in Lengths(ws)
    ensures CountLength(ws, k) == 0
    decreases |ws|
  {
    if ws != [] {
      var init := ws[..|ws| - 1];
      assert Lengths(init) <= Lengths(ws) by {
        forall j | j in Lengths(init) ensures j in Lengths(ws) {
          var i :| 0 <= i < |init| && |init[i]| == j;
          assert ws[i] == init[i];
        }
      }
      CountAbsentLength(init, k);
    }
  }

  /** One more word at the end of the list changes the summary exactly as
      `AddWord` changes the state. */
  lemma SummarySnoc(ws: seq<string>, w: string)
    ensures Summary(ws + [w]) == AddWord(Summary(ws), w)
  {
    var ws' := ws + [w];
    assert ws'[..|ws'| - 1] == ws;
    assert Lengths(ws') == Lengths(ws) + {|w|} by {
      forall j | j in Lengths(ws') ensures j in Lengths(ws) + {|w|} {
        var i :| 0 <= i < |ws'| && |ws'[i]| == j;
        if i < |ws| { assert ws'[i] == ws[i]; }
      }
      forall j | j in Lengths(ws) ensures j in Lengths(ws') {
        var i :| 0 <= i < |ws| && |ws[i]| == j;
        assert ws'[i] == ws[i];
      }
      assert ws'[|ws|] == w;
    }
    var h := LengthHistogram(ws);
    var h' := LengthHistogram(ws');
    if |w| !in Lengths(ws) {
      CountAbsentLength(ws, |w|);
    }
    assert h' == Increment(h, |w|);
  }

  /** Counting a list of words from the initial state yields its summary. */
  lemma {:induction false} AddWordsIsSummary(ws: seq<string>)
    ensures AddWords(Initial, ws) == Summary(ws)
    decreases |ws|
  {
    if ws == [] {
      assert LengthHistogram(ws) == map[];
    } else {
      var init := ws[..|ws| - 1];
      var w := ws[|ws| - 1];
      assert ws == init + [w];
      AddWordsIsSummary(init);
      AddWordsAppend(Initial, init, [w]);
      SummarySnoc(init, w);
    }
  }

  /** The token loop of `parseFileLine` counts exactly the accepted words of
      the pieces. */
  lemma {:induction false} ParseTokensCountsWords(s: Stats, parts: seq<string>)
    ensures ParseTokens(s, parts) == AddWords(s, Words(parts))
    decreases |parts|
  {
    if parts != [] {
      var first := Kept(parts[0]);
      var next := if parts[0] == [] then s else ParseWord(s, parts[0]);
      if parts[0] == [] {
        Accumulator.EmptyTokenRejected();
      }
      assert next == AddWords(s, first);
      ParseTokensCountsWords(next, parts[1..]);
      AddWordsAppend(s, first, Words(parts[1..]));
    }
  }

  /** The line loop of `readInFile` counts exactly the accepted words of the
      file. */
  lemma {:induction false} ReadLinesCountsWords(s: Stats, lines: seq<string>)
    ensures ReadLines(s, lines) == AddWords(s, FileWords(lines))
    decreases |lines|
  {
    if lines != [] {
      var ws := Words(JavaSplit(lines[0]));
      var next := if lines[0] == [] then s else ParseLine(s, lines[0]);
      ParseTokensCountsWords(s, JavaSplit(lines[0]));
      if lines[0] == [] {
        assert JavaSplit(lines[0]) == [[]];
        Accumulator.EmptyTokenRejected();
        assert Kept([]) == [];
        assert ws == Kept([]) + Collect(Kept, []);
      }
      ReadLinesCountsWords(next, lines[1..]);
      AddWordsAppend(s, ws, FileWords(lines[1..]));
    }
  }

  /** The constructor's totals are the summary of the file's accepted words:
      the word count is their number, the total length the sum of their
      lengths, and each bucket the number of them with that length. */
  lemma LoadIsSummary(lines: seq<string>)
    ensures Load(lines) == Summary(FileWords(lines))
  {
    ReadLinesCountsWords(Initial, lines);
    AddWordsIsSummary(FileWords(lines));
  }
}
