/** The scenarios of `TextFileReaderTest` worked through the model: for each test
    file, the loaded totals, the largest bucket and the average text.

    Each line is described by its space-separated pieces and by what the
    classifier makes of each piece; generic lemmas turn such descriptions
    into the words of a file, so that each concrete fact is proved once, in a
    small lemma of its own. */
module Scenarios {
  import opened Wrappers
  import opened Chars
  import opened Tokenizer
  import opened Classifier
  import opened Histogram
  import opened Accumulator
  import opened Reference
  import opened Report
  import opened Decimal

  // ---------------------------------------------------------------------
  // Describing a line

  /** What `trimWord` makes of `part`, in terms cheap to check: a piece that
      cleans to a word is accepted as that word; the empty piece and a run of
      symbols are rejected. */
  predicate Classified(part: string, out: Option<string>) {
    match out
    case Some(w) => CleansTo(part, w)
    case None =>
      || part == []
      || (&& |part| >= 2
          && (forall i :: 0 <= i < |part| ==> !IsTrimmable(part[i]))
          && !IsAsciiAlnum(part[|part| - 1]) && !IsTrailingPunct(part[|part| - 1])
          && !IsLineTerminator(part[|part| - 1]))
  }

  /** The accepted words among classifier outcomes, in order. */
  function Accepted(outs: seq<Option<string>>): (ws: seq<string>)
    ensures |ws| <= |outs|
    decreases |outs|
  {
    if outs == [] then []
    else (match outs[0] case Some(w) => [w] case None => []) + Accepted(outs[1..])
  }

  /** The accepted words of `a + b` are those of `a`, then those of `b`. */
  lemma {:induction false} AcceptedAppend(a: seq<Option<string>>, b: seq<Option<string>>)
    ensures Accepted(a + b) == Accepted(a) + Accepted(b)
    decreases |a|
  {
    if a == [] {
      assert a + b == b;
    } else {
      assert (a + b)[0] == a[0];
      assert (a + b)[1..] == a[1..] + b;
      AcceptedAppend(a[1..], b);
    }
  }

  lemma ClassifiedAccepted(part: string, out: Option<string>)
    requires Classified(part, out)
    ensures TrimWord(part) == out
  {
    match out
    case Some(w) => CleansToAccepted(part, w);
    case None =>
      if part == [] { EmptyTokenRejected(); } else { SymbolRunRejected(part); }
  }

  lemma {:induction false} ClassifiedWords(parts: seq<string>, outs: seq<Option<string>>)
    requires |parts| == |outs|
    requires forall i :: 0 <= i < |parts| ==> Classified(parts[i], outs[i])
    ensures Words(parts) == Accepted(outs)
    decreases |parts|
  {
    if parts != [] {
      ClassifiedAccepted(parts[0], outs[0]);
      ClassifiedWords(parts[1..], outs[1..]);
    }
  }

  /** `line` is `parts` joined by single spaces, and `outs` says what the
      classifier makes of each piece. */
  predicate LineOf(line: string, parts: seq<string>, outs: seq<Option<string>>) {
    && |parts| >= 1 && |parts| == |outs|
    && line == Join(parts)
    && (forall i :: 0 <= i < |parts| ==> Space !in parts[i] && Classified(parts[i], outs[i]))
  }

  /** The words of a one-line file. */
  lemma FileWordsOfLine(line: string, parts: seq<string>, outs: seq<Option<string>>)
    requires LineOf(line, parts, outs)
    ensures FileWords([line]) == Accepted(outs)
  {
    assert [line][1..] == [];
    JoinedLineWords(parts);
    ClassifiedWords(parts, outs);
  }

  /** Reading one described line adds its accepted words. */
  lemma LineStep(s: Stats, line: string, parts: seq<string>, outs: seq<Option<string>>, ws: seq<string>, r: Stats)
    requires LineOf(line, parts, outs)
    requires Accepted(outs) == ws
    requires AddWords(s, ws) == r
    ensures ReadLines(s, [line]) == r
  {
    FileWordsOfLine(line, parts, outs);
    ReadLinesCountsWords(s, [line]);
  }

  /** Reading an empty line changes nothing. */
  lemma EmptyLineStep(s: Stats)
    ensures ReadLines(s, [[]]) == s
  {
  }

  /** Reading three lines one after the other. */
  lemma ReadThree(s0: Stats, l1: string, s1: Stats, l2: string, s2: Stats, l3: string, s3: Stats)
    requires ReadLines(s0, [l1]) == s1 && ReadLines(s1, [l2]) == s2 && ReadLines(s2, [l3]) == s3
    ensures ReadLines(s0, [l1, l2, l3]) == s3
  {
    ReadLinesAppend(s1, [l2], [l3]);
    assert [l2] + [l3] == [l2, l3];
    ReadLinesAppend(s0, [l1], [l2, l3]);
    assert [l1] + [l2, l3] == [l1, l2, l3];
  }

  /** Reading two lines, then three more. */
  lemma ReadFive(s0: Stats, l1: string, s1: Stats, l2: string, s2: Stats,
                 l3: string, s3: Stats, l4: string, s4: Stats, l5: string, s5: Stats)
    requires ReadLines(s0, [l1]) == s1 && ReadLines(s1, [l2]) == s2
    requires ReadLines(s2, [l3]) == s3 && ReadLines(s3, [l4]) == s4 && ReadLines(s4, [l5]) == s5
    ensures ReadLines(s0, [l1, l2, l3, l4, l5]) == s5
  {
    ReadThree(s2, l3, s3, l4, s4, l5, s5);
    ReadLinesAppend(s1, [l2], [l3, l4, l5]);
    assert [l2] + [l3, l4, l5] == [l2, l3, l4, l5];
    ReadLinesAppend(s0, [l1], [l2, l3, l4, l5]);
    assert [l1] + [l2, l3, l4, l5] == [l1, l2, l3, l4, l5];
  }

  /** Joining two runs of pieces whose joins are known. */
  lemma JoinHalves(a: seq<string>, la: string, b: seq<string>, lb: string, line: string)
    requires |a| >= 1 && |b| >= 1
    requires Join(a) == la && Join(b) == lb
    requires la + [Space] + lb == line
    ensures Join(a + b) == line
  {
    JoinAppend(a, b);
  }

  /** Counting a run of words in two parts. */
  lemma CountInParts(s: Stats, a: seq<string>, mid: Stats, b: seq<string>, r: Stats)
    requires AddWords(s, a) == mid
    requires AddWords(mid, b) == r
    ensures AddWords(s, a + b) == r
  {
    AddWordsAppend(s, a, b);
  }

  // ---------------------------------------------------------------------
  // "Hello world & good morning. The date is 18/05/2016"

  lemma SampleSentenceLineJoinFront()
    ensures Join(["Hello", "world", "&", "good"]) == "Hello world & good"
  {
  }

  lemma SampleSentenceLineJoinBack()
    ensures Join(["morning.", "The", "date", "is", "18/05/2016"]) == "morning. The date is 18/05/2016"
  {
    assert Join(["The", "date", "is", "18/05/2016"]) == "The date is 18/05/2016";
  }

  lemma SampleSentenceLineText()
    ensures "Hello world & good" + [Space] + "morning. The date is 18/05/2016" == "Hello world & good morning. The date is 18/05/2016"
  {
  }

  lemma SampleSentenceLineJoin()
    ensures Join(["Hello", "world", "&", "good", "morning.", "The", "date", "is", "18/05/2016"]) == "Hello world & good morning. The date is 18/05/2016"
  {
    SampleSentenceLineJoinFront();
    SampleSentenceLineJoinBack();
    SampleSentenceLineText();
    JoinHalves(["Hello", "world", "&", "good"], "Hello world & good", ["morning.", "The", "date", "is", "18/05/2016"], "morning. The date is 18/05/2016", "Hello world & good morning. The date is 18/05/2016");
    assert ["Hello", "world", "&", "good"] + ["morning.", "The", "date", "is", "18/05/2016"] == ["Hello", "world", "&", "good", "morning.", "The", "date", "is", "18/05/2016"];
  }

  lemma SampleSentenceLinePieces1()
    ensures forall i :: 0 <= i < 4 ==> Space !in ["Hello", "world", "&", "good", "morning.", "The", "date", "is", "18/05/2016"][i] && Classified(["Hello", "world", "&", "good", "morning.", "The", "date", "is", "18/05/2016"][i], [Some("Hello"), Some("world"), Some("&"), Some("good"), Some("morning"), Some("The"), Some("date"), Some("is"), Some("18/05/2016")][i])
  {
  }

  lemma SampleSentenceLinePieces2()
    ensures forall i :: 4 <= i < 9 ==> Space !in ["Hello", "world", "&", "good", "morning.", "The", "date", "is", "18/05/2016"][i] && Classified(["Hello", "world", "&", "good", "morning.", "The", "date", "is", "18/05/2016"][i], [Some("Hello"), Some("world"), Some("&"), Some("good"), Some("morning"), Some("The"), Some("date"), Some("is"), Some("18/05/2016")][i])
  {
  }

  lemma SampleSentenceLine()
    ensures LineOf("Hello world & good morning. The date is 18/05/2016", ["Hello", "world", "&", "good", "morning.", "The", "date", "is", "18/05/2016"], [Some("Hello"), Some("world"), Some("&"), Some("good"), Some("morning"), Some("The"), Some("date"), Some("is"), Some("18/05/2016")])
  {
    SampleSentenceLineJoin();
    SampleSentenceLinePieces1();
    SampleSentenceLinePieces2();
  }

  lemma SampleSentenceLineCounts1()
    ensures AddWords(Initial, ["Hello", "world", "&"]) == Stats(3, 11, map[5 := 2, 1 := 1])
  {
  }

  lemma SampleSentenceLineCounts2()
    ensures AddWords(Stats(3, 11, map[5 := 2, 1 := 1]), ["good", "morning", "The"]) == Stats(6, 25, map[5 := 2, 1 := 1, 4 := 1, 7 := 1, 3 := 1])
  {
  }

  lemma SampleSentenceLineCounts3()
    ensures AddWords(Stats(6, 25, map[5 := 2, 1 := 1, 4 := 1, 7 := 1, 3 := 1]), ["date", "is", "18/05/2016"]) == Stats(9, 41, map[5 := 2, 1 := 1, 4 := 2, 7 := 1, 3 := 1, 2 := 1, 10 := 1])
  {
  }

  lemma SampleSentenceLineAcceptedFront()
    ensures Accepted([Some("Hello"), Some("world"), Some("&"), Some("good")]) == ["Hello", "world", "&", "good"]
  {
  }

  lemma SampleSentenceLineAcceptedBack()
    ensures Accepted([Some("morning"), Some("The"), Some("date"), Some("is"), Some("18/05/2016")]) == ["morning", "The", "date", "is", "18/05/2016"]
  {
  }

  lemma SampleSentenceLineAccepted()
    ensures Accepted([Some("Hello"), Some("world"), Some("&"), Some("good"), Some("morning"), Some("The"), Some("date"), Some("is"), Some("18/05/2016")]) == ["Hello", "world", "&"] + (["good", "morning", "The"] + ["date", "is", "18/05/2016"])
  {
    SampleSentenceLineAcceptedFront();
    SampleSentenceLineAcceptedBack();
    assert [Some("Hello"), Some("world"), Some("&"), Some("good")] + [Some("morning"), Some("The"), Some("date"), Some("is"), Some("18/05/2016")] == [Some("Hello"), Some("world"), Some("&"), Some("good"), Some("morning"), Some("The"), Some("date"), Some("is"), Some("18/05/2016")];
    AcceptedAppend([Some("Hello"), Some("world"), Some("&"), Some("good")], [Some("morning"), Some("The"), Some("date"), Some("is"), Some("18/05/2016")]);
    assert ["Hello", "world", "&", "good"] + ["morning", "The", "date", "is", "18/05/2016"] == ["Hello", "world", "&"] + (["good", "morning", "The"] + ["date", "is", "18/05/2016"]);
  }

  lemma SampleSentenceLineRead()
    ensures ReadLines(Initial, ["Hello world & good morning. The date is 18/05/2016"]) == Stats(9, 41, map[5 := 2, 1 := 1, 4 := 2, 7 := 1, 3 := 1, 2 := 1, 10 := 1])
  {
    SampleSentenceLine();
    SampleSentenceLineAccepted();
    SampleSentenceLineCounts1();
    SampleSentenceLineCounts2();
    SampleSentenceLineCounts3();
    CountInParts(Stats(3, 11, map[5 := 2, 1 := 1]), ["good", "morning", "The"], Stats(6, 25, map[5 := 2, 1 := 1, 4 := 1, 7 := 1, 3 := 1]), ["date", "is", "18/05/2016"], Stats(9, 41, map[5 := 2, 1 := 1, 4 := 2, 7 := 1, 3 := 1, 2 := 1, 10 := 1]));
    CountInParts(Initial, ["Hello", "world", "&"], Stats(3, 11, map[5 := 2, 1 := 1]), ["good", "morning", "The"] + ["date", "is", "18/05/2016"], Stats(9, 41, map[5 := 2, 1 := 1, 4 := 2, 7 := 1, 3 := 1, 2 := 1, 10 := 1]));
    LineStep(Initial, "Hello world & good morning. The date is 18/05/2016", ["Hello", "world", "&", "good", "morning.", "The", "date", "is", "18/05/2016"], [Some("Hello"), Some("world"), Some("&"), Some("good"), Some("morning"), Some("The"), Some("date"), Some("is"), Some("18/05/2016")], ["Hello", "world", "&"] + (["good", "morning", "The"] + ["date", "is", "18/05/2016"]), Stats(9, 41, map[5 := 2, 1 := 1, 4 := 2, 7 := 1, 3 := 1, 2 := 1, 10 := 1]));
  }

  lemma SampleSentenceLoad()
    ensures Load(["Hello world & good morning. The date is 18/05/2016"]) == Stats(9, 41, map[5 := 2, 1 := 1, 4 := 2, 7 := 1, 3 := 1, 2 := 1, 10 := 1])
  {
    SampleSentenceLineRead();
  }

  lemma SampleSentenceReport()
    ensures IsMaxCount(map[5 := 2, 1 := 1, 4 := 2, 7 := 1, 3 := 1, 2 := 1, 10 := 1], 2)
    ensures AverageText(Stats(9, 41, map[5 := 2, 1 := 1, 4 := 2, 7 := 1, 3 := 1, 2 := 1, 10 := 1])) == "4.556"
  {
    assert map[5 := 2, 1 := 1, 4 := 2, 7 := 1, 3 := 1, 2 := 1, 10 := 1][5] == 2;
    assert HalfUpThousandths(41, 9) == 4556;
    assert Decimal.Decimal(4) == "4";
    assert ThreeDigits(556) == "556";
  }

  /** The mixed sample sentence: 9 words (the `&` counts, the `.` after
      `morning` does not), largest bucket 2, average 4.556. */
  lemma SampleSentence()
    ensures Load(["Hello world & good morning. The date is 18/05/2016"]).wordCount == 9
    ensures IsMaxCount(Load(["Hello world & good morning. The date is 18/05/2016"]).hist, 2)
    ensures AverageText(Load(["Hello world & good morning. The date is 18/05/2016"])) == "4.556"
  {
    SampleSentenceLoad();
    SampleSentenceReport();
  }

  // ---------------------------------------------------------------------
  // "This is basic text"

  lemma BasicTextLineJoin()
    ensures Join(["This", "is", "basic", "text"]) == "This is basic text"
  {
  }

  lemma BasicTextLinePieces()
    ensures forall i :: 0 <= i < 4 ==> Space !in ["This", "is", "basic", "text"][i] && Classified(["This", "is", "basic", "text"][i], [Some("This"), Some("is"), Some("basic"), Some("text")][i])
  {
  }

  lemma BasicTextLine()
    ensures LineOf("This is basic text", ["This", "is", "basic", "text"], [Some("This"), Some("is"), Some("basic"), Some("text")])
  {
    BasicTextLineJoin();
    BasicTextLinePieces();
  }

  lemma BasicTextLineCounts1()
    ensures AddWords(Initial, ["This", "is", "basic"]) == Stats(3, 11, map[4 := 1, 2 := 1, 5 := 1])
  {
  }

  lemma BasicTextLineCounts2()
    ensures AddWords(Stats(3, 11, map[4 := 1, 2 := 1, 5 := 1]), ["text"]) == Stats(4, 15, map[4 := 2, 2 := 1, 5 := 1])
  {
  }

  lemma BasicTextLineAccepted()
    ensures Accepted([Some("This"), Some("is"), Some("basic"), Some("text")]) == ["This", "is", "basic"] + ["text"]
  {
  }

  lemma BasicTextLineRead()
    ensures ReadLines(Initial, ["This is basic text"]) == Stats(4, 15, map[4 := 2, 2 := 1, 5 := 1])
  {
    BasicTextLine();
    BasicTextLineAccepted();
    BasicTextLineCounts1();
    BasicTextLineCounts2();
    CountInParts(Initial, ["This", "is", "basic"], Stats(3, 11, map[4 := 1, 2 := 1, 5 := 1]), ["text"], Stats(4, 15, map[4 := 2, 2 := 1, 5 := 1]));
    LineStep(Initial, "This is basic text", ["This", "is", "basic", "text"], [Some("This"), Some("is"), Some("basic"), Some("text")], ["This", "is", "basic"] + ["text"], Stats(4, 15, map[4 := 2, 2 := 1, 5 := 1]));
  }

  lemma BasicTextLoad()
    ensures Load(["This is basic text"]) == Stats(4, 15, map[4 := 2, 2 := 1, 5 := 1])
  {
    BasicTextLineRead();
  }

  lemma BasicTextReport()
    ensures IsMaxCount(map[4 := 2, 2 := 1, 5 := 1], 2)
    ensures AverageText(Stats(4, 15, map[4 := 2, 2 := 1, 5 := 1])) == "3.750"
  {
    assert map[4 := 2, 2 := 1, 5 := 1][4] == 2;
    assert HalfUpThousandths(15, 4) == 3750;
    assert Decimal.Decimal(3) == "3";
    assert ThreeDigits(750) == "750";
  }

  /** A plain sentence: 4 words, largest bucket 2, average 3.750. */
  lemma BasicText()
    ensures Load(["This is basic text"]).wordCount == 4
    ensures IsMaxCount(Load(["This is basic text"]).hist, 2)
    ensures AverageText(Load(["This is basic text"])) == "3.750"
  {
    BasicTextLoad();
    BasicTextReport();
  }

  // ---------------------------------------------------------------------
  // "*** The stars should not *** count"

  lemma InvalidWordInStringLineJoinFront()
    ensures Join(["***", "The", "stars"]) == "*** The stars"
  {
  }

  lemma InvalidWordInStringLineJoinBack()
    ensures Join(["should", "not", "***", "count"]) == "should not *** count"
  {
  }

  lemma InvalidWordInStringLineText()
    ensures "*** The stars" + [Space] + "should not *** count" == "*** The stars should not *** count"
  {
  }

  lemma InvalidWordInStringLineJoin()
    ensures Join(["***", "The", "stars", "should", "not", "***", "count"]) == "*** The stars should not *** count"
  {
    InvalidWordInStringLineJoinFront();
    InvalidWordInStringLineJoinBack();
    InvalidWordInStringLineText();
    JoinHalves(["***", "The", "stars"], "*** The stars", ["should", "not", "***", "count"], "should not *** count", "*** The stars should not *** count");
    assert ["***", "The", "stars"] + ["should", "not", "***", "count"] == ["***", "The", "stars", "should", "not", "***", "count"];
  }

  lemma InvalidWordInStringLinePieces1()
    ensures forall i :: 0 <= i < 3 ==> Space !in ["***", "The", "stars", "should", "not", "***", "count"][i] && Classified(["***", "The", "stars", "should", "not", "***", "count"][i], [None, Some("The"), Some("stars"), Some("should"), Some("not"), None, Some("count")][i])
  {
  }

  lemma InvalidWordInStringLinePieces2()
    ensures forall i :: 3 <= i < 7 ==> Space !in ["***", "The", "stars", "should", "not", "***", "count"][i] && Classified(["***", "The", "stars", "should", "not", "***", "count"][i], [None, Some("The"), Some("stars"), Some("should"), Some("not"), None, Some("count")][i])
  {
  }

  lemma InvalidWordInStringLine()
    ensures LineOf("*** The stars should not *** count", ["***", "The", "stars", "should", "not", "***", "count"], [None, Some("The"), Some("stars"), Some("should"), Some("not"), None, Some("count")])
  {
    InvalidWordInStringLineJoin();
    InvalidWordInStringLinePieces1();
    InvalidWordInStringLinePieces2();
  }

  lemma InvalidWordInStringLineCounts1()
    ensures AddWords(Initial, ["The", "stars", "should"]) == Stats(3, 14, map[3 := 1, 5 := 1, 6 := 1])
  {
  }

  lemma InvalidWordInStringLineCounts2()
    ensures AddWords(Stats(3, 14, map[3 := 1, 5 := 1, 6 := 1]), ["not", "count"]) == Stats(5, 22, map[3 := 2, 5 := 2, 6 := 1])
  {
  }

  lemma InvalidWordInStringLineAcceptedFront()
    ensures Accepted([None, Some("The"), Some("stars")]) == ["The", "stars"]
  {
  }

  lemma InvalidWordInStringLineAcceptedBack()
    ensures Accepted([Some("should"), Some("not"), None, Some("count")]) == ["should", "not", "count"]
  {
  }

  lemma InvalidWordInStringLineAccepted()
    ensures Accepted([None, Some("The"), Some("stars"), Some("should"), Some("not"), None, Some("count")]) == ["The", "stars", "should"] + ["not", "count"]
  {
    InvalidWordInStringLineAcceptedFront();
    InvalidWordInStringLineAcceptedBack();
    assert [None, Some("The"), Some("stars")] + [Some("should"), Some("not"), None, Some("count")] == [None, Some("The"), Some("stars"), Some("should"), Some("not"), None, Some("count")];
    AcceptedAppend([None, Some("The"), Some("stars")], [Some("should"), Some("not"), None, Some("count")]);
    assert ["The", "stars"] + ["should", "not", "count"] == ["The", "stars", "should"] + ["not", "count"];
  }

  lemma InvalidWordInStringLineRead()
    ensures ReadLines(Initial, ["*** The stars should not *** count"]) == Stats(5, 22, map[3 := 2, 5 := 2, 6 := 1])
  {
    InvalidWordInStringLine();
    InvalidWordInStringLineAccepted();
    InvalidWordInStringLineCounts1();
    InvalidWordInStringLineCounts2();
    CountInParts(Initial, ["The", "stars", "should"], Stats(3, 14, map[3 := 1, 5 := 1, 6 := 1]), ["not", "count"], Stats(5, 22, map[3 := 2, 5 := 2, 6 := 1]));
    LineStep(Initial, "*** The stars should not *** count", ["***", "The", "stars", "should", "not", "***", "count"], [None, Some("The"), Some("stars"), Some("should"), Some("not"), None, Some("count")], ["The", "stars", "should"] + ["not", "count"], Stats(5, 22, map[3 := 2, 5 := 2, 6 := 1]));
  }

  lemma InvalidWordInStringLoad()
    ensures Load(["*** The stars should not *** count"]) == Stats(5, 22, map[3 := 2, 5 := 2, 6 := 1])
  {
    InvalidWordInStringLineRead();
  }

  lemma InvalidWordInStringReport()
    ensures IsMaxCount(map[3 := 2, 5 := 2, 6 := 1], 2)
    ensures AverageText(Stats(5, 22, map[3 := 2, 5 := 2, 6 := 1])) == "4.400"
  {
    assert map[3 := 2, 5 := 2, 6 := 1][3] == 2;
    assert HalfUpThousandths(22, 5) == 4400;
    assert Decimal.Decimal(4) == "4";
    assert ThreeDigits(400) == "400";
  }

  /** Runs of symbols are not words: 5 words, largest bucket 2, average
      4.400. */
  lemma InvalidWordInString()
    ensures Load(["*** The stars should not *** count"]).wordCount == 5
    ensures IsMaxCount(Load(["*** The stars should not *** count"]).hist, 2)
    ensures AverageText(Load(["*** The stars should not *** count"])) == "4.400"
  {
    InvalidWordInStringLoad();
    InvalidWordInStringReport();
  }

  // ---------------------------------------------------------------------
  // "This. Is. A: Rubbish! Sentence?"

  lemma TrimmingPunctuationLineJoinFront()
    ensures Join(["This.", "Is."]) == "This. Is."
  {
  }

  lemma TrimmingPunctuationLineJoinBack()
    ensures Join(["A:", "Rubbish!", "Sentence?"]) == "A: Rubbish! Sentence?"
  {
  }

  lemma TrimmingPunctuationLineText()
    ensures "This. Is." + [Space] + "A: Rubbish! Sentence?" == "This. Is. A: Rubbish! Sentence?"
  {
  }

  lemma TrimmingPunctuationLineJoin()
    ensures Join(["This.", "Is.", "A:", "Rubbish!", "Sentence?"]) == "This. Is. A: Rubbish! Sentence?"
  {
    TrimmingPunctuationLineJoinFront();
    TrimmingPunctuationLineJoinBack();
    TrimmingPunctuationLineText();
    JoinHalves(["This.", "Is."], "This. Is.", ["A:", "Rubbish!", "Sentence?"], "A: Rubbish! Sentence?", "This. Is. A: Rubbish! Sentence?");
    assert ["This.", "Is."] + ["A:", "Rubbish!", "Sentence?"] == ["This.", "Is.", "A:", "Rubbish!", "Sentence?"];
  }

  lemma TrimmingPunctuationLinePieces1()
    ensures forall i :: 0 <= i < 2 ==> Space !in ["This.", "Is.", "A:", "Rubbish!", "Sentence?"][i] && Classified(["This.", "Is.", "A:", "Rubbish!", "Sentence?"][i], [Some("This"), Some("Is"), Some("A"), Some("Rubbish"), Some("Sentence")][i])
  {
  }

  lemma TrimmingPunctuationLinePieces2()
    ensures forall i :: 2 <= i < 5 ==> Space !in ["This.", "Is.", "A:", "Rubbish!", "Sentence?"][i] && Classified(["This.", "Is.", "A:", "Rubbish!", "Sentence?"][i], [Some("This"), Some("Is"), Some("A"), Some("Rubbish"), Some("Sentence")][i])
  {
  }

  lemma TrimmingPunctuationLine()
    ensures LineOf("This. Is. A: Rubbish! Sentence?", ["This.", "Is.", "A:", "Rubbish!", "Sentence?"], [Some("This"), Some("Is"), Some("A"), Some("Rubbish"), Some("Sentence")])
  {
    TrimmingPunctuationLineJoin();
    TrimmingPunctuationLinePieces1();
    TrimmingPunctuationLinePieces2();
  }

  lemma TrimmingPunctuationLineCounts1()
    ensures AddWords(Initial, ["This", "Is", "A"]) == Stats(3, 7, map[4 := 1, 2 := 1, 1 := 1])
  {
  }

  lemma TrimmingPunctuationLineCounts2()
    ensures AddWords(Stats(3, 7, map[4 := 1, 2 := 1, 1 := 1]), ["Rubbish", "Sentence"]) == Stats(5, 22, map[4 := 1, 2 := 1, 1 := 1, 7 := 1, 8 := 1])
  {
  }

  lemma TrimmingPunctuationLineAcceptedFront()
    ensures Accepted([Some("This"), Some("Is")]) == ["This", "Is"]
  {
  }

  lemma TrimmingPunctuationLineAcceptedBack()
    ensures Accepted([Some("A"), Some("Rubbish"), Some("Sentence")]) == ["A", "Rubbish", "Sentence"]
  {
  }

  lemma TrimmingPunctuationLineAccepted()
    ensures Accepted([Some("This"), Some("Is"), Some("A"), Some("Rubbish"), Some("Sentence")]) == ["This", "Is", "A"] + ["Rubbish", "Sentence"]
  {
    TrimmingPunctuationLineAcceptedFront();
    TrimmingPunctuationLineAcceptedBack();
    assert [Some("This"), Some("Is")] + [Some("A"), Some("Rubbish"), Some("Sentence")] == [Some("This"), Some("Is"), Some("A"), Some("Rubbish"), Some("Sentence")];
    AcceptedAppend([Some("This"), Some("Is")], [Some("A"), Some("Rubbish"), Some("Sentence")]);
    assert ["This", "Is"] + ["A", "Rubbish", "Sentence"] == ["This", "Is", "A"] + ["Rubbish", "Sentence"];
  }

  lemma TrimmingPunctuationLineRead()
    ensures ReadLines(Initial, ["This. Is. A: Rubbish! Sentence?"]) == Stats(5, 22, map[4 := 1, 2 := 1, 1 := 1, 7 := 1, 8 := 1])
  {
    TrimmingPunctuationLine();
    TrimmingPunctuationLineAccepted();
    TrimmingPunctuationLineCounts1();
    TrimmingPunctuationLineCounts2();
    CountInParts(Initial, ["This", "Is", "A"], Stats(3, 7, map[4 := 1, 2 := 1, 1 := 1]), ["Rubbish", "Sentence"], Stats(5, 22, map[4 := 1, 2 := 1, 1 := 1, 7 := 1, 8 := 1]));
    LineStep(Initial, "This. Is. A: Rubbish! Sentence?", ["This.", "Is.", "A:", "Rubbish!", "Sentence?"], [Some("This"), Some("Is"), Some("A"), Some("Rubbish"), Some("Sentence")], ["This", "Is", "A"] + ["Rubbish", "Sentence"], Stats(5, 22, map[4 := 1, 2 := 1, 1 := 1, 7 := 1, 8 := 1]));
  }

  lemma TrimmingPunctuationLoad()
    ensures Load(["This. Is. A: Rubbish! Sentence?"]) == Stats(5, 22, map[4 := 1, 2 := 1, 1 := 1, 7 := 1, 8 := 1])
  {
    TrimmingPunctuationLineRead();
  }

  lemma TrimmingPunctuationReport()
    ensures IsMaxCount(map[4 := 1, 2 := 1, 1 := 1, 7 := 1, 8 := 1], 1)
    ensures AverageText(Stats(5, 22, map[4 := 1, 2 := 1, 1 := 1, 7 := 1, 8 := 1])) == "4.400"
  {
    assert map[4 := 1, 2 := 1, 1 := 1, 7 := 1, 8 := 1][4] == 1;
    assert HalfUpThousandths(22, 5) == 4400;
    assert Decimal.Decimal(4) == "4";
    assert ThreeDigits(400) == "400";
  }

  /** Trailing punctuation is stripped: 5 words of 5 different lengths,
      largest bucket 1, average 4.400. */
  lemma TrimmingPunctuation()
    ensures Load(["This. Is. A: Rubbish! Sentence?"]).wordCount == 5
    ensures IsMaxCount(Load(["This. Is. A: Rubbish! Sentence?"]).hist, 1)
    ensures AverageText(Load(["This. Is. A: Rubbish! Sentence?"])) == "4.400"
  {
    TrimmingPunctuationLoad();
    TrimmingPunctuationReport();
  }

  // ---------------------------------------------------------------------
  // three lines, the first two ending in a space

  lemma FileWithNewLinesLine1Join()
    ensures Join(["This", "text", ""]) == "This text "
  {
  }

  lemma FileWithNewLinesLine1Pieces()
    ensures forall i :: 0 <= i < 3 ==> Space !in ["This", "text", ""][i] && Classified(["This", "text", ""][i], [Some("This"), Some("text"), None][i])
  {
  }

  lemma FileWithNewLinesLine1()
    ensures LineOf("This text ", ["This", "text", ""], [Some("This"), Some("text"), None])
  {
    FileWithNewLinesLine1Join();
    FileWithNewLinesLine1Pieces();
  }

  lemma FileWithNewLinesLine1Counts()
    ensures AddWords(Initial, ["This", "text"]) == Stats(2, 8, map[4 := 2])
  {
  }

  lemma FileWithNewLinesLine1Accepted()
    ensures Accepted([Some("This"), Some("text"), None]) == ["This", "text"]
  {
  }

  lemma FileWithNewLinesLine1Read()
    ensures ReadLines(Initial, ["This text "]) == Stats(2, 8, map[4 := 2])
  {
    FileWithNewLinesLine1();
    FileWithNewLinesLine1Accepted();
    FileWithNewLinesLine1Counts();
    LineStep(Initial, "This text ", ["This", "text", ""], [Some("This"), Some("text"), None], ["This", "text"], Stats(2, 8, map[4 := 2]));
  }

  lemma FileWithNewLinesLine2Join()
    ensures Join(["Is", "split", "over", ""]) == "Is split over "
  {
  }

  lemma FileWithNewLinesLine2Pieces()
    ensures forall i :: 0 <= i < 4 ==> Space !in ["Is", "split", "over", ""][i] && Classified(["Is", "split", "over", ""][i], [Some("Is"), Some("split"), Some("over"), None][i])
  {
  }

  lemma FileWithNewLinesLine2()
    ensures LineOf("Is split over ", ["Is", "split", "over", ""], [Some("Is"), Some("split"), Some("over"), None])
  {
    FileWithNewLinesLine2Join();
    FileWithNewLinesLine2Pieces();
  }

  lemma FileWithNewLinesLine2Counts()
    ensures AddWords(Stats(2, 8, map[4 := 2]), ["Is", "split", "over"]) == Stats(5, 19, map[4 := 3, 2 := 1, 5 := 1])
  {
  }

  lemma FileWithNewLinesLine2Accepted()
    ensures Accepted([Some("Is"), Some("split"), Some("over"), None]) == ["Is", "split", "over"]
  {
  }

  lemma FileWithNewLinesLine2Read()
    ensures ReadLines(Stats(2, 8, map[4 := 2]), ["Is split over "]) == Stats(5, 19, map[4 := 3, 2 := 1, 5 := 1])
  {
    FileWithNewLinesLine2();
    FileWithNewLinesLine2Accepted();
    FileWithNewLinesLine2Counts();
    LineStep(Stats(2, 8, map[4 := 2]), "Is split over ", ["Is", "split", "over", ""], [Some("Is"), Some("split"), Some("over"), None], ["Is", "split", "over"], Stats(5, 19, map[4 := 3, 2 := 1, 5 := 1]));
  }

  lemma FileWithNewLinesLine3Join()
    ensures Join(["A", "few", "lines"]) == "A few lines"
  {
  }

  lemma FileWithNewLinesLine3Pieces()
    ensures forall i :: 0 <= i < 3 ==> Space !in ["A", "few", "lines"][i] && Classified(["A", "few", "lines"][i], [Some("A"), Some("few"), Some("lines")][i])
  {
  }

  lemma FileWithNewLinesLine3()
    ensures LineOf("A few lines", ["A", "few", "lines"], [Some("A"), Some("few"), Some("lines")])
  {
    FileWithNewLinesLine3Join();
    FileWithNewLinesLine3Pieces();
  }

  lemma FileWithNewLinesLine3Counts()
    ensures AddWords(Stats(5, 19, map[4 := 3, 2 := 1, 5 := 1]), ["A", "few", "lines"]) == Stats(8, 28, map[4 := 3, 2 := 1, 5 := 2, 1 := 1, 3 := 1])
  {
  }

  lemma FileWithNewLinesLine3Accepted()
    ensures Accepted([Some("A"), Some("few"), Some("lines")]) == ["A", "few", "lines"]
  {
  }

  lemma FileWithNewLinesLine3Read()
    ensures ReadLines(Stats(5, 19, map[4 := 3, 2 := 1, 5 := 1]), ["A few lines"]) == Stats(8, 28, map[4 := 3, 2 := 1, 5 := 2, 1 := 1, 3 := 1])
  {
    FileWithNewLinesLine3();
    FileWithNewLinesLine3Accepted();
    FileWithNewLinesLine3Counts();
    LineStep(Stats(5, 19, map[4 := 3, 2 := 1, 5 := 1]), "A few lines", ["A", "few", "lines"], [Some("A"), Some("few"), Some("lines")], ["A", "few", "lines"], Stats(8, 28, map[4 := 3, 2 := 1, 5 := 2, 1 := 1, 3 := 1]));
  }

  lemma FileWithNewLinesLoad()
    ensures Load(["This text ", "Is split over ", "A few lines"]) == Stats(8, 28, map[4 := 3, 2 := 1, 5 := 2, 1 := 1, 3 := 1])
  {
    FileWithNewLinesLine1Read();
    FileWithNewLinesLine2Read();
    FileWithNewLinesLine3Read();
    ReadThree(Initial, "This text ", Stats(2, 8, map[4 := 2]), "Is split over ", Stats(5, 19, map[4 := 3, 2 := 1, 5 := 1]), "A few lines", Stats(8, 28, map[4 := 3, 2 := 1, 5 := 2, 1 := 1, 3 := 1]));
  }

  lemma FileWithNewLinesReport()
    ensures IsMaxCount(map[4 := 3, 2 := 1, 5 := 2, 1 := 1, 3 := 1], 3)
    ensures AverageText(Stats(8, 28, map[4 := 3, 2 := 1, 5 := 2, 1 := 1, 3 := 1])) == "3.500"
  {
    assert map[4 := 3, 2 := 1, 5 := 2, 1 := 1, 3 := 1][4] == 3;
    assert HalfUpThousandths(28, 8) == 3500;
    assert Decimal.Decimal(3) == "3";
    assert ThreeDigits(500) == "500";
  }

  /** Lines add up, they are not counted in isolation: 8 words, largest
      bucket 3, average 3.500. */
  lemma FileWithNewLines()
    ensures Load(["This text ", "Is split over ", "A few lines"]).wordCount == 8
    ensures IsMaxCount(Load(["This text ", "Is split over ", "A few lines"]).hist, 3)
    ensures AverageText(Load(["This text ", "Is split over ", "A few lines"])) == "3.500"
  {
    FileWithNewLinesLoad();
    FileWithNewLinesReport();
  }

  // ---------------------------------------------------------------------
  // two empty lines, a line, an empty line, a line

  lemma EmptyLinesLine3JoinFront()
    ensures Join(["Can", "I"]) == "Can I"
  {
  }

  lemma EmptyLinesLine3JoinBack()
    ensures Join(["handle", "empty", ""]) == "handle empty "
  {
  }

  lemma EmptyLinesLine3Text()
    ensures "Can I" + [Space] + "handle empty " == "Can I handle empty "
  {
  }

  lemma EmptyLinesLine3Join()
    ensures Join(["Can", "I", "handle", "empty", ""]) == "Can I handle empty "
  {
    EmptyLinesLine3JoinFront();
    EmptyLinesLine3JoinBack();
    EmptyLinesLine3Text();
    JoinHalves(["Can", "I"], "Can I", ["handle", "empty", ""], "handle empty ", "Can I handle empty ");
    assert ["Can", "I"] + ["handle", "empty", ""] == ["Can", "I", "handle", "empty", ""];
  }

  lemma EmptyLinesLine3Pieces1()
    ensures forall i :: 0 <= i < 2 ==> Space !in ["Can", "I", "handle", "empty", ""][i] && Classified(["Can", "I", "handle", "empty", ""][i], [Some("Can"), Some("I"), Some("handle"), Some("empty"), None][i])
  {
  }

  lemma EmptyLinesLine3Pieces2()
    ensures forall i :: 2 <= i < 5 ==> Space !in ["Can", "I", "handle", "empty", ""][i] && Classified(["Can", "I", "handle", "empty", ""][i], [Some("Can"), Some("I"), Some("handle"), Some("empty"), None][i])
  {
  }

  lemma EmptyLinesLine3()
    ensures LineOf("Can I handle empty ", ["Can", "I", "handle", "empty", ""], [Some("Can"), Some("I"), Some("handle"), Some("empty"), None])
  {
    EmptyLinesLine3Join();
    EmptyLinesLine3Pieces1();
    EmptyLinesLine3Pieces2();
  }

  lemma EmptyLinesLine3Counts1()
    ensures AddWords(Initial, ["Can", "I", "handle"]) == Stats(3, 10, map[3 := 1, 1 := 1, 6 := 1])
  {
  }

  lemma EmptyLinesLine3Counts2()
    ensures AddWords(Stats(3, 10, map[3 := 1, 1 := 1, 6 := 1]), ["empty"]) == Stats(4, 15, map[3 := 1, 1 := 1, 6 := 1, 5 := 1])
  {
  }

  lemma EmptyLinesLine3AcceptedFront()
    ensures Accepted([Some("Can"), Some("I")]) == ["Can", "I"]
  {
  }

  lemma EmptyLinesLine3AcceptedBack()
    ensures Accepted([Some("handle"), Some("empty"), None]) == ["handle", "empty"]
  {
  }

  lemma EmptyLinesLine3Accepted()
    ensures Accepted([Some("Can"), Some("I"), Some("handle"), Some("empty"), None]) == ["Can", "I", "handle"] + ["empty"]
  {
    EmptyLinesLine3AcceptedFront();
    EmptyLinesLine3AcceptedBack();
    assert [Some("Can"), Some("I")] + [Some("handle"), Some("empty"), None] == [Some("Can"), Some("I"), Some("handle"), Some("empty"), None];
    AcceptedAppend([Some("Can"), Some("I")], [Some("handle"), Some("empty"), None]);
    assert ["Can", "I"] + ["handle", "empty"] == ["Can", "I", "handle"] + ["empty"];
  }

  lemma EmptyLinesLine3Read()
    ensures ReadLines(Initial, ["Can I handle empty "]) == Stats(4, 15, map[3 := 1, 1 := 1, 6 := 1, 5 := 1])
  {
    EmptyLinesLine3();
    EmptyLinesLine3Accepted();
    EmptyLinesLine3Counts1();
    EmptyLinesLine3Counts2();
    CountInParts(Initial, ["Can", "I", "handle"], Stats(3, 10, map[3 := 1, 1 := 1, 6 := 1]), ["empty"], Stats(4, 15, map[3 := 1, 1 := 1, 6 := 1, 5 := 1]));
    LineStep(Initial, "Can I handle empty ", ["Can", "I", "handle", "empty", ""], [Some("Can"), Some("I"), Some("handle"), Some("empty"), None], ["Can", "I", "handle"] + ["empty"], Stats(4, 15, map[3 := 1, 1 := 1, 6 := 1, 5 := 1]));
  }

  lemma EmptyLinesLine5Join()
    ensures Join(["lines?"]) == "lines?"
  {
  }

  lemma EmptyLinesLine5Pieces()
    ensures forall i :: 0 <= i < 1 ==> Space !in ["lines?"][i] && Classified(["lines?"][i], [Some("lines")][i])
  {
  }

  lemma EmptyLinesLine5()
    ensures LineOf("lines?", ["lines?"], [Some("lines")])
  {
    EmptyLinesLine5Join();
    EmptyLinesLine5Pieces();
  }

  lemma EmptyLinesLine5Counts()
    ensures AddWords(Stats(4, 15, map[3 := 1, 1 := 1, 6 := 1, 5 := 1]), ["lines"]) == Stats(5, 20, map[3 := 1, 1 := 1, 6 := 1, 5 := 2])
  {
  }

  lemma EmptyLinesLine5Accepted()
    ensures Accepted([Some("lines")]) == ["lines"]
  {
  }

  lemma EmptyLinesLine5Read()
    ensures ReadLines(Stats(4, 15, map[3 := 1, 1 := 1, 6 := 1, 5 := 1]), ["lines?"]) == Stats(5, 20, map[3 := 1, 1 := 1, 6 := 1, 5 := 2])
  {
    EmptyLinesLine5();
    EmptyLinesLine5Accepted();
    EmptyLinesLine5Counts();
    LineStep(Stats(4, 15, map[3 := 1, 1 := 1, 6 := 1, 5 := 1]), "lines?", ["lines?"], [Some("lines")], ["lines"], Stats(5, 20, map[3 := 1, 1 := 1, 6 := 1, 5 := 2]));
  }

  lemma EmptyLinesLoad()
    ensures Load(["", "", "Can I handle empty ", "", "lines?"]) == Stats(5, 20, map[3 := 1, 1 := 1, 6 := 1, 5 := 2])
  {
    EmptyLineStep(Initial);
    EmptyLineStep(Initial);
    EmptyLinesLine3Read();
    EmptyLineStep(Stats(4, 15, map[3 := 1, 1 := 1, 6 := 1, 5 := 1]));
    EmptyLinesLine5Read();
    ReadFive(Initial, "", Initial, "", Initial, "Can I handle empty ", Stats(4, 15, map[3 := 1, 1 := 1, 6 := 1, 5 := 1]), "", Stats(4, 15, map[3 := 1, 1 := 1, 6 := 1, 5 := 1]), "lines?", Stats(5, 20, map[3 := 1, 1 := 1, 6 := 1, 5 := 2]));
  }

  lemma EmptyLinesReport()
    ensures IsMaxCount(map[3 := 1, 1 := 1, 6 := 1, 5 := 2], 2)
    ensures AverageText(Stats(5, 20, map[3 := 1, 1 := 1, 6 := 1, 5 := 2])) == "4.000"
  {
    assert map[3 := 1, 1 := 1, 6 := 1, 5 := 2][5] == 2;
    assert HalfUpThousandths(20, 5) == 4000;
    assert Decimal.Decimal(4) == "4";
    assert ThreeDigits(0) == "000";
  }

  /** Empty lines are skipped: 5 words, largest bucket 2, average 4.000. */
  lemma EmptyLines()
    ensures Load(["", "", "Can I handle empty ", "", "lines?"]).wordCount == 5
    ensures IsMaxCount(Load(["", "", "Can I handle empty ", "", "lines?"]).hist, 2)
    ensures AverageText(Load(["", "", "Can I handle empty ", "", "lines?"])) == "4.000"
  {
    EmptyLinesLoad();
    EmptyLinesReport();
  }

  // ---------------------------------------------------------------------
  // The empty file

  /** An empty file: no words, largest bucket 0, average `"0.000"`. */
  lemma EmptyFile()
    ensures Load([]).wordCount == 0
    ensures IsMaxCount(Load([]).hist, 0)
    ensures AverageText(Load([])) == ZeroAverage
  {
  }
}
