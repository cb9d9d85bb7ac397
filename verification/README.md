# Word statistics of `TextFileReader`, in Dafny

This project models the word-statistics core of `TextFileReader`. That class
reads a text file line by line and counts its words. It keeps three running
totals:

- `wordCount`, the number of accepted words;
- `totalWordsLength`, the sum of their lengths;
- `wordLengthCounts`, a histogram from word length to number of words.

It then answers three queries: the largest bucket (`findMaxCountFromMap`), the
lengths that reach it (inside `printResults`), and the average word length
(`calculateAverageWordLength`).

The model is functional. The state is an immutable `Stats` datatype. The file
is given as its sequence of lines, and every step of the Java loops is a pure
function:

- `Tokenizer`: `String.split(" ")` with Java's special cases.
- `Classifier`: `trimWord`. This covers `String.trim`, the regular expression
  `[,.?!:;]$` of `replaceAll`, and the full-match `.+[a-zA-Z0-9]`, all with
  `java.util.regex` line-terminator semantics.
- `Histogram`: the bucket map and its sums.
- `Accumulator`: the per-word update, `parseFileLine` and the loop of
  `readInFile`.
- `Reference`: an independent definition of the result. It lists the accepted
  words of the file, then counts them, sums their lengths and tallies their
  lengths. The fold is proved equal to it.
- `Decimal` and `Report`: the queries, and the `%.3f` rendering of the average.
- `Scenarios`: the seven inputs of the repository's unit tests, with their
  expected figures proved.

Three behaviours of the code are easy to miss:

- The punctuation strip of `trimWord` is guarded by the length of the RAW token
  (`word.length() > 1`), not by the length of the trimmed one. So `"\t."` trims to `"."`,
  loses the `.` and is rejected (`Classifier.RawLengthGuard`).
- Nothing resets the totals when more lines are read. Only the constructor
  zeroes them, so reading is purely additive (`Accumulator.ReadLinesAppend`,
  `Accumulator.LoadThenRead`).
- The zero guard of the average tests both totals, the total length as well as
  the word count. On every reachable state the two tests agree
  (`Accumulator.NoWordsIffNoLength`).

## Model

| member | source | states |
|---|---|---|
| Tokenizer.Segments | TextFileReader/src/main/java/synalogik/TextFileReader/TextFileReader.java:97 | the pieces of a split line contain no space, there is at least one, and a line without a space is its own single piece |
| Tokenizer.JoinSegments | TextFileReader/src/main/java/synalogik/TextFileReader/TextFileReader.java:97 | gluing the pieces back with single spaces gives the line: splitting loses, adds and moves no character |
| Tokenizer.SegmentsJoin | TextFileReader/src/main/java/synalogik/TextFileReader/TextFileReader.java:97 | splitting space-free pieces joined by spaces gives back exactly those pieces (the inverse direction of the round trip) |
| Tokenizer.DropTrailingEmpty | TextFileReader/src/main/java/synalogik/TextFileReader/TextFileReader.java:97 | `split` with limit zero keeps a prefix of the pieces, drops only empty ones, and leaves no empty piece last |
| Tokenizer.NonEmpty | TextFileReader/src/main/java/synalogik/TextFileReader/TextFileReader.java:98-101 | the skipped-empty filter keeps exactly the non-empty pieces: each one kept is non-empty and was there, and each non-empty one is kept |
| Tokenizer.JavaSplitPieces | TextFileReader/src/main/java/synalogik/TextFileReader/TextFileReader.java:97 | `JavaSplit` (`split(" ")`): no piece holds a space, and Java's special cases (no separator, trailing empty pieces dropped) lose no non-empty piece |
| Tokenizer.TokensAreNonEmptySegments | TextFileReader/src/main/java/synalogik/TextFileReader/TextFileReader.java:97-101 | `Tokens`, the pieces the loop classifies: exactly the non-empty pieces between spaces, each non-empty and space-free |
| Tokenizer.TokensOfJoin | TextFileReader/src/main/java/synalogik/TextFileReader/TextFileReader.java:97-101 | space-free words joined by spaces tokenise to exactly those words, empty ones dropped |
| Tokenizer.TrailingSpaceIgnored | TextFileReader/src/main/java/synalogik/TextFileReader/TextFileReader.java:97-101 | a space at the end of a line adds no token |
| Tokenizer.NoTokensWithoutWords | TextFileReader/src/main/java/synalogik/TextFileReader/TextFileReader.java:97-101 | an empty line, or a line of spaces only, has no tokens |
| Tokenizer.TabStaysInToken | TextFileReader/src/main/java/synalogik/TextFileReader/TextFileReader.java:96-97 | a tab is not a separator: `"a\tb c"` has the tokens `"a\tb"` and `"c"` |
| Tokenizer.NonEmptyAppend | TextFileReader/src/main/java/synalogik/TextFileReader/TextFileReader.java:98-101 | skipping empty pieces distributes over concatenation |
| Tokenizer.JoinAppend | TextFileReader/src/main/java/synalogik/TextFileReader/TextFileReader.java:97 | joining two runs of pieces puts exactly one space between them |
| Classifier.TrimBounds | TextFileReader/src/main/java/synalogik/TextFileReader/TextFileReader.java:129 | `String.trim` keeps the part that neither starts nor ends with a character of code at most U+0020; everything cut off is such a character |
| Classifier.TrimIsTrimOf | TextFileReader/src/main/java/synalogik/TextFileReader/TextFileReader.java:129 | `Trim` returns exactly the part of the string that any cut with the trim property selects |
| Classifier.TrimIdempotent | TextFileReader/src/main/java/synalogik/TextFileReader/TextFileReader.java:129 | trimming twice is trimming once |
| Classifier.DropTrailingPunct | TextFileReader/src/main/java/synalogik/TextFileReader/TextFileReader.java:132 | `replaceAll("[,.?!:;]$", "")` removes at most one character |
| Classifier.DropTrailingPunctSpec | TextFileReader/src/main/java/synalogik/TextFileReader/TextFileReader.java:132 | the character removed is exactly the one the end-anchored pattern matches, and nothing changes when it matches nowhere |
| Classifier.TrimWord | TextFileReader/src/main/java/synalogik/TextFileReader/TextFileReader.java:128-144 | an accepted word is non-empty and either one character or ending in `[a-zA-Z0-9]`; a word is returned exactly when the candidate is one character or matches `.+[a-zA-Z0-9]` |
| Classifier.TrimWordValue | TextFileReader/src/main/java/synalogik/TextFileReader/TextFileReader.java:129-139 | the returned word (`Candidate`) is the trimmed token less the mark `[,.?!:;]$` matches when the raw token is longer than one character, and the trimmed token itself otherwise |
| Classifier.CleanWordAccepted | TextFileReader/src/main/java/synalogik/TextFileReader/TextFileReader.java:128-144 | a non-empty token with nothing to trim and no line terminator in it, that is one character or ends in a letter or digit, comes back unchanged |
| Classifier.PunctuatedWordAccepted | TextFileReader/src/main/java/synalogik/TextFileReader/TextFileReader.java:131-137 | such a word followed by one mark of `, . ? ! : ;` comes back without the mark |
| Classifier.CleansToAccepted | TextFileReader/src/main/java/synalogik/TextFileReader/TextFileReader.java:128-144 | a token that is a clean word, possibly with one trailing mark, is accepted as that word |
| Classifier.SymbolRunsRejected | TextFileReader/src/main/java/synalogik/TextFileReader/TextFileReader.java:136-142 | a token without letters or digits yields at most a single character |
| Classifier.SymbolRunRejected | TextFileReader/src/main/java/synalogik/TextFileReader/TextFileReader.java:136-142 | a token of two or more characters with nothing to trim, whose last character is not a letter, digit, punctuation mark or line terminator, is rejected |
| Classifier.StarsRejected | TextFileReader/src/test/java/synalogik/TextFileReader/TextFileReaderTest.java:53 | `***` is not a word |
| Classifier.AmpersandAccepted | TextFileReader/src/main/java/synalogik/TextFileReader/TextFileReader.java:138-139 | a lone `&` is a word |
| Classifier.PunctuationStripped | TextFileReader/src/test/java/synalogik/TextFileReader/TextFileReaderTest.java:67 | `A:` becomes `A` and `Rubbish!` becomes `Rubbish` |
| Classifier.InnerPunctuationKept | TextFileReader/src/main/java/synalogik/TextFileReader/TextFileReader.java:129-137 | only an end-anchored mark is stripped: a tab followed by `ab.c` gives `ab.c` |
| Classifier.DoublePunctuationRejected | TextFileReader/src/main/java/synalogik/TextFileReader/TextFileReader.java:131-142 | only one mark is stripped, so `word..` is rejected |
| Classifier.RawLengthGuard | TextFileReader/src/main/java/synalogik/TextFileReader/TextFileReader.java:129-133 | the strip is guarded by the raw token's length: `"."` is accepted, a tab followed by `"."` is rejected |
| Classifier.PunctBeforeLineTerminator | TextFileReader/src/main/java/synalogik/TextFileReader/TextFileReader.java:132-136 | `$` matches before a final line terminator, so the mark before it is removed (`a.` + U+2028 is then rejected, `.` + U+2028 is kept as the terminator alone); and `.` does not match a line terminator, so `a` + U+2028 + `b` is rejected |
| Histogram.Increment | TextFileReader/src/main/java/synalogik/TextFileReader/TextFileReader.java:111-115 | the bucket update adds the length to the keys, raises its count by one or creates it at one, and changes no other bucket |
| Histogram.TotalIncrement | TextFileReader/src/main/java/synalogik/TextFileReader/TextFileReader.java:111-115 | one update replaces only its own bucket's term in any sum over the buckets |
| Histogram.TotalZeroIffEmpty | TextFileReader/src/main/java/synalogik/TextFileReader/TextFileReader.java:21 | a sum of positive bucket terms is zero exactly when there are no buckets |
| Histogram.WeightAtLeastCount | TextFileReader/src/main/java/synalogik/TextFileReader/TextFileReader.java:110-118 | with positive lengths, the sum of length times count is at least the sum of counts |
| Accumulator.ParseTokens | TextFileReader/src/main/java/synalogik/TextFileReader/TextFileReader.java:98-119 | processing the pieces of a line never lowers a total or shrinks a bucket |
| Accumulator.ReadLines | TextFileReader/src/main/java/synalogik/TextFileReader/TextFileReader.java:54-58 | reading lines never lowers a total or shrinks a bucket |
| Accumulator.PerWordUpdate | TextFileReader/src/main/java/synalogik/TextFileReader/TextFileReader.java:109-118 | `AddWord`: an accepted word adds one to the count, its length to the total length and one to its bucket; every other bucket stays |
| Accumulator.ParseWordEffect | TextFileReader/src/main/java/synalogik/TextFileReader/TextFileReader.java:103-118 | `ParseWord`: a token changes the state exactly when the classifier accepts it, and then by one word of the cleaned word's length, counted in that length's bucket (`AddWord` of the cleaned word) |
| Accumulator.EmptyTokenRejected | TextFileReader/src/main/java/synalogik/TextFileReader/TextFileReader.java:99-101 | the classifier would reject an empty token anyway |
| Accumulator.EmptyTokensIgnored | TextFileReader/src/main/java/synalogik/TextFileReader/TextFileReader.java:98-101 | empty pieces of a line contribute nothing |
| Accumulator.ParseLineByTokens | TextFileReader/src/main/java/synalogik/TextFileReader/TextFileReader.java:95-119 | `ParseLine` (`parseFileLine`): a line's effect depends only on its tokens, not on the empty pieces `split` leaves |
| Accumulator.BlankLineIgnored | TextFileReader/src/main/java/synalogik/TextFileReader/TextFileReader.java:95-101 | an empty line, or one of spaces only, changes nothing |
| Accumulator.EmptyLinesIgnored | TextFileReader/src/main/java/synalogik/TextFileReader/TextFileReader.java:54-58 | empty lines of the file contribute nothing |
| Accumulator.ReadLinesAppend | TextFileReader/src/main/java/synalogik/TextFileReader/TextFileReader.java:54-58 | reading `a + b` is reading `a` and then `b`: nothing resets the totals |
| Accumulator.LoadThenRead | TextFileReader/src/main/java/synalogik/TextFileReader/TextFileReader.java:34-38 | reading more lines after construction gives the totals of one read over all the lines |
| Accumulator.AddWordConsistent | TextFileReader/src/main/java/synalogik/TextFileReader/TextFileReader.java:109-118 | adding a non-empty word keeps the count equal to the sum of the buckets, the total length equal to the sum of length times bucket, and every bucket positive |
| Accumulator.ParseWordConsistent | TextFileReader/src/main/java/synalogik/TextFileReader/TextFileReader.java:103-118 | classifying and counting one token keeps the totals consistent |
| Accumulator.ParseTokensConsistent | TextFileReader/src/main/java/synalogik/TextFileReader/TextFileReader.java:95-119 | processing a line keeps the totals consistent |
| Accumulator.ReadLinesConsistent | TextFileReader/src/main/java/synalogik/TextFileReader/TextFileReader.java:54-58 | reading lines keeps the totals consistent |
| Accumulator.LoadConsistent | TextFileReader/src/main/java/synalogik/TextFileReader/TextFileReader.java:34-38 | `Load` (the constructor): whatever the file holds, the constructed totals are consistent |
| Accumulator.NoWordsIffNoLength | TextFileReader/src/main/java/synalogik/TextFileReader/TextFileReader.java:167 | on a consistent state, no words, no characters and no buckets go together |
| Reference.CollectAppend | TextFileReader/src/main/java/synalogik/TextFileReader/TextFileReader.java:98-106 | collecting per-piece results over `a + b` is collecting over `a`, then `b` |
| Reference.WordsAppend | TextFileReader/src/main/java/synalogik/TextFileReader/TextFileReader.java:98-106 | the accepted words of `a + b` are those of `a` followed by those of `b` |
| Reference.WordsOfAccepted | TextFileReader/src/main/java/synalogik/TextFileReader/TextFileReader.java:103-106 | when every piece is accepted, the words are the cleaned pieces in order |
| Reference.WordsIgnoreEmpty | TextFileReader/src/main/java/synalogik/TextFileReader/TextFileReader.java:99-101 | empty pieces hold no accepted word |
| Reference.LineWords | TextFileReader/src/main/java/synalogik/TextFileReader/TextFileReader.java:97-106 | a line's accepted words are those of its tokens |
| Reference.JoinedLineWords | TextFileReader/src/main/java/synalogik/TextFileReader/TextFileReader.java:97-106 | space-free pieces joined by spaces yield the accepted words of those pieces |
| Reference.TrailingSpaceWords | TextFileReader/src/main/java/synalogik/TextFileReader/TextFileReader.java:97-106 | a trailing space changes nothing in a line's words |
| Reference.CleanWords | TextFileReader/src/main/java/synalogik/TextFileReader/TextFileReader.java:103-106 | pieces that each clean to a word yield exactly those words |
| Reference.AddWordsAppend | TextFileReader/src/main/java/synalogik/TextFileReader/TextFileReader.java:109-118 | counting `a + b` is counting `a`, then `b` |
| Reference.CountAbsentLength | TextFileReader/src/main/java/synalogik/TextFileReader/TextFileReader.java:111-115 | a length that occurs in no word has no words counted |
| Reference.SummarySnoc | TextFileReader/src/main/java/synalogik/TextFileReader/TextFileReader.java:109-118 | one more word changes the summary of a word list exactly as the per-word update changes the state |
| Reference.AddWordsIsSummary | TextFileReader/src/main/java/synalogik/TextFileReader/TextFileReader.java:109-118 | counting a word list from zero gives its length, its total characters and its length tally |
| Reference.ParseTokensCountsWords | TextFileReader/src/main/java/synalogik/TextFileReader/TextFileReader.java:95-119 | `parseFileLine` counts exactly the accepted words of the line's pieces |
| Reference.ReadLinesCountsWords | TextFileReader/src/main/java/synalogik/TextFileReader/TextFileReader.java:54-58 | the line loop counts exactly the accepted words of the file |
| Reference.LoadIsSummary | TextFileReader/src/main/java/synalogik/TextFileReader/TextFileReader.java:34-58 | `Load`: the constructed totals are the number of accepted words in the file, the sum of their lengths, and for each length the number of them that have it |
| Decimal.Decimal | TextFileReader/src/main/java/synalogik/TextFileReader/TextFileReader.java:171 | the integer part is written as digits without leading zeros that read back as the number |
| Decimal.ThreeDigits | TextFileReader/src/main/java/synalogik/TextFileReader/TextFileReader.java:171 | the fraction is written as exactly three digits that read back as the number |
| Decimal.FixedThree | TextFileReader/src/main/java/synalogik/TextFileReader/TextFileReader.java:171 | `%.3f` writes digits, a point and three digits that read back as the amount |
| Decimal.FixedThreeInjective | TextFileReader/src/main/java/synalogik/TextFileReader/TextFileReader.java:171 | different amounts are written differently |
| Decimal.HalfUpThousandths | TextFileReader/src/main/java/synalogik/TextFileReader/TextFileReader.java:170-171 | the quotient is rounded to the nearest thousandth, halves up |
| Report.MaxCountUnique | TextFileReader/src/main/java/synalogik/TextFileReader/TextFileReader.java:150-159 | a histogram has one largest bucket value |
| Report.FindMaxCount | TextFileReader/src/main/java/synalogik/TextFileReader/TextFileReader.java:150-159 | the scan returns the largest bucket: 0 on an empty histogram, and otherwise a value at least every bucket and equal to one of them |
| Report.ModalLengths | TextFileReader/src/main/java/synalogik/TextFileReader/TextFileReader.java:81-86 | a length is a mode exactly when its bucket equals the maximum, so all ties are kept |
| Report.AverageText | TextFileReader/src/main/java/synalogik/TextFileReader/TextFileReader.java:166-172 | `calculateAverageWordLength` always gives an integer part, a point and exactly three digits; `"0.000"` when the word count or the total length is zero; when both are positive, digits that read back as the quotient rounded to thousandths |
| Report.AverageZeroIffNoWords | TextFileReader/src/main/java/synalogik/TextFileReader/TextFileReader.java:166-172 | on a consistent state the average is `"0.000"` exactly when no word was counted |
| Report.AverageAtLeastOne | TextFileReader/src/main/java/synalogik/TextFileReader/TextFileReader.java:170-171 | a quotient of at least one rounds to at least one thousand thousandths |
| Report.PrintResults | TextFileReader/src/main/java/synalogik/TextFileReader/TextFileReader.java:72-88 | the report holds the count, the average, every bucket, the largest bucket and exactly the lengths that reach it, with no modes only when there are no buckets |
| Scenarios.SampleSentence | TextFileReader/src/test/java/synalogik/TextFileReader/TextFileReaderTest.java:22-34 | the sample sentence gives 9 words, largest bucket 2, average `"4.556"` |
| Scenarios.BasicText | TextFileReader/src/test/java/synalogik/TextFileReader/TextFileReaderTest.java:37-49 | `This is basic text` gives 4 words, largest bucket 2, average `"3.750"` |
| Scenarios.InvalidWordInString | TextFileReader/src/test/java/synalogik/TextFileReader/TextFileReaderTest.java:52-63 | the `***` runs are not counted: 5 words, largest bucket 2, average `"4.400"` |
| Scenarios.TrimmingPunctuation | TextFileReader/src/test/java/synalogik/TextFileReader/TextFileReaderTest.java:66-76 | trailing marks are stripped: 5 words, largest bucket 1, average `"4.400"` |
| Scenarios.FileWithNewLines | TextFileReader/src/test/java/synalogik/TextFileReader/TextFileReaderTest.java:79-89 | three lines add up: 8 words, largest bucket 3, average `"3.500"` |
| Scenarios.EmptyLines | TextFileReader/src/test/java/synalogik/TextFileReader/TextFileReaderTest.java:92-102 | empty lines are skipped: 5 words, largest bucket 2, average `"4.000"` |
| Scenarios.EmptyFile | TextFileReader/src/test/java/synalogik/TextFileReader/TextFileReaderTest.java:105-115 | an empty file gives 0 words, largest bucket 0, average `"0.000"` |

## Left out

- File access in `readInFile` (`File`, `BufferedReader`, closing the reader): the file is given as its sequence of lines, as `readLine` would return them.
- The null-path and missing-file `FileNotFoundException`s, and the `IOException` written to standard error: these concern the file system, not the counting.
- The console output of `printResults`, and the exact layout of its text: `Report.PrintResults` returns the figures instead. The per-length lines and the modal lengths form a map and a set, because `HashMap` fixes no iteration order.
- Report.AverageText: `calculateAverageWordLength` divides two `double`s and formats with `String.format("%.3f")` in the default locale. The model divides exactly and rounds half up to thousandths, with a `.` as the decimal point. Binary rounding of the quotient and locale-dependent separators are not modelled.
- The public setters (`setWordCount`, `setTotalWordsLength`, `setFilepath`) and the private `setWordLengthCounts`: they are not part of the counting, and they can break the histogram invariant.
- `AppMain`: a fixed path, and a second call to `readInFile` from another class.
- Java `int` overflow of the totals and counts: the model uses unbounded `nat`s.
- Characters outside the Basic Multilingual Plane: a Java `char` is one UTF-16 code unit, and a surrogate pair is not representable as a Dafny `char`.
- The order in which `HashMap` visits buckets: `Report.FindMaxCount` and `Report.ModalLengths` pick buckets in an arbitrary order and are proved correct for every order.
