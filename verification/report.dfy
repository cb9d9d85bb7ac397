/** The queries behind `printResults`: the largest bucket
    (`findMaxCountFromMap`), the lengths that reach it, and the average word
    length with its zero guard (`calculateAverageWordLength`). */
module Report {
  import opened Histogram
  import opened Accumulator
  import opened Decimal

  /** What `calculateAverageWordLength` returns when there is nothing to
      divide. */
  const ZeroAverage: string := "0.000"

  /** `m` is the largest bucket of `h`, or 0 when `h` has no buckets. */
  predicate IsMaxCount(h: Hist, m: nat) {
    if h == map[] then m == 0
    else (forall k :: k in h ==> h[k] <= m) && (exists k :: k in h && h[k] == m)
  }

  /** A histogram has one largest bucket value. */
  lemma MaxCountUnique(h: Hist, a: nat, b: nat)
    requires IsMaxCount(h, a) && IsMaxCount(h, b)
    ensures a == b
  {
  }

  /** `findMaxCountFromMap`: a scan over the buckets, in no particular order,
      keeping the largest count seen, starting from 0. */
  method FindMaxCount(h: Hist) returns (maxCount: nat)
    ensures IsMaxCount(h, maxCount)
  {
    maxCount := 0;
    var todo := h.Keys;
    while todo != {}
      invariant todo <= h.Keys
      invariant forall k :: k in h && k !in todo ==> h[k] <= maxCount
      invariant maxCount == 0 || exists k :: k in h && h[k] == maxCount
      decreases todo
    {
      var k :| k in todo;
      if h[k] > maxCount {
        maxCount := h[k];
      }
      todo := todo - {k};
    }
    if h != map[] && maxCount == 0 {
      var k :| k in h;
      assert h[k] == 0;
    }
  }

  /** The modal lengths of `printResults`: every length whose bucket equals
      `maxCount`, ties included, collected in no particular order. */
  method ModalLengths(h: Hist, maxCount: nat) returns (modes: set<nat>)
    ensures forall k :: k in modes <==> k in h && h[k] == maxCount
  {
    modes := {};
    var todo := h.Keys;
    while todo != {}
      invariant todo <= h.Keys
      invariant forall k :: k in modes <==> k in h && k !in todo && h[k] == maxCount
      decreases todo
    {
      var k :| k in todo;
      if h[k] == maxCount {
        modes := modes + {k};
      }
      todo := todo - {k};
    }
  }

  /** `calculateAverageWordLength`: `"0.000"` when either total is zero,
      otherwise the quotient to three decimal places. Either way it is an
      integer part, a point and exactly three digits, and with words counted
      those digits read back as the quotient rounded to thousandths. */
  function AverageText(s: Stats): (r: string)
    ensures |r| >= 5 && r[|r| - 4] == '.'
    ensures AllDigits(r[..|r| - 4]) && AllDigits(r[|r| - 3..])
    ensures s.wordCount == 0 || s.totalWordsLength == 0 ==> r == ZeroAverage
    ensures s.wordCount >= 1 && s.totalWordsLength >= 1 ==>
      Value(r[..|r| - 4]) * 1000 + Value(r[|r| - 3..]) == HalfUpThousandths(s.totalWordsLength, s.wordCount)
  {
    if s.totalWordsLength == 0 || s.wordCount == 0 then
      assert ZeroAverage[..1] == "0" && ZeroAverage[2..] == "000";
      ZeroAverage
    else FixedThree(HalfUpThousandths(s.totalWordsLength, s.wordCount))
  }

  /** On a consistent state the average reads `"0.000"` exactly when no word
      was counted: with at least one word the average is at least one. */
  lemma AverageZeroIffNoWords(s: Stats)
    requires Consistent(s)
    ensures AverageText(s) == ZeroAverage <==> s.wordCount == 0
  {
    NoWordsIffNoLength(s);
    if s.wordCount != 0 {
      WeightAtLeastCount(s.hist);
      var t := HalfUpThousandths(s.totalWordsLength, s.wordCount);
      AverageAtLeastOne(s.totalWordsLength, s.wordCount);
    }
  }

  /** A quotient of at least one rounds to at least a thousand thousandths. */
  lemma AverageAtLeastOne(num: nat, den: nat)
    requires 1 <= den <= num
    ensures HalfUpThousandths(num, den) >= 1000
  {
    var t := HalfUpThousandths(num, den);
    assert 2000 * num >= 2000 * den;
    assert (2 * den) * (t + 1) > (2 * den) * 1000;
    ProductCancel(2 * den, t + 1, 1000);
  }

  /** A positive factor can be cancelled from a strict inequality. */
  lemma ProductCancel(c: nat, x: nat, y: nat)
    requires c * x > c * y
    ensures x > y
  {
  }

  /** Everything `printResults` reports, with the per-length lines as a map
      and the modal lengths as a set, since `HashMap` fixes no order. */
  datatype Results = Results(
    wordCount: nat,
    average: string,
    buckets: Hist,
    maxCount: nat,
    modes: set<nat>)

  /** `printResults` without the console: the word count, the average, every
      bucket, the largest bucket and all the lengths that reach it. */
  method PrintResults(s: Stats) returns (r: Results)
    ensures r.wordCount == s.wordCount && r.buckets == s.hist
    ensures r.average == AverageText(s)
    ensures IsMaxCount(s.hist, r.maxCount)
    ensures forall k :: k in r.modes <==> k in s.hist && s.hist[k] == r.maxCount
    ensures r.modes == {} <==> s.hist == map[]
  {
    var maxCount := FindMaxCount(s.hist);
    var modes := ModalLengths(s.hist, maxCount);
    if s.hist != map[] {
      var k :| k in s.hist && s.hist[k] == maxCount;
      assert k in modes;
    }
    r := Results(s.wordCount, AverageText(s), s.hist, maxCount, modes);
  }
}
