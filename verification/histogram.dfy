/** The word-length histogram `wordLengthCounts`: a map from a word length to
    the number of accepted words of that length. */
module Histogram {

  type Hist = map<nat, nat>

  /** The count stored for length `k`, zero when the bucket is absent. */
  function Bucket(h: Hist, k: nat): nat {
    if k in h then h[k] else 0
  }

  /** The bucket update of `parseFileLine`: `put(k, get(k) + 1)` when `k` is
      present, `put(k, 1)` otherwise. Only bucket `k` changes. */
  function Increment(h: Hist, k: nat): (r: Hist)
    ensures r.Keys == h.Keys + {k}
    ensures k in h ==> r[k] == h[k] + 1
    ensures k !in h ==> r[k] == 1
    ensures forall j :: j in h && j != k ==> r[j] == h[j]
  {
    if k in h then h[k := h[k] + 1] else h[k := 1]
  }

  /** Some bucket of a non-empty histogram. */
  ghost function Pick(h: Hist): (k: nat)
    requires h != map[]
    ensures k in h
  {
    var k :| k in h; k
  }

  /** The sum of `f(k, h[k])` over every bucket of `h`. */
  ghost function Total(h: Hist, f: (nat, nat) -> nat): nat
    decreases |h|
  {
    if h == map[] then 0
    else
      var k := Pick(h);
      assert |h.Keys - {k}| == |h.Keys| - 1;
      f(k, h[k]) + Total(h - {k}, f)
  }

  /** The term `h[k]`: summed, the number of words. */
  function CountTerm(k: nat, v: nat): nat { v }

  /** The term `k * h[k]`: summed, the number of characters in the words. */
  function WeightTerm(k: nat, v: nat): nat { k * v }

  /** Any bucket can be taken out of the sum first. */
  lemma {:induction false} TotalRemove(h: Hist, f: (nat, nat) -> nat, k: nat)
    requires k in h
    ensures Total(h, f) == f(k, h[k]) + Total(h - {k}, f)
    decreases |h|
  {
    var j := Pick(h);
    assert |h.Keys - {j}| == |h.Keys| - 1;
    assert Total(h, f) == f(j, h[j]) + Total(h - {j}, f);
    if j != k {
      assert |(h - {j}).Keys - {k}| == |(h - {j}).Keys| - 1;
      TotalRemove(h - {j}, f, k);
      TotalRemove(h - {k}, f, j);
      assert h - {j} - {k} == h - {k} - {j};
    }
  }

  /** How one `Increment` changes a sum: bucket `k`'s term is replaced and
      every other term stays. */
  lemma TotalIncrement(h: Hist, f: (nat, nat) -> nat, k: nat)
    ensures k in h ==> Total(Increment(h, k), f) + f(k, h[k]) == Total(h, f) + f(k, h[k] + 1)
    ensures k !in h ==> Total(Increment(h, k), f) == Total(h, f) + f(k, 1)
  {
    var r := Increment(h, k);
    TotalRemove(r, f, k);
    assert r - {k} == h - {k};
    if k in h {
      TotalRemove(h, f, k);
    } else {
      assert h - {k} == h;
    }
  }

  /** The sum over a histogram whose terms are all positive is zero exactly
      when the histogram is empty. */
  lemma TotalZeroIffEmpty(h: Hist, f: (nat, nat) -> nat)
    requires forall k :: k in h ==> f(k, h[k]) >= 1
    ensures Total(h, f) == 0 <==> h == map[]
  {
    if h != map[] {
      var k :| k in h;
      TotalRemove(h, f, k);
    }
  }

  /** Every bucket is a positive length with a positive count: the map never
      holds a zero-length word or an empty bucket. */
  predicate WellFormed(h: Hist) {
    forall k :: k in h ==> k >= 1 && h[k] >= 1
  }

  /** Incrementing a positive length keeps the histogram well formed. */
  lemma IncrementWellFormed(h: Hist, k: nat)
    requires WellFormed(h) && k >= 1
    ensures WellFormed(Increment(h, k))
  {
  }

  /** In a well-formed histogram every word is at least one character long,
      so the total length is at least the number of words. */
  lemma {:induction false} WeightAtLeastCount(h: Hist)
    requires WellFormed(h)
    ensures Total(h, WeightTerm) >= Total(h, CountTerm)
    decreases |h|
  {
    if h != map[] {
      var k := Pick(h);
      assert |h.Keys - {k}| == |h.Keys| - 1;
      TotalRemove(h, WeightTerm, k);
      TotalRemove(h, CountTerm, k);
      assert WellFormed(h - {k});
      WeightAtLeastCount(h - {k});
      assert k * h[k] == h[k] + (k - 1) * h[k];
    }
  }
}
