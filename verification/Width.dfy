/** The bucket width computed from a sample of priorities (`new_width`). */
module Width {
  import opened Common

  /** How many nodes a queue of the given size (at least two) is sampled for: all up to 5, then one
      more for every ten queued, up to 25. */
  function SampleSize(qsize: nat): (n: nat)
    requires qsize >= 2
    ensures 2 <= n <= qsize && n <= 25
    ensures qsize <= 5 ==> n == qsize
    ensures 6 <= qsize < 200 ==> 10 * (n - 5) <= qsize < 10 * (n - 4)
    ensures qsize >= 200 ==> n == 25
  {
    var n := if qsize <= 5 then qsize else 5 + qsize / 10;
    if n > 25 then 25 else n
  }

  function Gap(s: seq<real>, i: nat): real
    requires 1 <= i < |s|
  {
    s[i] - s[i - 1]
  }

  /** The sum of the gaps before position n. */
  function GapSum(s: seq<real>, n: nat): real
    requires n <= |s|
  {
    if n <= 1 then 0.0 else GapSum(s, n - 1) + Gap(s, n - 1)
  }

  /** The sum, and the number, of the gaps before position n that are below a limit. */
  function SumBelow(s: seq<real>, limit: real, n: nat): real
    requires n <= |s|
  {
    if n <= 1 then 0.0
    else SumBelow(s, limit, n - 1) + if Gap(s, n - 1) < limit then Gap(s, n - 1) else 0.0
  }

  function CountBelow(s: seq<real>, limit: real, n: nat): nat
    requires n <= |s|
  {
    if n <= 1 then 0
    else CountBelow(s, limit, n - 1) + if Gap(s, n - 1) < limit then 1 else 0
  }

  function Average(s: seq<real>): real
    requires |s| >= 2
  {
    GapSum(s, |s|) / (|s| - 1) as real
  }

  /** Gaps of twice the average or more are ignored. */
  function Limit(s: seq<real>): real
    requires |s| >= 2
  {
    Average(s) * 2.0
  }

  function Kept(s: seq<real>): nat
    requires |s| >= 2
  {
    CountBelow(s, Limit(s), |s|)
  }

  /** The new width; undefined when no gap was kept. */
  function WidthOf(s: seq<real>): real
    requires |s| >= 2 && Kept(s) > 0
  {
    SumBelow(s, Limit(s), |s|) / Kept(s) as real * 3.0
  }

  /** The sample yields a width the calendar can work with: no division by zero, and positive. */
  predicate Usable(s: seq<real>)
    requires |s| >= 2
  {
    Kept(s) > 0 && WidthOf(s) > 0.0
  }

  ghost predicate Ascending(s: seq<real>) {
    forall i :: 1 <= i < |s| ==> s[i - 1] <= s[i]
  }

  ghost predicate StrictlyAscending(s: seq<real>) {
    forall i :: 1 <= i < |s| ==> s[i - 1] < s[i]
  }

  lemma {:induction false} GapSumPrefix(s: seq<real>, t: seq<real>, n: nat)
    requires n <= |s| && n <= |t| && forall i :: 0 <= i < n ==> s[i] == t[i]
    ensures GapSum(s, n) == GapSum(t, n)
  {
    if n > 1 {
      GapSumPrefix(s, t, n - 1);
    }
  }

  /** The running sum of the sampling loop. */
  lemma GapSumAppend(s: seq<real>, t: seq<real>)
    requires |t| == |s| + 1 && t[..|s|] == s
    ensures GapSum(t, |t|) == GapSum(s, |s|) + if |s| > 0 then t[|s|] - s[|s| - 1] else 0.0
  {
    GapSumPrefix(s, t, |s|);
  }

  /** Summing up, and counting, the gaps that are not too large. */
  method Measure(s: seq<real>, limit: real) returns (sum: real, count: nat)
    requires |s| >= 2
    ensures sum == SumBelow(s, limit, |s|) && count == CountBelow(s, limit, |s|)
  {
    sum, count := 0.0, 0;
    for i := 1 to |s|
      invariant sum == SumBelow(s, limit, i) && count == CountBelow(s, limit, i)
    {
      if s[i] - s[i - 1] < limit {
        sum := sum + (s[i] - s[i - 1]);
        count := count + 1;
      }
    }
  }

  /** The width from a sample, or not ok where the division is by zero or the width not positive. */
  method Compute(s: seq<real>, total: real) returns (ok: bool, bwidth: real)
    requires |s| >= 2 && total == GapSum(s, |s|)
    ensures ok <==> Usable(s)
    ensures ok ==> bwidth == WidthOf(s)
  {
    var average := total / (|s| - 1) as real;
    var newaverage, j := Measure(s, average * 2.0);
    if j == 0 {
      return false, 0.0;
    }
    bwidth := newaverage / j as real * 3.0;
    ok := bwidth > 0.0;
  }

  lemma {:induction false} GapsTelescope(s: seq<real>, n: nat)
    requires 1 <= n <= |s|
    ensures GapSum(s, n) == s[n - 1] - s[0]
  {
    if n > 1 {
      GapsTelescope(s, n - 1);
    }
  }

  /** If every gap reaches the limit, so does their average. */
  lemma {:induction false} AllGapsLarge(s: seq<real>, limit: real, n: nat)
    requires 1 <= n <= |s|
    requires forall i :: 1 <= i < n ==> Gap(s, i) >= limit
    ensures GapSum(s, n) >= (n - 1) as real * limit
  {
    if n > 1 {
      AllGapsLarge(s, limit, n - 1);
      assert (n - 1) as real * limit == (n - 2) as real * limit + limit;
    }
  }

  lemma {:induction false} KeptBounds(s: seq<real>, low: real, limit: real, n: nat)
    requires n <= |s|
    requires forall i :: 1 <= i < n ==> low <= Gap(s, i)
    ensures SumBelow(s, limit, n) >= CountBelow(s, limit, n) as real * low
    ensures SumBelow(s, limit, n) <= CountBelow(s, limit, n) as real * limit
    ensures CountBelow(s, limit, n) > 0 ==> SumBelow(s, limit, n) < CountBelow(s, limit, n) as real * limit
  {
    if n > 1 {
      KeptBounds(s, low, limit, n - 1);
      var c := CountBelow(s, limit, n - 1) as real;
      assert (c + 1.0) * low == c * low + low && (c + 1.0) * limit == c * limit + limit;
    }
  }

  lemma {:induction false} KeptWitness(s: seq<real>, limit: real, n: nat, i: nat)
    requires Ascending(s) && 1 <= i < n <= |s| && Gap(s, i) < limit
    ensures CountBelow(s, limit, n) > 0 && SumBelow(s, limit, n) >= Gap(s, i)
  {
    KeptBounds(s, 0.0, limit, n - 1);
    if i < n - 1 {
      KeptWitness(s, limit, n - 1, i);
    }
  }

  lemma {:induction false} NothingKept(s: seq<real>, limit: real, n: nat)
    requires Ascending(s) && n <= |s|
    requires forall i :: 1 <= i < n ==> Gap(s, i) <= 0.0 || limit <= Gap(s, i)
    ensures SumBelow(s, limit, n) <= 0.0
  {
    if n > 1 {
      NothingKept(s, limit, n - 1);
    }
  }

  lemma QuotientBounds(sum: real, count: nat, low: real, limit: real)
    requires count > 0 && count as real * low <= sum < count as real * limit
    ensures low <= sum / count as real < limit
  {
    var c := count as real;
    var q := sum / c;
    assert q * c == sum;
    assert q < low ==> (low - q) * c > 0.0;
    assert q >= limit ==> (q - limit) * c >= 0.0;
  }

  /** Exactly when an ascending sample gives a usable width: some gap is positive and below
      twice the average. Ties alone can make the division by zero, or a zero width, happen. */
  lemma UsableIff(s: seq<real>)
    requires |s| >= 2 && Ascending(s)
    ensures Usable(s) <==> exists i :: 1 <= i < |s| && 0.0 < Gap(s, i) < Limit(s)
  {
    var limit := Limit(s);
    if i :| 1 <= i < |s| && 0.0 < Gap(s, i) < limit {
      KeptWitness(s, limit, |s|, i);
      var sum, c := SumBelow(s, limit, |s|), Kept(s) as real;
      assert sum / c * c == sum;
    } else {
      NothingKept(s, limit, |s|);
      if Kept(s) > 0 {
        var sum, c := SumBelow(s, limit, |s|), Kept(s) as real;
        assert sum / c * c == sum;
      }
    }
  }

  /** The sum of the gaps before position n that reach a limit. */
  function SumFrom(s: seq<real>, limit: real, n: nat): real
    requires n <= |s|
  {
    if n <= 1 then 0.0
    else SumFrom(s, limit, n - 1) + if Gap(s, n - 1) < limit then 0.0 else Gap(s, n - 1)
  }

  lemma {:induction false} GapsSplit(s: seq<real>, limit: real, n: nat)
    requires n <= |s|
    ensures SumBelow(s, limit, n) + SumFrom(s, limit, n) == GapSum(s, n)
    ensures CountBelow(s, limit, n) == 0 ==> SumBelow(s, limit, n) == 0.0
  {
    if n > 1 {
      GapsSplit(s, limit, n - 1);
    }
  }

  lemma PositiveQuotient(sum: real, count: nat)
    requires count > 0
    ensures sum / count as real * 3.0 > 0.0 <==> sum > 0.0
  {
    var c := count as real;
    var q := sum / c;
    assert q * c == sum;
    assert q > 0.0 ==> q * c > 0.0;
    assert q <= 0.0 ==> -q * c >= 0.0;
  }

  /** Exactly when a sample in any order gives a usable width: the gaps of twice the average or
      more do not add up to the distance from its first to its last priority. */
  lemma UsableIffAny(s: seq<real>)
    requires |s| >= 2
    ensures Usable(s) <==> SumFrom(s, Limit(s), |s|) < s[|s| - 1] - s[0]
  {
    GapsTelescope(s, |s|);
    GapsSplit(s, Limit(s), |s|);
    if Kept(s) > 0 {
      PositiveQuotient(SumBelow(s, Limit(s), |s|), Kept(s));
    }
  }

  // ---------- What the width is ----------

  function Gaps(s: seq<real>): (gs: seq<real>)
    ensures |s| > 0 ==> |gs| == |s| - 1 && forall i :: 0 <= i < |gs| ==> gs[i] == s[i + 1] - s[i]
  {
    if s == [] then [] else seq(|s| - 1, i requires 0 <= i < |s| - 1 => s[i + 1] - s[i])
  }

  function Mean(xs: seq<real>): real
    requires xs != []
  {
    Sum(xs) / |xs| as real
  }

  /** Those of the numbers that are below a limit. */
  function Below(xs: seq<real>, limit: real): seq<real> {
    if xs == [] then []
    else Below(xs[..|xs| - 1], limit) + if xs[|xs| - 1] < limit then [xs[|xs| - 1]] else []
  }

  lemma GapsGrow(s: seq<real>, n: nat)
    requires 1 < n <= |s|
    ensures Gaps(s[..n]) == Gaps(s[..n - 1]) + [Gap(s, n - 1)]
  {
    var gs, hs := Gaps(s[..n]), Gaps(s[..n - 1]) + [Gap(s, n - 1)];
    assert |gs| == |hs| == n - 1;
    forall i | 0 <= i < n - 1 ensures gs[i] == hs[i] {
      assert s[..n][i] == s[i] && s[..n][i + 1] == s[i + 1];
    }
  }

  lemma SumGrows(xs: seq<real>, x: real, limit: real)
    ensures Sum(xs + [x]) == Sum(xs) + x
    ensures Sum(Below(xs + [x], limit)) == Sum(Below(xs, limit)) + if x < limit then x else 0.0
    ensures |Below(xs + [x], limit)| == |Below(xs, limit)| + if x < limit then 1 else 0
  {
    var ys := xs + [x];
    assert ys[..|xs|] == xs;
    SumAppend(xs, x);
    if x < limit {
      var zs := Below(ys, limit);
      assert zs[..|zs| - 1] == Below(xs, limit);
    } else {
      assert Below(ys, limit) == Below(xs, limit);
    }
  }

  lemma {:induction false} GapsAddUp(s: seq<real>, limit: real, n: nat)
    requires 1 <= n <= |s|
    ensures var gs := Gaps(s[..n]);
            && Sum(gs) == GapSum(s, n) && Sum(Below(gs, limit)) == SumBelow(s, limit, n)
            && |Below(gs, limit)| == CountBelow(s, limit, n)
  {
    if n > 1 {
      GapsAddUp(s, limit, n - 1);
      GapsGrow(s, n);
      SumGrows(Gaps(s[..n - 1]), Gap(s, n - 1), limit);
    }
  }

  /** The width is three times the mean of the gaps below twice the mean gap; it is usable if there
      are such gaps and their mean is positive. */
  lemma WidthIsMean(s: seq<real>)
    requires |s| >= 2
    ensures var small := Below(Gaps(s), 2.0 * Mean(Gaps(s)));
            && (Usable(s) <==> small != [] && Mean(small) > 0.0)
            && (Usable(s) ==> WidthOf(s) == 3.0 * Mean(small))
  {
    assert s[..|s|] == s;
    GapsAddUp(s, Limit(s), |s|);
    assert Limit(s) == 2.0 * Mean(Gaps(s));
    if Kept(s) > 0 {
      PositiveQuotient(SumBelow(s, Limit(s), |s|), Kept(s));
    }
  }

  /** A strictly ascending sample always has a gap below twice its average. */
  lemma DistinctIsUsable(s: seq<real>)
    requires |s| >= 2 && StrictlyAscending(s)
    ensures Usable(s)
  {
    GapsTelescope(s, |s|);
    var limit, n := Limit(s), (|s| - 1) as real;
    FirstBeforeLast(s, |s| - 1);
    assert Average(s) * n == GapSum(s, |s|);
    assert n * limit == 2.0 * GapSum(s, |s|);
    if forall i :: 1 <= i < |s| ==> Gap(s, i) >= limit {
      AllGapsLarge(s, limit, |s|);
    }
    UsableIff(s);
  }

  lemma {:induction false} FirstBeforeLast(s: seq<real>, i: nat)
    requires StrictlyAscending(s) && 1 <= i < |s|
    ensures s[0] < s[i]
  {
    if i > 1 {
      FirstBeforeLast(s, i - 1);
    }
  }

  /** The width of a strictly ascending sample lies between three times any lower bound of
      its gaps and strictly below six times the average gap. */
  lemma WidthBounds(s: seq<real>, low: real)
    requires |s| >= 2 && StrictlyAscending(s)
    requires forall i :: 1 <= i < |s| ==> low <= Gap(s, i)
    ensures Kept(s) > 0
    ensures 3.0 * low <= WidthOf(s) < 6.0 * ((s[|s| - 1] - s[0]) / (|s| - 1) as real)
  {
    DistinctIsUsable(s);
    GapsTelescope(s, |s|);
    KeptBounds(s, low, Limit(s), |s|);
    QuotientBounds(SumBelow(s, Limit(s), |s|), Kept(s), low, Limit(s));
  }
}
