/** What fails, and a static use that always works: the order lost by the direct search, the
    width lost to ties, and sorting by putting everything in and taking everything out. */
module QueueExamples {
  import opened Calendar
  import opened QueueModel
  import opened QueueRuns
  import opened TwoBuckets
  import W = Width

  // ---------- The direct search loses the cursor ----------

  const A := Entry(3.1, 0)
  const B := Entry(3.7, 1)
  const C := Entry(4.2, 2)

  lemma Indices()
    ensures Index(0.0, 1.0, 2) == 0 && Index(3.1, 1.0, 2) == 1 && Index(3.7, 1.0, 2) == 1 && Index(3.71, 1.0, 2) == 1
    ensures Index(4.2, 1.0, 2) == 0 && Index(4.4, 1.0, 2) == 0 && Index(5.0, 1.0, 2) == 1
  {
    assert 0.0 / 1.0 == 0.0 && 3.1 / 1.0 == 3.1 && 3.7 / 1.0 == 3.7 && 3.71 / 1.0 == 3.71;
    assert 4.2 / 1.0 == 4.2 && 4.4 / 1.0 == 4.4 && 5.0 / 1.0 == 5.0;
  }

  const OPS: seq<Op<int>> := [PutOp(A), PutOp(B), PutOp(C), GetOp, GetOp, GetOp]

  lemma PutsOfExample()
    ensures Reaches(OPS, 3, Two(true, [C], [A, B], 0, 0.0, 1.5), [])
  {
    Indices();
    Starts(OPS);
    PutGoes(OPS, 0, [], [], 0, 0.0, 1.5, []);
    assert [] + [A] == [A];
    PutGoes(OPS, 1, [], [A], 0, 0.0, 1.5, []);
    assert [A] + [B] == [A, B];
    PutGoes(OPS, 2, [], [A, B], 0, 0.0, 1.5, []);
    assert [] + [C] == [C];
  }

  lemma GetsOfExample()
    ensures Reaches(OPS, 6, Two(true, [], [], 1, 3.7, 5.5), [A, C, B])
  {
    PutsOfExample();
    GetGoes(OPS, 3, [C], [A, B], 0, 0.0, 1.5, [], 2, 1);
    assert [A, B][1..] == [B];
    GetGoes(OPS, 4, [C], [B], 1, 3.1, 3.5, [A], 1, 0);
    assert [C][1..] == [];
    GetGoes(OPS, 5, [], [B], 0, 4.2, 4.5, [A, C], 1, 1);
    assert [B][1..] == [];
  }

  /** The code as written does not serve in order: put 3.1, 3.7 and 4.2 into a fresh queue and
      it gives back 3.1, 4.2, 3.7, although every put is timely and all priorities differ. */
  lemma DirectSearchLosesOrder()
    ensures Proper(OPS) && Timely(OPS, 6, false) && Distinct(multiset{A, B, C})
    ensures Run(OPS, 6, false).ok && Run(OPS, 6, false).served == [A, C, B]
    ensures !AscendingEntries([A, C, B])
  {
    GetsOfExample();
    var es := [A, C, B];
    assert es[1].priority > es[2].priority;
  }

  // ---------- The direct search loses the width ----------

  /** Five entries of which the resize of the last put loses the order. */
  ghost predicate Five<P(!new)>(a: Entry<P>, b: Entry<P>, d: Entry<P>, e: Entry<P>, f: Entry<P>) {
    a.priority == 3.1 && b.priority == 3.7 && d.priority == 3.71 && e.priority == 4.4 && f.priority == 5.0
  }

  /** The sampling of these five: its first direct search leaves the edge behind. */
  lemma SampleOfFive<P(!new)>(a: Entry<P>, b: Entry<P>, d: Entry<P>, e: Entry<P>, f: Entry<P>, lp: real)
    requires Five(a, b, d, e, f) && Good(Two(false, [e], [a, b, d, f], 0, lp, 1.5))
    ensures Sampled(Two(false, [e], [a, b, d, f], 0, lp, 1.5), 5, false) == [a, e, b, d, f]
  {
    var s := Two(false, [e], [a, b, d, f], 0, lp, 1.5);
    assert Samples(s, 0, s, []);
    SamplesOne(s, 0, [e], [a, b, d, f], 0, lp, 1.5, [], 2, 1);
    assert [a, b, d, f][1..] == [b, d, f];
    SamplesOne(s, 1, [e], [b, d, f], 1, 3.1, 3.5, [a], 1, 0);
    assert [e][1..] == [];
    SamplesOne(s, 2, [], [b, d, f], 0, 4.4, 4.5, [a, e], 1, 1);
    assert [b, d, f][1..] == [d, f];
    SamplesOne(s, 3, [], [d, f], 1, 3.7, 5.5, [a, e, b], 0, 1);
    assert [d, f][1..] == [f];
    SamplesOne(s, 4, [], [f], 1, 3.71, 5.5, [a, e, b, d], 0, 1);
  }

  const LOSS: seq<real> := [3.1, 4.4, 3.7, 3.71, 5.0]

  lemma {:induction false} WidthOfLoss()
    ensures W.Limit(LOSS) == 0.95 && W.Kept(LOSS) == 2 && W.WidthOf(LOSS) == -1.035 && !W.Usable(LOSS)
  {
    assert W.GapSum(LOSS, 1) == 0.0 && W.GapSum(LOSS, 2) == 1.3 && W.GapSum(LOSS, 3) == 0.6;
    assert W.GapSum(LOSS, 4) == 0.61 && W.GapSum(LOSS, 5) == 1.9;
    assert W.CountBelow(LOSS, 0.95, 2) == 0 && W.SumBelow(LOSS, 0.95, 2) == 0.0;
    assert W.CountBelow(LOSS, 0.95, 3) == 1 && W.SumBelow(LOSS, 0.95, 3) == -0.7;
    assert W.CountBelow(LOSS, 0.95, 4) == 2 && W.SumBelow(LOSS, 0.95, 4) == -0.69;
    assert W.CountBelow(LOSS, 0.95, 5) == 2 && W.SumBelow(LOSS, 0.95, 5) == -0.69;
  }

  lemma WidthOfFive<P(!new)>(a: Entry<P>, b: Entry<P>, d: Entry<P>, e: Entry<P>, f: Entry<P>, lp: real)
    requires Five(a, b, d, e, f) && Good(Two(true, [e], [a, b, d, f], 0, lp, 1.5))
    ensures Prios(Sample(Two(true, [e], [a, b, d, f], 0, lp, 1.5), false)) == LOSS
  {
    var s := Two(true, [e], [a, b, d, f], 0, lp, 1.5);
    assert Quiet(s) == Two(false, [e], [a, b, d, f], 0, lp, 1.5);
    SampleOfFive(a, b, d, e, f, lp);
    assert W.SampleSize(5) == 5;
  }

  /** The put of the last of the five stops the queue: its resize computes a negative width. */
  lemma {:induction false} FifthPutStops<P(!new)>(ops: seq<Op<P>>, n: nat, a: Entry<P>, b: Entry<P>, d: Entry<P>, e: Entry<P>, f: Entry<P>, lp: real,
                               served: seq<Entry<P>>)
    requires Five(a, b, d, e, f) && n < |ops| && ops[n] == PutOp(f) && lp <= 5.0
    requires Reaches(ops, n, Two(true, [e], [a, b, d], 0, lp, 1.5), served)
    ensures Timely(ops, n + 1, false) && !Run(ops, n + 1, false).ok
    ensures Good(Two(true, [e], [a, b, d, f], 0, lp, 1.5)) && Prios(Sample(Two(true, [e], [a, b, d, f], 0, lp, 1.5), false)) == LOSS
  {
    var s := Two(true, [e], [a, b, d], 0, lp, 1.5);
    Indices();
    StoreTwo(true, [e], [a, b, d], 0, lp, 1.5, f);
    assert [a, b, d] + [f] == [a, b, d, f];
    StoredGood(s, f);
    WidthOfFive(a, b, d, e, f, lp);
    WidthOfLoss();
    StopsAtLoss(Stored(s, f));
    assert Run(ops, n + 1, false) == Next(Run(ops, n, false), ops[n], false);
  }

  lemma StopsAtLoss<P(!new)>(t: State<P>)
    requires Good(t) && t.qsize >= 2 && Prios(Sample(t, false)) == LOSS && !W.Usable(LOSS)
    ensures !WidthOk(t, false)
  {
  }

  const D := Entry(3.71, 3)
  const E := Entry(4.4, 4)
  const F := Entry(5.0, 5)

  const LOSS_OPS: seq<Op<int>> := [PutOp(A), PutOp(B), PutOp(D), PutOp(E), PutOp(F)]

  lemma FirstPutsOfLoss()
    ensures Reaches(LOSS_OPS, 2, Two(true, [], [A, B], 0, 0.0, 1.5), [])
  {
    Indices();
    Starts(LOSS_OPS);
    PutGoes(LOSS_OPS, 0, [], [], 0, 0.0, 1.5, []);
    assert [] + [A] == [A];
    PutGoes(LOSS_OPS, 1, [], [A], 0, 0.0, 1.5, []);
    assert [A] + [B] == [A, B];
  }

  lemma PutsOfLoss()
    ensures Reaches(LOSS_OPS, 4, Two(true, [E], [A, B, D], 0, 0.0, 1.5), [])
  {
    Indices();
    FirstPutsOfLoss();
    PutGoes(LOSS_OPS, 2, [], [A, B], 0, 0.0, 1.5, []);
    assert [A, B] + [D] == [A, B, D];
    PutGoes(LOSS_OPS, 3, [], [A, B, D], 0, 0.0, 1.5, []);
    assert [] + [E] == [E];
  }

  lemma LossIsDistinct()
    ensures Distinct(multiset{A, B, D, E, F})
  {
  }

  /** The code as written can compute a negative width without any ties: putting 3.1, 3.7, 3.71, 4.4
      and 5.0 into a fresh queue makes the fifth put resize, its sampling loses the cursor at the first
      direct search, and the sample comes out as 3.1, 4.4, 3.7, 3.71, 5.0. */
  lemma DirectSearchLosesWidth()
    ensures Proper(LOSS_OPS) && Timely(LOSS_OPS, 5, false) && Distinct(multiset{A, B, D, E, F})
    ensures !Run(LOSS_OPS, 5, false).ok
    ensures var t := Two(true, [E], [A, B, D, F], 0, 0.0, 1.5);
            Good(t) && Prios(Sample(t, false)) == LOSS && W.Kept(LOSS) == 2 && W.WidthOf(LOSS) < 0.0
  {
    LossIsDistinct();
    PutsOfLoss();
    FifthPutStops(LOSS_OPS, 4, A, B, D, E, F, 0.0, []);
    WidthOfLoss();
  }

  // ---------- Ties lose the width ----------

  lemma {:induction false} NoGapsBelowZero(ps: seq<real>, n: nat)
    requires n <= |ps| && forall i :: 1 <= i < |ps| ==> ps[i - 1] == ps[i]
    ensures W.CountBelow(ps, 0.0, n) == 0 && W.GapSum(ps, n) == 0.0
  {
    if n > 1 {
      NoGapsBelowZero(ps, n - 1);
    }
  }

  lemma SampleOfTies<P(!new)>(s: State<P>, p: real, realign: bool)
    requires Good(s) && s.qsize >= 2 && forall x :: x in Items(s) ==> x.priority == p
    ensures forall i :: 0 <= i < |Sample(s, realign)| ==> Sample(s, realign)[i].priority == p
  {
    var es := Sample(s, realign);
    SampledKeeps(Quiet(s), W.SampleSize(s.qsize), realign);
    forall i | 0 <= i < |es| ensures es[i] in Items(s) {
      assert es[i] in multiset(es);
    }
  }

  lemma ConstantIsUnusable(ps: seq<real>)
    requires |ps| >= 2 && forall i :: 1 <= i < |ps| ==> ps[i - 1] == ps[i]
    ensures W.Kept(ps) == 0
  {
    NoGapsBelowZero(ps, |ps|);
    assert 0.0 / (|ps| - 1) as real == 0.0;
  }

  /** When all queued priorities are equal, a resize divides by zero: no gap is below twice the
      average, which is zero. */
  lemma TiesLoseTheWidth<P(!new)>(s: State<P>, p: real, realign: bool)
    requires Good(s) && s.qsize >= 2 && forall x :: x in Items(s) ==> x.priority == p
    ensures !WidthOk(s, realign) && W.Kept(Prios(Sample(s, realign))) == 0
  {
    SampleOfTies(s, p, realign);
    ConstantIsUnusable(Prios(Sample(s, realign)));
  }

  // ---------- Sorting ----------

  /** All puts, then as many gets. */
  function InAndOut<P(!new)>(es: seq<Entry<P>>): (ops: seq<Op<P>>)
    ensures |ops| == 2 * |es|
    ensures forall k :: 0 <= k < |es| ==> ops[k] == PutOp(es[k])
    ensures forall k :: |es| <= k < 2 * |es| ==> ops[k] == GetOp
  {
    seq(|es|, k requires 0 <= k < |es| => PutOp(es[k])) + seq(|es|, _ => GetOp)
  }

  lemma {:induction false} PutsOfPuts<P(!new)>(es: seq<Entry<P>>, n: nat)
    requires n <= 2 * |es|
    ensures Puts(InAndOut(es), n) == multiset(es[..if n <= |es| then n else |es|])
  {
    if n > 0 {
      PutsOfPuts(es, n - 1);
      if n <= |es| {
        assert es[..n] == es[..n - 1] + [es[n - 1]];
      }
    }
  }

  lemma PutsAreDistinct<P(!new)>(es: seq<Entry<P>>, n: nat)
    requires n <= 2 * |es| && Distinct(multiset(es))
    ensures Distinct(Puts(InAndOut(es), n))
  {
    PutsOfPuts(es, n);
    var k := if n <= |es| then n else |es|;
    assert es == es[..k] + es[k..];
    DistinctPart(multiset(es[..k]), multiset(es));
  }

  ghost predicate Phase<P(!new)>(r: Running<P>, qsize: int) {
    r.ok && r.state.qsize == qsize
  }

  lemma {:induction false} PhaseOfPuts<P(!new)>(es: seq<Entry<P>>, n: nat)
    requires n <= |es| && Proper(InAndOut(es)) && Distinct(multiset(es))
    ensures Timely(InAndOut(es), n, true) && Phase(Run(InAndOut(es), n, true), n)
    ensures Run(InAndOut(es), n, true).state.at.lastprio == 0.0
  {
    var ops := InAndOut(es);
    if n > 0 {
      PhaseOfPuts(es, n - 1);
      PutAdds(Run(ops, n - 1, true).state, es[n - 1], true);
      assert Timely(ops, n, true);
      PutsAreDistinct(es, n);
      RealignedRunIsOk(ops, n);
    }
  }

  lemma GetShrinks<P(!new)>(r: Running<P>)
    requires CanServe(r.state) && r.ok
    ensures Next(r, GetOp, true).state.qsize == r.state.qsize - 1
  {
    DeqRemoves(r.state, true);
  }

  ghost predicate GetsFrom<P(!new)>(ops: seq<Op<P>>, a: nat, k: nat) {
    a <= k <= |ops| && forall j :: a <= j < k ==> ops[j].GetOp?
  }

  lemma {:induction false} GetsAreTimely<P(!new)>(ops: seq<Op<P>>, a: nat, k: nat)
    requires Proper(ops) && GetsFrom(ops, a, k) && Timely(ops, a, true)
    ensures Timely(ops, k, true)
  {
    if a < k {
      GetsAreTimely(ops, a, k - 1);
    }
  }

  lemma {:induction false} GetsDrain<P(!new)>(ops: seq<Op<P>>, a: nat, k: nat)
    requires Proper(ops) && GetsFrom(ops, a, k) && Timely(ops, a, true)
    requires Distinct(Puts(ops, k)) && k - a <= Run(ops, a, true).state.qsize
    ensures Run(ops, k, true).state.qsize == Run(ops, a, true).state.qsize - (k - a)
  {
    if a < k {
      NextPuts(ops, k);
      GetsDrain(ops, a, k - 1);
      GetsAreTimely(ops, a, k - 1);
      RealignedRunIsOk(ops, k - 1);
      GetShrinks(Run(ops, k - 1, true));
    }
  }

  lemma NothingLeft<P(!new)>(s: State<P>)
    requires Good(s) && s.qsize == 0
    ensures Items(s) == multiset{}
  {
    GoodFacts(s);
  }

  lemma EverythingTaken<P(!new)>(es: seq<Entry<P>>)
    requires Distinct(multiset(es)) && Proper(InAndOut(es))
    ensures Timely(InAndOut(es), 2 * |es|, true)
    ensures Items(Run(InAndOut(es), 2 * |es|, true).state) == multiset{}
  {
    var ops := InAndOut(es);
    PhaseOfPuts(es, |es|);
    PutsAreDistinct(es, |ops|);
    GetsDrain(ops, |es|, |ops|);
    GetsAreTimely(ops, |es|, |ops|);
    NothingLeft(Run(ops, |ops|, true).state);
  }

  /** The realigning variant sorts: entries of distinct non-negative priorities, all put in and
      all taken out, come out complete and in ascending order. */
  lemma Sorts<P(!new)>(es: seq<Entry<P>>)
    requires Distinct(multiset(es)) && forall k :: 0 <= k < |es| ==> es[k].priority >= 0.0
    ensures Proper(InAndOut(es))
    ensures var r := Run(InAndOut(es), 2 * |es|, true);
            r.ok && AscendingEntries(r.served) && multiset(r.served) == multiset(es)
  {
    var ops := InAndOut(es);
    EverythingTaken(es);
    PutsAreDistinct(es, |ops|);
    RealignedRun(ops);
    PutsOfPuts(es, |ops|);
    assert es[..|es|] == es;
  }
}
