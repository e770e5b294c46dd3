/** Running the queue as written step by step on a calendar of two buckets of width one, the one a
    new queue starts with, as long as it does not resize. */
module TwoBuckets {
  import opened Calendar
  import opened QueueModel
  import opened QueueRuns

  /** The thresholds and the width of such a calendar. */
  function Plain(enabled: bool): Geometry {
    Geometry(0, enabled, 4, -1, 1.0)
  }

  function Bucket<P(!new)>(es: seq<Entry<P>>): List<P> {
    if es == [] then Nil else Node(es[0], Bucket(es[1..]))
  }

  function Two<P(!new)>(enabled: bool, b0: seq<Entry<P>>, b1: seq<Entry<P>>, lastbucket: nat, lastprio: real, buckettop: real): State<P> {
    State([Bucket(b0), Bucket(b1)], |b0| + |b1|, Cursor(lastbucket, lastprio, buckettop), Plain(enabled))
  }

  /** A new entry that is not earlier than those of its bucket goes to the end. */
  lemma {:induction false} InsertLast<P(!new)>(es: seq<Entry<P>>, e: Entry<P>)
    requires forall i :: 0 <= i < |es| ==> es[i].priority <= e.priority
    ensures Insert(Bucket(es), e) == Bucket(es + [e])
  {
    if es != [] {
      InsertLast(es[1..], e);
      assert (es + [e])[1..] == es[1..] + [e];
    }
  }

  ghost predicate Last<P(!new)>(b: seq<Entry<P>>, e: Entry<P>) {
    forall i :: 0 <= i < |b| ==> b[i].priority <= e.priority
  }

  lemma StoreTwo<P(!new)>(enabled: bool, b0: seq<Entry<P>>, b1: seq<Entry<P>>, lb: nat, lp: real, top: real, e: Entry<P>)
    requires Index(e.priority, 1.0, 2) == 0 ==> Last(b0, e)
    requires Index(e.priority, 1.0, 2) == 1 ==> Last(b1, e)
    ensures Stored(Two(enabled, b0, b1, lb, lp, top), e) ==
            if Index(e.priority, 1.0, 2) == 0 then Two(enabled, b0 + [e], b1, lb, lp, top) else Two(enabled, b0, b1 + [e], lb, lp, top)
  {
    var s := Two(enabled, b0, b1, lb, lp, top);
    if Index(e.priority, 1.0, 2) == 0 {
      InsertLast(b0, e);
      assert s.cal[0 := Bucket(b0 + [e])] == [Bucket(b0 + [e]), Bucket(b1)];
    } else {
      InsertLast(b1, e);
      assert s.cal[1 := Bucket(b1 + [e])] == [Bucket(b0), Bucket(b1 + [e])];
    }
  }

  /** The bucket has a head below an edge. */
  predicate Below<P(!new)>(b: seq<Entry<P>>, top: real) {
    b != [] && b[0].priority < top
  }

  /** The scan stops after k steps at bucket c; after two, the direct search finds c. */
  predicate Stops<P(!new)>(b0: seq<Entry<P>>, b1: seq<Entry<P>>, lb: nat, top: real, k: nat, c: nat) {
    var here, there := if lb == 0 then b0 else b1, if lb == 0 then b1 else b0;
    && lb < 2 && c < 2
    && (k == 0 ==> c == lb && Below(here, top))
    && (k == 1 ==> c == 1 - lb && !Below(here, top) && Below(there, top + 1.0))
    && (k == 2 ==>
          && !Below(here, top) && !Below(there, top + 1.0)
          && (if c == 0 then b0 != [] && (b1 == [] || b0[0].priority <= b1[0].priority)
              else b1 != [] && (b0 == [] || b1[0].priority < b0[0].priority)))
    && k <= 2
  }

  lemma Edges()
    ensures Edge(0, 1.0) == 0.0 && Edge(1, 1.0) == 1.0 && Edge(2, 1.0) == 2.0
  {
    EdgeIsProduct(1, 1.0);
    EdgeIsProduct(2, 1.0);
  }

  lemma StopsThere<P(!new)>(b0: seq<Entry<P>>, b1: seq<Entry<P>>, lb: nat, top: real, k: nat, c: nat)
    requires Stops(b0, b1, lb, top, k, c)
    ensures var cal := [Bucket(b0), Bucket(b1)];
            FirstHit(cal, lb, top, 1.0, 0) == k && Chosen(cal, lb, top, 1.0) == c
  {
    Edges();
    var cal := [Bucket(b0), Bucket(b1)];
    assert HitAt(cal, lb, top, 1.0, 0) <==> Below(if lb == 0 then b0 else b1, top);
    assert HitAt(cal, lb, top, 1.0, 1) <==> Below(if lb == 0 then b1 else b0, top + 1.0);
    assert FirstHit(cal, lb, top, 1.0, 2) == 2;
    assert FirstHit(cal, lb, top, 1.0, 1) == if HitAt(cal, lb, top, 1.0, 1) then 1 else 2;
    assert Lowest(cal, 0) == -1 && Lowest(cal, 1) == if b0 != [] then 0 else -1;
  }

  /** What is served and left behind. */
  function Rest<P(!new)>(enabled: bool, b0: seq<Entry<P>>, b1: seq<Entry<P>>, top: real, k: nat, c: nat): State<P>
    requires if c == 0 then b0 != [] else b1 != []
  {
    if c == 0 then Two(enabled, b0[1..], b1, 0, b0[0].priority, top + k as real)
    else Two(enabled, b0, b1[1..], 1, b1[0].priority, top + k as real)
  }

  lemma ServeTwo<P(!new)>(enabled: bool, b0: seq<Entry<P>>, b1: seq<Entry<P>>, lb: nat, lp: real, top: real, k: nat, c: nat)
    requires Stops(b0, b1, lb, top, k, c) && Good(Two(enabled, b0, b1, lb, lp, top))
    ensures var s := Two(enabled, b0, b1, lb, lp, top);
            && CanServe(s) && Served(s) == (if c == 0 then b0[0] else b1[0])
            && AfterServe(s, false) == Rest(enabled, b0, b1, top, k, c)
  {
    StopsThere(b0, b1, lb, top, k, c);
    Edges();
    var s := Two(enabled, b0, b1, lb, lp, top);
    assert s.cal[c := s.cal[c].next] == Rest(enabled, b0, b1, top, k, c).cal;
  }

  // ---------- Runs ----------

  /** After n operations, all of them timely, the queue is in this state and served these entries. */
  ghost predicate Reaches<P(!new)>(ops: seq<Op<P>>, n: nat, s: State<P>, served: seq<Entry<P>>) {
    && Proper(ops) && n <= |ops| && Timely(ops, n, false) && Good(s)
    && Run(ops, n, false).ok && Run(ops, n, false).state == s && Run(ops, n, false).served == served
  }

  lemma Starts<P(!new)>(ops: seq<Op<P>>)
    requires Proper(ops)
    ensures Reaches(ops, 0, Two(true, [], [], 0, 0.0, 1.5), [])
  {
    LocalInitGood<P>(0, 2, 1.0, 0.0, true);
    assert Empty<P>(2) == [Nil, Nil];
    assert 0.0 / 1.0 == 0.0;
    EdgeIsProduct(1, 1.0);
  }

  lemma PutGoes<P(!new)>(ops: seq<Op<P>>, n: nat, b0: seq<Entry<P>>, b1: seq<Entry<P>>, lb: nat, lp: real, top: real, served: seq<Entry<P>>)
    requires Reaches(ops, n, Two(true, b0, b1, lb, lp, top), served) && n < |ops| && ops[n].PutOp? && |b0| + |b1| < 4
    requires lp <= ops[n].entry.priority
    requires Index(ops[n].entry.priority, 1.0, 2) == 0 ==> Last(b0, ops[n].entry)
    requires Index(ops[n].entry.priority, 1.0, 2) == 1 ==> Last(b1, ops[n].entry)
    ensures var e := ops[n].entry;
            Reaches(ops, n + 1, if Index(e.priority, 1.0, 2) == 0 then Two(true, b0 + [e], b1, lb, lp, top)
                                else Two(true, b0, b1 + [e], lb, lp, top), served)
  {
    var s, e := Two(true, b0, b1, lb, lp, top), ops[n].entry;
    StoreTwo(true, b0, b1, lb, lp, top, e);
    StoredGood(s, e);
    assert Put(s, e, false) == Outcome(Stored(s, e), true);
    assert Run(ops, n + 1, false) == Next(Run(ops, n, false), ops[n], false);
  }

  lemma GetGoes<P(!new)>(ops: seq<Op<P>>, n: nat, b0: seq<Entry<P>>, b1: seq<Entry<P>>, lb: nat, lp: real, top: real, served: seq<Entry<P>>,
                      k: nat, c: nat)
    requires Reaches(ops, n, Two(true, b0, b1, lb, lp, top), served) && n < |ops| && ops[n].GetOp? && Stops(b0, b1, lb, top, k, c)
    ensures Reaches(ops, n + 1, Rest(true, b0, b1, top, k, c), served + [if c == 0 then b0[0] else b1[0]])
  {
    var s := Two(true, b0, b1, lb, lp, top);
    ServeTwo(true, b0, b1, lb, lp, top, k, c);
    ServeGood(s, false);
    assert Deq(s, false) == Outcome(AfterServe(s, false), true);
    assert Run(ops, n + 1, false) == Next(Run(ops, n, false), ops[n], false);
  }

  // ---------- Sampling ----------

  /** After n dequeues of a sampling the queue is in this state and gave these entries. */
  ghost predicate Samples<P(!new)>(s: State<P>, n: nat, t: State<P>, es: seq<Entry<P>>) {
    Good(s) && n <= s.qsize && Drained(s, n, false) == t && Sampled(s, n, false) == es
  }

  lemma SamplesOne<P(!new)>(s: State<P>, n: nat, b0: seq<Entry<P>>, b1: seq<Entry<P>>, lb: nat, lp: real, top: real, es: seq<Entry<P>>,
                            k: nat, c: nat)
    requires Samples(s, n, Two(false, b0, b1, lb, lp, top), es) && n < s.qsize && Stops(b0, b1, lb, top, k, c)
    ensures Samples(s, n + 1, Rest(false, b0, b1, top, k, c), es + [if c == 0 then b0[0] else b1[0]])
  {
    ServeTwo(false, b0, b1, lb, lp, top, k, c);
  }
}
