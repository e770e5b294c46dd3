/** Which cursors of the calendar queue serve a minimum whatever is queued: an exact condition on
    the last priority served and the edge the scan starts with. */
module Cursors {
  import opened Calendar

  ghost predicate TakesMinimum<P(!new)>(cal: seq<List<P>>, lb: nat, top: real, width: real)
    requires lb < |cal|
  {
    var c := Chosen(cal, lb, top, width);
    0 <= c < |cal| && cal[c].Node? && IsMinimum(cal[c].entry, All(cal))
  }

  /** A calendar of n buckets that may be queued after priority p was served. */
  ghost predicate MayFollow<P(!new)>(cal: seq<List<P>>, n: nat, width: real, p: real) {
    |cal| == n && Shelved(cal, width) && All(cal) != multiset{} && AtLeast(All(cal), p)
  }

  /** A calendar of two nodes in two buckets. */
  function TwoNodes<P(!new)>(n: nat, i: nat, x: Entry<P>, j: nat, y: Entry<P>): seq<List<P>>
    requires i < n && j < n
  {
    Empty<P>(n)[i := Node(x, Nil)][j := Node(y, Nil)]
  }

  lemma TwoNodesFollow<P(!new)>(n: nat, x: Entry<P>, y: Entry<P>, width: real, p: real)
    requires n >= 2 && width > 0.0 && 0.0 <= p <= x.priority && p <= y.priority
    requires Index(x.priority, width, n) != Index(y.priority, width, n)
    ensures var cal := TwoNodes(n, Index(x.priority, width, n), x, Index(y.priority, width, n), y);
            MayFollow(cal, n, width, p) && All(cal) == multiset{x, y}
  {
    var i, j := Index(x.priority, width, n), Index(y.priority, width, n);
    EmptyMeaning<P>(n, width);
    MeaningIsAll(Empty<P>(n), width);
    PutMeaning(Empty<P>(n), width, x);
    var one := Empty<P>(n)[i := Node(x, Nil)];
    assert Insert(Empty<P>(n)[i], x) == Node(x, Nil);
    MeaningIsAll(one, width);
    PutMeaning(one, width, y);
    assert Insert(one[j], y) == Node(y, Nil);
    MeaningIsAll(TwoNodes(n, i, x, j, y), width);
    assert multiset{} + multiset{x} + multiset{y} == multiset{x, y};
  }

  lemma VirtualIs(p: real, v: int, width: real)
    requires width > 0.0 && Edge(v, width) <= p < Edge(v, width) + width
    ensures Virtual(p, width) == v
  {
    VirtualAtLeast(p, v, width);
    VirtualAtLeast(p, v + 1, width);
    EdgeSum(v, 1, width);
  }

  /** The scan passes over the first of two nodes and takes the second, although that is later. */
  lemma SecondTaken<P(!new)>(n: nat, lb: nat, j: nat, x: Entry<P>, y: Entry<P>, top: real, width: real)
    requires lb < n && j == Pos(lb, 1, n) && j != lb && x.priority < y.priority
    requires top <= x.priority && y.priority < top + width
    ensures !TakesMinimum(TwoNodes(n, lb, x, j, y), lb, top, width) || x !in All(TwoNodes(n, lb, x, j, y))
  {
    var cal := TwoNodes(n, lb, x, j, y);
    assert Pos(lb, 0, n) == lb;
    assert cal[lb] == Node(x, Nil) && cal[j] == Node(y, Nil);
    assert Edge(0, width) == 0.0 && Edge(1, width) == width;
    assert !HitAt(cal, lb, top, width, 0);
    assert HitAt(cal, lb, top, width, 1);
    assert FirstHit(cal, lb, top, width, 1) == 1;
  }

  /** The scan takes the first of two nodes, although the second is earlier. */
  lemma FirstTaken<P(!new)>(n: nat, lb: nat, j: nat, x: Entry<P>, y: Entry<P>, top: real, width: real)
    requires lb < n && j < n && j != lb && y.priority < x.priority < top
    ensures !TakesMinimum(TwoNodes(n, lb, x, j, y), lb, top, width) || y !in All(TwoNodes(n, lb, x, j, y))
  {
    var cal := TwoNodes(n, lb, x, j, y);
    assert Pos(lb, 0, n) == lb;
    assert cal[lb] == Node(x, Nil);
    assert HitAt(cal, lb, top, width, 0);
  }

  lemma NextBucket(v: nat, n: nat)
    requires n >= 2
    ensures (v + 1) % n == Pos(v % n, 1, n) && (v + 1) % n != v % n && (v + n) % n == v % n
  {
    PosOfVirtual(v, 1, n);
    DivModUnique(v + n, v / n + 1, v % n, n);
  }

  /** A node in virtual bucket v. */
  lemma Placed<P(!new)>(v: int, offset: real, width: real, f: real -> P) returns (e: Entry<P>)
    requires width > 0.0 && 0.0 <= offset < width
    ensures e.priority == Edge(v, width) + offset && Virtual(e.priority, width) == v && e.payload == f(e.priority)
  {
    var q := Edge(v, width) + offset;
    e := Entry(q, f(q));
    VirtualIs(q, v, width);
  }

  /** A node in virtual bucket v, not before p. */
  lemma PlacedFrom<P(!new)>(v: int, offset: real, width: real, p: real, f: real -> P) returns (e: Entry<P>)
    requires width > 0.0 && 0.0 <= offset < width && Virtual(p, width) == v
    ensures e.payload == f(e.priority)
    ensures p <= e.priority && Edge(v, width) + offset <= e.priority < Edge(v, width) + width && Virtual(e.priority, width) == v
  {
    VirtualBounds(p, width);
    e := Placed(v, offset, width, f);
    if e.priority < p {
      e := Entry(p, f(p));
    }
  }

  lemma TopIs(a: int, width: real)
    ensures Top(a, width) == Edge(a, width) + 1.5 * width && Top(a, width) == Edge(a + 1, width) + 0.5 * width
  {
    EdgeSum(a, 1, width);
  }

  lemma SecondTakenAt<P(!new)>(n: nat, width: real, p: real, v: nat, low: Entry<P>, high: Entry<P>)
    requires n >= 2 && width > 0.0 && 0.0 <= p <= low.priority < high.priority
    requires Virtual(low.priority, width) == v && Virtual(high.priority, width) == v + 1
    requires Top(v - 1, width) <= low.priority && high.priority < Top(v - 1, width) + width
    ensures var cal := TwoNodes(n, v % n, low, (v + 1) % n, high);
            MayFollow(cal, n, width, p) && !TakesMinimum(cal, v % n, Top(v - 1, width), width) && All(cal) == multiset{low, high}
  {
    NextBucket(v, n);
    TwoNodesFollow(n, low, high, width, p);
    SecondTaken(n, v % n, (v + 1) % n, low, high, Top(v - 1, width), width);
  }

  lemma FirstTakenAt<P(!new)>(n: nat, width: real, p: real, v: nat, a: int, far: Entry<P>, low: Entry<P>)
    requires n >= 2 && width > 0.0 && 0.0 <= p <= low.priority < far.priority < Top(a, width)
    requires Virtual(far.priority, width) == v + n && Virtual(low.priority, width) == v + 1
    ensures var cal := TwoNodes(n, v % n, far, (v + 1) % n, low);
            MayFollow(cal, n, width, p) && !TakesMinimum(cal, v % n, Top(a, width), width) && All(cal) == multiset{far, low}
  {
    NextBucket(v, n);
    TwoNodesFollow(n, far, low, width, p);
    FirstTaken(n, v % n, (v + 1) % n, far, low, Top(a, width), width);
  }

  /** A calendar that may be queued, of two nodes with given payloads. */
  ghost predicate Two<P(!new)>(cal: seq<List<P>>, n: nat, width: real, p: real, x: Entry<P>, f: real -> P, y: Entry<P>, g: real -> P) {
    && MayFollow(cal, n, width, p) && All(cal) == multiset{x, y}
    && x.payload == f(x.priority) && y.payload == g(y.priority)
  }

  /** A cursor one virtual bucket behind passes over the minimum where that lies in the upper half
      of its bucket, and takes a node of the next bucket. */
  lemma OneBehindFails<P(!new)>(n: nat, width: real, p: real, f: real -> P, g: real -> P)
    returns (cal: seq<List<P>>, low: Entry<P>, high: Entry<P>)
    requires n >= 2 && width > 0.0 && p >= 0.0
    ensures Virtual(p, width) >= 0 && Two(cal, n, width, p, low, f, high, g)
            && !TakesMinimum(cal, Virtual(p, width) % n, Top(Virtual(p, width) - 1, width), width)
  {
    var v := Virtual(p, width);
    VirtualBounds(p, width);
    VirtualNonNegative(p, width);
    TopIs(v - 1, width);
    EdgeSum(v, 1, width);
    low := PlacedFrom(v, 0.75 * width, width, p, f);
    high := Placed(v + 1, 0.25 * width, width, g);
    SecondTakenAt(n, width, p, v, low, high);
    cal := TwoNodes(n, v % n, low, (v + 1) % n, high);
  }

  /** A cursor that is ahead by a year less one bucket, or more, takes a node of the next year
      where the minimum lies in the next bucket. */
  lemma YearAheadFails<P(!new)>(n: nat, width: real, p: real, a: int, f: real -> P, g: real -> P)
    returns (cal: seq<List<P>>, far: Entry<P>, low: Entry<P>)
    requires n >= 2 && width > 0.0 && p >= 0.0 && a >= Virtual(p, width) + n - 1
    ensures Virtual(p, width) >= 0 && Two(cal, n, width, p, far, f, low, g)
            && !TakesMinimum(cal, Virtual(p, width) % n, Top(a, width), width)
  {
    var v := Virtual(p, width);
    VirtualBounds(p, width);
    VirtualNonNegative(p, width);
    TopIs(a, width);
    EdgeSum(v, 1, width);
    EdgeOrder(v + 1, v + n, width);
    EdgeOrder(v + n, a + 1, width);
    far := Placed(v + n, 0.25 * width, width, f);
    low := Placed(v + 1, 0.25 * width, width, g);
    FirstTakenAt(n, width, p, v, a, far, low);
    cal := TwoNodes(n, v % n, far, (v + 1) % n, low);
  }

  /** Exactly which cursors serve a minimum, whatever may be queued: with the last priority p in
      virtual bucket v and the edge of virtual bucket a, those with a <= v - 2 or
      v <= a <= v + n - 2. */
  lemma SoundIff<P(!new)>(n: nat, width: real, p: real, a: int, x: P)
    requires n >= 2 && width > 0.0 && p >= 0.0
    ensures SoundShift(Virtual(p, width), a, n) <==>
            forall cal: seq<List<P>> :: MayFollow(cal, n, width, p) ==> TakesMinimum(cal, Virtual(p, width) % n, Top(a, width), width)
  {
    var v := Virtual(p, width);
    VirtualNonNegative(p, width);
    if SoundShift(v, a, n) {
      forall cal: seq<List<P>> | MayFollow(cal, n, width, p) ensures TakesMinimum(cal, v % n, Top(a, width), width) {
        VirtualBounds(p, width);
        OneStepMinimum(cal, width, v, a);
      }
    } else if a == v - 1 {
      var cal, _, _ := OneBehindFails(n, width, p, _ => x, _ => x);
    } else {
      var cal, _, _ := YearAheadFails(n, width, p, a, _ => x, _ => x);
    }
  }
}
