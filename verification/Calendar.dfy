/** The values behind the calendar queue: bucket numbering, bucket lists, the
    scan order of a dequeue, and the width computed from a sample. The class in
    CalendarQueue.dfy is proved against the functions of this module. */
module Calendar {
  import opened Common

  /** What a node carries. */
  datatype Entry<P(!new)> = Entry(priority: real, payload: P)

  /** A bucket: a singly linked list of nodes. */
  datatype List<P(!new)> = Nil | Node(entry: Entry<P>, next: List<P>)

  // ---------- Bucket numbers ----------

  /** The virtual bucket of a priority: buckets counted without wrapping at the year's end. */
  function Virtual(p: real, width: real): int
    requires width > 0.0
  {
    (p / width).Floor
  }

  /** The bucket in which a priority is stored. */
  function Index(p: real, width: real, n: nat): int
    requires width > 0.0 && n > 0
  {
    Virtual(p, width) % n
  }

  /** The lower edge of virtual bucket v: v steps of one width (see EdgeIsProduct). */
  function Edge(v: int, width: real): real
    decreases if v < 0 then -v else v
  {
    if v == 0 then 0.0
    else if v > 0 then Edge(v - 1, width) + width
    else Edge(v + 1, width) - width
  }

  /** The upper edge a cursor standing in virtual bucket v compares heads against. */
  function Top(v: int, width: real): real {
    Edge(v + 1, width) + 0.5 * width
  }

  lemma {:induction false} EdgeIsProduct(v: int, width: real)
    ensures Edge(v, width) == v as real * width
    decreases if v < 0 then -v else v
  {
    if v > 0 {
      EdgeIsProduct(v - 1, width);
      Distribute(v as real - 1.0, 1.0, width);
    } else if v < 0 {
      EdgeIsProduct(v + 1, width);
      Distribute(v as real + 1.0, -1.0, width);
    }
  }

  lemma {:induction false} EdgeSum(v: int, k: int, width: real)
    ensures Edge(v + k, width) == Edge(v, width) + Edge(k, width)
    decreases if k < 0 then -k else k
  {
    if k > 0 {
      EdgeSum(v, k - 1, width);
    } else if k < 0 {
      EdgeSum(v, k + 1, width);
    }
  }

  lemma {:induction false} EdgeOrder(v: int, w: int, width: real)
    requires width > 0.0
    ensures v < w ==> Edge(v, width) + width <= Edge(w, width)
    decreases w - v
  {
    if v + 1 < w {
      EdgeOrder(v, w - 1, width);
    }
  }

  lemma Distribute(a: real, b: real, w: real)
    ensures (a + b) * w == a * w + b * w
  {
  }

  lemma VirtualBounds(p: real, width: real)
    requires width > 0.0
    ensures Edge(Virtual(p, width), width) <= p < Edge(Virtual(p, width), width) + width
  {
    var q := p / width;
    ScaledFraction(p, q, q.Floor, width);
  }

  lemma ScaledFraction(p: real, q: real, v: int, width: real)
    requires width > 0.0 && p == q * width && v as real <= q < v as real + 1.0
    ensures Edge(v, width) <= p < Edge(v, width) + width
  {
    var low := v as real;
    var e := low * width;
    Scaled(p, q, low, e, width);
    assert e <= p < e + width;
    EdgeIsProduct(v, width);
  }

  lemma Scaled(p: real, q: real, low: real, e: real, width: real)
    requires width > 0.0 && low <= q < low + 1.0 && p == q * width && e == low * width
    ensures e <= p < e + width
  {
    var f := q - low;
    var g := 1.0 - f;
    Distribute(low, f, width);
    assert 0.0 <= f * width;
    assert g * width > 0.0;
    Distribute(f, g, width);
    assert f + g == 1.0;
  }

  lemma VirtualOrder(p: real, q: real, width: real)
    requires width > 0.0
    ensures Virtual(p, width) < Virtual(q, width) ==> p < q
  {
    VirtualBounds(p, width);
    VirtualBounds(q, width);
    EdgeOrder(Virtual(p, width), Virtual(q, width), width);
  }

  lemma VirtualMonotone(p: real, q: real, width: real)
    requires width > 0.0 && p <= q
    ensures Virtual(p, width) <= Virtual(q, width)
  {
    VirtualOrder(q, p, width);
  }

  lemma VirtualNonNegative(p: real, width: real)
    requires width > 0.0 && p >= 0.0
    ensures Virtual(p, width) >= 0
  {
    VirtualMonotone(0.0, p, width);
  }

  /** A priority lies in virtual bucket v or later exactly when it is at or above v's lower edge. */
  lemma VirtualAtLeast(p: real, v: int, width: real)
    requires width > 0.0
    ensures v <= Virtual(p, width) <==> Edge(v, width) <= p
  {
    VirtualBounds(p, width);
    EdgeOrder(v, Virtual(p, width), width);
    EdgeOrder(Virtual(p, width), v, width);
  }

  lemma SameIndex(p: real, q: real, width: real, n: nat)
    requires width > 0.0 && n > 0 && Virtual(p, width) == Virtual(q, width)
    ensures Index(p, width, n) == Index(q, width, n)
  {
  }

  lemma DivModUnique(w: int, q: int, r: nat, n: nat)
    requires r < n && w == q * n + r
    ensures w / n == q && w % n == r
  {
    var d := w / n - q;
    assert w == (w / n) * n + w % n;
    assert d * n == (w / n) * n - q * n;
    assert d >= 1 ==> d * n >= n;
    assert d <= -1 ==> d * n <= -1 * n;
  }

  /** The bucket reached k steps after bucket lb, wrapping at the end of the array. */
  function Pos(lb: nat, k: nat, n: nat): nat {
    if lb + k < n then lb + k else if lb + k - n < n then lb + k - n else 0
  }

  lemma PosOfVirtual(v: nat, k: nat, n: nat)
    requires k < n
    ensures Pos(v % n, k, n) == (v + k) % n
  {
    var q, r := v / n, v % n;
    assert v == q * n + r;
    if r + k < n {
      DivModUnique(v + k, q, r + k, n);
    } else {
      assert (q + 1) * n == q * n + n;
      DivModUnique(v + k, q + 1, r + k - n, n);
    }
  }

  /** Two numbers at most n apart, one excepted, with the same residue are equal. */
  lemma SameResidue(a: int, b: int, n: nat)
    requires n > 0 && a < b + n && b < a + n && a % n == b % n
    ensures a == b
  {
    var d := a / n - b / n;
    assert a == (a / n) * n + a % n && b == (b / n) * n + b % n;
    assert d * n == (a / n) * n - (b / n) * n;
    assert d >= 1 ==> d * n >= n;
    assert d <= -1 ==> d * n <= -1 * n;
  }

  /** The cursors that guide a dequeue: with the last priority in virtual bucket v, the edge is
      that of v itself or of a bucket up to almost a year later, so that no later year passes the
      test; or it is so far behind that nothing passes and the direct search is left to decide. */
  predicate SoundShift(v: int, a: int, n: nat) {
    a <= v - 2 || v <= a <= v + n - 2
  }

  /** A priority at or above the lower edge of v, stored in the bucket scanned at step k, is
      below the edge used at that step exactly when its virtual bucket is v + k, if the edge does
      not lie behind; else never. */
  lemma YearTest(p: real, width: real, v: nat, a: int, k: nat, n: nat)
    requires width > 0.0 && n >= 2 && k < n && SoundShift(v, a, n)
    requires v <= Virtual(p, width) && Index(p, width, n) == Pos(v % n, k, n)
    ensures p < Top(a, width) + Edge(k, width) <==> v <= a && Virtual(p, width) == v + k
  {
    var w := Virtual(p, width);
    VirtualBounds(p, width);
    TopPlus(a, k, width);
    EdgeSum(a + k, 1, width);
    PosOfVirtual(v, k, n);
    if w < v + k {
      SameResidue(w, v + k, n);
    } else if p < Top(a, width) + Edge(k, width) {
      YearLimit(p, width, w, a + k);
      SameResidue(w, v + k, n);
    } else {
      EdgeOrder(w, a + k, width);
    }
  }

  lemma YearLimit(p: real, width: real, w: int, b: int)
    requires width > 0.0 && Edge(w, width) <= p < Top(b, width)
    ensures w <= b + 1
  {
    EdgeOrder(b + 2, w, width);
    EdgeOrder(b + 1, w, width);
    EdgeSum(b + 1, 1, width);
  }

  // ---------- Bucket lists ----------

  ghost function Contents<P(!new)>(b: List<P>): multiset<Entry<P>> {
    if b.Nil? then multiset{} else multiset{b.entry} + Contents(b.next)
  }

  ghost predicate Sorted<P(!new)>(b: List<P>) {
    b.Node? && b.next.Node? ==> b.entry.priority <= b.next.entry.priority && Sorted(b.next)
  }

  lemma {:induction false} HeadIsLowest<P(!new)>(b: List<P>, x: Entry<P>)
    requires Sorted(b) && x in Contents(b)
    ensures b.entry.priority <= x.priority
  {
    if x != b.entry {
      HeadIsLowest(b.next, x);
    }
  }

  /** The place a put finds by walking the list: behind every node that is not later than the new one. */
  function Insert<P(!new)>(b: List<P>, e: Entry<P>): List<P> {
    if b.Nil? || b.entry.priority > e.priority then Node(e, b)
    else Node(b.entry, Insert(b.next, e))
  }

  lemma {:induction false} InsertAdds<P(!new)>(b: List<P>, e: Entry<P>)
    ensures Contents(Insert(b, e)) == Contents(b) + multiset{e}
  {
    if b.Nil? || b.entry.priority > e.priority {
    } else {
      InsertAdds(b.next, e);
    }
  }

  lemma {:induction false} InsertSorted<P(!new)>(b: List<P>, e: Entry<P>)
    requires Sorted(b)
    ensures Sorted(Insert(b, e))
  {
    if b.Nil? || b.entry.priority > e.priority {
    } else {
      InsertSorted(b.next, e);
    }
  }

  /** The list with some entries put back in front. */
  function Relink<P(!new)>(passed: seq<Entry<P>>, rest: List<P>): List<P> {
    if passed == [] then rest else Node(passed[0], Relink(passed[1..], rest))
  }

  lemma {:induction false} RelinkAppend<P(!new)>(passed: seq<Entry<P>>, e: Entry<P>, rest: List<P>)
    ensures Relink(passed + [e], rest) == Relink(passed, Node(e, rest))
  {
    if passed != [] {
      assert (passed + [e])[1..] == passed[1..] + [e];
      RelinkAppend(passed[1..], e, rest);
    }
  }

  /** The entries of one priority, in list order. */
  function WithPriority<P(!new)>(b: List<P>, p: real): seq<Entry<P>> {
    if b.Nil? then []
    else (if b.entry.priority == p then [b.entry] else []) + WithPriority(b.next, p)
  }

  lemma {:induction false} NoneBeforeHead<P(!new)>(b: List<P>, p: real)
    requires Sorted(b) && (b.Node? ==> p < b.entry.priority)
    ensures WithPriority(b, p) == []
  {
    if b.Node? {
      NoneBeforeHead(b.next, p);
    }
  }

  /** Inside a bucket, equal priorities keep their order of arrival. */
  lemma {:induction false} InsertIsFifo<P(!new)>(b: List<P>, e: Entry<P>)
    requires Sorted(b)
    ensures WithPriority(Insert(b, e), e.priority) == WithPriority(b, e.priority) + [e]
  {
    if b.Nil? || b.entry.priority > e.priority {
      NoneBeforeHead(b, e.priority);
    } else {
      InsertIsFifo(b.next, e);
    }
  }

  // ---------- The whole calendar ----------

  /** The entries of the first n buckets. */
  ghost function Flatten<P(!new)>(cal: seq<List<P>>, n: nat): multiset<Entry<P>>
    requires n <= |cal|
  {
    if n == 0 then multiset{} else Flatten(cal, n - 1) + Contents(cal[n - 1])
  }

  /** Every entry of every bucket. */
  ghost function All<P(!new)>(cal: seq<List<P>>): multiset<Entry<P>> {
    Flatten(cal, |cal|)
  }

  lemma {:induction false} FlattenOutside<P(!new)>(cal: seq<List<P>>, i: nat, b: List<P>, n: nat)
    requires n <= i < |cal|
    ensures Flatten(cal[i := b], n) == Flatten(cal, n)
  {
    if n > 0 {
      FlattenOutside(cal, i, b, n - 1);
    }
  }

  lemma {:induction false} FlattenUpdate<P(!new)>(cal: seq<List<P>>, i: nat, b: List<P>, n: nat)
    requires i < n <= |cal|
    ensures Flatten(cal[i := b], n) + Contents(cal[i]) == Flatten(cal, n) + Contents(b)
  {
    if i == n - 1 {
      FlattenOutside(cal, i, b, i);
      assert Flatten(cal, i) + Contents(b) + Contents(cal[i]) == Flatten(cal, i) + Contents(cal[i]) + Contents(b);
    } else {
      FlattenUpdate(cal, i, b, n - 1);
      Swap(Flatten(cal[i := b], n - 1), Contents(cal[i]), Flatten(cal, n - 1), Contents(b), Contents(cal[n - 1]));
    }
  }

  lemma Swap<T>(a: multiset<T>, b: multiset<T>, c: multiset<T>, d: multiset<T>, e: multiset<T>)
    requires a + b == c + d
    ensures (a + e) + b == (c + e) + d
  {
    assert (a + e) + b == (a + b) + e;
    assert (c + e) + d == (c + d) + e;
  }

  lemma {:induction false} FlattenHas<P(!new)>(cal: seq<List<P>>, n: nat, j: nat, e: Entry<P>)
    requires j < n <= |cal| && e in Contents(cal[j])
    ensures e in Flatten(cal, n)
  {
    if j < n - 1 {
      FlattenHas(cal, n - 1, j, e);
    }
  }

  lemma {:induction false} FlattenFind<P(!new)>(cal: seq<List<P>>, n: nat, e: Entry<P>) returns (j: nat)
    requires n <= |cal| && e in Flatten(cal, n)
    ensures j < n && e in Contents(cal[j])
  {
    if e in Contents(cal[n - 1]) {
      j := n - 1;
    } else {
      j := FlattenFind(cal, n - 1, e);
    }
  }

  function Empty<P(!new)>(n: nat): seq<List<P>> {
    seq(n, _ => Nil)
  }

  lemma {:induction false} FlattenEmpty<P(!new)>(cal: seq<List<P>>, n: nat)
    requires n <= |cal| && forall j :: 0 <= j < n ==> cal[j] == Nil
    ensures Flatten(cal, n) == multiset{}
  {
    if n > 0 {
      FlattenEmpty(cal, n - 1);
    }
  }

  /** Every node of the list has a priority that selects bucket j of n. */
  ghost predicate Belongs<P(!new)>(b: List<P>, j: nat, width: real, n: nat)
    requires width > 0.0 && n > 0
  {
    b.Node? ==> b.entry.priority >= 0.0 && Index(b.entry.priority, width, n) == j && Belongs(b.next, j, width, n)
  }

  lemma {:induction false} BelongsMember<P(!new)>(b: List<P>, j: nat, width: real, n: nat, x: Entry<P>)
    requires width > 0.0 && n > 0 && Belongs(b, j, width, n) && x in Contents(b)
    ensures x.priority >= 0.0 && Index(x.priority, width, n) == j
  {
    if x != b.entry {
      BelongsMember(b.next, j, width, n, x);
    }
  }

  lemma {:induction false} BelongsInsert<P(!new)>(b: List<P>, j: nat, width: real, n: nat, e: Entry<P>)
    requires width > 0.0 && n > 0 && Belongs(b, j, width, n)
    requires e.priority >= 0.0 && Index(e.priority, width, n) == j
    ensures Belongs(Insert(b, e), j, width, n)
  {
    if b.Nil? || b.entry.priority > e.priority {
    } else {
      BelongsInsert(b.next, j, width, n, e);
    }
  }

  /** Structural invariant: every bucket is sorted and every node lies where its priority selects. */
  ghost predicate Shelved<P(!new)>(cal: seq<List<P>>, width: real) {
    && |cal| >= 2
    && width > 0.0
    && forall j :: 0 <= j < |cal| ==> Sorted(cal[j]) && Belongs(cal[j], j, width, |cal|)
  }

  /** The multiset of entries the first n buckets stand for, None if one of them is not well formed. */
  ghost function MeaningUpTo<P(!new)>(cal: seq<List<P>>, width: real, n: nat): Option<multiset<Entry<P>>>
    requires width > 0.0 && n <= |cal|
  {
    if n == 0 then Some(multiset{})
    else
      var rest := MeaningUpTo(cal, width, n - 1);
      if rest.Some? && Sorted(cal[n - 1]) && Belongs(cal[n - 1], n - 1, width, |cal|)
      then Some(rest.value + Contents(cal[n - 1]))
      else None
  }

  /** The multiset of entries a well-formed calendar stands for. */
  ghost function Meaning<P(!new)>(cal: seq<List<P>>, width: real): Option<multiset<Entry<P>>> {
    if |cal| >= 2 && width > 0.0 then MeaningUpTo(cal, width, |cal|) else None
  }

  lemma {:induction false} MeaningUpToIff<P(!new)>(cal: seq<List<P>>, width: real, n: nat)
    requires width > 0.0 && n <= |cal|
    ensures MeaningUpTo(cal, width, n).Some? <==> forall j :: 0 <= j < n ==> Sorted(cal[j]) && Belongs(cal[j], j, width, |cal|)
    ensures MeaningUpTo(cal, width, n).Some? ==> MeaningUpTo(cal, width, n).value == Flatten(cal, n)
  {
    if n > 0 {
      MeaningUpToIff(cal, width, n - 1);
    }
  }

  /** A calendar has a meaning exactly when it is shelved, and then it means all its entries. */
  lemma MeaningIsAll<P(!new)>(cal: seq<List<P>>, width: real)
    ensures Meaning(cal, width).Some? <==> Shelved(cal, width)
    ensures Meaning(cal, width).Some? ==> Meaning(cal, width).value == All(cal)
  {
    if |cal| >= 2 && width > 0.0 {
      MeaningUpToIff(cal, width, |cal|);
    }
  }

  function Length<P(!new)>(b: List<P>): nat {
    if b.Nil? then 0 else 1 + Length(b.next)
  }

  /** The number of nodes in the first n buckets. */
  function Count<P(!new)>(cal: seq<List<P>>, n: nat): nat
    requires n <= |cal|
  {
    if n == 0 then 0 else Count(cal, n - 1) + Length(cal[n - 1])
  }

  lemma {:induction false} LengthIsSize<P(!new)>(b: List<P>)
    ensures Length(b) == |Contents(b)|
  {
    if b.Node? {
      LengthIsSize(b.next);
    }
  }

  lemma {:induction false} CountIsSize<P(!new)>(cal: seq<List<P>>, n: nat)
    requires n <= |cal|
    ensures Count(cal, n) == |Flatten(cal, n)|
  {
    if n > 0 {
      CountIsSize(cal, n - 1);
      LengthIsSize(cal[n - 1]);
    }
  }

  lemma EmptyMeaning<P(!new)>(n: nat, width: real)
    requires n >= 2 && width > 0.0
    ensures Meaning(Empty<P>(n), width) == Some(multiset{}) && Count(Empty<P>(n), n) == 0
  {
    CountIsSize(Empty<P>(n), n);
    MeaningIsAll(Empty<P>(n), width);
    FlattenEmpty(Empty<P>(n), n);
  }

  lemma PutMeaning<P(!new)>(cal: seq<List<P>>, width: real, e: Entry<P>)
    requires Shelved(cal, width) && e.priority >= 0.0
    ensures var i := Index(e.priority, width, |cal|);
            Meaning(cal[i := Insert(cal[i], e)], width) == Some(All(cal) + multiset{e})
  {
    MeaningIsAll(cal[Index(e.priority, width, |cal|) := Insert(cal[Index(e.priority, width, |cal|)], e)], width);
    var i := Index(e.priority, width, |cal|);
    var b := Insert(cal[i], e);
    BelongsInsert(cal[i], i, width, |cal|, e);
    InsertSorted(cal[i], e);
    InsertAdds(cal[i], e);
    FlattenUpdate(cal, i, b, |cal|);
    Cancel(All(cal[i := b]), All(cal) + multiset{e}, Contents(cal[i]));
  }

  lemma TakeMeaning<P(!new)>(cal: seq<List<P>>, width: real, i: nat)
    requires Shelved(cal, width) && i < |cal| && cal[i].Node?
    ensures Meaning(cal[i := cal[i].next], width) == Some(All(cal) - multiset{cal[i].entry})
    ensures cal[i].entry in All(cal) && cal[i].entry.priority >= 0.0
  {
    MeaningIsAll(cal[i := cal[i].next], width);
    var b := cal[i];
    FlattenUpdate(cal, i, b.next, |cal|);
    Cancel(All(cal), All(cal[i := b.next]) + multiset{b.entry}, Contents(b.next));
    assert All(cal) - multiset{b.entry} == All(cal[i := b.next]);
  }

  lemma TakeFrom<P(!new)>(cal: seq<List<P>>, width: real, i: nat, items: multiset<Entry<P>>)
    requires Meaning(cal, width) == Some(items) && i < |cal| && cal[i].Node?
    ensures var e := cal[i].entry;
            && Meaning(cal[i := cal[i].next], width) == Some(items - multiset{e})
            && items == items - multiset{e} + multiset{e}
            && e.priority >= 0.0
    ensures Count(cal[i := cal[i].next], |cal|) == Count(cal, |cal|) - 1
  {
    MeaningIsAll(cal, width);
    TakeMeaning(cal, width, i);
    CountIsSize(cal, |cal|);
    CountIsSize(cal[i := cal[i].next], |cal|);
    MeaningIsAll(cal[i := cal[i].next], width);
    assert |items - multiset{cal[i].entry}| == |items| - 1;
  }

  lemma PutInto<P(!new)>(cal: seq<List<P>>, width: real, e: Entry<P>, items: multiset<Entry<P>>)
    requires Meaning(cal, width) == Some(items) && e.priority >= 0.0
    ensures var i := Index(e.priority, width, |cal|);
            && Meaning(cal[i := Insert(cal[i], e)], width) == Some(items + multiset{e})
            && Count(cal[i := Insert(cal[i], e)], |cal|) == Count(cal, |cal|) + 1
  {
    var i := Index(e.priority, width, |cal|);
    MeaningIsAll(cal, width);
    PutMeaning(cal, width, e);
    CountIsSize(cal, |cal|);
    CountIsSize(cal[i := Insert(cal[i], e)], |cal|);
    MeaningIsAll(cal[i := Insert(cal[i], e)], width);
  }

  lemma Cancel<T>(a: multiset<T>, b: multiset<T>, c: multiset<T>)
    requires a + c == b + c
    ensures a == b
  {
    forall x ensures a[x] == b[x] {
      assert (a + c)[x] == (b + c)[x];
    }
  }

  lemma Locate<P(!new)>(cal: seq<List<P>>, width: real, x: Entry<P>) returns (j: nat)
    requires Shelved(cal, width) && x in All(cal)
    ensures j < |cal| && x in Contents(cal[j]) && x.priority >= 0.0 && Index(x.priority, width, |cal|) == j
    ensures cal[j].Node? && cal[j].entry.priority <= x.priority
  {
    j := FlattenFind(cal, |cal|, x);
    BelongsMember(cal[j], j, width, |cal|, x);
    HeadIsLowest(cal[j], x);
  }

  lemma EntryFacts<P(!new)>(cal: seq<List<P>>, width: real, j: nat, x: Entry<P>)
    requires Shelved(cal, width) && j < |cal| && x in Contents(cal[j])
    ensures x in All(cal) && x.priority >= 0.0 && Index(x.priority, width, |cal|) == j
  {
    FlattenHas(cal, |cal|, j, x);
    BelongsMember(cal[j], j, width, |cal|, x);
  }

  // ---------- The scan of a dequeue ----------

  /** The k-th bucket of the scan has a head below the edge used at that step. */
  predicate HitAt<P(!new)>(cal: seq<List<P>>, lb: nat, top: real, width: real, k: nat)
    requires lb < |cal|
  {
    var b := cal[Pos(lb, k, |cal|)];
    b.Node? && b.entry.priority < top + Edge(k, width)
  }

  /** The first step from k on at which the scan stops, |cal| when it never does. */
  function FirstHit<P(!new)>(cal: seq<List<P>>, lb: nat, top: real, width: real, k: nat): (r: nat)
    requires lb < |cal| && k <= |cal|
    ensures k <= r <= |cal|
    ensures r < |cal| ==> HitAt(cal, lb, top, width, r)
    ensures forall j :: k <= j < r ==> !HitAt(cal, lb, top, width, j)
    decreases |cal| - k
  {
    if k == |cal| || HitAt(cal, lb, top, width, k) then k
    else FirstHit(cal, lb, top, width, k + 1)
  }

  /** The direct search over the first i buckets: the first bucket with a lowest head, -1 if all are empty. */
  function Lowest<P(!new)>(cal: seq<List<P>>, i: nat): (r: int)
    requires i <= |cal|
    ensures -1 <= r < i
    ensures r == -1 ==> forall j :: 0 <= j < i ==> cal[j].Nil?
    ensures r >= 0 ==> cal[r].Node? && forall j :: 0 <= j < i && cal[j].Node? ==> cal[r].entry.priority <= cal[j].entry.priority
  {
    if i == 0 then -1 else
      var r := Lowest(cal, i - 1);
      if cal[i - 1].Node? && (r == -1 || cal[i - 1].entry.priority < cal[r].entry.priority) then i - 1 else r
  }

  /** The bucket a dequeue takes its node from: scan hit, else direct search. */
  function Chosen<P(!new)>(cal: seq<List<P>>, lb: nat, top: real, width: real): int
    requires lb < |cal|
  {
    var k := FirstHit(cal, lb, top, width, 0);
    if k < |cal| then Pos(lb, k, |cal|) else Lowest(cal, |cal|)
  }

  lemma ChosenIsNonEmpty<P(!new)>(cal: seq<List<P>>, lb: nat, top: real, width: real)
    requires lb < |cal| && All(cal) != multiset{}
    ensures 0 <= Chosen(cal, lb, top, width) < |cal|
    ensures cal[Chosen(cal, lb, top, width)].Node?
  {
    var e :| e in All(cal);
    var j := FlattenFind(cal, |cal|, e);
  }

  ghost predicate AtLeast<P(!new)>(items: multiset<Entry<P>>, p: real) {
    forall x :: x in items ==> p <= x.priority
  }

  ghost predicate IsMinimum<P(!new)>(e: Entry<P>, items: multiset<Entry<P>>) {
    e in items && AtLeast(items, e.priority)
  }

  /** From a sound cursor, a hit at step k is exactly a head whose virtual bucket is v + k, unless
      the edge lies behind: the half bucket of slack never lets in a later year. */
  lemma HitMeansSameYear<P(!new)>(cal: seq<List<P>>, width: real, v: nat, a: int, k: nat)
    requires Shelved(cal, width) && k < |cal| && SoundShift(v, a, |cal|)
    requires AtLeast(All(cal), Edge(v, width))
    ensures var b := cal[Pos(v % |cal|, k, |cal|)];
            HitAt(cal, v % |cal|, Top(a, width), width, k)
            <==> v <= a && b.Node? && Virtual(b.entry.priority, width) == v + k
  {
    var b := cal[Pos(v % |cal|, k, |cal|)];
    if b.Node? {
      EntryFacts(cal, width, Pos(v % |cal|, k, |cal|), b.entry);
      VirtualAtLeast(b.entry.priority, v, width);
      YearTest(b.entry.priority, width, v, a, k, |cal|);
    }
  }

  /** A stored node less than a year after the last priority makes its bucket's step a hit. */
  lemma NodeInYearIsHit<P(!new)>(cal: seq<List<P>>, width: real, v: nat, a: int, j: nat, x: Entry<P>)
    requires Shelved(cal, width) && j < |cal| && x in Contents(cal[j])
    requires v <= Virtual(x.priority, width) < v + |cal| && v <= a && SoundShift(v, a, |cal|)
    ensures HitAt(cal, v % |cal|, Top(a, width), width, Virtual(x.priority, width) - v)
  {
    var k := Virtual(x.priority, width) - v;
    EntryFacts(cal, width, j, x);
    PosOfVirtual(v, k, |cal|);
    YearTest(x.priority, width, v, a, k, |cal|);
    HeadIsLowest(cal[j], x);
  }

  /** A stored node k < |cal| virtual buckets after the last priority stops the scan at step k or before. */
  lemma ScanReaches<P(!new)>(cal: seq<List<P>>, width: real, v: nat, a: int, x: Entry<P>)
    requires Shelved(cal, width) && x in All(cal) && v <= a && SoundShift(v, a, |cal|)
    requires AtLeast(All(cal), Edge(v, width))
    ensures v <= Virtual(x.priority, width)
    ensures FirstHit(cal, v % |cal|, Top(a, width), width, 0) <= Virtual(x.priority, width) - v
            || Virtual(x.priority, width) - v >= |cal|
  {
    VirtualAtLeast(x.priority, v, width);
    if Virtual(x.priority, width) - v < |cal| {
      var j := Locate(cal, width, x);
      NodeInYearIsHit(cal, width, v, a, j, x);
    }
  }

  /** The head of bucket c is no later than any node whose virtual bucket is no earlier. */
  lemma HeadBeforeLaterYears<P(!new)>(cal: seq<List<P>>, width: real, c: nat, x: Entry<P>)
    requires Shelved(cal, width) && x in All(cal) && c < |cal| && cal[c].Node?
    requires Virtual(cal[c].entry.priority, width) <= Virtual(x.priority, width)
    ensures cal[c].entry.priority <= x.priority
  {
    EntryFacts(cal, width, c, cal[c].entry);
    var j := Locate(cal, width, x);
    if Virtual(cal[c].entry.priority, width) == Virtual(x.priority, width) {
      SameIndex(cal[c].entry.priority, x.priority, width, |cal|);
    } else {
      VirtualOrder(cal[c].entry.priority, x.priority, width);
    }
  }

  /** One-step minimum: from a sound cursor at or below every stored priority, a dequeue removes
      a minimum of the whole calendar. The scan stops after exactly as many steps as virtual
      buckets separate last priority and minimum, and the direct search is taken exactly when
      that is a whole year, or the edge lies behind. */
  lemma OneStepMinimum<P(!new)>(cal: seq<List<P>>, width: real, v: nat, a: int)
    requires Shelved(cal, width) && All(cal) != multiset{} && SoundShift(v, a, |cal|)
    requires AtLeast(All(cal), Edge(v, width))
    ensures var c := Chosen(cal, v % |cal|, Top(a, width), width);
            && 0 <= c < |cal| && cal[c].Node?
            && IsMinimum(cal[c].entry, All(cal))
            && var d := Virtual(cal[c].entry.priority, width) - v;
            FirstHit(cal, v % |cal|, Top(a, width), width, 0) == (if v <= a && d < |cal| then d else |cal|)
  {
    var n := |cal|;
    var k := FirstHit(cal, v % n, Top(a, width), width, 0);
    var c := Chosen(cal, v % n, Top(a, width), width);
    ChosenIsNonEmpty(cal, v % n, Top(a, width), width);
    var e := cal[c].entry;
    EntryFacts(cal, width, c, e);
    VirtualAtLeast(e.priority, v, width);
    if k < n {
      HitMeansSameYear(cal, width, v, a, k);
    }
    if v <= a {
      ScanReaches(cal, width, v, a, e);
    }
    forall x | x in All(cal) ensures e.priority <= x.priority {
      var j := Locate(cal, width, x);
      if k < n {
        ScanReaches(cal, width, v, a, x);
        HeadBeforeLaterYears(cal, width, c, x);
      }
    }
  }

  /** The upper edge a dequeue leaves behind. With realign, the direct search sets it from
      the node it found; without, it stays where the failed scan moved it. */
  function TopAfter<P(!new)>(cal: seq<List<P>>, lb: nat, top: real, width: real, realign: bool): real
    requires lb < |cal| && width > 0.0
    requires 0 <= Chosen(cal, lb, top, width) && cal[Chosen(cal, lb, top, width)].Node?
  {
    var k := FirstHit(cal, lb, top, width, 0);
    if k == |cal| && realign then Top(Virtual(cal[Chosen(cal, lb, top, width)].entry.priority, width), width)
    else top + Edge(k, width)
  }

  lemma TopIsInjective(v: int, w: int, width: real)
    requires width > 0.0
    ensures Top(v, width) == Top(w, width) <==> v == w
  {
    EdgeOrder(v, w, width);
    EdgeOrder(w, v, width);
    EdgeSum(v, 1, width);
    EdgeSum(w, 1, width);
  }

  lemma TopPlus(v: int, k: int, width: real)
    ensures Top(v, width) + Edge(k, width) == Top(v + k, width)
  {
    EdgeSum(v, k, width);
    EdgeSum(v + k, 1, width);
    EdgeSum(v, 1, width);
  }

  /** Exactly when a dequeue from an aligned cursor leaves the cursor aligned: always in the
      realigning variant; in the code as written, as long as the minimum is at most one year
      ahead. The bucket it stops at is the right one in either case. */
  lemma DequeueAlignment<P(!new)>(cal: seq<List<P>>, width: real, v: nat, realign: bool)
    requires Shelved(cal, width) && All(cal) != multiset{}
    requires AtLeast(All(cal), Edge(v, width))
    ensures var c := Chosen(cal, v % |cal|, Top(v, width), width);
            && 0 <= c < |cal| && cal[c].Node?
            && var w := Virtual(cal[c].entry.priority, width);
            && c == w % |cal|
            && (TopAfter(cal, v % |cal|, Top(v, width), width, realign) == Top(w, width) <==> realign || w <= v + |cal|)
  {
    DequeueShift(cal, width, v, v, realign);
    var c := Chosen(cal, v % |cal|, Top(v, width), width);
    var w := Virtual(cal[c].entry.priority, width);
    TopIsInjective(ShiftAfter(v, v, w, |cal|, realign), w, width);
  }

  /** Where the edge stands after a dequeue whose node lies in virtual bucket w. */
  function ShiftAfter(v: int, a: int, w: int, n: nat, realign: bool): int {
    if v <= a && w < v + n then a + w - v else if realign then w else a + n
  }

  /** What a dequeue does to a sound cursor: the bucket is that of the node it found; a scan moves
      the edge by as much as the node is ahead, and a direct search, unless it realigns, by one
      year, however far ahead the node is. */
  lemma DequeueShift<P(!new)>(cal: seq<List<P>>, width: real, v: nat, a: int, realign: bool)
    requires Shelved(cal, width) && All(cal) != multiset{} && SoundShift(v, a, |cal|)
    requires AtLeast(All(cal), Edge(v, width))
    ensures var c := Chosen(cal, v % |cal|, Top(a, width), width);
            && 0 <= c < |cal| && cal[c].Node?
            && var w := Virtual(cal[c].entry.priority, width);
            && v <= w && c == w % |cal|
            && TopAfter(cal, v % |cal|, Top(a, width), width, realign) == Top(ShiftAfter(v, a, w, |cal|, realign), width)
  {
    OneStepMinimum(cal, width, v, a);
    var c := Chosen(cal, v % |cal|, Top(a, width), width);
    var e := cal[c].entry;
    EntryFacts(cal, width, c, e);
    VirtualAtLeast(e.priority, v, width);
    TopPlus(a, FirstHit(cal, v % |cal|, Top(a, width), width, 0), width);
  }

  /** The virtual bucket whose edge a cursor compares heads against. */
  function Looks(top: real, width: real): int
    requires width > 0.0
  {
    Virtual(top, width) - 1
  }

  lemma LooksAtTop(a: int, width: real)
    requires width > 0.0
    ensures Looks(Top(a, width), width) == a
  {
    VirtualAtLeast(Top(a, width), a + 1, width);
    VirtualAtLeast(Top(a, width), a + 2, width);
    EdgeSum(a + 1, 1, width);
  }

  ghost predicate Distinct<P(!new)>(items: multiset<Entry<P>>) {
    forall x, y :: x in items && y in items - multiset{x} ==> x.priority != y.priority
  }

  function Prios<P(!new)>(s: seq<Entry<P>>): (r: seq<real>)
    ensures |r| == |s| && forall i :: 0 <= i < |s| ==> r[i] == s[i].priority
  {
    seq(|s|, i requires 0 <= i < |s| => s[i].priority)
  }

  /** In an ascending sample of a queue of distinct priorities no priority repeats. */
  lemma DistinctSample<P(!new)>(sample: seq<Entry<P>>, items: multiset<Entry<P>>, i: nat)
    requires Distinct(items) && multiset(sample) <= items && 1 <= i < |sample|
    ensures sample[i - 1].priority != sample[i].priority
  {
    var x, y := sample[i - 1], sample[i];
    assert sample == sample[..i - 1] + [x, y] + sample[i + 1..];
    assert multiset(sample) == multiset(sample[..i - 1]) + multiset{x, y} + multiset(sample[i + 1..]);
    assert x in items && y in items - multiset{x};
  }
}
