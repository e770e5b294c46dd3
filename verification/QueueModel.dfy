/** What each calendar-queue operation does to the queue's state, as functions on values. */
module QueueModel {
  import opened Common
  import opened Calendar
  import opened Cursors
  import W = Width

  const CALQSPACE := 65536
  const MAXNBUCKETS := 32768

  // ---------- Sizes ----------

  predicate PowerOfTwo(n: nat) {
    n == 1 || (n > 1 && n % 2 == 0 && PowerOfTwo(n / 2))
  }

  /** The numbers of buckets a calendar can have. */
  predicate IsSize(n: nat) {
    2 <= n <= MAXNBUCKETS && PowerOfTwo(n)
  }

  lemma {:induction false} PowersAreSparse(a: nat, b: nat)
    requires PowerOfTwo(a) && PowerOfTwo(b) && a < b
    ensures 2 * a <= b
  {
    if a > 1 {
      PowersAreSparse(a / 2, b / 2);
    }
  }

  function Shift(k: nat): nat {
    if k == 0 then 1 else 2 * Shift(k - 1)
  }

  lemma {:induction false} ShiftIsPower(k: nat)
    ensures PowerOfTwo(Shift(k))
  {
    if k > 0 {
      ShiftIsPower(k - 1);
    }
  }

  lemma DoubleIsSize(n: nat)
    requires IsSize(n) && n < MAXNBUCKETS
    ensures IsSize(2 * n)
  {
    assert Shift(5) == 32;
    assert Shift(10) == 1024;
    assert Shift(15) == MAXNBUCKETS;
    ShiftIsPower(15);
    PowersAreSparse(n, MAXNBUCKETS);
  }

  lemma HalfIsSize(n: nat)
    requires IsSize(n) && n > 2
    ensures IsSize(n / 2)
  {
  }

  // ---------- States ----------

  /** The fields that say which end of the array is in use and how. */
  datatype Geometry = Geometry(firstsub: nat, resizeEnabled: bool, topThreshold: int, botThreshold: int, cwidth: real)

  /** The fields a dequeue moves. */
  datatype Cursor = Cursor(lastbucket: nat, lastprio: real, buckettop: real)

  datatype State<P(!new)> = State(cal: seq<List<P>>, qsize: nat, at: Cursor, geo: Geometry)

  ghost predicate Good<P(!new)>(s: State<P>) {
    && IsSize(|s.cal|)
    && (s.geo.firstsub == 0 || s.geo.firstsub == CALQSPACE - |s.cal|)
    && s.geo.botThreshold == |s.cal| / 2 - 2
    && s.geo.topThreshold == 2 * |s.cal|
    && Meaning(s.cal, s.geo.cwidth).Some?
    && s.qsize == Count(s.cal, |s.cal|)
    && s.at.lastbucket < |s.cal|
    && s.at.lastprio >= 0.0
  }

  /** The entries queued. */
  ghost function Items<P(!new)>(s: State<P>): multiset<Entry<P>> {
    All(s.cal)
  }

  /** The cursor stands where the last priority served puts it. */
  ghost predicate Aligned<P(!new)>(s: State<P>)
    requires s.geo.cwidth > 0.0 && |s.cal| > 0
  {
    && s.at.lastbucket == Virtual(s.at.lastprio, s.geo.cwidth) % |s.cal|
    && s.at.buckettop == Top(Virtual(s.at.lastprio, s.geo.cwidth), s.geo.cwidth)
  }

  /** The cursor is aligned, and nothing stored is before the last priority served. */
  ghost predicate InStep<P(!new)>(s: State<P>)
    requires s.geo.cwidth > 0.0 && |s.cal| > 0
  {
    Aligned(s) && AtLeast(Items(s), s.at.lastprio)
  }

  /** The virtual bucket whose edge the cursor compares heads against. */
  ghost function LooksAt<P(!new)>(s: State<P>): int
    requires s.geo.cwidth > 0.0
  {
    Looks(s.at.buckettop, s.geo.cwidth)
  }

  /** The cursor stands in the bucket of the last priority served, with the edge of any virtual
      bucket, and nothing stored is before that priority. */
  ghost predicate Standing<P(!new)>(s: State<P>)
    requires s.geo.cwidth > 0.0 && |s.cal| > 0
  {
    && s.at.lastbucket == Virtual(s.at.lastprio, s.geo.cwidth) % |s.cal|
    && s.at.buckettop == Top(LooksAt(s), s.geo.cwidth)
    && AtLeast(Items(s), s.at.lastprio)
  }

  /** The cursor alone says whether the next dequeue is sure to serve a minimum (see ServesMinimumIff). */
  ghost predicate Sound<P(!new)>(s: State<P>)
    requires s.geo.cwidth > 0.0
  {
    SoundShift(Virtual(s.at.lastprio, s.geo.cwidth), LooksAt(s), |s.cal|)
  }

  lemma AlignedIsSound<P(!new)>(s: State<P>)
    requires s.geo.cwidth > 0.0 && |s.cal| >= 2 && Aligned(s)
    ensures Sound(s) && LooksAt(s) == Virtual(s.at.lastprio, s.geo.cwidth)
    ensures InStep(s) <==> Standing(s)
  {
    LooksAtTop(Virtual(s.at.lastprio, s.geo.cwidth), s.geo.cwidth);
  }

  lemma GoodFacts<P(!new)>(s: State<P>)
    requires Good(s)
    ensures |s.cal| >= 2 && s.geo.cwidth > 0.0 && Shelved(s.cal, s.geo.cwidth) && s.qsize == |Items(s)|
    ensures Meaning(s.cal, s.geo.cwidth) == Some(Items(s))
    ensures s.qsize > 0 ==> Items(s) != multiset{}
  {
    MeaningIsAll(s.cal, s.geo.cwidth);
    CountIsSize(s.cal, |s.cal|);
  }

  // ---------- localinit ----------

  ghost function LocalInit<P(!new)>(qbase: nat, nbucks: nat, bwidth: real, startprio: real, enabled: bool): State<P>
    requires nbucks > 0 && bwidth > 0.0
  {
    var n := Virtual(startprio, bwidth);
    State(Empty(nbucks), 0, Cursor(n % nbucks, startprio, Top(n, bwidth)),
          Geometry(qbase, enabled, 2 * nbucks, nbucks / 2 - 2, bwidth))
  }

  lemma LocalInitGood<P(!new)>(qbase: nat, nbucks: nat, bwidth: real, startprio: real, enabled: bool)
    requires IsSize(nbucks) && bwidth > 0.0 && startprio >= 0.0 && (qbase == 0 || qbase == CALQSPACE - nbucks)
    ensures var s := LocalInit<P>(qbase, nbucks, bwidth, startprio, enabled);
            Good(s) && Items(s) == multiset{} && Aligned(s)
  {
    EmptyMeaning<P>(nbucks, bwidth);
    FlattenEmpty(Empty<P>(nbucks), nbucks);
  }

  // ---------- The list parts of put and deq ----------

  ghost function Stored<P(!new)>(s: State<P>, e: Entry<P>): State<P>
    requires s.geo.cwidth > 0.0 && |s.cal| > 0
  {
    var i := Index(e.priority, s.geo.cwidth, |s.cal|);
    s.(cal := s.cal[i := Insert(s.cal[i], e)], qsize := s.qsize + 1)
  }

  lemma StoredGood<P(!new)>(s: State<P>, e: Entry<P>)
    requires Good(s) && e.priority >= 0.0
    ensures s.geo.cwidth > 0.0 && |s.cal| > 0 && Good(Stored(s, e)) && Items(Stored(s, e)) == Items(s) + multiset{e}
  {
    GoodFacts(s);
    PutInto(s.cal, s.geo.cwidth, e, Items(s));
    MeaningIsAll(Stored(s, e).cal, s.geo.cwidth);
  }

  ghost predicate CanServe<P(!new)>(s: State<P>) {
    Good(s) && s.qsize > 0
  }

  /** The bucket a dequeue stops at. */
  ghost function Target<P(!new)>(s: State<P>): (c: nat)
    requires CanServe(s)
    ensures c < |s.cal| && s.cal[c].Node? && s.geo.cwidth > 0.0
    ensures c == Chosen(s.cal, s.at.lastbucket, s.at.buckettop, s.geo.cwidth)
  {
    GoodFacts(s);
    ChosenIsNonEmpty(s.cal, s.at.lastbucket, s.at.buckettop, s.geo.cwidth);
    Chosen(s.cal, s.at.lastbucket, s.at.buckettop, s.geo.cwidth)
  }

  /** The entry a dequeue takes. */
  ghost function Served<P(!new)>(s: State<P>): Entry<P>
    requires CanServe(s)
  {
    s.cal[Target(s)].entry
  }

  /** The state it leaves behind, before any resize. */
  ghost function AfterServe<P(!new)>(s: State<P>, realign: bool): State<P>
    requires CanServe(s)
  {
    var c := Target(s);
    State(s.cal[c := s.cal[c].next], s.qsize - 1,
          Cursor(c, s.cal[c].entry.priority, TopAfter(s.cal, s.at.lastbucket, s.at.buckettop, s.geo.cwidth, realign)), s.geo)
  }

  lemma ServeGood<P(!new)>(s: State<P>, realign: bool)
    requires CanServe(s)
    ensures Good(AfterServe(s, realign)) && Items(s) == Items(AfterServe(s, realign)) + multiset{Served(s)}
    ensures Served(s).priority >= 0.0
  {
    GoodFacts(s);
    TakeFrom(s.cal, s.geo.cwidth, Target(s), Items(s));
    MeaningIsAll(AfterServe(s, realign).cal, s.geo.cwidth);
  }

  /** The minimum is at most one year ahead of the last priority served. */
  ghost predicate YearNear<P(!new)>(s: State<P>)
    requires CanServe(s)
  {
    Virtual(Served(s).priority, s.geo.cwidth) <= Virtual(s.at.lastprio, s.geo.cwidth) + |s.cal|
  }

  lemma LastYear<P(!new)>(s: State<P>)
    requires Good(s) && s.geo.cwidth > 0.0 && AtLeast(Items(s), s.at.lastprio)
    ensures Virtual(s.at.lastprio, s.geo.cwidth) >= 0
    ensures AtLeast(Items(s), Edge(Virtual(s.at.lastprio, s.geo.cwidth), s.geo.cwidth))
  {
    VirtualNonNegative(s.at.lastprio, s.geo.cwidth);
    VirtualBounds(s.at.lastprio, s.geo.cwidth);
  }

  /** A dequeue from a sound cursor serves a minimum. */
  lemma ServesMinimum<P(!new)>(s: State<P>)
    requires CanServe(s) && s.geo.cwidth > 0.0 && |s.cal| > 0 && Standing(s) && Sound(s)
    ensures IsMinimum(Served(s), Items(s)) && s.at.lastprio <= Served(s).priority
  {
    GoodFacts(s);
    LastYear(s);
    OneStepMinimum(s.cal, s.geo.cwidth, Virtual(s.at.lastprio, s.geo.cwidth), LooksAt(s));
  }

  /** A queue that might stand at the same cursor. */
  ghost predicate MayStandAt<P(!new)>(t: State<P>, s: State<P>) {
    && CanServe(t) && t.at == s.at && t.geo == s.geo && |t.cal| == |s.cal| && AtLeast(Items(t), t.at.lastprio)
  }

  /** Exactly which cursors serve a minimum: a queue that stands somewhere is sure to, whatever it
      holds, if and only if its cursor is sound. */
  lemma ServesMinimumIff<P(!new)>(s: State<P>, x: P)
    requires Good(s) && s.geo.cwidth > 0.0 && |s.cal| > 0 && Standing(s)
    ensures Sound(s) <==> forall t: State<P> :: MayStandAt(t, s) ==> IsMinimum(Served(t), Items(t))
  {
    if Sound(s) {
      forall t: State<P> | MayStandAt(t, s) ensures IsMinimum(Served(t), Items(t)) {
        ServesMinimum(t);
      }
    } else {
      var t, _, _ := Unserved(s, _ => x, _ => x);
    }
  }

  /** From a cursor that is not sound, a queue of two entries with given payloads that is served
      out of order. */
  lemma Unserved<P(!new)>(s: State<P>, f: real -> P, g: real -> P) returns (t: State<P>, x: Entry<P>, y: Entry<P>)
    requires Good(s) && s.geo.cwidth > 0.0 && |s.cal| > 0 && Standing(s) && !Sound(s)
    ensures MayStandAt(t, s) && !IsMinimum(Served(t), Items(t))
    ensures Items(t) == multiset{x, y} && x.payload == f(x.priority) && y.payload == g(y.priority)
  {
    GoodFacts(s);
    var p, w := s.at.lastprio, s.geo.cwidth;
    var v := Virtual(p, w);
    var cal;
    if LooksAt(s) == v - 1 {
      cal, x, y := OneBehindFails(|s.cal|, w, p, f, g);
    } else {
      cal, x, y := YearAheadFails(|s.cal|, w, p, LooksAt(s), f, g);
    }
    t := Holding(s, cal);
  }

  /** A queue at the same cursor that holds a given calendar. */
  lemma Holding<P(!new)>(s: State<P>, cal: seq<List<P>>) returns (t: State<P>)
    requires Good(s) && s.geo.cwidth > 0.0 && |s.cal| > 0 && MayFollow(cal, |s.cal|, s.geo.cwidth, s.at.lastprio)
    requires !TakesMinimum(cal, s.at.lastbucket, s.at.buckettop, s.geo.cwidth)
    ensures MayStandAt(t, s) && !IsMinimum(Served(t), Items(t)) && t.cal == cal
  {
    t := s.(cal := cal, qsize := Count(cal, |cal|));
    MeaningIsAll(cal, s.geo.cwidth);
    CountIsSize(cal, |cal|);
  }

  /** A dequeue that serves a minimum leaves the cursor standing, whether or not it was sound. */
  lemma ServeStands<P(!new)>(s: State<P>, realign: bool)
    requires CanServe(s) && s.geo.cwidth > 0.0 && |s.cal| > 0 && Standing(s) && IsMinimum(Served(s), Items(s))
    ensures Standing(AfterServe(s, realign)) && s.at.lastprio <= Served(s).priority
  {
    GoodFacts(s);
    ServeGood(s, realign);
    var w, c, t := s.geo.cwidth, Target(s), AfterServe(s, realign);
    EntryFacts(s.cal, w, c, Served(s));
    var k := FirstHit(s.cal, s.at.lastbucket, s.at.buckettop, w, 0);
    TopPlus(LooksAt(s), k, w);
    LooksAtTop(LooksAt(s) + k, w);
    LooksAtTop(Virtual(Served(s).priority, w), w);
  }

  /** From a sound cursor, the edge has moved as ShiftAfter says. */
  lemma ServeMoves<P(!new)>(s: State<P>, realign: bool)
    requires CanServe(s) && s.geo.cwidth > 0.0 && |s.cal| > 0 && Standing(s) && Sound(s)
    ensures Standing(AfterServe(s, realign))
    ensures LooksAt(AfterServe(s, realign)) ==
            ShiftAfter(Virtual(s.at.lastprio, s.geo.cwidth), LooksAt(s), Virtual(Served(s).priority, s.geo.cwidth), |s.cal|, realign)
  {
    GoodFacts(s);
    LastYear(s);
    ServesMinimum(s);
    ServeStands(s, realign);
    var v, w := Virtual(s.at.lastprio, s.geo.cwidth), Virtual(Served(s).priority, s.geo.cwidth);
    DequeueShift(s.cal, s.geo.cwidth, v, LooksAt(s), realign);
    LooksAtTop(ShiftAfter(v, LooksAt(s), w, |s.cal|, realign), s.geo.cwidth);
  }

  /** A dequeue in step stays in step exactly when the direct search realigns or the minimum
      is at most one year ahead; that is the one way the code as written loses the cursor. */
  lemma StaysInStepIff<P(!new)>(s: State<P>, realign: bool)
    requires CanServe(s) && s.geo.cwidth > 0.0 && |s.cal| > 0 && InStep(s)
    ensures InStep(AfterServe(s, realign)) <==> realign || YearNear(s)
  {
    GoodFacts(s);
    AlignedIsSound(s);
    LastYear(s);
    ServesMinimum(s);
    ServeMoves(s, realign);
    DequeueAlignment(s.cal, s.geo.cwidth, Virtual(s.at.lastprio, s.geo.cwidth), realign);
  }

  // ---------- new_width ----------

  /** The queue after n dequeues without resizes. */
  ghost function Drained<P(!new)>(s: State<P>, n: nat, realign: bool): (t: State<P>)
    requires Good(s) && n <= s.qsize
    ensures Good(t) && t.qsize == s.qsize - n && t.geo == s.geo && |t.cal| == |s.cal|
  {
    if n == 0 then s
    else
      var t := Drained(s, n - 1, realign);
      ServeGood(t, realign);
      AfterServe(t, realign)
  }

  /** What the n dequeues give. */
  ghost function Sampled<P(!new)>(s: State<P>, n: nat, realign: bool): (es: seq<Entry<P>>)
    requires Good(s) && n <= s.qsize
    ensures |es| == n
  {
    if n == 0 then [] else Sampled(s, n - 1, realign) + [Served(Drained(s, n - 1, realign))]
  }

  /** One more dequeue of the sampling. */
  lemma SampleGrows<P(!new)>(s: State<P>, i: nat, realign: bool)
    requires Good(s) && i < s.qsize
    ensures var t := Drained(s, i, realign);
            && CanServe(t) && t.geo == s.geo
            && Drained(s, i + 1, realign) == AfterServe(t, realign)
            && Sampled(s, i + 1, realign) == Sampled(s, i, realign) + [Served(t)]
  {
  }

  lemma {:induction false} SampledKeeps<P(!new)>(s: State<P>, n: nat, realign: bool)
    requires Good(s) && n <= s.qsize
    ensures Items(s) == Items(Drained(s, n, realign)) + multiset(Sampled(s, n, realign))
  {
    if n > 0 {
      SampledKeeps(s, n - 1, realign);
      var t := Drained(s, n - 1, realign);
      ServeGood(t, realign);
      AppendStep(Items(s), Items(t), Items(AfterServe(t, realign)), Sampled(s, n - 1, realign), Served(t));
    }
  }

  lemma AppendStep<T(!new)>(a: multiset<T>, b: multiset<T>, c: multiset<T>, es: seq<T>, e: T)
    requires a == b + multiset(es) && b == c + multiset{e}
    ensures a == c + multiset(es + [e])
  {
  }

  lemma {:induction false} SampledNonNegative<P(!new)>(s: State<P>, n: nat, realign: bool)
    requires Good(s) && n <= s.qsize
    ensures forall k :: 0 <= k < n ==> Sampled(s, n, realign)[k].priority >= 0.0
  {
    if n > 0 {
      SampledNonNegative(s, n - 1, realign);
      ServeGood(Drained(s, n - 1, realign), realign);
    }
  }

  /** Each of the next n dequeues starts from a sound cursor. */
  ghost predicate Steady<P(!new)>(s: State<P>, n: nat, realign: bool)
    requires Good(s) && n <= s.qsize && s.geo.cwidth > 0.0
  {
    n > 0 ==> Steady(s, n - 1, realign) && Sound(Drained(s, n - 1, realign))
  }

  lemma {:induction false} DrainedStands<P(!new)>(s: State<P>, n: nat, realign: bool)
    requires Good(s) && n <= s.qsize && s.geo.cwidth > 0.0 && |s.cal| > 0 && Standing(s) && Steady(s, n, realign)
    ensures Standing(Drained(s, n, realign))
  {
    if n > 0 {
      DrainedStands(s, n - 1, realign);
      ServeMoves(Drained(s, n - 1, realign), realign);
    }
  }

  /** The realigning variant, once in step, is steady. */
  lemma {:induction false} RealignedIsSteady<P(!new)>(s: State<P>, n: nat)
    requires Good(s) && n <= s.qsize && s.geo.cwidth > 0.0 && |s.cal| > 0 && InStep(s)
    ensures Steady(s, n, true) && InStep(Drained(s, n, true))
  {
    if n > 0 {
      RealignedIsSteady(s, n - 1);
      var t := Drained(s, n - 1, true);
      GoodFacts(t);
      AlignedIsSound(t);
      StaysInStepIff(t, true);
    }
  }

  lemma AscendingAppend<P(!new)>(es: seq<Entry<P>>, e: Entry<P>)
    requires W.Ascending(Prios(es)) && (es != [] ==> es[|es| - 1].priority <= e.priority)
    ensures W.Ascending(Prios(es + [e]))
  {
    var r := Prios(es + [e]);
    forall i | 1 <= i < |r| ensures r[i - 1] <= r[i] {
      if i < |es| {
        assert Prios(es)[i - 1] <= Prios(es)[i];
      }
    }
  }

  /** Dequeues from sound cursors sample in ascending order, in the code as written too. */
  lemma {:induction false} SampledAscending<P(!new)>(s: State<P>, n: nat, realign: bool)
    requires Good(s) && n <= s.qsize && s.geo.cwidth > 0.0 && |s.cal| > 0 && Standing(s) && Steady(s, n, realign)
    ensures W.Ascending(Prios(Sampled(s, n, realign)))
    ensures n > 0 ==> Drained(s, n, realign).at.lastprio == Sampled(s, n, realign)[n - 1].priority
  {
    if n > 0 {
      SampledAscending(s, n - 1, realign);
      DrainedStands(s, n - 1, realign);
      ServesMinimum(Drained(s, n - 1, realign));
      AscendingAppend(Sampled(s, n - 1, realign), Served(Drained(s, n - 1, realign)));
    }
  }

  /** The queue with the first n of the given entries put in, none of them causing a resize. */
  ghost function AllStored<P(!new)>(s: State<P>, es: seq<Entry<P>>, n: nat): (r: State<P>)
    requires s.geo.cwidth > 0.0 && |s.cal| > 0 && n <= |es|
    ensures r.at == s.at && r.geo == s.geo && |r.cal| == |s.cal|
  {
    if n == 0 then s else Stored(AllStored(s, es, n - 1), es[n - 1])
  }

  lemma {:induction false} AllStoredGood<P(!new)>(s: State<P>, es: seq<Entry<P>>, n: nat)
    requires Good(s) && s.geo.cwidth > 0.0 && |s.cal| > 0 && n <= |es|
    requires forall k :: 0 <= k < n ==> es[k].priority >= 0.0
    ensures Good(AllStored(s, es, n)) && AllStored(s, es, n).qsize == s.qsize + n
    ensures Items(AllStored(s, es, n)) == Items(s) + multiset(es[..n])
  {
    if n > 0 {
      AllStoredGood(s, es, n - 1);
      StoredGood(AllStored(s, es, n - 1), es[n - 1]);
      assert es[..n] == es[..n - 1] + [es[n - 1]];
    }
  }

  /** The queue with resizing switched off, as it is while sampling. */
  ghost function Quiet<P(!new)>(s: State<P>): (t: State<P>)
    ensures Good(s) ==> Good(t) && Items(t) == Items(s)
  {
    s.(geo := s.geo.(resizeEnabled := false))
  }

  /** What the next calendar's width is computed from. */
  ghost function Sample<P(!new)>(s: State<P>, realign: bool): (es: seq<Entry<P>>)
    requires Good(s) && s.qsize >= 2
    ensures |es| == W.SampleSize(s.qsize)
  {
    Sampled(Quiet(s), W.SampleSize(s.qsize), realign)
  }

  /** The queue after the sample was dequeued and put back, its cursor restored. */
  ghost function Resampled<P(!new)>(s: State<P>, realign: bool): State<P>
    requires Good(s)
  {
    if s.qsize < 2 then s
    else
      GoodFacts(s);
      var n := W.SampleSize(s.qsize);
      AllStored(Drained(Quiet(s), n, realign), Sampled(Quiet(s), n, realign), n).(at := s.at, geo := s.geo)
  }

  lemma GoodWithCursor<P(!new)>(s: State<P>, at: Cursor, geo: Geometry)
    requires Good(s) && at.lastbucket < |s.cal| && at.lastprio >= 0.0
    requires s.geo == geo.(resizeEnabled := false)
    ensures Good(s.(at := at, geo := geo)) && Items(s.(at := at, geo := geo)) == Items(s)
  {
  }

  lemma PutBack<P(!new)>(s: State<P>, n: nat, realign: bool)
    requires Good(s) && s.geo.cwidth > 0.0 && n <= s.qsize
    ensures var t := AllStored(Drained(s, n, realign), Sampled(s, n, realign), n);
            Good(t) && Items(t) == Items(s) && t.qsize == s.qsize
  {
    var es := Sampled(s, n, realign);
    SampledKeeps(s, n, realign);
    SampledNonNegative(s, n, realign);
    AllStoredGood(Drained(s, n, realign), es, n);
    assert es[..n] == es;
  }

  /** Sampling keeps every entry and everything but the order of ties inside the buckets. */
  lemma ResampledKeeps<P(!new)>(s: State<P>, realign: bool)
    requires Good(s)
    ensures var t := Resampled(s, realign);
            Good(t) && Items(t) == Items(s) && |t.cal| == |s.cal| && t.qsize == s.qsize && t.at == s.at && t.geo == s.geo
  {
    if s.qsize >= 2 {
      GoodFacts(s);
      var n := W.SampleSize(s.qsize);
      var q := Quiet(s);
      PutBack(q, n, realign);
      GoodWithCursor(AllStored(Drained(q, n, realign), Sampled(q, n, realign), n), s.at, s.geo);
    }
  }

  /** The sample gives a width the next calendar can work with. */
  ghost predicate WidthOk<P(!new)>(s: State<P>, realign: bool)
    requires Good(s)
  {
    s.qsize >= 2 ==> W.Usable(Prios(Sample(s, realign)))
  }

  ghost function NewWidth<P(!new)>(s: State<P>, realign: bool): (w: real)
    requires Good(s) && WidthOk(s, realign)
    ensures w > 0.0
  {
    if s.qsize < 2 then 1.0 else W.WidthOf(Prios(Sample(s, realign)))
  }

  /** Exactly when a resize finds a width, whatever the order of the sample: the gaps of twice the
      average or more must not add up to the distance from first to last. */
  lemma WidthOkIff<P(!new)>(s: State<P>, realign: bool)
    requires Good(s)
    ensures WidthOk(s, realign) <==>
            s.qsize < 2 || (var ps := Prios(Sample(s, realign)); W.SumFrom(ps, W.Limit(ps), |ps|) < ps[|ps| - 1] - ps[0])
  {
    if s.qsize >= 2 {
      W.UsableIffAny(Prios(Sample(s, realign)));
    }
  }

  lemma SampleIsDistinct<P(!new)>(s: State<P>, realign: bool)
    requires Good(s) && s.qsize >= 2 && Distinct(Items(s))
    ensures forall i :: 1 <= i < |Sample(s, realign)| ==> Sample(s, realign)[i - 1].priority != Sample(s, realign)[i].priority
  {
    SampledKeeps(Quiet(s), W.SampleSize(s.qsize), realign);
    var es := Sample(s, realign);
    forall i | 1 <= i < |es| ensures es[i - 1].priority != es[i].priority {
      DistinctSample(es, Items(s), i);
    }
  }

  /** Every dequeue of the sampling starts from a sound cursor. */
  ghost predicate SteadySample<P(!new)>(s: State<P>, realign: bool)
    requires Good(s) && s.geo.cwidth > 0.0
  {
    s.qsize >= 2 ==> Steady(Quiet(s), W.SampleSize(s.qsize), realign)
  }

  lemma RealignedSample<P(!new)>(s: State<P>)
    requires Good(s) && s.geo.cwidth > 0.0 && |s.cal| > 0 && InStep(s)
    ensures SteadySample(s, true)
  {
    if s.qsize >= 2 {
      RealignedIsSteady(Quiet(s), W.SampleSize(s.qsize));
    }
  }

  /** In either version, distinct priorities give a usable width if the sampling is steady. */
  lemma DistinctWidthOk<P(!new)>(s: State<P>, realign: bool)
    requires Good(s) && s.geo.cwidth > 0.0 && |s.cal| > 0 && Standing(s) && Distinct(Items(s))
    requires SteadySample(s, realign)
    ensures WidthOk(s, realign)
  {
    if s.qsize >= 2 {
      SampledAscending(Quiet(s), W.SampleSize(s.qsize), realign);
      SampleIsDistinct(s, realign);
      W.DistinctIsUsable(Prios(Sample(s, realign)));
    }
  }

  // ---------- resize ----------

  /** The queue with a list's entries put in, head first. */
  ghost function ListStored<P(!new)>(s: State<P>, list: List<P>): (r: State<P>)
    requires s.geo.cwidth > 0.0 && |s.cal| > 0
    ensures r.at == s.at && r.geo == s.geo && |r.cal| == |s.cal|
    decreases list
  {
    if list.Nil? then s else ListStored(Stored(s, list.entry), list.next)
  }

  lemma {:induction false} ListStoredGood<P(!new)>(s: State<P>, list: List<P>, j: nat, width: real, n: nat)
    requires Good(s) && s.geo.cwidth > 0.0 && |s.cal| > 0
    requires width > 0.0 && n > 0 && Belongs(list, j, width, n)
    ensures Good(ListStored(s, list)) && ListStored(s, list).qsize == s.qsize + Length(list)
    ensures Items(ListStored(s, list)) == Items(s) + Contents(list)
    decreases list
  {
    if list.Node? {
      StoredGood(s, list.entry);
      ListStoredGood(Stored(s, list.entry), list.next, j, width, n);
    }
  }

  /** The queue with the buckets of an old calendar put in, from the last one down to bucket i. */
  ghost function Copied<P(!new)>(s: State<P>, old_: seq<List<P>>, i: nat): (r: State<P>)
    requires s.geo.cwidth > 0.0 && |s.cal| > 0 && i <= |old_|
    ensures r.at == s.at && r.geo == s.geo && |r.cal| == |s.cal|
    decreases |old_| - i
  {
    if i == |old_| then s else ListStored(Copied(s, old_, i + 1), old_[i])
  }

  lemma CopyStep<T>(a: multiset<T>, b: multiset<T>, c: multiset<T>)
    ensures (a + b) + c == a + (c + b)
  {
  }

  lemma {:induction false} CopiedGood<P(!new)>(s: State<P>, old_: seq<List<P>>, i: nat, width: real)
    requires Good(s) && s.geo.cwidth > 0.0 && |s.cal| > 0
    requires Shelved(old_, width) && i <= |old_|
    ensures Good(Copied(s, old_, i))
    ensures Copied(s, old_, i).qsize + Count(old_, i) == s.qsize + Count(old_, |old_|)
    ensures Items(Copied(s, old_, i)) + Flatten(old_, i) == Items(s) + All(old_)
    decreases |old_| - i
  {
    if i < |old_| {
      CopiedGood(s, old_, i + 1, width);
      ListStoredGood(Copied(s, old_, i + 1), old_[i], i, width, |old_|);
      CopyStep(Items(Copied(s, old_, i + 1)), Contents(old_[i]), Flatten(old_, i));
    }
  }

  /** The end of the array the next calendar goes to. */
  function OtherEnd(firstsub: nat, newsize: nat): nat
    requires newsize <= CALQSPACE
  {
    if firstsub == 0 then CALQSPACE - newsize else 0
  }

  /** A resize, once its width is known. */
  ghost function Moved<P(!new)>(s: State<P>, newsize: nat, bwidth: real): State<P>
    requires bwidth > 0.0 && 0 < newsize <= CALQSPACE
  {
    Copied(LocalInit(OtherEnd(s.geo.firstsub, newsize), newsize, bwidth, s.at.lastprio, s.geo.resizeEnabled), s.cal, 0)
  }

  lemma CopiedAll<P(!new)>(s: State<P>, old_: seq<List<P>>, width: real)
    requires Good(s) && s.geo.cwidth > 0.0 && Items(s) == multiset{} && s.qsize == 0 && Shelved(old_, width)
    ensures |s.cal| > 0 && Good(Copied(s, old_, 0))
    ensures Items(Copied(s, old_, 0)) == All(old_) && Copied(s, old_, 0).qsize == Count(old_, |old_|)
  {
    CopiedGood(s, old_, 0, width);
    assert multiset{} + All(old_) == All(old_);
    assert Items(Copied(s, old_, 0)) + multiset{} == Items(Copied(s, old_, 0));
  }

  /** Moving to a new calendar keeps every entry and sets the cursor afresh. */
  lemma MovedKeeps<P(!new)>(s: State<P>, newsize: nat, bwidth: real)
    requires Good(s) && bwidth > 0.0 && IsSize(newsize)
    ensures var t := Moved(s, newsize, bwidth);
            && Good(t) && Items(t) == Items(s) && |t.cal| == newsize && t.geo.cwidth == bwidth
            && t.qsize == s.qsize && t.at.lastprio == s.at.lastprio && t.geo.resizeEnabled == s.geo.resizeEnabled
            && t.geo.firstsub == OtherEnd(s.geo.firstsub, newsize) && Aligned(t)
  {
    GoodFacts(s);
    var base := OtherEnd(s.geo.firstsub, newsize);
    LocalInitGood<P>(base, newsize, bwidth, s.at.lastprio, s.geo.resizeEnabled);
    CopiedAll(LocalInit<P>(base, newsize, bwidth, s.at.lastprio, s.geo.resizeEnabled), s.cal, s.geo.cwidth);
  }

  /** The outcome of an operation: not ok when a resize met a width it cannot work with, which
      is where the model stops; the queue then still holds what it should. */
  datatype Outcome<P(!new)> = Outcome(state: State<P>, ok: bool)

  ghost function Resized<P(!new)>(s: State<P>, newsize: nat, realign: bool): Outcome<P>
    requires Good(s) && 0 < newsize <= CALQSPACE
  {
    if !s.geo.resizeEnabled then Outcome(s, true)
    else
      var t := Resampled(s, realign);
      if WidthOk(s, realign) then Outcome(Moved(t, newsize, NewWidth(s, realign)), true)
      else Outcome(t, false)
  }

  lemma ResizedKeeps<P(!new)>(s: State<P>, newsize: nat, realign: bool)
    requires Good(s) && IsSize(newsize)
    ensures var t := Resized(s, newsize, realign).state;
            && Good(t) && Items(t) == Items(s) && t.qsize == s.qsize && t.at.lastprio == s.at.lastprio
            && t.geo.resizeEnabled == s.geo.resizeEnabled
  {
    ResampledKeeps(s, realign);
    if WidthOk(s, realign) {
      MovedKeeps(Resampled(s, realign), newsize, NewWidth(s, realign));
    }
  }

  /** The sample from sound cursors: the lowest entries, in ascending order. */
  lemma SampleIsLowest<P(!new)>(s: State<P>, realign: bool)
    requires Good(s) && s.qsize >= 2 && s.geo.cwidth > 0.0 && |s.cal| > 0 && Standing(s) && SteadySample(s, realign)
    ensures var es := Sample(s, realign);
            W.Ascending(Prios(es)) && AtLeast(Items(s) - multiset(es), es[|es| - 1].priority)
  {
    var q, n := Quiet(s), W.SampleSize(s.qsize);
    SampledAscending(q, n, realign);
    SampledKeeps(q, n, realign);
    DrainedStands(q, n, realign);
    TheRest(Items(s), Items(Drained(q, n, realign)), multiset(Sample(s, realign)));
  }

  lemma TheRest<T(!new)>(a: multiset<T>, b: multiset<T>, c: multiset<T>)
    requires a == b + c
    ensures a - c == b && c <= a
  {
  }

  /** The width of the next calendar: 1 for fewer than two entries; else from a sample of all of up to
      5 entries, of one more for every ten queued, of 25 at most, three times the mean of the gaps
      below twice the mean gap. From sound cursors those are the lowest entries queued. */
  lemma ResizedWidth<P(!new)>(s: State<P>, newsize: nat, realign: bool) returns (es: seq<Entry<P>>)
    requires Good(s) && s.geo.resizeEnabled && IsSize(newsize)
    ensures s.qsize < 2 ==> Resized(s, newsize, realign).ok && Resized(s, newsize, realign).state.geo.cwidth == 1.0
    ensures s.qsize >= 2 ==> |es| >= 2 && multiset(es) <= Items(s) && IsWidthOf(Resized(s, newsize, realign), Prios(es))
    ensures 2 <= s.qsize <= 5 ==> |es| == s.qsize
    ensures 6 <= s.qsize < 200 ==> 10 * (|es| - 5) <= s.qsize < 10 * (|es| - 4)
    ensures s.qsize >= 200 ==> |es| == 25
    ensures s.qsize >= 2 && s.geo.cwidth > 0.0 && |s.cal| > 0 && Standing(s) && SteadySample(s, realign) ==>
              W.Ascending(Prios(es)) && AtLeast(Items(s) - multiset(es), es[|es| - 1].priority)
  {
    es := [];
    if s.qsize < 2 {
      PlainWidth(s, newsize, realign);
    } else {
      es := Sample(s, realign);
      SampledWidth(s, newsize, realign);
      if s.geo.cwidth > 0.0 && |s.cal| > 0 && Standing(s) && SteadySample(s, realign) {
        SampleIsLowest(s, realign);
      }
    }
  }

  lemma PlainWidth<P(!new)>(s: State<P>, newsize: nat, realign: bool)
    requires Good(s) && s.geo.resizeEnabled && IsSize(newsize) && s.qsize < 2
    ensures Resized(s, newsize, realign).ok && Resized(s, newsize, realign).state.geo.cwidth == 1.0
  {
    MovedKeeps(s, newsize, 1.0);
  }

  lemma SampledWidth<P(!new)>(s: State<P>, newsize: nat, realign: bool)
    requires Good(s) && s.geo.resizeEnabled && IsSize(newsize) && s.qsize >= 2
    ensures var es := Sample(s, realign);
            multiset(es) <= Items(s) && IsWidthOf(Resized(s, newsize, realign), Prios(es))
  {
    var es := Sample(s, realign);
    var q := Quiet(s);
    SampledKeeps(q, |es|, realign);
    TheRest(Items(s), Items(Drained(q, |es|, realign)), multiset(es));
    W.WidthIsMean(Prios(es));
    if WidthOk(s, realign) {
      ResampledKeeps(s, realign);
      MovedKeeps(Resampled(s, realign), newsize, NewWidth(s, realign));
    }
  }

  /** A resize that goes through exactly if some gap is small and the small ones have a positive mean,
      and then sets the width to three times that mean. */
  ghost predicate IsWidthOf<P(!new)>(o: Outcome<P>, ps: seq<real>)
    requires |ps| >= 2
  {
    var small := W.Below(W.Gaps(ps), 2.0 * W.Mean(W.Gaps(ps)));
    && (o.ok <==> small != [] && W.Mean(small) > 0.0)
    && (o.ok ==> o.state.geo.cwidth == 3.0 * W.Mean(small))
  }

  /** The calendar's two conditions for resizing. */
  predicate Doubles(s: Geometry, qsize: int, nbuckets: int) {
    qsize > s.topThreshold && nbuckets < MAXNBUCKETS
  }

  predicate Halves(s: Geometry, qsize: int) {
    qsize < s.botThreshold
  }

  // ---------- put and deq ----------

  /** The number of queued entries a calendar of this size is made for: what a resize leaves
      behind, and every operation keeps. */
  ghost predicate Settled<P(!new)>(s: State<P>) {
    s.geo.botThreshold <= s.qsize && (s.qsize <= s.geo.topThreshold || |s.cal| == MAXNBUCKETS)
  }

  ghost function Put<P(!new)>(s: State<P>, e: Entry<P>, realign: bool): Outcome<P>
    requires Good(s) && e.priority >= 0.0
  {
    StoredGood(s, e);
    var t := Stored(s, e);
    if Doubles(t.geo, t.qsize, |t.cal|) then Resized(t, 2 * |t.cal|, realign) else Outcome(t, true)
  }

  ghost function Deq<P(!new)>(s: State<P>, realign: bool): Outcome<P>
    requires CanServe(s)
  {
    ServeGood(s, realign);
    var t := AfterServe(s, realign);
    if Halves(t.geo, t.qsize) then Resized(t, |t.cal| / 2, realign) else Outcome(t, true)
  }

  /** While resizing is off, put and deq are just their list parts. */
  lemma QuietSteps<P(!new)>(s: State<P>, e: Entry<P>, realign: bool)
    requires Good(s) && !s.geo.resizeEnabled && e.priority >= 0.0
    ensures s.geo.cwidth > 0.0 && |s.cal| > 0 && Put(s, e, realign) == Outcome(Stored(s, e), true)
    ensures s.qsize > 0 ==> Deq(s, realign) == Outcome(AfterServe(s, realign), true)
  {
  }

  /** When the number of buckets changes, and to what: it doubles when a put makes the entries more
      than two for each bucket, and halves when a dequeue leaves fewer than half the buckets less two. */
  lemma PutDoubles<P(!new)>(s: State<P>, e: Entry<P>, realign: bool)
    requires Good(s) && s.geo.resizeEnabled && e.priority >= 0.0 && Put(s, e, realign).ok
    ensures var n := |s.cal|;
            |Put(s, e, realign).state.cal| == if s.qsize + 1 > 2 * n && n < 32768 then 2 * n else n
  {
    StoredGood(s, e);
    var t := Stored(s, e);
    if Doubles(t.geo, t.qsize, |t.cal|) { DoubleIsSize(|t.cal|); ResizedSize(t, 2 * |t.cal|, realign); }
  }

  lemma DeqHalves<P(!new)>(s: State<P>, realign: bool)
    requires CanServe(s) && s.geo.resizeEnabled && Deq(s, realign).ok
    ensures var n := |s.cal|;
            |Deq(s, realign).state.cal| == if s.qsize - 1 < n / 2 - 2 then n / 2 else n
  {
    ServeGood(s, realign);
    var t := AfterServe(s, realign);
    if Halves(t.geo, t.qsize) { HalfIsSize(|t.cal|); ResizedSize(t, |t.cal| / 2, realign); }
  }

  lemma ResizedSize<P(!new)>(s: State<P>, newsize: nat, realign: bool)
    requires Good(s) && IsSize(newsize) && s.geo.resizeEnabled && Resized(s, newsize, realign).ok
    ensures |Resized(s, newsize, realign).state.cal| == newsize
  {
    ResampledKeeps(s, realign);
    MovedKeeps(Resampled(s, realign), newsize, NewWidth(s, realign));
  }

  /** A put adds its entry and nothing else, whatever resizing it causes. */
  lemma PutAdds<P(!new)>(s: State<P>, e: Entry<P>, realign: bool)
    requires Good(s) && e.priority >= 0.0
    ensures var t := Put(s, e, realign).state;
            && Good(t) && Items(t) == Items(s) + multiset{e} && t.qsize == s.qsize + 1
            && t.at.lastprio == s.at.lastprio && t.geo.resizeEnabled == s.geo.resizeEnabled
  {
    StoredGood(s, e);
    var t := Stored(s, e);
    if Doubles(t.geo, t.qsize, |t.cal|) {
      DoubleIsSize(|t.cal|);
      ResizedKeeps(t, 2 * |t.cal|, realign);
    }
  }

  /** A dequeue removes the entry it serves and nothing else. */
  lemma DeqRemoves<P(!new)>(s: State<P>, realign: bool)
    requires CanServe(s)
    ensures var t := Deq(s, realign).state;
            && Good(t) && Items(s) == Items(t) + multiset{Served(s)} && t.qsize == s.qsize - 1
            && t.at.lastprio == Served(s).priority && t.geo.resizeEnabled == s.geo.resizeEnabled
            && Served(s).priority >= 0.0
  {
    ServeGood(s, realign);
    var t := AfterServe(s, realign);
    if Halves(t.geo, t.qsize) {
      HalfIsSize(|t.cal|);
      ResizedKeeps(t, |t.cal| / 2, realign);
    }
  }
}
