/** The calendar queue itself: buckets in one end of an array, a moving cursor, and resizes
    that sample the queue by dequeuing and re-inserting its own nodes. */
module CalendarQueue {
  import opened Common
  import opened Calendar
  import opened M = QueueModel
  import W = Width

  class CalendarQueue<P(!new)> {
    /** False for the code as written; true for the variant in which the direct search also
        recomputes buckettop, the way the cursor is set up initially. */
    const realign: bool
    const calq: array<List<P>>
    var firstsub: nat
    var nbuckets: nat
    var qsize: nat
    var lastbucket: nat
    var resizeEnabled: bool
    var topThreshold: int
    var botThreshold: int
    var lastprio: real
    var buckettop: real
    var cwidth: real
    /** The calendar: the contents of the part of the array now in use. */
    ghost var cal: seq<List<P>>

    ghost predicate Linked()
      reads this`firstsub, this`nbuckets, this`cal, calq
    {
      && calq.Length == CALQSPACE
      && firstsub + nbuckets <= CALQSPACE
      && calq[firstsub..firstsub + nbuckets] == cal
    }

    ghost function S(): State<P>
      reads this
    {
      State(cal, qsize, Cursor(lastbucket, lastprio, buckettop), Geo())
    }

    ghost function Geo(): Geometry
      reads this
    {
      Geometry(firstsub, resizeEnabled, topThreshold, botThreshold, cwidth)
    }

    /** Array slots outside the calendar in use are as before. */
    twostate predicate OutsideUntouched()
      reads this, calq
    {
      forall x :: 0 <= x < calq.Length && !(old(firstsub) <= x < old(firstsub) + old(nbuckets)) ==> calq[x] == old(calq[x])
    }

    method SetBucket(i: nat, b: List<P>)
      requires Linked() && i < nbuckets
      modifies this`cal, calq
      ensures Linked() && cal == old(cal)[i := b]
      ensures OutsideUntouched()
    {
      calq[firstsub + i] := b;
      cal := cal[i := b];
    }

    method GetBucket(i: nat) returns (b: List<P>)
      requires Linked() && i < nbuckets
      ensures b == cal[i]
    {
      assert cal[i] == calq[firstsub..firstsub + nbuckets][i];
      b := calq[firstsub + i];
    }

    // ---------- localinit ----------

    method EmptyBuckets()
      requires calq.Length == CALQSPACE && firstsub + nbuckets <= CALQSPACE
      modifies calq, this`cal
      ensures Linked() && cal == Empty<P>(nbuckets)
      ensures OutsideUntouched()
    {
      for i := 0 to nbuckets
        invariant forall x :: firstsub <= x < firstsub + i ==> calq[x] == Nil
        invariant forall x :: 0 <= x < calq.Length && !(firstsub <= x < firstsub + i) ==> calq[x] == old(calq[x])
      {
        calq[firstsub + i] := Nil;
      }
      cal := Empty(nbuckets);
    }

    method SetCursor(startprio: real)
      requires cwidth > 0.0 && nbuckets > 0 && startprio >= 0.0
      modifies this`lastprio, this`lastbucket, this`buckettop
      ensures var n := Virtual(startprio, cwidth);
              lastprio == startprio && lastbucket == n % nbuckets && buckettop == Top(n, cwidth)
    {
      lastprio := startprio;
      VirtualNonNegative(startprio, cwidth);
      var n := Virtual(startprio, cwidth);
      lastbucket := n % nbuckets;
      buckettop := (n + 1) as real * cwidth + 0.5 * cwidth;
      EdgeIsProduct(n + 1, cwidth);
    }

    method LocalInitialize(qbase: nat, nbucks: nat, bwidth: real, startprio: real)
      requires calq.Length == CALQSPACE && qbase + nbucks <= CALQSPACE
      requires nbucks > 0 && bwidth > 0.0 && startprio >= 0.0
      modifies this, calq
      ensures Linked() && S() == LocalInit<P>(qbase, nbucks, bwidth, startprio, old(resizeEnabled))
      ensures forall x :: 0 <= x < calq.Length && !(qbase <= x < qbase + nbucks) ==> calq[x] == old(calq[x])
    {
      firstsub := qbase;
      cwidth := bwidth;
      nbuckets := nbucks;
      qsize := 0;
      EmptyBuckets();
      SetCursor(startprio);
      botThreshold := nbuckets / 2 - 2;
      topThreshold := 2 * nbuckets;
    }

    // ---------- put ----------

    /** The list walk of a put: pass the nodes that are not later, splice in the new one. */
    static method Walk(list: List<P>, e: Entry<P>) returns (r: List<P>)
      ensures r == Insert(list, e)
    {
      if list.Nil? || list.entry.priority > e.priority {
        return Node(e, list);
      }
      var traverse := list;
      var passed := [];
      while traverse.next.Node? && traverse.next.entry.priority <= e.priority
        invariant traverse.Node? && traverse.entry.priority <= e.priority
        invariant Insert(list, e) == Relink(passed, Insert(traverse, e))
        decreases traverse
      {
        RelinkAppend(passed, traverse.entry, Insert(traverse.next, e));
        passed := passed + [traverse.entry];
        traverse := traverse.next;
      }
      r := Relink(passed, Node(traverse.entry, Node(e, traverse.next)));
    }

    /** The list part of a put. */
    method Store(e: Entry<P>)
      requires Linked() && cwidth > 0.0 && nbuckets > 0 && e.priority >= 0.0
      modifies this`qsize, this`cal, calq
      ensures Linked() && S() == Stored(old(S()), e)
      ensures OutsideUntouched()
    {
      VirtualNonNegative(e.priority, cwidth);
      var i := Virtual(e.priority, cwidth);
      i := i % nbuckets;
      var list := GetBucket(i);
      list := Walk(list, e);
      SetBucket(i, list);
      qsize := qsize + 1;
    }

    method Put(priority: real, payload: P) returns (ok: bool)
      requires Linked() && Good(S()) && priority >= 0.0
      requires resizeEnabled ==> qsize <= topThreshold || nbuckets == MAXNBUCKETS
      modifies this, calq
      ensures Linked() && Outcome(S(), ok) == M.Put(old(S()), Entry(priority, payload), realign)
      ensures !(old(resizeEnabled) && old(Doubles(Geo(), qsize + 1, nbuckets))) ==> OutsideUntouched()
      decreases if resizeEnabled && Doubles(Geo(), qsize + 1, nbuckets) then 1 else 0, 3
    {
      StoredGood(S(), Entry(priority, payload));
      Store(Entry(priority, payload));
      ok := true;
      if qsize > topThreshold && nbuckets < MAXNBUCKETS {
        DoubleIsSize(nbuckets);
        ok := Resize(2 * nbuckets);
      }
    }

    // ---------- deq ----------

    method HeadBefore(i: nat, top: real) returns (hit: bool)
      requires Linked() && i < nbuckets
      ensures hit <==> cal[i].Node? && cal[i].entry.priority < top
    {
      var b := GetBucket(i);
      hit := b.Node? && b.entry.priority < top;
    }

    method NextBucket(i: nat, ghost k: nat) returns (j: nat)
      requires lastbucket < nbuckets && k < nbuckets && i == Pos(lastbucket, k, nbuckets)
      ensures j == Pos(lastbucket, k + 1, nbuckets)
      ensures j == lastbucket <==> k + 1 == nbuckets
    {
      j := i + 1;
      if j == nbuckets {
        j := 0;
      }
    }

    /** One pass over the year, moving buckettop along. */
    method Scan() returns (i: nat, hit: bool)
      requires Linked() && lastbucket < nbuckets && cwidth > 0.0
      modifies this`buckettop
      ensures var k := FirstHit(cal, lastbucket, old(buckettop), cwidth, 0);
              && (hit <==> k < nbuckets)
              && (hit ==> i == Pos(lastbucket, k, nbuckets))
              && buckettop == old(buckettop) + Edge(k, cwidth)
    {
      i := lastbucket;
      hit := false;
      ghost var top := buckettop;
      ghost var k := 0;
      while true
        invariant k < nbuckets && i == Pos(lastbucket, k, nbuckets)
        invariant buckettop == top + Edge(k, cwidth)
        invariant FirstHit(cal, lastbucket, top, cwidth, 0) == FirstHit(cal, lastbucket, top, cwidth, k)
        decreases nbuckets - k
      {
        hit := HeadBefore(i, buckettop);
        if hit {
          return;
        }
        i := NextBucket(i, k);
        buckettop := buckettop + cwidth;
        EdgeSum(k, 1, cwidth);
        k := k + 1;
        if i == lastbucket {
          return;
        }
      }
    }

    /** The search for the lowest head over all buckets. */
    method DirectSearch() returns (found: int)
      requires Linked()
      ensures found == Lowest(cal, nbuckets)
    {
      found := -1;
      var lowest := 9223372036854775807.0;
      for i := 0 to nbuckets
        invariant found == Lowest(cal, i)
        invariant found >= 0 ==> lowest == cal[found].entry.priority
      {
        var b := GetBucket(i);
        if b.Node? && (found == -1 || b.entry.priority < lowest) {
          found := i;
          lowest := b.entry.priority;
        }
      }
    }

    /** The search part of a dequeue: the year's scan, then the direct search. */
    method Find() returns (i: nat, hit: bool)
      requires Linked() && CanServe(S())
      modifies this`buckettop
      ensures i == Target(old(S()))
      ensures var k := FirstHit(cal, lastbucket, old(buckettop), cwidth, 0);
              (hit <==> k < nbuckets) && buckettop == old(buckettop) + Edge(k, cwidth)
    {
      GoodFacts(S());
      ghost var c := Target(S());
      i, hit := Scan();
      if !hit {
        i := DirectSearch();
      }
    }

    /** What the realigning variant adds to a direct search. */
    method Realign()
      requires cwidth > 0.0
      modifies this`buckettop
      ensures buckettop == Top(Virtual(lastprio, cwidth), cwidth)
    {
      var n := Virtual(lastprio, cwidth);
      buckettop := (n + 1) as real * cwidth + 0.5 * cwidth;
      EdgeIsProduct(n + 1, cwidth);
    }

    /** A dequeue up to its resize. */
    method Serve() returns (e: Entry<P>)
      requires Linked() && CanServe(S())
      modifies this`lastbucket, this`lastprio, this`buckettop, this`qsize, this`cal, calq
      ensures Linked() && S() == AfterServe(old(S()), realign) && e == Served(old(S()))
      ensures OutsideUntouched()
    {
      GoodFacts(S());
      ghost var c := Target(S());
      var i, hit := Find();
      e := TakeHead(i);
      lastbucket := i;
      lastprio := e.priority;
      qsize := qsize - 1;
      if !hit && realign {
        Realign();
      }
    }

    method TakeHead(i: nat) returns (e: Entry<P>)
      requires Linked() && i < nbuckets && cal[i].Node?
      modifies this`cal, calq
      ensures Linked() && cal == old(cal)[i := old(cal)[i].next] && e == old(cal)[i].entry
      ensures OutsideUntouched()
    {
      var list := GetBucket(i);
      e := list.entry;
      SetBucket(i, list.next);
    }

    method Deq() returns (r: Option<Entry<P>>, ok: bool)
      requires Linked() && Good(S())
      modifies this, calq
      ensures Linked()
      ensures old(qsize) == 0 ==> r.None? && ok && S() == old(S())
      ensures old(qsize) > 0 ==> r == Some(Served(old(S()))) && Outcome(S(), ok) == M.Deq(old(S()), realign)
      decreases if resizeEnabled && Halves(Geo(), qsize - 1) then 1 else 0, 3
    {
      if qsize == 0 {
        return None, true;
      }
      ServeGood(S(), realign);
      var e := Serve();
      r := Some(e);
      ok := true;
      if qsize < botThreshold {
        ok := Resize(nbuckets / 2);
      }
    }

    // ---------- resize ----------

    method Resize(newsize: nat) returns (ok: bool)
      requires Linked() && Good(S()) && IsSize(newsize)
      requires resizeEnabled ==> qsize <= 2 * newsize
      modifies this, calq
      ensures Linked() && Outcome(S(), ok) == Resized(old(S()), newsize, realign)
      ensures !old(resizeEnabled) ==> unchanged(calq)
      decreases if resizeEnabled then 1 else 0, 2
    {
      if !resizeEnabled {
        return true;
      }
      ResampledKeeps(S(), realign);
      var bwidth;
      ok, bwidth := NewWidth();
      if ok {
        CopyInto(newsize, bwidth);
      }
    }

    /** Moving to a new calendar in the other end of the array. */
    method CopyInto(newsize: nat, bwidth: real)
      requires Linked() && Good(S()) && resizeEnabled && bwidth > 0.0
      requires IsSize(newsize) && qsize <= 2 * newsize
      modifies this, calq
      ensures Linked() && S() == Moved(old(S()), newsize, bwidth)
      decreases 1, 1, 1
    {
      GoodFacts(S());
      LocalInitGood<P>(OtherEnd(firstsub, newsize), newsize, bwidth, lastprio, resizeEnabled);
      ghost var oldcal, width := cal, cwidth;
      var oldbase, oldnbuckets := firstsub, nbuckets;
      LocalInitialize(if firstsub == 0 then CALQSPACE - newsize else 0, newsize, bwidth, lastprio);
      CopyBuckets(oldbase, oldnbuckets, oldcal, width);
    }

    /** The copy loop, from the old calendar's last bucket down. */
    method CopyBuckets(oldbase: nat, oldnbuckets: nat, ghost oldcal: seq<List<P>>, ghost width: real)
      requires Linked() && Good(S()) && qsize == 0 && cwidth > 0.0 && nbuckets > 0
      requires oldbase + oldnbuckets <= CALQSPACE && calq[oldbase..oldbase + oldnbuckets] == oldcal
      requires oldbase + oldnbuckets <= firstsub || firstsub + nbuckets <= oldbase
      requires Shelved(oldcal, width) && Count(oldcal, oldnbuckets) <= topThreshold
      modifies this, calq
      ensures Linked() && S() == Copied(old(S()), oldcal, 0)
      decreases 1, 1, 0
    {
      var i := oldnbuckets;
      while i > 0
        invariant 0 <= i <= oldnbuckets
        invariant Linked() && S() == Copied(old(S()), oldcal, i)
        invariant firstsub == old(firstsub) && nbuckets == old(nbuckets)
        invariant calq[oldbase..oldbase + oldnbuckets] == oldcal
      {
        CopiedGood(old(S()), oldcal, i, width);
        i := i - 1;
        CopyList(oldbase, oldnbuckets, i, oldcal, width);
      }
    }

    /** Re-inserting one old bucket. */
    method CopyList(oldbase: nat, oldnbuckets: nat, i: nat, ghost oldcal: seq<List<P>>, ghost width: real)
      requires Linked() && Good(S()) && i < oldnbuckets
      requires oldbase + oldnbuckets <= CALQSPACE && calq[oldbase..oldbase + oldnbuckets] == oldcal
      requires oldbase + oldnbuckets <= firstsub || firstsub + nbuckets <= oldbase
      requires Shelved(oldcal, width) && qsize + Length(oldcal[i]) <= topThreshold
      modifies this, calq
      ensures Linked() && cwidth > 0.0 && nbuckets > 0 && S() == ListStored(old(S()), oldcal[i])
      ensures calq[oldbase..oldbase + oldnbuckets] == oldcal
      decreases 1, 0
    {
      assert calq[oldbase + i] == oldcal[i];
      var temp := calq[oldbase + i];
      while temp.Node?
        invariant Linked() && Good(S()) && Belongs(temp, i, width, oldnbuckets)
        invariant qsize + Length(temp) <= topThreshold
        invariant cwidth > 0.0 && nbuckets > 0 && ListStored(S(), temp) == ListStored(old(S()), oldcal[i])
        invariant firstsub == old(firstsub) && nbuckets == old(nbuckets)
        invariant calq[oldbase..oldbase + oldnbuckets] == oldcal
        decreases temp
      {
        Reinsert(temp.entry, oldbase, oldbase + oldnbuckets);
        temp := temp.next;
      }
    }

    /** A put that does not resize leaves the other end of the array alone. */
    method Reinsert(e: Entry<P>, ghost lo: nat, ghost hi: nat)
      requires Linked() && Good(S()) && e.priority >= 0.0 && qsize < topThreshold
      requires lo <= hi <= CALQSPACE && (hi <= firstsub || firstsub + nbuckets <= lo)
      modifies this, calq
      ensures cwidth > 0.0 && nbuckets > 0 && Linked() && S() == Stored(old(S()), e) && Good(S())
      ensures calq[lo..hi] == old(calq[lo..hi])
      decreases 0, 4
    {
      StoredGood(S(), e);
      var _ := Put(e.priority, e.payload);
    }

    // ---------- new_width ----------

    /** The width for the next calendar, from a sample that is dequeued and put back.
        Not ok when the sample gives no usable width. */
    method NewWidth() returns (ok: bool, bwidth: real)
      requires Linked() && Good(S()) && resizeEnabled
      modifies this, calq
      ensures Linked() && S() == Resampled(old(S()), realign)
      ensures ok <==> WidthOk(old(S()), realign)
      ensures ok ==> bwidth == M.NewWidth(old(S()), realign)
      decreases 1, 0
    {
      if qsize < 2 {
        return true, 1.0;
      }
      var ps, total := SampleQueue();
      ok, bwidth := W.Compute(ps, total);
    }

    /** Dequeuing the sample, putting it back and restoring the original situation. The
        original measures the gaps while it puts the sample back; here they are returned. */
    method SampleQueue() returns (ps: seq<real>, total: real)
      requires Linked() && Good(S()) && resizeEnabled && qsize >= 2
      modifies this, calq
      ensures Linked() && S() == Resampled(old(S()), realign)
      ensures ps == Prios(Sample(old(S()), realign)) && total == W.GapSum(ps, |ps|)
      decreases 0, 7
    {
      var nsamples := W.SampleSize(qsize);
      var templastbucket, templastprio, tempbuckettop := lastbucket, lastprio, buckettop;
      resizeEnabled := false;
      assert S() == Quiet(old(S()));
      var temp;
      temp, total := TakeSample(nsamples);
      SampledNonNegative(Quiet(old(S())), nsamples, realign);
      PutBack(temp);
      Restore(templastbucket, templastprio, tempbuckettop);
      ps := Prios(temp);
    }

    method Restore(templastbucket: nat, templastprio: real, tempbuckettop: real)
      requires Linked()
      modifies this`lastbucket, this`lastprio, this`buckettop, this`resizeEnabled
      ensures S() == old(S()).(at := Cursor(templastbucket, templastprio, tempbuckettop),
                               geo := old(Geo()).(resizeEnabled := true))
      ensures Linked()
    {
      lastbucket := templastbucket;
      lastprio := templastprio;
      buckettop := tempbuckettop;
      resizeEnabled := true;
    }

    /** Dequeuing the sample and summing up its gaps. */
    method TakeSample(nsamples: nat) returns (temp: seq<Entry<P>>, total: real)
      requires Linked() && Good(S()) && !resizeEnabled && nsamples <= qsize
      modifies this, calq
      ensures Linked() && S() == Drained(old(S()), nsamples, realign)
      ensures temp == Sampled(old(S()), nsamples, realign)
      ensures total == W.GapSum(Prios(temp), nsamples)
      decreases 0, 6
    {
      temp := [];
      total := 0.0;
      for i := 0 to nsamples
        invariant Linked() && S() == Drained(old(S()), i, realign)
        invariant temp == Sampled(old(S()), i, realign)
        invariant total == W.GapSum(Prios(temp), |temp|)
      {
        SampleGrows(old(S()), i, realign);
        temp, total := SampleOne(temp, total);
      }
    }

    method SampleOne(temp: seq<Entry<P>>, total: real) returns (more: seq<Entry<P>>, sum: real)
      requires Linked() && CanServe(S()) && !resizeEnabled && total == W.GapSum(Prios(temp), |temp|)
      modifies this, calq
      ensures Linked() && S() == AfterServe(old(S()), realign) && more == temp + [Served(old(S()))]
      ensures sum == W.GapSum(Prios(more), |more|)
      decreases 0, 5
    {
      var e := QuietDeq();
      sum := AddGap(temp, e, total);
      more := temp + [e];
    }

    static method AddGap(temp: seq<Entry<P>>, e: Entry<P>, total: real) returns (sum: real)
      requires total == W.GapSum(Prios(temp), |temp|)
      ensures sum == W.GapSum(Prios(temp + [e]), |temp| + 1)
    {
      W.GapSumAppend(Prios(temp), Prios(temp + [e]));
      sum := total;
      if |temp| > 0 {
        sum := sum + (e.priority - temp[|temp| - 1].priority);
      }
    }

    /** A dequeue while resizing is off; the sample is never longer than the queue, so it finds a node. */
    method QuietDeq() returns (e: Entry<P>)
      requires Linked() && CanServe(S()) && !resizeEnabled
      modifies this, calq
      ensures Linked() && S() == AfterServe(old(S()), realign) && e == Served(old(S()))
      decreases 0, 4
    {
      ServeGood(S(), realign);
      QuietSteps(S(), Served(S()), realign);
      var r, _ := Deq();
      e := r.value;
    }

    /** A put while resizing is off. */
    method QuietPut(e: Entry<P>)
      requires Linked() && Good(S()) && !resizeEnabled && e.priority >= 0.0
      modifies this, calq
      ensures cwidth > 0.0 && nbuckets > 0 && Linked() && S() == Stored(old(S()), e) && Good(S()) && !resizeEnabled
      decreases 0, 4
    {
      QuietSteps(S(), e, realign);
      StoredGood(S(), e);
      var _ := Put(e.priority, e.payload);
    }

    /** Re-inserting the sample. */
    method PutBack(temp: seq<Entry<P>>)
      requires Linked() && Good(S()) && !resizeEnabled
      requires forall k :: 0 <= k < |temp| ==> temp[k].priority >= 0.0
      modifies this, calq
      ensures cwidth > 0.0 && nbuckets > 0 && Linked() && S() == AllStored(old(S()), temp, |temp|)
      decreases 0, 5
    {
      GoodFacts(S());
      for i := 0 to |temp|
        invariant Linked() && Good(S()) && !resizeEnabled
        invariant cwidth > 0.0 && nbuckets > 0 && S() == AllStored(old(S()), temp, i)
      {
        QuietPut(temp[i]);
      }
    }

    // ---------- The public operations ----------

    constructor (realign: bool)
      ensures Linked() && S() == LocalInit<P>(0, 2, 1.0, 0.0, true) && this.realign == realign && fresh(calq)
    {
      this.realign := realign;
      calq := new List<P>[CALQSPACE];
      resizeEnabled := false;
      firstsub, nbuckets, qsize, lastbucket := 0, 0, 0, 0;
      topThreshold, botThreshold, lastprio, buckettop, cwidth := 0, 0, 0.0, 0.0, 0.0;
      cal := [];
      new;
      LocalInitialize(0, 2, 1.0, 0.0);
      resizeEnabled := true;
    }

    method Get() returns (payload: Option<P>, ok: bool)
      requires Linked() && Good(S())
      modifies this, calq
      ensures Linked()
      ensures old(qsize) == 0 ==> payload.None? && ok && S() == old(S())
      ensures old(qsize) > 0 ==> payload == Some(Served(old(S())).payload) && Outcome(S(), ok) == M.Deq(old(S()), realign)
    {
      var r;
      r, ok := Deq();
      payload := if r.Some? then Some(r.value.payload) else None;
    }

    method IsEmpty() returns (empty: bool)
      requires Linked() && Good(S())
      ensures empty <==> Items(S()) == multiset{}
    {
      GoodFacts(S());
      empty := qsize == 0;
    }
  }
}
