/** The order of entries of equal priority: puts append, dequeues take the oldest, the copy of a
    resize keeps the order, and its sampling moves those it samples behind the others. */
module QueueTies {
  import opened Calendar
  import opened QueueModel
  import W = Width

  /** The entries of one priority, in the order in which they will be served. */
  ghost function Ties<P(!new)>(s: State<P>, p: real): seq<Entry<P>>
    requires s.geo.cwidth > 0.0 && |s.cal| > 0
  {
    WithPriority(s.cal[Index(p, s.geo.cwidth, |s.cal|)], p)
  }

  /** Those among some entries. */
  ghost function Picked<P(!new)>(es: seq<Entry<P>>, p: real): seq<Entry<P>> {
    if es == [] then []
    else Picked(es[..|es| - 1], p) + if es[|es| - 1].priority == p then [es[|es| - 1]] else []
  }

  // ---------- Lists ----------

  lemma {:induction false} InsertOthers<P(!new)>(b: List<P>, e: Entry<P>, p: real)
    requires e.priority != p
    ensures WithPriority(Insert(b, e), p) == WithPriority(b, p)
  {
    if b.Node? && b.entry.priority <= e.priority {
      InsertOthers(b.next, e, p);
    }
  }

  lemma {:induction false} ForeignBucket<P(!new)>(b: List<P>, j: nat, width: real, n: nat, p: real)
    requires width > 0.0 && n > 0 && Belongs(b, j, width, n) && Index(p, width, n) != j
    ensures WithPriority(b, p) == []
  {
    if b.Node? {
      ForeignBucket(b.next, j, width, n, p);
    }
  }

  // ---------- Put and dequeue ----------

  /** A put appends its entry to those of its priority. */
  lemma StoredTies<P(!new)>(s: State<P>, e: Entry<P>, p: real)
    requires Good(s) && e.priority >= 0.0
    ensures s.geo.cwidth > 0.0 && |s.cal| > 0
    ensures Ties(Stored(s, e), p) == Ties(s, p) + if e.priority == p then [e] else []
  {
    GoodFacts(s);
    var b := s.cal[Index(e.priority, s.geo.cwidth, |s.cal|)];
    if e.priority == p {
      InsertIsFifo(b, e);
    } else {
      InsertOthers(b, e, p);
    }
  }

  /** A dequeue takes the first of its priority, and leaves the others in order. */
  lemma ServedTies<P(!new)>(s: State<P>, realign: bool, p: real)
    requires CanServe(s)
    ensures s.geo.cwidth > 0.0 && |s.cal| > 0
    ensures Ties(s, p) == (if Served(s).priority == p then [Served(s)] else []) + Ties(AfterServe(s, realign), p)
  {
    GoodFacts(s);
    EntryFacts(s.cal, s.geo.cwidth, Target(s), Served(s));
  }

  // ---------- A resize ----------

  /** Dequeuing takes a first part of the entries of each priority. */
  lemma {:induction false} DrainedTies<P(!new)>(s: State<P>, n: nat, realign: bool, p: real)
    requires Good(s) && n <= s.qsize && s.geo.cwidth > 0.0 && |s.cal| > 0
    ensures Ties(s, p) == Picked(Sampled(s, n, realign), p) + Ties(Drained(s, n, realign), p)
  {
    if n > 0 {
      var i := n - 1;
      DrainedTies(s, i, realign, p);
      SampleGrows(s, i, realign);
      var ties, es, t := Ties(s, p), Sampled(s, i, realign), Drained(s, i, realign);
      OneMoreServed(ties, es, t, realign, p);
      assert Sampled(s, n, realign) == es + [Served(t)] && Drained(s, n, realign) == AfterServe(t, realign);
    }
  }

  lemma OneMoreServed<P(!new)>(ties: seq<Entry<P>>, es: seq<Entry<P>>, t: State<P>, realign: bool, p: real)
    requires CanServe(t) && t.geo.cwidth > 0.0 && |t.cal| > 0 && ties == Picked(es, p) + Ties(t, p)
    ensures ties == Picked(es + [Served(t)], p) + Ties(AfterServe(t, realign), p)
  {
    var e := Served(t);
    ServedTies(t, realign, p);
    PickedAppend(es, e, p);
    Regroup(ties, Picked(es, p), if e.priority == p then [e] else [], Ties(AfterServe(t, realign), p));
  }

  lemma Regroup<T>(a: seq<T>, b: seq<T>, c: seq<T>, d: seq<T>)
    requires a == b + (c + d)
    ensures a == (b + c) + d
  {
  }

  lemma PickedAppend<P(!new)>(es: seq<Entry<P>>, e: Entry<P>, p: real)
    ensures Picked(es + [e], p) == Picked(es, p) + if e.priority == p then [e] else []
  {
    assert (es + [e])[..|es|] == es;
  }

  /** Putting entries in appends those of each priority. */
  lemma {:induction false} AllStoredTies<P(!new)>(s: State<P>, es: seq<Entry<P>>, n: nat, p: real)
    requires Good(s) && s.geo.cwidth > 0.0 && |s.cal| > 0 && n <= |es|
    requires forall k :: 0 <= k < n ==> es[k].priority >= 0.0
    ensures Ties(AllStored(s, es, n), p) == Ties(s, p) + Picked(es[..n], p)
  {
    if n > 0 {
      AllStoredTies(s, es, n - 1, p);
      AllStoredGood(s, es, n - 1);
      StoredTies(AllStored(s, es, n - 1), es[n - 1], p);
      assert es[..n] == es[..n - 1] + [es[n - 1]];
      PickedAppend(es[..n - 1], es[n - 1], p);
    }
  }

  /** Sampling and putting back moves the entries sampled, of each priority, behind the others. */
  lemma PutBackTies<P(!new)>(s: State<P>, n: nat, realign: bool, p: real)
    requires Good(s) && s.geo.cwidth > 0.0 && |s.cal| > 0 && n <= s.qsize
    ensures var es := Sampled(s, n, realign);
            var k := |Picked(es, p)|;
            && k <= |Ties(s, p)| && Picked(es, p) == Ties(s, p)[..k]
            && Ties(AllStored(Drained(s, n, realign), es, n), p) == Ties(s, p)[k..] + Ties(s, p)[..k]
  {
    var es := Sampled(s, n, realign);
    DrainedTies(s, n, realign, p);
    SampledNonNegative(s, n, realign);
    AllStoredTies(Drained(s, n, realign), es, n, p);
    assert es[..n] == es;
  }

  /** How many entries of a priority a resize samples. */
  ghost function SampledTies<P(!new)>(s: State<P>, realign: bool, p: real): nat
    requires Good(s)
  {
    if s.qsize < 2 then 0 else |Picked(Sample(s, realign), p)|
  }

  lemma ResampledTies<P(!new)>(s: State<P>, realign: bool, p: real)
    requires Good(s) && s.geo.cwidth > 0.0 && |s.cal| > 0
    ensures |Resampled(s, realign).cal| == |s.cal| && Resampled(s, realign).geo == s.geo
    ensures var k := SampledTies(s, realign, p);
            k <= |Ties(s, p)| && Ties(Resampled(s, realign), p) == Ties(s, p)[k..] + Ties(s, p)[..k]
  {
    ResampledKeeps(s, realign);
    if s.qsize >= 2 {
      PutBackTies(Quiet(s), W.SampleSize(s.qsize), realign, p);
    }
  }

  lemma {:induction false} ListStoredTies<P(!new)>(s: State<P>, list: List<P>, j: nat, width: real, n: nat, p: real)
    requires Good(s) && s.geo.cwidth > 0.0 && |s.cal| > 0
    requires width > 0.0 && n > 0 && Belongs(list, j, width, n)
    ensures Ties(ListStored(s, list), p) == Ties(s, p) + WithPriority(list, p)
    decreases list
  {
    if list.Node? {
      StoredGood(s, list.entry);
      StoredTies(s, list.entry, p);
      ListStoredTies(Stored(s, list.entry), list.next, j, width, n, p);
    }
  }

  lemma {:induction false} CopiedTies<P(!new)>(s: State<P>, old_: seq<List<P>>, i: nat, width: real, p: real)
    requires Good(s) && s.geo.cwidth > 0.0 && |s.cal| > 0 && Shelved(old_, width) && i <= |old_|
    ensures var home := Index(p, width, |old_|);
            Ties(Copied(s, old_, i), p) == Ties(s, p) + if i <= home then WithPriority(old_[home], p) else []
    decreases |old_| - i
  {
    if i < |old_| {
      CopiedTies(s, old_, i + 1, width, p);
      CopiedGood(s, old_, i + 1, width);
      OneMoreCopied(Ties(s, p), Copied(s, old_, i + 1), old_, i, width, p);
    }
  }

  lemma OneMoreCopied<P(!new)>(ties: seq<Entry<P>>, t: State<P>, old_: seq<List<P>>, i: nat, width: real, p: real)
    requires Good(t) && t.geo.cwidth > 0.0 && |t.cal| > 0 && Shelved(old_, width) && i < |old_|
    requires var home := Index(p, width, |old_|);
             Ties(t, p) == ties + if i < home then WithPriority(old_[home], p) else []
    ensures var home := Index(p, width, |old_|);
            Ties(ListStored(t, old_[i]), p) == ties + if i <= home then WithPriority(old_[home], p) else []
  {
    ListStoredTies(t, old_[i], i, width, |old_|, p);
    if Index(p, width, |old_|) != i {
      ForeignBucket(old_[i], i, width, |old_|, p);
    }
  }

  /** The copy to another calendar keeps the order of ties. */
  lemma MovedTies<P(!new)>(s: State<P>, newsize: nat, bwidth: real, p: real)
    requires Good(s) && bwidth > 0.0 && IsSize(newsize) && s.geo.cwidth > 0.0 && |s.cal| > 0
    ensures Moved(s, newsize, bwidth).geo.cwidth > 0.0 && |Moved(s, newsize, bwidth).cal| > 0
    ensures Ties(Moved(s, newsize, bwidth), p) == Ties(s, p)
  {
    GoodFacts(s);
    MovedKeeps(s, newsize, bwidth);
    var base := OtherEnd(s.geo.firstsub, newsize);
    LocalInitGood<P>(base, newsize, bwidth, s.at.lastprio, s.geo.resizeEnabled);
    CopiedTies(LocalInit<P>(base, newsize, bwidth, s.at.lastprio, s.geo.resizeEnabled), s.cal, 0, s.geo.cwidth, p);
  }

  /** What a resize makes of the order of ties: those that were sampled come behind those that were
      not, and inside these two groups the order stays. */
  lemma ResizedTies<P(!new)>(s: State<P>, newsize: nat, realign: bool, p: real)
    requires Good(s) && s.geo.resizeEnabled && IsSize(newsize) && s.geo.cwidth > 0.0 && |s.cal| > 0
    ensures var t := Resized(s, newsize, realign).state;
            var k := SampledTies(s, realign, p);
            && t.geo.cwidth > 0.0 && |t.cal| > 0 && k <= |Ties(s, p)|
            && Ties(t, p) == Ties(s, p)[k..] + Ties(s, p)[..k]
  {
    ResampledKeeps(s, realign);
    ResampledTies(s, realign, p);
    if WidthOk(s, realign) {
      MovedTies(Resampled(s, realign), newsize, NewWidth(s, realign), p);
    }
  }

  // ---------- Which ties change their order ----------

  lemma {:induction false} NonePicked<P(!new)>(es: seq<Entry<P>>, p: real)
    requires forall i :: 0 <= i < |es| ==> es[i].priority != p
    ensures Picked(es, p) == []
  {
    if es != [] {
      NonePicked(es[..|es| - 1], p);
    }
  }

  lemma {:induction false} TieIsContained<P(!new)>(b: List<P>, p: real) returns (x: Entry<P>)
    requires WithPriority(b, p) != []
    ensures x in Contents(b) && x.priority == p
  {
    if b.entry.priority == p {
      x := b.entry;
    } else {
      x := TieIsContained(b.next, p);
    }
  }

  lemma NoTiesBelow<P(!new)>(s: State<P>, low: real, p: real)
    requires Good(s) && s.geo.cwidth > 0.0 && |s.cal| > 0 && AtLeast(Items(s), low) && p < low
    ensures Ties(s, p) == []
  {
    GoodFacts(s);
    if Ties(s, p) != [] {
      var i := Index(p, s.geo.cwidth, |s.cal|);
      var x := TieIsContained(s.cal[i], p);
      EntryFacts(s.cal, s.geo.cwidth, i, x);
    }
  }

  lemma {:induction false} AscendingLast(ps: seq<real>, i: nat, j: nat)
    requires W.Ascending(ps) && i <= j < |ps|
    ensures ps[i] <= ps[j]
  {
    if i < j { AscendingLast(ps, i, j - 1); }
  }

  /** From sound cursors a resize keeps the order of ties of every priority but the last one sampled,
      whose ties it may have sampled in part. */
  lemma OtherTiesStay<P(!new)>(s: State<P>, newsize: nat, realign: bool, p: real)
    requires Good(s) && s.geo.resizeEnabled && IsSize(newsize) && s.geo.cwidth > 0.0 && |s.cal| > 0
    requires Standing(s) && SteadySample(s, realign)
    requires s.qsize >= 2 ==> p != Sample(s, realign)[|Sample(s, realign)| - 1].priority
    ensures var t := Resized(s, newsize, realign).state;
            t.geo.cwidth > 0.0 && |t.cal| > 0 && Ties(t, p) == Ties(s, p)
  {
    ResizedTies(s, newsize, realign, p);
    if s.qsize >= 2 {
      var q, es := Quiet(s), Sample(s, realign);
      var last := es[|es| - 1].priority;
      SampledAscending(q, |es|, realign);
      if last < p {
        forall i | 0 <= i < |es| ensures es[i].priority != p { AscendingLast(Prios(es), i, |es| - 1); }
        NonePicked(es, p);
      } else {
        DrainedTies(q, |es|, realign, p);
        DrainedStands(q, |es|, realign);
        NoTiesBelow(Drained(q, |es|, realign), last, p);
      }
    }
  }
}
