/** Whole runs of the calendar queue: order, conservation and cost over every sequence of
    puts and gets from an initialised queue, through any number of resizes. */
module QueueRuns {
  import opened Calendar
  import opened QueueModel
  import W = Width

  // ---------- One operation ----------

  /** The queue is well formed and its cursor stands somewhere. */
  ghost predicate Stands<P(!new)>(s: State<P>) {
    Good(s) && s.geo.cwidth > 0.0 && |s.cal| > 0 && Standing(s)
  }

  ghost predicate StateInStep<P(!new)>(s: State<P>) {
    Good(s) && s.geo.cwidth > 0.0 && |s.cal| > 0 && InStep(s)
  }

  lemma InStepIsSound<P(!new)>(s: State<P>)
    requires StateInStep(s)
    ensures Stands(s) && Sound(s)
  {
    GoodFacts(s);
    AlignedIsSound(s);
  }

  /** Every put leaves the cursor standing, a sound cursor sound, and a queue in step in step, in the
      code as written too; a cursor that no resize sets stays where it was. */
  lemma PutStands<P(!new)>(s: State<P>, e: Entry<P>, realign: bool)
    requires Stands(s) && e.priority >= s.at.lastprio
    ensures Stands(Put(s, e, realign).state) && (InStep(s) ==> StateInStep(Put(s, e, realign).state))
    ensures Sound(s) ==> Sound(Put(s, e, realign).state)
  {
    StoredGood(s, e);
    PutAdds(s, e, realign);
    var t := Stored(s, e);
    assert Stands(t) && (InStep(s) ==> InStep(t));
    if Doubles(t.geo, t.qsize, |t.cal|) {
      DoubleIsSize(|t.cal|);
      ResizedCursor(t, 2 * |t.cal|, realign);
      ResizedStands(t, 2 * |t.cal|, realign);
      if Resized(t, 2 * |t.cal|, realign).ok && t.geo.resizeEnabled {
        InStepIsSound(Resized(t, 2 * |t.cal|, realign).state);
      }
    }
  }

  /** A resize that goes through sets the cursor; one that is off, or finds no usable width,
      leaves it as it was. Sampling never moves it in the end. */
  lemma ResizedCursor<P(!new)>(s: State<P>, newsize: nat, realign: bool)
    requires Good(s) && IsSize(newsize)
    ensures var o := Resized(s, newsize, realign);
            && o.state.geo.cwidth > 0.0 && |o.state.cal| > 0
            && (s.geo.resizeEnabled && o.ok ==> Aligned(o.state))
            && (s.geo.resizeEnabled && o.ok ==> |o.state.cal| == newsize)
            && (!s.geo.resizeEnabled || !o.ok ==> (o.state.at, o.state.geo, |o.state.cal|) == (s.at, s.geo, |s.cal|))
  {
    GoodFacts(s);
    ResampledKeeps(s, realign);
    if WidthOk(s, realign) {
      MovedKeeps(Resampled(s, realign), newsize, NewWidth(s, realign));
    }
  }

  lemma ResizedStands<P(!new)>(s: State<P>, newsize: nat, realign: bool)
    requires Stands(s) && IsSize(newsize)
    ensures var o := Resized(s, newsize, realign);
            && Stands(o.state) && (InStep(s) ==> StateInStep(o.state))
            && (s.geo.resizeEnabled && o.ok ==> StateInStep(o.state))
  {
    ResizedCursor(s, newsize, realign);
    ResizedKeeps(s, newsize, realign);
    var t := Resized(s, newsize, realign).state;
    GoodFacts(t);
    if s.geo.resizeEnabled && Resized(s, newsize, realign).ok {
      AlignedIsSound(t);
    }
  }

  /** The dequeue halves the calendar. */
  ghost predicate DeqResizes<P(!new)>(s: State<P>)
    requires CanServe(s)
  {
    s.geo.resizeEnabled && Halves(s.geo, s.qsize - 1)
  }

  /** Where the edge stands after a dequeue that does not resize. */
  ghost function EdgeAfter<P(!new)>(s: State<P>, realign: bool): int
    requires CanServe(s) && s.geo.cwidth > 0.0
  {
    ShiftAfter(Virtual(s.at.lastprio, s.geo.cwidth), LooksAt(s), Virtual(Served(s).priority, s.geo.cwidth), |s.cal|, realign)
  }

  /** A dequeue that serves a minimum leaves the cursor standing, whether or not it was sound. */
  lemma MinimumStands<P(!new)>(s: State<P>, realign: bool)
    requires CanServe(s) && Stands(s) && IsMinimum(Served(s), Items(s))
    ensures Stands(Deq(s, realign).state) && s.at.lastprio <= Served(s).priority
  {
    ServeStands(s, realign);
    ServeGood(s, realign);
    var t := AfterServe(s, realign);
    if Halves(t.geo, t.qsize) {
      HalfIsSize(|t.cal|);
      ResizedStands(t, |t.cal| / 2, realign);
    }
  }

  /** A dequeue from a sound cursor serves a minimum of everything queued, and leaves the cursor
      standing: aligned where it resizes, else with the edge moved as ShiftAfter says. */
  lemma DeqStands<P(!new)>(s: State<P>, realign: bool)
    requires CanServe(s) && Stands(s) && Sound(s)
    ensures IsMinimum(Served(s), Items(s)) && s.at.lastprio <= Served(s).priority
    ensures var o := Deq(s, realign);
            && Stands(o.state)
            && (DeqResizes(s) && o.ok ==> StateInStep(o.state))
            && ((DeqResizes(s) && o.ok) || LooksAt(o.state) == EdgeAfter(s, realign))
  {
    ServesMinimum(s);
    ServeMoves(s, realign);
    ServeGood(s, realign);
    DeqRemoves(s, realign);
    var t := AfterServe(s, realign);
    if Halves(t.geo, t.qsize) {
      HalfIsSize(|t.cal|);
      ResizedCursor(t, |t.cal| / 2, realign);
      ResizedStands(t, |t.cal| / 2, realign);
    }
  }

  /** The cursor of a dequeue in step stays in step exactly when the direct search realigns, or the
      minimum was at most one year ahead, or a resize set the cursor afresh. */
  lemma DeqInStep<P(!new)>(s: State<P>, realign: bool)
    requires CanServe(s) && StateInStep(s)
    ensures StateInStep(Deq(s, realign).state) <==> realign || YearNear(s) || (DeqResizes(s) && Deq(s, realign).ok)
  {
    InStepIsSound(s);
    DeqStands(s, realign);
    StaysInStepIff(s, realign);
    var t := AfterServe(s, realign);
    ServeGood(s, realign);
    if Halves(t.geo, t.qsize) {
      HalfIsSize(|t.cal|);
      ResizedCursor(t, |t.cal| / 2, realign);
    }
  }

  lemma DistinctPart<P(!new)>(a: multiset<Entry<P>>, b: multiset<Entry<P>>)
    requires a <= b && Distinct(b)
    ensures Distinct(a)
  {
    forall x, y | x in a && y in a - multiset{x} ensures x.priority != y.priority {
      assert x in b && y in b - multiset{x};
    }
  }

  /** Where the sampling is steady, distinct priorities always give a usable width. */
  lemma ResizeOk<P(!new)>(s: State<P>, newsize: nat, realign: bool)
    requires Stands(s) && IsSize(newsize) && Distinct(Items(s)) && SteadySample(s, realign)
    ensures Resized(s, newsize, realign).ok
  {
    DistinctWidthOk(s, realign);
  }

  /** The resize that this put or dequeue causes, if any, samples steadily. */
  ghost predicate SteadyPut<P(!new)>(s: State<P>, e: Entry<P>, realign: bool)
    requires Good(s) && e.priority >= 0.0
  {
    StoredGood(s, e);
    Doubles(s.geo, s.qsize + 1, |s.cal|) ==> SteadySample(Stored(s, e), realign)
  }

  ghost predicate SteadyDeq<P(!new)>(s: State<P>, realign: bool)
    requires Good(s)
  {
    s.qsize > 0 && Halves(s.geo, s.qsize - 1) ==>
      (GoodFacts(s); ServeGood(s, realign); SteadySample(AfterServe(s, realign), realign))
  }

  lemma PutOk<P(!new)>(s: State<P>, e: Entry<P>, realign: bool)
    requires Stands(s) && e.priority >= s.at.lastprio
    requires Distinct(Items(s) + multiset{e}) && SteadyPut(s, e, realign)
    ensures Put(s, e, realign).ok
  {
    StoredGood(s, e);
    var t := Stored(s, e);
    assert Stands(t);
    if Doubles(t.geo, t.qsize, |t.cal|) {
      DoubleIsSize(|t.cal|);
      ResizeOk(t, 2 * |t.cal|, realign);
    }
  }

  lemma DeqOk<P(!new)>(s: State<P>, realign: bool)
    requires CanServe(s) && Stands(s) && Sound(s) && Distinct(Items(s)) && SteadyDeq(s, realign)
    ensures Deq(s, realign).ok
  {
    ServeMoves(s, realign);
    ServeGood(s, realign);
    var t := AfterServe(s, realign);
    DistinctPart(Items(t), Items(s));
    if Halves(t.geo, t.qsize) {
      HalfIsSize(|t.cal|);
      ResizeOk(t, |t.cal| / 2, realign);
    }
  }

  /** In the realigning variant, once in step, every sampling is steady. */
  lemma RealignedPut<P(!new)>(s: State<P>, e: Entry<P>)
    requires StateInStep(s) && e.priority >= s.at.lastprio
    ensures SteadyPut(s, e, true)
  {
    StoredGood(s, e);
    assert InStep(Stored(s, e));
    RealignedSample(Stored(s, e));
  }

  lemma RealignedDeq<P(!new)>(s: State<P>)
    requires StateInStep(s)
    ensures SteadyDeq(s, true)
  {
    if s.qsize > 0 {
      StaysInStepIff(s, true);
      ServeGood(s, true);
      RealignedSample(AfterServe(s, true));
    }
  }

  // ---------- Runs ----------

  datatype Op<P(!new)> = PutOp(entry: Entry<P>) | GetOp

  /** A queue in the middle of a run: what was put, what was served, what the copy loops cost. */
  datatype Running<P(!new)> = Running(state: State<P>, ok: bool, put: seq<Entry<P>>, served: seq<Entry<P>>, copied: nat)

  ghost function Start<P(!new)>(): Running<P> {
    Running(LocalInit(0, 2, 1.0, 0.0, true), true, [], [], 0)
  }

  /** The nodes the copy loop of a resize re-inserts. */
  ghost function Copies<P(!new)>(resizes: bool, o: Outcome<P>): nat {
    if resizes && o.ok then o.state.qsize else 0
  }

  /** What callers owe: priorities are not negative, which the bucket number relies on. */
  ghost predicate Proper<P(!new)>(ops: seq<Op<P>>) {
    forall k :: 0 <= k < |ops| && ops[k].PutOp? ==> ops[k].entry.priority >= 0.0
  }

  ghost function Next<P(!new)>(r: Running<P>, op: Op<P>, realign: bool): Running<P>
    requires Good(r.state) && (op.PutOp? ==> op.entry.priority >= 0.0)
  {
    if !r.ok then r
    else if op.PutOp? then
      var o := Put(r.state, op.entry, realign);
      Running(o.state, o.ok, r.put + [op.entry], r.served,
              r.copied + Copies(r.state.geo.resizeEnabled && Doubles(r.state.geo, r.state.qsize + 1, |r.state.cal|), o))
    else if r.state.qsize == 0 then r
    else
      var o := Deq(r.state, realign);
      Running(o.state, o.ok, r.put, r.served + [Served(r.state)], r.copied + Copies(DeqResizes(r.state), o))
  }

  /** The queue after the first n operations. */
  ghost function Run<P(!new)>(ops: seq<Op<P>>, n: nat, realign: bool): (r: Running<P>)
    requires Proper(ops) && n <= |ops|
    ensures Good(r.state)
  {
    if n == 0 then
      LocalInitGood<P>(0, 2, 1.0, 0.0, true);
      Start()
    else
      var r := Run(ops, n - 1, realign);
      NextGood(r, ops[n - 1], realign);
      Next(r, ops[n - 1], realign)
  }

  lemma NextGood<P(!new)>(r: Running<P>, op: Op<P>, realign: bool)
    requires Good(r.state) && (op.PutOp? ==> op.entry.priority >= 0.0)
    ensures Good(Next(r, op, realign).state)
    ensures multiset(r.put) == Items(r.state) + multiset(r.served) ==>
              var t := Next(r, op, realign); multiset(t.put) == Items(t.state) + multiset(t.served)
  {
    if r.ok && op.PutOp? {
      PutAdds(r.state, op.entry, realign);
    } else if r.ok && r.state.qsize > 0 {
      DeqRemoves(r.state, realign);
    }
  }

  /** Conservation, for either version and through every resize: what was put is what is still
      queued together with what was served. */
  lemma {:induction false} RunConserves<P(!new)>(ops: seq<Op<P>>, n: nat, realign: bool)
    requires Proper(ops) && n <= |ops|
    ensures var r := Run(ops, n, realign); multiset(r.put) == Items(r.state) + multiset(r.served)
  {
    if n == 0 {
      LocalInitGood<P>(0, 2, 1.0, 0.0, true);
    } else {
      RunConserves(ops, n - 1, realign);
      NextGood(Run(ops, n - 1, realign), ops[n - 1], realign);
    }
  }

  // ---------- Order ----------

  /** No put is before the last priority served so far. */
  ghost predicate Timely<P(!new)>(ops: seq<Op<P>>, n: nat, realign: bool)
    requires Proper(ops) && n <= |ops|
  {
    n > 0 ==>
      && Timely(ops, n - 1, realign)
      && (ops[n - 1].PutOp? ==> Run(ops, n - 1, realign).state.at.lastprio <= ops[n - 1].entry.priority)
  }

  /** Every get of the run starts from a sound cursor: always so in the realigning variant. */
  ghost predicate Guided<P(!new)>(ops: seq<Op<P>>, n: nat, realign: bool)
    requires Proper(ops) && n <= |ops|
  {
    n > 0 ==>
      && Guided(ops, n - 1, realign)
      && (ops[n - 1].GetOp? ==>
            var s := Run(ops, n - 1, realign).state;
            s.qsize == 0 || (GoodFacts(s); Sound(s)))
  }

  /** Every get of the run serves a minimum. */
  ghost predicate Minimal<P(!new)>(ops: seq<Op<P>>, n: nat, realign: bool)
    requires Proper(ops) && n <= |ops|
  {
    n > 0 ==>
      && Minimal(ops, n - 1, realign)
      && (ops[n - 1].GetOp? ==> EmptyOrMinimum(Run(ops, n - 1, realign).state))
  }

  ghost predicate EmptyOrMinimum<P(!new)>(s: State<P>)
    requires Good(s)
  {
    s.qsize > 0 ==> IsMinimum(Served(s), Items(s))
  }

  lemma NextStands<P(!new)>(r: Running<P>, op: Op<P>, realign: bool)
    requires Stands(r.state)
    requires op.PutOp? ==> op.entry.priority >= 0.0 && r.state.at.lastprio <= op.entry.priority
    requires op.GetOp? ==> EmptyOrMinimum(r.state)
    ensures Stands(Next(r, op, realign).state)
  {
    NextGood(r, op, realign);
    if r.ok && op.PutOp? {
      PutStands(r.state, op.entry, realign);
    } else if r.ok && r.state.qsize > 0 {
      MinimumStands(r.state, realign);
    }
  }

  lemma StartInStep<P(!new)>()
    ensures StateInStep(Start<P>().state) && Stands(Start<P>().state)
  {
    LocalInitGood<P>(0, 2, 1.0, 0.0, true);
    InStepIsSound(Start<P>().state);
  }

  lemma {:induction false} RunStands<P(!new)>(ops: seq<Op<P>>, n: nat, realign: bool)
    requires Proper(ops) && n <= |ops| && Timely(ops, n, realign) && Minimal(ops, n, realign)
    ensures Stands(Run(ops, n, realign).state)
  {
    if n == 0 {
      StartInStep<P>();
    } else {
      RunStands(ops, n - 1, realign);
      var r := Run(ops, n - 1, realign);
      assert ops[n - 1].GetOp? ==> EmptyOrMinimum(r.state);
      NextStands(r, ops[n - 1], realign);
      assert Run(ops, n, realign) == Next(r, ops[n - 1], realign);
    }
  }

  /** From sound cursors every get of the run serves a minimum of everything queued at that moment. */
  lemma {:induction false} GuidedIsMinimal<P(!new)>(ops: seq<Op<P>>, n: nat, realign: bool)
    requires Proper(ops) && n <= |ops| && Timely(ops, n, realign) && Guided(ops, n, realign)
    ensures Minimal(ops, n, realign)
  {
    if n > 0 {
      GuidedIsMinimal(ops, n - 1, realign);
      RunStands(ops, n - 1, realign);
      var s := Run(ops, n - 1, realign).state;
      if ops[n - 1].GetOp? && s.qsize > 0 {
        ServesMinimum(s);
      }
    }
  }

  /** What that says of one get. */
  lemma EveryGetServesMinimum<P(!new)>(ops: seq<Op<P>>, k: nat, realign: bool)
    requires Proper(ops) && k < |ops| && ops[k].GetOp?
    requires Timely(ops, k, realign) && Guided(ops, k + 1, realign)
    requires Run(ops, k, realign).ok
    ensures var r, t := Run(ops, k, realign), Run(ops, k + 1, realign);
            if r.state.qsize == 0 then t == r && Items(r.state) == multiset{}
            else |t.served| == |r.served| + 1 && t.served[..|r.served|] == r.served
                 && IsMinimum(t.served[|r.served|], Items(r.state))
  {
    var r := Run(ops, k, realign);
    assert Timely(ops, k + 1, realign);
    GuidedIsMinimal(ops, k + 1, realign);
    GoodFacts(r.state);
  }

  /** After any timely run whose gets served minima, the next get is sure to serve one, whatever
      else might be queued at that cursor, if and only if the cursor is sound. */
  lemma NextGetIsSureIff<P(!new)>(ops: seq<Op<P>>, k: nat, realign: bool, x: P)
    requires Proper(ops) && k <= |ops| && Timely(ops, k, realign) && Minimal(ops, k, realign)
    ensures var s := Run(ops, k, realign).state;
            && s.geo.cwidth > 0.0
            && (Sound(s) <==> forall t: State<P> :: MayStandAt(t, s) ==> IsMinimum(Served(t), Items(t)))
  {
    RunStands(ops, k, realign);
    ServesMinimumIff(Run(ops, k, realign).state, x);
  }

  ghost predicate AscendingEntries<P(!new)>(es: seq<Entry<P>>) {
    forall i :: 1 <= i < |es| ==> es[i - 1].priority <= es[i].priority
  }

  /** What was served stays in order, and ends at the last priority served. */
  ghost predicate InOrder<P(!new)>(r: Running<P>) {
    AscendingEntries(r.served) && (r.served != [] ==> r.served[|r.served| - 1].priority == r.state.at.lastprio)
  }

  lemma AscendingGrows<P(!new)>(es: seq<Entry<P>>, e: Entry<P>)
    requires AscendingEntries(es) && (es != [] ==> es[|es| - 1].priority <= e.priority)
    ensures AscendingEntries(es + [e])
  {
  }

  lemma NextInOrder<P(!new)>(r: Running<P>, op: Op<P>, realign: bool)
    requires Stands(r.state) && InOrder(r) && (op.PutOp? ==> op.entry.priority >= 0.0)
    requires op.GetOp? ==> EmptyOrMinimum(r.state)
    ensures InOrder(Next(r, op, realign))
  {
    if r.ok && op.PutOp? {
      PutAdds(r.state, op.entry, realign);
    } else if r.ok && r.state.qsize > 0 {
      DeqRemoves(r.state, realign);
      MinimumStands(r.state, realign);
      AscendingGrows(r.served, Served(r.state));
    }
  }

  /** Over the whole run, puts in between included, priorities are served in ascending order. */
  lemma {:induction false} RunServesInOrder<P(!new)>(ops: seq<Op<P>>, n: nat, realign: bool)
    requires Proper(ops) && n <= |ops| && Timely(ops, n, realign) && Minimal(ops, n, realign)
    ensures InOrder(Run(ops, n, realign))
  {
    if n > 0 {
      RunServesInOrder(ops, n - 1, realign);
      RunStands(ops, n - 1, realign);
      NextInOrder(Run(ops, n - 1, realign), ops[n - 1], realign);
      assert Run(ops, n, realign) == Next(Run(ops, n - 1, realign), ops[n - 1], realign);
    }
  }

  ghost function Puts<P(!new)>(ops: seq<Op<P>>, n: nat): multiset<Entry<P>>
    requires n <= |ops|
  {
    if n == 0 then multiset{}
    else Puts(ops, n - 1) + if ops[n - 1].PutOp? then multiset{ops[n - 1].entry} else multiset{}
  }

  lemma NextOk<P(!new)>(r: Running<P>, op: Op<P>, puts: multiset<Entry<P>>, realign: bool)
    requires Stands(r.state) && r.ok && Items(r.state) <= puts
    requires op.PutOp? ==> op.entry.priority >= 0.0 && r.state.at.lastprio <= op.entry.priority && SteadyPut(r.state, op.entry, realign)
    requires op.GetOp? ==> (r.state.qsize == 0 || Sound(r.state)) && SteadyDeq(r.state, realign)
    requires Distinct(puts + if op.PutOp? then multiset{op.entry} else multiset{})
    ensures Next(r, op, realign).ok
  {
    if op.PutOp? {
      DistinctPart(Items(r.state) + multiset{op.entry}, puts + multiset{op.entry});
      PutOk(r.state, op.entry, realign);
    } else if r.state.qsize > 0 {
      assert puts + multiset{} == puts;
      DistinctPart(Items(r.state), puts);
      DeqOk(r.state, realign);
    }
  }

  lemma NextPuts<P(!new)>(ops: seq<Op<P>>, n: nat)
    requires 0 < n <= |ops| && Distinct(Puts(ops, n))
    ensures Distinct(Puts(ops, n - 1))
  {
    DistinctPart(Puts(ops, n - 1), Puts(ops, n));
  }

  /** Every resize of the run samples steadily. */
  ghost predicate SteadyRun<P(!new)>(ops: seq<Op<P>>, n: nat, realign: bool)
    requires Proper(ops) && n <= |ops|
  {
    n > 0 ==>
      && SteadyRun(ops, n - 1, realign)
      && var s := Run(ops, n - 1, realign).state;
         match ops[n - 1]
         case PutOp(e) => SteadyPut(s, e, realign)
         case GetOp => SteadyDeq(s, realign)
  }

  /** In either version, a timely run of distinct priorities whose gets and samplings all start
      from sound cursors never meets an unusable width. */
  lemma {:induction false} GuidedRunIsOk<P(!new)>(ops: seq<Op<P>>, n: nat, realign: bool)
    requires Proper(ops) && n <= |ops| && Timely(ops, n, realign) && Distinct(Puts(ops, n))
    requires Guided(ops, n, realign) && SteadyRun(ops, n, realign)
    ensures Run(ops, n, realign).ok && multiset(Run(ops, n, realign).put) == Puts(ops, n)
  {
    if n > 0 {
      NextPuts(ops, n);
      GuidedRunIsOk(ops, n - 1, realign);
      GuidedIsMinimal(ops, n - 1, realign);
      RunStands(ops, n - 1, realign);
      RunConserves(ops, n - 1, realign);
      NextOk(Run(ops, n - 1, realign), ops[n - 1], Puts(ops, n - 1), realign);
    }
  }

  /** Such a run goes through, loses nothing, and serves in ascending order. */
  lemma GuidedRun<P(!new)>(ops: seq<Op<P>>, realign: bool)
    requires Proper(ops) && Timely(ops, |ops|, realign) && Distinct(Puts(ops, |ops|))
    requires Guided(ops, |ops|, realign) && SteadyRun(ops, |ops|, realign)
    ensures var r := Run(ops, |ops|, realign);
            r.ok && AscendingEntries(r.served) && Puts(ops, |ops|) == Items(r.state) + multiset(r.served)
  {
    GuidedRunIsOk(ops, |ops|, realign);
    GuidedIsMinimal(ops, |ops|, realign);
    RunServesInOrder(ops, |ops|, realign);
    RunConserves(ops, |ops|, realign);
  }

  lemma NextInStep<P(!new)>(r: Running<P>, op: Op<P>)
    requires StateInStep(r.state)
    requires op.PutOp? ==> op.entry.priority >= 0.0 && r.state.at.lastprio <= op.entry.priority
    ensures StateInStep(Next(r, op, true).state)
  {
    InStepIsSound(r.state);
    if r.ok && op.PutOp? {
      PutStands(r.state, op.entry, true);
    } else if r.ok && r.state.qsize > 0 {
      DeqInStep(r.state, true);
    }
  }

  /** The realigning variant is always in step, so that its gets and samplings are always guided. */
  lemma {:induction false} RealignedIsGuided<P(!new)>(ops: seq<Op<P>>, n: nat)
    requires Proper(ops) && n <= |ops| && Timely(ops, n, true)
    ensures Guided(ops, n, true) && SteadyRun(ops, n, true) && StateInStep(Run(ops, n, true).state)
  {
    if n == 0 {
      StartInStep<P>();
    } else {
      RealignedIsGuided(ops, n - 1);
      var r := Run(ops, n - 1, true);
      InStepIsSound(r.state);
      NextInStep(r, ops[n - 1]);
      match ops[n - 1]
      case PutOp(e) => RealignedPut(r.state, e);
      case GetOp => RealignedDeq(r.state);
    }
  }

  /** The realigning variant never meets an unusable width when all priorities put are distinct. */
  lemma RealignedRunIsOk<P(!new)>(ops: seq<Op<P>>, n: nat)
    requires Proper(ops) && n <= |ops| && Timely(ops, n, true) && Distinct(Puts(ops, n))
    ensures Run(ops, n, true).ok && multiset(Run(ops, n, true).put) == Puts(ops, n)
  {
    RealignedIsGuided(ops, n);
    GuidedRunIsOk(ops, n, true);
  }

  /** Whole-run ordering of the realigning variant: any run of timely puts of distinct
      priorities, and gets, goes through, loses nothing, and serves in ascending order. */
  lemma RealignedRun<P(!new)>(ops: seq<Op<P>>)
    requires Proper(ops) && Timely(ops, |ops|, true) && Distinct(Puts(ops, |ops|))
    ensures var r := Run(ops, |ops|, true);
            r.ok && AscendingEntries(r.served) && Puts(ops, |ops|) == Items(r.state) + multiset(r.served)
  {
    RealignedIsGuided(ops, |ops|);
    GuidedRun(ops, true);
  }

  // ---------- Cost ----------

  /** Three per put or get since the size last was one a resize leaves behind. */
  function Potential(qsize: int, nbuckets: int): nat {
    (if qsize > nbuckets + 1 then 3 * (qsize - nbuckets - 1) else 0)
    + (if qsize < nbuckets - 3 then 3 * (nbuckets - 3 - qsize) else 0)
  }

  ghost predicate Paid<P(!new)>(r: Running<P>, calls: nat) {
    && r.copied + Potential(r.state.qsize, |r.state.cal|) <= 3 * calls
    && r.state.geo.resizeEnabled
    && (r.ok ==> Settled(r.state))
  }

  lemma NextPaid<P(!new)>(r: Running<P>, op: Op<P>, realign: bool, calls: nat)
    requires Good(r.state) && (op.PutOp? ==> op.entry.priority >= 0.0) && Paid(r, calls)
    ensures Paid(Next(r, op, realign), calls + 1)
  {
    if r.ok && op.PutOp? {
      PutPaid(r, op.entry, realign, calls);
    } else if r.ok && r.state.qsize > 0 {
      DeqPaid(r, realign, calls);
    }
  }

  lemma PutPaid<P(!new)>(r: Running<P>, e: Entry<P>, realign: bool, calls: nat)
    requires Good(r.state) && r.ok && e.priority >= 0.0 && Paid(r, calls)
    ensures Paid(Next(r, PutOp(e), realign), calls + 1)
  {
    var s := r.state;
    PutAdds(s, e, realign);
    StoredGood(s, e);
    var t := Stored(s, e);
    if Doubles(t.geo, t.qsize, |t.cal|) {
      DoubleIsSize(|t.cal|);
      ResizedCursor(t, 2 * |t.cal|, realign);
    }
  }

  lemma DeqPaid<P(!new)>(r: Running<P>, realign: bool, calls: nat)
    requires CanServe(r.state) && r.ok && Paid(r, calls)
    ensures Paid(Next(r, GetOp, realign), calls + 1)
  {
    var s := r.state;
    DeqRemoves(s, realign);
    ServeGood(s, realign);
    var t := AfterServe(s, realign);
    if Halves(t.geo, t.qsize) {
      HalfIsSize(|t.cal|);
      ResizedCursor(t, |t.cal| / 2, realign);
    }
  }

  lemma {:induction false} RunPaid<P(!new)>(ops: seq<Op<P>>, n: nat, realign: bool)
    requires Proper(ops) && n <= |ops|
    ensures Paid(Run(ops, n, realign), n)
  {
    if n > 0 {
      RunPaid(ops, n - 1, realign);
      NextPaid(Run(ops, n - 1, realign), ops[n - 1], realign, n - 1);
    }
  }

  /** Amortised cost of resizing: over any run the copy loops re-insert at most three nodes per call. */
  lemma CopyCost<P(!new)>(ops: seq<Op<P>>, n: nat, realign: bool)
    requires Proper(ops) && n <= |ops|
    ensures Run(ops, n, realign).copied <= 3 * n
  {
    RunPaid(ops, n, realign);
  }

  /** A put or dequeue that goes through leaves as many entries as the calendar is made for. */
  lemma PutSettled<P(!new)>(s: State<P>, e: Entry<P>, realign: bool)
    requires Good(s) && e.priority >= 0.0 && Settled(s) && s.geo.resizeEnabled
    ensures Put(s, e, realign).ok ==> Settled(Put(s, e, realign).state)
  {
    PutPaid(Running(s, true, [], [], 0), e, realign, Potential(s.qsize, |s.cal|));
  }

  lemma DeqSettled<P(!new)>(s: State<P>, realign: bool)
    requires CanServe(s) && Settled(s) && s.geo.resizeEnabled
    ensures Deq(s, realign).ok ==> Settled(Deq(s, realign).state)
  {
    DeqPaid(Running(s, true, [], [], 0), realign, Potential(s.qsize, |s.cal|));
  }
}
