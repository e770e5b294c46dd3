/** What the queue as written does to the simulation: runs of its own puts and gets in which time
    goes back, and in which the queue stops although no two events have the same time. */
module SimulationExamples {
  import opened Calendar
  import opened QueueModel
  import opened QueueRuns
  import opened TwoBuckets
  import opened QueueExamples
  import opened Events

  /** The INIT event, a START_CALL, and the END_CALL of a channel. */
  function Init(): Entry<Msg> { Entry(0.0, Msg(0, 0, INIT, 0.0, 0)) }
  function Start(t: real): Entry<Msg> { Scheduled(0, START_CALL, t, -1) }
  function End(t: real, channel: nat): Entry<Msg> { Scheduled(0, END_CALL, t, channel) }

  lemma MoreIndices()
    ensures Index(0.1, 1.0, 2) == 0 && Index(0.2, 1.0, 2) == 0 && Index(0.3, 1.0, 2) == 0 && Index(0.4, 1.0, 2) == 0
    ensures Index(9.0, 1.0, 2) == 1 && Index(10.0, 1.0, 2) == 0
  {
    assert 0.1 / 1.0 == 0.1 && 0.2 / 1.0 == 0.2 && 0.3 / 1.0 == 0.3 && 0.4 / 1.0 == 0.4;
    assert 9.0 / 1.0 == 9.0 && 10.0 / 1.0 == 10.0;
  }

  // ---------- Time goes back ----------

  /** The boot, and two arrivals that each schedule the end of their call and the next arrival; the
      last get is the third fetch. */
  const BACK: seq<Op<Msg>> := [
    PutOp(Init()), GetOp,
    PutOp(Start(3.1)), GetOp,
    PutOp(End(3.7, 0)), PutOp(Start(4.2)), GetOp,
    PutOp(End(9.0, 1)), PutOp(Start(10.0)), GetOp]

  /** A put and a get of the only entry, at the first step of the scan. */
  lemma {:induction false} OneInOneOut(ops: seq<Op<Msg>>, n: nat, e: Entry<Msg>, lp: real, served: seq<Entry<Msg>>)
    requires Reaches(ops, n, Two(true, [], [], 0, lp, 1.5), served) && n + 1 < |ops|
    requires ops[n] == PutOp(e) && ops[n + 1] == GetOp && lp <= e.priority < 1.5 && Index(e.priority, 1.0, 2) == 0
    ensures Reaches(ops, n + 2, Two(true, [], [], 0, e.priority, 1.5), served + [e])
  {
    PutGoes(ops, n, [], [], 0, lp, 1.5, served);
    assert [] + [e] == [e];
    GetGoes(ops, n + 1, [e], [], 0, lp, 1.5, served, 0, 0);
    assert [e][1..] == [];
  }

  /** The first arrival is found by the direct search, which leaves the edge behind. */
  lemma {:induction false} FirstArrival(ops: seq<Op<Msg>>, n: nat, e: Entry<Msg>, served: seq<Entry<Msg>>)
    requires Reaches(ops, n, Two(true, [], [], 0, 0.0, 1.5), served) && n + 1 < |ops|
    requires ops[n] == PutOp(e) && ops[n + 1] == GetOp && e.priority == 3.1
    ensures Reaches(ops, n + 2, Two(true, [], [], 1, 3.1, 3.5), served + [e])
  {
    Indices();
    PutGoes(ops, n, [], [], 0, 0.0, 1.5, served);
    assert [] + [e] == [e];
    GetGoes(ops, n + 1, [], [e], 0, 0.0, 1.5, served, 2, 1);
    assert [e][1..] == [];
  }

  /** So the second, at 4.2, is found before the end of the first call, at 3.7. */
  lemma {:induction false} SecondArrival(ops: seq<Op<Msg>>, n: nat, end: Entry<Msg>, start: Entry<Msg>, served: seq<Entry<Msg>>)
    requires Reaches(ops, n, Two(true, [], [], 1, 3.1, 3.5), served) && n + 2 < |ops|
    requires ops[n] == PutOp(end) && ops[n + 1] == PutOp(start) && ops[n + 2] == GetOp
    requires end.priority == 3.7 && start.priority == 4.2
    ensures Reaches(ops, n + 3, Two(true, [], [end], 0, 4.2, 4.5), served + [start])
  {
    Indices();
    PutGoes(ops, n, [], [], 1, 3.1, 3.5, served);
    assert [] + [end] == [end];
    PutGoes(ops, n + 1, [], [end], 1, 3.1, 3.5, served);
    assert [] + [start] == [start];
    GetGoes(ops, n + 2, [start], [end], 1, 3.1, 3.5, served, 1, 0);
    assert [start][1..] == [];
  }

  lemma {:induction false} ThirdPuts(ops: seq<Op<Msg>>, n: nat, first: Entry<Msg>, end: Entry<Msg>, start: Entry<Msg>, served: seq<Entry<Msg>>)
    requires Reaches(ops, n, Two(true, [], [first], 0, 4.2, 4.5), served) && n + 1 < |ops|
    requires ops[n] == PutOp(end) && ops[n + 1] == PutOp(start)
    requires first.priority == 3.7 && end.priority == 9.0 && start.priority == 10.0
    ensures Reaches(ops, n + 2, Two(true, [start], [first, end], 0, 4.2, 4.5), served)
  {
    MoreIndices();
    PutGoes(ops, n, [], [first], 0, 4.2, 4.5, served);
    assert [first] + [end] == [first, end];
    PutGoes(ops, n + 1, [], [first, end], 0, 4.2, 4.5, served);
    assert [] + [start] == [start];
  }

  lemma BackIsBooked()
    ensures Items(Two(true, [Start(10.0)], [End(3.7, 0), End(9.0, 1)], 0, 4.2, 4.5)) == Booked(0, Ledger(10.0, map[0 := 3.7, 1 := 9.0]))
  {
    var b0, b1 := Bucket([Start(10.0)]), Bucket([End(3.7, 0), End(9.0, 1)]);
    assert [End(3.7, 0), End(9.0, 1)][1..] == [End(9.0, 1)];
    assert Contents(b1) == multiset{End(3.7, 0), End(9.0, 1)} && Contents(b0) == multiset{Start(10.0)};
    assert Flatten([b0, b1], 1) == multiset{Start(10.0)};
    EndsAdd(0, map[], 0, 3.7);
    EndsAdd(0, map[0 := 3.7], 1, 9.0);
    assert map[][0 := 3.7] == map[0 := 3.7];
    assert map[0 := 3.7][1 := 9.0] == map[0 := 3.7, 1 := 9.0];
  }

  /** Ten operations of that kind. */
  ghost predicate GoesBack(ops: seq<Op<Msg>>, i: Entry<Msg>, a: Entry<Msg>, b: Entry<Msg>, c: Entry<Msg>, d: Entry<Msg>, e: Entry<Msg>) {
    && |ops| == 10 && Proper(ops)
    && ops[0] == PutOp(i) && ops[1] == GetOp && ops[2] == PutOp(a) && ops[3] == GetOp
    && ops[4] == PutOp(b) && ops[5] == PutOp(c) && ops[6] == GetOp
    && ops[7] == PutOp(d) && ops[8] == PutOp(e) && ops[9] == GetOp
    && i.priority == 0.0 && a.priority == 3.1 && b.priority == 3.7 && c.priority == 4.2 && d.priority == 9.0 && e.priority == 10.0
  }

  lemma {:induction false} BackArrives(ops: seq<Op<Msg>>, i: Entry<Msg>, a: Entry<Msg>, b: Entry<Msg>, c: Entry<Msg>, d: Entry<Msg>, e: Entry<Msg>)
    requires GoesBack(ops, i, a, b, c, d, e)
    ensures Reaches(ops, 9, Two(true, [e], [b, d], 0, 4.2, 4.5), [i, a, c])
  {
    Indices();
    Starts(ops);
    OneInOneOut(ops, 0, i, 0.0, []);
    FirstArrival(ops, 2, a, [i]);
    SecondArrival(ops, 4, b, c, [i, a]);
    ThirdPuts(ops, 7, b, d, e, [i, a, c]);
  }

  lemma {:induction false} BackServes(ops: seq<Op<Msg>>, i: Entry<Msg>, a: Entry<Msg>, b: Entry<Msg>, c: Entry<Msg>, d: Entry<Msg>, e: Entry<Msg>)
    requires GoesBack(ops, i, a, b, c, d, e)
    ensures Timely(ops, 10, false) && Run(ops, 10, false).ok && Run(ops, 10, false).served == [i, a, c, b]
    ensures Run(ops, 9, false).state == Two(true, [e], [b, d], 0, 4.2, 4.5)
  {
    BackArrives(ops, i, a, b, c, d, e);
    GetGoes(ops, 9, [e], [b, d], 0, 4.2, 4.5, [i, a, c], 1, 1);
  }

  /** With the queue as written simulated time can go back: of a cell whose calls arrive at 3.1 and
      4.2 and end at 3.7 and 9.0, the event of 4.2 is handled before that of 3.7, although every put
      is timely, no two times are equal, and the queue holds one START_CALL and the END_CALLs. */
  lemma TimeGoesBack()
    ensures Proper(BACK) && Timely(BACK, 10, false) && Run(BACK, 10, false).ok
    ensures Run(BACK, 10, false).served == [Init(), Start(3.1), Start(4.2), End(3.7, 0)]
    ensures Items(Run(BACK, 9, false).state) == Booked(0, Ledger(10.0, map[0 := 3.7, 1 := 9.0]))
  {
    BackIsBooked();
    BackServes(BACK, Init(), Start(3.1), End(3.7, 0), Start(4.2), End(9.0, 1), Start(10.0));
  }

  // ---------- The queue stops without ties ----------

  /** The boot and four arrivals, closer to each other than to the ends of their calls. */
  const STOP: seq<Op<Msg>> := [
    PutOp(Init()), GetOp,
    PutOp(Start(0.1)), GetOp,
    PutOp(End(3.1, 0)), PutOp(Start(0.2)), GetOp,
    PutOp(End(3.7, 1)), PutOp(Start(0.3)), GetOp,
    PutOp(End(3.71, 2)), PutOp(Start(0.4)), GetOp,
    PutOp(End(4.4, 3)), PutOp(Start(5.0))]

  /** An arrival: the end of the call and the next arrival are put, and that is fetched. */
  lemma {:induction false} Arrives(ops: seq<Op<Msg>>, n: nat, ends: seq<Entry<Msg>>, lp: real, end: Entry<Msg>, start: Entry<Msg>, served: seq<Entry<Msg>>)
    requires Reaches(ops, n, Two(true, [], ends, 0, lp, 1.5), served) && n + 2 < |ops| && |ends| < 3
    requires ops[n] == PutOp(end) && ops[n + 1] == PutOp(start) && ops[n + 2] == GetOp
    requires Index(end.priority, 1.0, 2) == 1 && Last(ends, end) && lp <= end.priority
    requires Index(start.priority, 1.0, 2) == 0 && lp <= start.priority < 1.5
    ensures Reaches(ops, n + 3, Two(true, [], ends + [end], 0, start.priority, 1.5), served + [start])
  {
    PutGoes(ops, n, [], ends, 0, lp, 1.5, served);
    StartComes(ops, n + 1, ends + [end], lp, start, served);
  }

  lemma {:induction false} StartComes(ops: seq<Op<Msg>>, n: nat, ends: seq<Entry<Msg>>, lp: real, start: Entry<Msg>, served: seq<Entry<Msg>>)
    requires Reaches(ops, n, Two(true, [], ends, 0, lp, 1.5), served) && n + 1 < |ops| && |ends| < 4
    requires ops[n] == PutOp(start) && ops[n + 1] == GetOp
    requires Index(start.priority, 1.0, 2) == 0 && lp <= start.priority < 1.5
    ensures Reaches(ops, n + 2, Two(true, [], ends, 0, start.priority, 1.5), served + [start])
  {
    PutGoes(ops, n, [], ends, 0, lp, 1.5, served);
    assert [] + [start] == [start];
    StartIsFetched(ops, n + 1, ends, lp, start, served);
  }

  lemma {:induction false} StartIsFetched(ops: seq<Op<Msg>>, n: nat, ends: seq<Entry<Msg>>, lp: real, start: Entry<Msg>, served: seq<Entry<Msg>>)
    requires Reaches(ops, n, Two(true, [start], ends, 0, lp, 1.5), served) && n < |ops| && ops[n] == GetOp && start.priority < 1.5
    ensures Reaches(ops, n + 1, Two(true, [], ends, 0, start.priority, 1.5), served + [start])
  {
    GetGoes(ops, n, [start], ends, 0, lp, 1.5, served, 0, 0);
    assert [start][1..] == [];
  }

  /** Fifteen operations of that kind. */
  ghost predicate GoesToStop(ops: seq<Op<Msg>>, i: Entry<Msg>, s: seq<Entry<Msg>>, e: seq<Entry<Msg>>) {
    && |ops| == 15 && Proper(ops) && |s| == 5 && |e| == 4
    && ops[0] == PutOp(i) && ops[1] == GetOp && ops[2] == PutOp(s[0]) && ops[3] == GetOp
    && ops[4] == PutOp(e[0]) && ops[5] == PutOp(s[1]) && ops[6] == GetOp
    && ops[7] == PutOp(e[1]) && ops[8] == PutOp(s[2]) && ops[9] == GetOp
    && ops[10] == PutOp(e[2]) && ops[11] == PutOp(s[3]) && ops[12] == GetOp
    && ops[13] == PutOp(e[3]) && ops[14] == PutOp(s[4])
    && i.priority == 0.0 && s[0].priority == 0.1 && s[1].priority == 0.2 && s[2].priority == 0.3 && s[3].priority == 0.4
    && Five(e[0], e[1], e[2], e[3], s[4])
  }

  lemma {:induction false} StopBoots(ops: seq<Op<Msg>>, i: Entry<Msg>, s: seq<Entry<Msg>>, e: seq<Entry<Msg>>)
    requires GoesToStop(ops, i, s, e)
    ensures Reaches(ops, 4, Two(true, [], [], 0, 0.1, 1.5), [i, s[0]])
  {
    Indices();
    MoreIndices();
    Starts(ops);
    OneInOneOut(ops, 0, i, 0.0, []);
    OneInOneOut(ops, 2, s[0], 0.0, [i]);
  }

  lemma {:induction false} StopArrives(ops: seq<Op<Msg>>, i: Entry<Msg>, s: seq<Entry<Msg>>, e: seq<Entry<Msg>>)
    requires GoesToStop(ops, i, s, e)
    ensures Reaches(ops, 10, Two(true, [], [e[0], e[1]], 0, 0.3, 1.5), [i, s[0], s[1], s[2]])
  {
    Indices();
    MoreIndices();
    StopBoots(ops, i, s, e);
    Arrives(ops, 4, [], 0.1, e[0], s[1], [i, s[0]]);
    assert [] + [e[0]] == [e[0]];
    Arrives(ops, 7, [e[0]], 0.2, e[1], s[2], [i, s[0], s[1]]);
  }

  lemma {:induction false} StopsAtLast(ops: seq<Op<Msg>>, i: Entry<Msg>, s: seq<Entry<Msg>>, e: seq<Entry<Msg>>)
    requires GoesToStop(ops, i, s, e)
    ensures Timely(ops, 15, false) && Run(ops, 14, false).ok && !Run(ops, 15, false).ok
  {
    Indices();
    MoreIndices();
    StopArrives(ops, i, s, e);
    Arrives(ops, 10, [e[0], e[1]], 0.3, e[2], s[3], [i, s[0], s[1], s[2]]);
    assert [e[0], e[1]] + [e[2]] == [e[0], e[1], e[2]];
    LastStop(ops, 13, e[0], e[1], e[2], e[3], s[4], [i, s[0], s[1], s[2], s[3]]);
  }

  lemma StopIsUntied()
    ensures forall i, j :: 0 <= i < j < 15 && STOP[i].PutOp? && STOP[j].PutOp? ==> STOP[i].entry.priority != STOP[j].entry.priority
  {
  }

  lemma {:induction false} LastStop(ops: seq<Op<Msg>>, n: nat, a: Entry<Msg>, b: Entry<Msg>, d: Entry<Msg>, e: Entry<Msg>, f: Entry<Msg>, served: seq<Entry<Msg>>)
    requires Reaches(ops, n, Two(true, [], [a, b, d], 0, 0.4, 1.5), served) && n + 1 < |ops|
    requires Five(a, b, d, e, f) && ops[n] == PutOp(e) && ops[n + 1] == PutOp(f)
    ensures Timely(ops, n + 2, false) && Run(ops, n + 1, false).ok && !Run(ops, n + 2, false).ok
  {
    Indices();
    PutGoes(ops, n, [], [a, b, d], 0, 0.4, 1.5, served);
    assert [] + [e] == [e];
    FifthPutStops(ops, n + 1, a, b, d, e, f, 0.4, served);
  }

  /** With the queue as written a run can stop without ties: the fifth event to be queued makes the
      queue resize, and its sampling gives a negative width. */
  lemma StopsWithoutTies()
    ensures Proper(STOP) && Timely(STOP, 15, false) && Run(STOP, 14, false).ok && !Run(STOP, 15, false).ok
    ensures forall i, j :: 0 <= i < j < 15 && STOP[i].PutOp? && STOP[j].PutOp? ==> STOP[i].entry.priority != STOP[j].entry.priority
  {
    StopIsUntied();
    StopsAtLast(STOP, Init(), [Start(0.1), Start(0.2), Start(0.3), Start(0.4), Start(5.0)],
                [End(3.1, 0), End(3.7, 1), End(3.71, 2), End(4.4, 3)]);
  }
}
