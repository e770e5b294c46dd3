/** The events a cell has handled and the queues they were fetched from: when simulated time does not
    go back, for the queue as written and for the realigning one; and how long calls last and how
    they follow each other. */
module Histories {
  import opened Calendar
  import opened QueueModel
  import opened QueueRuns
  import opened Agenda
  import opened Events
  import opened Noise

  /** An event a cell schedules for itself, other than INIT. */
  predicate OfCell(me: nat, e: Entry<Msg>) {
    e.payload.receiver == me && e.payload.timestamp == e.priority && (e.payload.kind == START_CALL || e.payload.kind == END_CALL)
  }

  /** A queue of one entry serves it. */
  lemma OneIsServed(s: State<Msg>, e: Entry<Msg>)
    requires Good(s) && Items(s) == multiset{e}
    ensures CanServe(s) && IsMinimum(Served(s), Items(s))
  {
    GoodFacts(s);
    ServeGood(s, false);
    assert Served(s) in Items(s);
  }

  lemma OneIsDistinct(e: Entry<Msg>)
    ensures Distinct(multiset{e})
  {
  }

  /** All of these queues were served a minimum. */
  ghost predicate Minima(fetched: seq<State<Msg>>) {
    fetched != [] ==>
      var n := |fetched| - 1;
      Minima(fetched[..n]) && CanServe(fetched[n]) && IsMinimum(Served(fetched[n]), Items(fetched[n]))
  }

  /** The events handled so far, and the queues they were fetched from: each event is the cell's own
      and what its queue serves; as long as minima were served, cursors stood and times did not go
      back. In the realigning variant the queues are in step. */
  ghost predicate Past(id: nat, realign: bool, fetched: seq<State<Msg>>, handled: seq<Entry<Msg>>) {
    && |fetched| == |handled|
    && (handled != [] ==>
          var n := |handled| - 1;
          && Past(id, realign, fetched[..n], handled[..n])
          && OfCell(id, handled[n]) && CanServe(fetched[n]) && handled[n] == Served(fetched[n])
          && (Minima(fetched[..n]) ==> Stands(fetched[n]))
          && (realign ==> StateInStep(fetched[n]))
          && (n > 0 && Minima(fetched) ==> handled[n - 1].priority <= handled[n].priority))
  }

  /** And where that leaves the queue. */
  ghost predicate Reached(realign: bool, fetched: seq<State<Msg>>, handled: seq<Entry<Msg>>, now: real, footing: nat) {
    && (handled != [] ==> handled[|handled| - 1].priority == now)
    && (Minima(fetched) ==> footing > 0)
    && (realign ==> footing == 2)
  }

  lemma PastGrows(id: nat, realign: bool, fetched: seq<State<Msg>>, handled: seq<Entry<Msg>>, s: State<Msg>, e: Entry<Msg>,
                  footing: nat, footing': nat)
    requires Past(id, realign, fetched, handled) && Reached(realign, fetched, handled, s.at.lastprio, footing)
    requires OfCell(id, e) && CanServe(s) && e == Served(s) && footing' >= Kept(footing, s) && footing' <= 2
    requires (footing > 0 ==> Stands(s)) && (realign && footing == 2 ==> StateInStep(s))
    ensures Past(id, realign, fetched + [s], handled + [e])
    ensures Reached(realign, fetched + [s], handled + [e], e.priority, footing')
  {
    var f, h := fetched + [s], handled + [e];
    assert f[..|fetched|] == fetched && h[..|handled|] == handled;
    if Minima(f) {
      MinimumStands(s, realign);
    }
  }

  lemma {:induction false} PastOfPrefix(id: nat, realign: bool, fetched: seq<State<Msg>>, handled: seq<Entry<Msg>>, n: nat)
    requires Past(id, realign, fetched, handled) && n <= |handled|
    ensures Past(id, realign, fetched[..n], handled[..n])
  {
    if n < |handled| {
      var k := |handled| - 1;
      PastOfPrefix(id, realign, fetched[..k], handled[..k], n);
      assert fetched[..k][..n] == fetched[..n] && handled[..k][..n] == handled[..n];
    } else {
      assert fetched[..n] == fetched && handled[..n] == handled;
    }
  }

  ghost predicate AllSound(fetched: seq<State<Msg>>) {
    forall i :: 0 <= i < |fetched| ==> fetched[i].geo.cwidth > 0.0 && Sound(fetched[i])
  }

  /** As long as every event is fetched from a sound cursor, minima are served and the times of the
      events do not go back, in the code as written too. */
  lemma {:induction false} SoundIsOrdered(id: nat, realign: bool, fetched: seq<State<Msg>>, handled: seq<Entry<Msg>>)
    requires Past(id, realign, fetched, handled) && AllSound(fetched)
    ensures Minima(fetched) && AscendingEntries(handled)
  {
    if handled != [] {
      var n := |handled| - 1;
      SoundIsOrdered(id, realign, fetched[..n], handled[..n]);
      ServesMinimum(fetched[n]);
      AscendingGrows(handled[..n], handled[n]);
      assert handled == handled[..n] + [handled[n]];
    }
  }

  lemma {:induction false} InStepIsAllSound(id: nat, fetched: seq<State<Msg>>, handled: seq<Entry<Msg>>)
    requires Past(id, true, fetched, handled)
    ensures AllSound(fetched)
  {
    if handled != [] {
      var n := |handled| - 1;
      InStepIsAllSound(id, fetched[..n], handled[..n]);
      InStepIsSound(fetched[n]);
      forall i | 0 <= i < |fetched| ensures fetched[i].geo.cwidth > 0.0 && Sound(fetched[i]) {
        if i < n { assert fetched[i] == fetched[..n][i]; }
      }
    }
  }

  /** Times do not go back before the first fetch from a cursor that is not sound. */
  ghost predicate OrderedWhileSound(fetched: seq<State<Msg>>, handled: seq<Entry<Msg>>) {
    forall n: nat :: n <= |fetched| && n <= |handled| && AllSound(fetched[..n]) ==> AscendingEntries(handled[..n])
  }

  /** So it is in either version; in the realigning one all cursors are sound. */
  lemma PastIsOrdered(id: nat, realign: bool, fetched: seq<State<Msg>>, handled: seq<Entry<Msg>>)
    requires Past(id, realign, fetched, handled)
    ensures OrderedWhileSound(fetched, handled) && (realign ==> AllSound(fetched) && AscendingEntries(handled))
  {
    forall n: nat | n <= |fetched| && n <= |handled| && AllSound(fetched[..n]) ensures AscendingEntries(handled[..n]) {
      PastOfPrefix(id, realign, fetched, handled, n);
      SoundIsOrdered(id, realign, fetched[..n], handled[..n]);
    }
    if realign {
      InStepIsAllSound(id, fetched, handled);
      SoundIsOrdered(id, realign, fetched, handled);
    }
  }

  /** And no other cursor will do: where the cursor is not sound, some queue with one START_CALL and
      one END_CALL is served out of order. So the next event is sure to be a next one if and only if
      the cursor is sound. */
  lemma NextFetchIsSureIff(id: nat, s: State<Msg>)
    requires Stands(s)
    ensures Sound(s) <==> forall t: State<Msg>, l: Ledger :: MayStandAt(t, s) && Items(t) == Booked(id, l) ==> IsMinimum(Served(t), Items(t))
  {
    if Sound(s) {
      forall t: State<Msg>, l: Ledger | MayStandAt(t, s) && Items(t) == Booked(id, l) ensures IsMinimum(Served(t), Items(t)) {
        ServesMinimum(t);
      }
    } else {
      var t, l := OutOfOrder(id, s);
    }
  }

  lemma OutOfOrder(id: nat, s: State<Msg>) returns (t: State<Msg>, l: Ledger)
    requires Stands(s) && !Sound(s)
    ensures MayStandAt(t, s) && Items(t) == Booked(id, l) && !IsMinimum(Served(t), Items(t))
  {
    var x, y;
    t, x, y := Unserved(s, r => Msg(id, id, START_CALL, r, -1), r => Msg(id, id, END_CALL, r, 0));
    l := Ledger(x.priority, map[0 := y.priority]);
    EndsAdd(id, map[], 0, y.priority);
    assert map[][0 := y.priority] == l.ends;
  }

  // ---------- When the events happen ----------

  /** The accounts before each of the events handled, and the one after them: from a first call
      within 20 seconds, each event was booked, and its handling made the next account. */
  ghost predicate Accounted(id: nat, ln: real -> real, ledgers: seq<Ledger>, handled: seq<Entry<Msg>>, now: Ledger) {
    && |ledgers| == |handled|
    && if handled == [] then now.ends == map[] && 0.0 < now.start < 20.0
       else
         var n := |handled| - 1;
         && Accounted(id, ln, ledgers[..n], handled[..n], ledgers[n])
         && handled[n] in Booked(id, ledgers[n]) && Handles(ledgers[n], now, handled[n].payload, ln)
  }

  lemma AccountGrows(id: nat, ln: real -> real, ledgers: seq<Ledger>, handled: seq<Entry<Msg>>, before: Ledger, after: Ledger,
                     e: Entry<Msg>)
    requires Accounted(id, ln, ledgers, handled, before) && e in Booked(id, before) && Handles(before, after, e.payload, ln)
    ensures Accounted(id, ln, ledgers + [before], handled + [e], after)
  {
    assert (ledgers + [before])[..|ledgers|] == ledgers && (handled + [e])[..|handled|] == handled;
  }

  lemma {:induction false} AccountOfPrefix(id: nat, ln: real -> real, ledgers: seq<Ledger>, handled: seq<Entry<Msg>>, now: Ledger, n: nat)
    requires Accounted(id, ln, ledgers, handled, now) && n < |handled|
    ensures Accounted(id, ln, ledgers[..n], handled[..n], ledgers[n]) && handled[n] in Booked(id, ledgers[n])
  {
    var k := |handled| - 1;
    assert Accounted(id, ln, ledgers[..k], handled[..k], ledgers[k]);
    if n < k {
      var ls, hs := ledgers[..k], handled[..k];
      AccountOfPrefix(id, ln, ls, hs, ledgers[k], n);
      assert ls[..n] == ledgers[..n] && hs[..n] == handled[..n] && ls[n] == ledgers[n] && hs[n] == handled[n];
    }
  }

  lemma BookedTimes(id: nat, l: Ledger, e: Entry<Msg>)
    requires e in Booked(id, l)
    ensures e.payload.timestamp == e.priority && (e.payload.kind == START_CALL || e.payload.kind == END_CALL)
    ensures e.payload.kind == START_CALL ==> e.priority == l.start
    ensures e.payload.kind == END_CALL ==> e.payload.channel in l.ends && e.priority == l.ends[e.payload.channel]
  {
    if e != Scheduled(id, START_CALL, l.start, -1) {
      assert e in Ends(id, l.ends);
    }
  }

  /** The next START_CALL was scheduled by the last one. */
  ghost predicate Follows(handled: seq<Entry<Msg>>, i: int, start: real, ln: real -> real) {
    && -1 <= i < |handled| && (forall k :: i < k < |handled| ==> handled[k].payload.kind != START_CALL)
    && if i < 0 then 0.0 < start < 20.0
       else handled[i].payload.kind == START_CALL
            && Drawn(RecomputeTa(TA, handled[i].priority), start - handled[i].priority, ln)
  }

  lemma {:induction false} StartFollows(id: nat, ln: real -> real, ledgers: seq<Ledger>, handled: seq<Entry<Msg>>, now: Ledger)
    returns (i: int)
    requires Accounted(id, ln, ledgers, handled, now)
    ensures Follows(handled, i, now.start, ln)
  {
    i := -1;
    if handled != [] {
      var n := |handled| - 1;
      BookedTimes(id, ledgers[n], handled[n]);
      if handled[n].payload.kind == START_CALL {
        i := n;
      } else {
        i := StartFollows(id, ln, ledgers[..n], handled[..n], ledgers[n]);
        forall k | i < k < |handled| ensures handled[k].payload.kind != START_CALL {
          if k < n { assert handled[k] == handled[..n][k]; }
        }
      }
    }
  }

  /** The END_CALL of a channel was scheduled by the START_CALL that occupied the channel, which has
      been busy since. */
  ghost predicate Lasts(ledgers: seq<Ledger>, handled: seq<Entry<Msg>>, i: nat, c: nat, end: real, ln: real -> real) {
    && i < |handled| == |ledgers| && handled[i].payload.kind == START_CALL
    && Drawn(TA_DURATION, end - handled[i].priority, ln)
    && c !in ledgers[i].ends && (forall k :: i < k < |ledgers| ==> c in ledgers[k].ends)
  }

  lemma {:induction false} EndFollows(id: nat, ln: real -> real, ledgers: seq<Ledger>, handled: seq<Entry<Msg>>, now: Ledger, c: nat)
    returns (i: nat)
    requires Accounted(id, ln, ledgers, handled, now) && c in now.ends
    ensures Lasts(ledgers, handled, i, c, now.ends[c], ln)
  {
    var n := |handled| - 1;
    BookedTimes(id, ledgers[n], handled[n]);
    if c in ledgers[n].ends {
      i := EndFollows(id, ln, ledgers[..n], handled[..n], ledgers[n], c);
      forall k | i < k < |ledgers| ensures c in ledgers[k].ends {
        if k < n { assert ledgers[k] == ledgers[..n][k]; }
      }
    } else {
      i := n;
    }
  }

  /** Every START_CALL but the first comes a draw of the mean time between calls after the one before
      it, at the rate of that one's hour; every END_CALL comes a draw of the mean duration after the
      START_CALL that got its channel, which was busy all the time between. */
  ghost predicate InTime(ledgers: seq<Ledger>, handled: seq<Entry<Msg>>, j: nat, i: int, ln: real -> real)
    requires j < |handled| == |ledgers|
  {
    var e := handled[j];
    if e.payload.kind == START_CALL then Follows(handled[..j], i, e.priority, ln)
    else i >= 0 && e.payload.channel >= 0 && Lasts(ledgers[..j], handled[..j], i, e.payload.channel, e.priority, ln)
         && e.payload.channel in ledgers[j].ends
  }

  lemma EventsInTime(id: nat, ln: real -> real, ledgers: seq<Ledger>, handled: seq<Entry<Msg>>, now: Ledger, j: nat) returns (i: int)
    requires Accounted(id, ln, ledgers, handled, now) && j < |handled|
    ensures InTime(ledgers, handled, j, i, ln)
  {
    AccountOfPrefix(id, ln, ledgers, handled, now, j);
    BookedTimes(id, ledgers[j], handled[j]);
    if handled[j].payload.kind == START_CALL {
      i := StartFollows(id, ln, ledgers[..j], handled[..j], ledgers[j]);
    } else {
      i := EndFollows(id, ln, ledgers[..j], handled[..j], ledgers[j], handled[j].payload.channel);
    }
  }

  /** Two of the events handled or still queued have the same time. */
  ghost predicate Tied(handled: seq<Entry<Msg>>, queued: multiset<Entry<Msg>>) {
    !Distinct(multiset(handled) + queued)
  }

  lemma TieStays(handled: seq<Entry<Msg>>, e: Entry<Msg>, queued: multiset<Entry<Msg>>)
    requires !Distinct(queued) || !Distinct(queued + multiset{e})
    ensures Tied(handled + [e], queued)
  {
    var all := multiset(handled + [e]) + queued;
    assert queued <= all && queued + multiset{e} <= all;
    if Distinct(all) {
      DistinctPart(queued, all);
      DistinctPart(queued + multiset{e}, all);
    }
  }
}
