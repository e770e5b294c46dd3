/** The events of the cell simulation and the account the queue keeps of them. */
module Events {
  import opened Calendar
  import opened Noise

  const INIT := 0
  const START_CALL := 20
  const END_CALL := 21
  const COMPLETE_CALLS := 15000
  const CHANNELS_PER_CELL := 1000
  const TA := 0.16
  const TA_DURATION := 60.0

  datatype Msg = Msg(sender: nat, receiver: nat, kind: int, timestamp: real, channel: int)

  /** An event a cell schedules for itself (pack_event), with the priority it is queued at. */
  function Scheduled(me: nat, kind: int, stamp: real, channel: int): Entry<Msg> {
    Entry(stamp, Msg(me, me, kind, stamp, channel))
  }

  /** The queue holds one START_CALL and, for each channel in ends, one END_CALL, and nothing else. */
  datatype Ledger = Ledger(start: real, ends: map<nat, real>)

  ghost function Ends(me: nat, ends: map<nat, real>): multiset<Entry<Msg>> {
    multiset(set c | c in ends :: Scheduled(me, END_CALL, ends[c], c))
  }

  ghost function Booked(me: nat, l: Ledger): multiset<Entry<Msg>> {
    multiset{Scheduled(me, START_CALL, l.start, -1)} + Ends(me, l.ends)
  }

  lemma EndsAdd(me: nat, ends: map<nat, real>, c: nat, t: real)
    requires c !in ends
    ensures Ends(me, ends[c := t]) == Ends(me, ends) + multiset{Scheduled(me, END_CALL, t, c)}
  {
    var s := set d | d in ends :: Scheduled(me, END_CALL, ends[d], d);
    var ends' := ends[c := t];
    var s' := set d | d in ends' :: Scheduled(me, END_CALL, ends'[d], d);
    assert s' == s + {Scheduled(me, END_CALL, t, c)} by {
      forall d | d in ends ensures Scheduled(me, END_CALL, ends[d], d) in s' {
        assert d in ends' && ends'[d] == ends[d];
      }
      assert c in ends';
    }
    assert Scheduled(me, END_CALL, t, c) !in s;
  }

  lemma EndsRemove(me: nat, ends: map<nat, real>, c: nat)
    requires c in ends
    ensures Ends(me, ends) == Ends(me, ends - {c}) + multiset{Scheduled(me, END_CALL, ends[c], c)}
  {
    EndsAdd(me, ends - {c}, c, ends[c]);
    assert (ends - {c})[c := ends[c]] == ends;
  }

  /** Whatever the queue serves is the START_CALL or one of the END_CALLs, and the rest of the
      account is what remains queued. */
  lemma ServedIsBooked(me: nat, l: Ledger, e: Entry<Msg>, rest: multiset<Entry<Msg>>)
    requires Booked(me, l) == rest + multiset{e}
    ensures || (e == Scheduled(me, START_CALL, l.start, -1) && rest == Ends(me, l.ends))
            || (e.payload.channel in l.ends
                && e == Scheduled(me, END_CALL, l.ends[e.payload.channel], e.payload.channel)
                && rest == Booked(me, Ledger(l.start, l.ends - {e.payload.channel})))
  {
    assert e in Booked(me, l);
    var s := Scheduled(me, START_CALL, l.start, -1);
    if e == s {
      Cancel(rest, Ends(me, l.ends), multiset{e});
    } else {
      assert e in Ends(me, l.ends);
      var c := e.payload.channel;
      EndsRemove(me, l.ends, c);
      var others := Booked(me, Ledger(l.start, l.ends - {c}));
      assert others + multiset{e} == Booked(me, l);
      Cancel(rest, others, multiset{e});
    }
  }

  // ---------- What the handling of an event does to the account ----------

  /** A connected call: the least free channel is busy until the call ends. */
  ghost predicate Connects(ends: map<nat, real>, ends': map<nat, real>, c: nat, now: real, ln: real -> real) {
    && c < CHANNELS_PER_CELL && c !in ends && (forall i: nat :: i < c ==> i in ends)
    && c in ends' && ends' == ends[c := ends'[c]] && Drawn(TA_DURATION, ends'[c] - now, ln)
  }

  /** A START_CALL: the next one comes after a draw of the mean time between calls at this hour; the
      call is connected unless all channels are busy. */
  ghost predicate Arrives(before: Ledger, after: Ledger, now: real, ln: real -> real) {
    && Drawn(RecomputeTa(TA, now), after.start - now, ln)
    && if |before.ends| == CHANNELS_PER_CELL then after.ends == before.ends
       else exists c: nat :: Connects(before.ends, after.ends, c, now, ln)
  }

  /** An event of the cell. */
  ghost predicate Handles(before: Ledger, after: Ledger, msg: Msg, ln: real -> real) {
    if msg.kind == START_CALL then Arrives(before, after, msg.timestamp, ln)
    else msg.channel in before.ends && after == before.(ends := before.ends - {msg.channel as nat})
  }

  // ---------- Counting ----------

  lemma {:induction false} CoverNeedsAll(ids: set<nat>, n: nat)
    requires forall i :: 0 <= i < n ==> i in ids
    ensures n <= |ids|
  {
    if n > 0 {
      CoverNeedsAll(ids - {n - 1}, n - 1);
    }
  }

  ghost function Elements(ids: seq<nat>): set<nat> {
    set i | i in ids
  }

  lemma {:induction false} ElementsFit(ids: seq<nat>)
    ensures |Elements(ids)| <= |ids|
  {
    if ids != [] {
      ElementsFit(ids[1..]);
      assert Elements(ids) == {ids[0]} + Elements(ids[1..]);
    }
  }

  lemma {:induction false} ElementsCount(ids: seq<nat>)
    requires forall a, b :: 0 <= a < b < |ids| ==> ids[a] != ids[b]
    ensures |Elements(ids)| == |ids|
  {
    if ids != [] {
      ElementsCount(ids[1..]);
      assert Elements(ids) == {ids[0]} + Elements(ids[1..]);
    }
  }

  /** A list shorter than n misses a number below n. */
  lemma ShortListMisses(ids: seq<nat>, n: nat) returns (i: nat)
    requires |ids| < n
    ensures i < n && i !in ids
  {
    if forall j: nat :: j < n ==> j in ids {
      CoverNeedsAll(Elements(ids), n);
      ElementsFit(ids);
    }
    i :| i < n && i !in ids;
  }

  // ---------- Call rates ----------

  const HOUR := 3600
  const DAY := 24 * HOUR
  const WEEK := 7 * DAY

  /** The mean time between calls, which depends on the time of the day and the week. */
  function RecomputeTa(refTa: real, timeNow: real): (ta: real)
    ensures refTa > 0.0 ==> 0.8 * refTa <= ta <= 5.0 * refTa
  {
    var now := timeNow.Floor % WEEK;
    if now > 5 * DAY then refTa * 5.0
    else
      var second := now % DAY;
      if second as real < 8.5 * HOUR as real then refTa * 4.0
      else if second < 13 * HOUR then refTa * 0.8
      else if second < 15 * HOUR then refTa * 2.5
      else if second < 19 * HOUR then refTa * 2.0
      else if second < 21 * HOUR then refTa * 2.2
      else refTa * 4.5
  }

  lemma ClockOf(week: nat, day: nat, second: nat, fraction: real)
    requires day < 7 && second < 86400 && 0.0 <= fraction < 1.0
    ensures var now := (604800 * week + 86400 * day + second) as real + fraction;
            now.Floor % WEEK == 86400 * day + second && (now.Floor % WEEK) % DAY == second
  {
    var whole := 604800 * week + 86400 * day + second;
    assert (whole as real + fraction).Floor == whole;
    assert (604800 * week + (86400 * day + second)) % 604800 == 86400 * day + second;
  }

  /** The mean time between calls through a working day: five days a week, it is four times the
      reference until 8:30, 0.8 times until 13:00, 2.5 times until 15:00, twice until 19:00, 2.2 times
      until 21:00, then 4.5 times. */
  lemma WorkingDay(refTa: real, week: nat, day: nat, second: nat, fraction: real)
    requires day < 5 && second < 86400 && 0.0 <= fraction < 1.0
    ensures var ta := RecomputeTa(refTa, (604800 * week + 86400 * day + second) as real + fraction);
            && (second < 30600 ==> ta == 4.0 * refTa)
            && (30600 <= second < 46800 ==> ta == 0.8 * refTa)
            && (46800 <= second < 54000 ==> ta == 2.5 * refTa)
            && (54000 <= second < 68400 ==> ta == 2.0 * refTa)
            && (68400 <= second < 75600 ==> ta == 2.2 * refTa)
            && (75600 <= second ==> ta == 4.5 * refTa)
  {
    ClockOf(week, day, second, fraction);
  }

  /** On the other two days it is five times the reference, but for the first second of them, which
      still counts as an early morning. */
  lemma WeekEnd(refTa: real, week: nat, day: nat, second: nat, fraction: real)
    requires 5 <= day < 7 && second < 86400 && 0.0 <= fraction < 1.0
    ensures RecomputeTa(refTa, (604800 * week + 86400 * day + second) as real + fraction)
            == if day == 5 && second == 0 then 4.0 * refTa else 5.0 * refTa
  {
    ClockOf(week, day, second, fraction);
  }
}
