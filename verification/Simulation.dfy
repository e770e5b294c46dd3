/** The event handler of the cell simulation and its dispatch loop, running on the calendar queue. */
module Simulation {
  import opened Common
  import opened Calendar
  import opened QueueModel
  import opened QueueRuns
  import opened Agenda
  import opened Channels
  import opened Events
  import opened Histories
  import opened Noise
  import Q = CalendarQueue
  import Random

  type Queue = Q.CalendarQueue<Msg>

  /** An unsigned counter wraps around. */
  function Count(x: Word): Word {
    (x + 1) % 0x1_0000_0000
  }

  /** Every call that arrived was blocked, is complete, or is going on; counted modulo 2^32. */
  ghost predicate Tally(arriving: Word, blocked: Word, complete: Word, busy: nat) {
    arriving == (blocked + complete + busy) % 0x1_0000_0000
  }

  lemma WrapsLater(x: nat)
    ensures (x % 0x1_0000_0000 + 1) % 0x1_0000_0000 == (x + 1) % 0x1_0000_0000
  {
  }

  lemma WrapsEarlier(x: Word, y: nat)
    ensures (Count(x) + y) % 0x1_0000_0000 == (x + 1 + y) % 0x1_0000_0000
  {
    if x == 0xffff_ffff { assert x + 1 + y == 0x1_0000_0000 + (Count(x) + y); }
  }

  lemma TallySteps(arriving: Word, blocked: Word, complete: Word, busy: nat)
    requires Tally(arriving, blocked, complete, busy)
    ensures Tally(Count(arriving), Count(blocked), complete, busy)
    ensures Tally(Count(arriving), blocked, complete, busy + 1)
    ensures busy > 0 ==> Tally(arriving, blocked, Count(complete), busy - 1)
  {
    WrapsLater(blocked + complete + busy);
    WrapsEarlier(blocked, complete + busy);
    if busy > 0 { WrapsEarlier(complete, blocked + (busy - 1)); }
  }

  /** The state of a cell. */
  class Cell {
    var channelCounter: nat
    var arrivingCalls: Word
    var completeCalls: Word
    var blockedOnSetup: Word
    var executedEvents: Word
    var lvt: real
    var ta: real
    const refTa: real
    const taDuration: real
    const table: Table
    /** The events the cell has scheduled and not yet handled. */
    ghost var ledger: Ledger

    constructor ()
      ensures Balanced() && fresh(table) && fresh(table.channelState) && table.spine == [] && table.nodes == {}
      ensures channelCounter == CHANNELS_PER_CELL && ledger.ends == map[] && lvt == 0.0
      ensures executedEvents == arrivingCalls == completeCalls == 0
    {
      channelCounter := CHANNELS_PER_CELL;
      arrivingCalls, completeCalls, blockedOnSetup, executedEvents := 0, 0, 0, 0;
      lvt := 0.0;
      refTa, ta, taDuration := TA, TA, TA_DURATION;
      table := new Table(CHANNELS_PER_CELL);
      ledger := Ledger(0.0, map[]);
    }

    ghost function Busy(): seq<nat>
      reads table`spine
    {
      Ids(table.spine)
    }

    /** The call counters agree with the number of busy channels. */
    ghost predicate Balanced()
      reads this`channelCounter, this`arrivingCalls, this`completeCalls, this`blockedOnSetup
      reads table`channels, table`spine, table`nodes, table.channelState
      reads table.spine`next, table.spine`prev, table.spine`power
    {
      && table.Valid()
      && table.channelsPerCell == CHANNELS_PER_CELL
      && channelCounter + |Busy()| == CHANNELS_PER_CELL
      && Tally(arrivingCalls, blockedOnSetup, completeCalls, |Busy()|)
      && completeCalls < COMPLETE_CALLS
      && refTa == TA && taDuration == TA_DURATION
    }

    /** One END_CALL is due for each busy channel. */
    ghost predicate Booking()
      reads this`ledger, table`spine
    {
      ledger.ends.Keys == Elements(Busy())
    }
  }

  /** How many events a cell has executed, and how many of them were arrivals and ends of calls. */
  datatype Counts = Counts(executed: Word, arrived: Word, completed: Word)

  ghost function Counters(cell: Cell): Counts
    reads cell`executedEvents, cell`arrivingCalls, cell`completeCalls
  {
    Counts(cell.executedEvents, cell.arrivingCalls, cell.completeCalls)
  }

  function Counted(c: Counts, kind: int): Counts {
    Counts(Count(c.executed), if kind == START_CALL then Count(c.arrived) else c.arrived,
           if kind == END_CALL then Count(c.completed) else c.completed)
  }

  /** The counters after some events. */
  function CountsOf(handled: seq<Entry<Msg>>): Counts {
    if handled == [] then Counts(0, 0, 0)
    else Counted(CountsOf(handled[..|handled| - 1]), handled[|handled| - 1].payload.kind)
  }

  lemma CountsGrow(handled: seq<Entry<Msg>>, e: Entry<Msg>)
    ensures CountsOf(handled + [e]) == Counted(CountsOf(handled), e.payload.kind)
  {
    assert (handled + [e])[..|handled|] == handled;
  }

  /** How an event, or a run, ended. Aborted stands for every abort and failure exit of the
      program; QueueStopped for a queue resize without a usable width. */
  datatype Verdict = Continue | Finished | Aborted | QueueStopped

  /** The least channel that is not in a list. */
  ghost predicate Least(channel: int, ids: seq<nat>) {
    channel !in ids && forall i: nat :: i < channel ==> i in ids
  }

  /** The allocator never aborts while the counter says that a channel is free. */
  method Pick(table: Table, noise: Source) returns (channel: int)
    requires table.Valid() && noise.Valid() && |table.spine| < table.channelsPerCell
    modifies table, table.channelState, table.nodes, noise.generator
    ensures table.Valid() && fresh(table.nodes - old(table.nodes))
    ensures 0 <= channel < table.channelsPerCell && Least(channel, old(Ids(table.spine)))
    ensures Ids(table.spine) == [channel] + old(Ids(table.spine))
  {
    ghost var busy := Ids(table.spine);
    ghost var free := ShortListMisses(busy, table.channelsPerCell);
    channel := table.Allocation(noise);
  }

  /** Occupying a free channel of the cell. */
  method Connect(cell: Cell, noise: Source) returns (channel: nat)
    requires cell.table.Valid() && cell.table.channelsPerCell == CHANNELS_PER_CELL && noise.Valid()
    requires cell.channelCounter > 0 && cell.channelCounter + |cell.Busy()| == CHANNELS_PER_CELL
    modifies cell`channelCounter, cell.table, cell.table.channelState, cell.table.nodes, noise.generator
    ensures cell.table.Valid() && cell.channelCounter + |cell.Busy()| == CHANNELS_PER_CELL
    ensures channel < CHANNELS_PER_CELL && Least(channel, old(cell.Busy())) && cell.Busy() == [channel] + old(cell.Busy())
    ensures fresh(cell.table.nodes - old(cell.table.nodes))
  {
    cell.channelCounter := cell.channelCounter - 1;
    channel := Pick(cell.table, noise);
  }

  /** Scheduling the END_CALL of a channel. */
  method ScheduleEnd(me: nat, timestamp: real, channel: nat, q: Queue, ghost ends: map<nat, real>) returns (ok: bool)
    requires q.Linked() && Ready(q.S()) && Items(q.S()) == Ends(me, ends)
    requires timestamp >= 0.0 && q.lastprio <= timestamp && channel !in ends
    modifies q, q.calq
    ensures old(Footing(q)) == 2 && Distinct(Items(q.S())) ==> ok
    ensures q.Linked() && Items(q.S()) == Ends(me, ends[channel := timestamp]) && q.lastprio == old(q.lastprio)
    ensures ok ==> Ready(q.S())
    ensures Footing(q) >= old(Footing(q))
  {
    EndsAdd(me, ends, channel, timestamp);
    ok := Enter(q, Scheduled(me, END_CALL, timestamp, channel));
  }

  /** Scheduling the next START_CALL. */
  method ScheduleStart(me: nat, timestamp: real, q: Queue, ghost l: Ledger) returns (ok: bool)
    requires q.Linked() && Ready(q.S()) && Items(q.S()) == Ends(me, l.ends) && l.start == timestamp
    requires timestamp >= 0.0 && q.lastprio <= timestamp
    modifies q, q.calq
    ensures old(Footing(q)) == 2 && Distinct(Items(q.S())) ==> ok
    ensures q.Linked() && Items(q.S()) == Booked(me, l) && q.lastprio == old(q.lastprio)
    ensures ok ==> Ready(q.S())
    ensures Footing(q) >= old(Footing(q))
  {
    ok := Enter(q, Scheduled(me, START_CALL, timestamp, -1));
  }

  /** The arrival of a call: blocked when no channel is free (-1), else connected. */
  method Admit(cell: Cell, noise: Source) returns (channel: int)
    requires cell.Balanced() && noise.Valid()
    modifies cell`channelCounter, cell`arrivingCalls, cell`blockedOnSetup
    modifies cell.table, cell.table.channelState, cell.table.nodes, noise.generator
    ensures cell.Balanced() && fresh(cell.table.nodes - old(cell.table.nodes))
    ensures cell.arrivingCalls == Count(old(cell.arrivingCalls))
    ensures channel == -1 <==> old(cell.channelCounter) == 0
    ensures channel < 0 ==> channel == -1 && cell.Busy() == old(cell.Busy())
    ensures channel >= 0 ==> channel < CHANNELS_PER_CELL && Least(channel, old(cell.Busy()))
                             && cell.Busy() == [channel] + old(cell.Busy())
  {
    TallySteps(cell.arrivingCalls, cell.blockedOnSetup, cell.completeCalls, |cell.Busy()|);
    cell.arrivingCalls := Count(cell.arrivingCalls);
    if cell.channelCounter == 0 {
      cell.blockedOnSetup := Count(cell.blockedOnSetup);
      channel := -1;
    } else {
      channel := Connect(cell, noise);
    }
  }

  /** Scheduling what follows from an arrival: the end of the call if it was connected, and the next arrival. */
  method ScheduleNext(me: nat, now: real, channel: int, wait: real, wait': real, q: Queue, ghost l: Ledger) returns (ok: bool)
    requires q.Linked() && Ready(q.S()) && Items(q.S()) == Ends(me, l.ends)
    requires now >= 0.0 && q.lastprio <= now && wait >= 0.0 && wait' >= 0.0
    requires channel >= 0 ==> channel !in l.ends
    modifies q, q.calq
    ensures old(Footing(q)) == 2 && Distinct(Items(q.S())) ==> ok
    ensures q.Linked() && q.lastprio == old(q.lastprio) && Footing(q) >= old(Footing(q))
    ensures ok ==> Ready(q.S()) && Items(q.S()) == Booked(me, After(l, channel, now + wait, now + wait'))
  {
    ghost var after := After(l, channel, now + wait, now + wait');
    ok := true;
    if channel >= 0 {
      ok := ScheduleEnd(me, now + wait, channel, q, l.ends);
      assert after.ends == l.ends[channel as nat := now + wait];
    }
    if ok {
      ok := ScheduleStart(me, now + wait', q, after);
    }
  }

  ghost predicate AllDifferent(ids: seq<nat>) {
    forall a, b :: 0 <= a < b < |ids| ==> ids[a] != ids[b]
  }

  /** The account has an END_CALL for each busy channel, so it is as long as their list. */
  lemma BusyCount(busy: seq<nat>, ends: map<nat, real>)
    requires Elements(busy) == ends.Keys && AllDifferent(busy)
    ensures |ends| == |busy|
  {
    ElementsCount(busy);
    assert |ends| == |ends.Keys|;
  }

  lemma BusyGrows(busy: seq<nat>, ends: map<nat, real>, c: nat)
    requires Elements(busy) == ends.Keys && Least(c, busy)
    ensures LeastFree(c, ends) && Elements([c] + busy) == ends.Keys + {c}
  {
    assert Elements([c] + busy) == Elements(busy) + {c};
    forall i: nat ensures i in ends <==> i in busy {
      assert i in Elements(busy) <==> i in busy;
    }
  }

  /** The first channel without an END_CALL. */
  ghost predicate LeastFree(c: nat, ends: map<nat, real>) {
    c !in ends && forall i: nat :: i < c ==> i in ends
  }

  /** How long a call that is connected lasts, and how long the next call takes to arrive. */
  ghost predicate Waits(channel: int, wait: real, wait': real, now: real, ln: real -> real) {
    && wait >= 0.0 && wait' >= 0.0 && Drawn(RecomputeTa(TA, now), wait', ln)
    && (channel >= 0 ==> Drawn(TA_DURATION, wait, ln))
  }

  /** The account once the end of the call, if it was connected, and the next call are scheduled. */
  function After(l: Ledger, channel: int, end: real, start: real): Ledger {
    Ledger(start, if channel >= 0 then l.ends[channel as nat := end] else l.ends)
  }

  lemma WaitsArrive(l: Ledger, channel: int, wait: real, wait': real, now: real, ln: real -> real)
    requires Waits(channel, wait, wait', now, ln)
    requires channel < 0 <==> |l.ends| == CHANNELS_PER_CELL
    requires channel >= 0 ==> channel < CHANNELS_PER_CELL && LeastFree(channel, l.ends)
    ensures Arrives(l, After(l, channel, now + wait, now + wait'), now, ln)
  {
    assert now + wait' - now == wait' && now + wait - now == wait;
    if channel >= 0 {
      assert Connects(l.ends, After(l, channel, now + wait, now + wait').ends, channel, now, ln);
    }
  }

  lemma CallIsBooked(busy: seq<nat>, busy': seq<nat>, l: Ledger, channel: int, wait: real, wait': real, now: real, ln: real -> real)
    requires Elements(busy) == l.ends.Keys && AllDifferent(busy) && Waits(channel, wait, wait', now, ln)
    requires channel < 0 <==> |busy| == CHANNELS_PER_CELL
    requires channel >= 0 ==> channel < CHANNELS_PER_CELL && Least(channel, busy)
    requires busy' == if channel >= 0 then [channel as nat] + busy else busy
    ensures var l' := After(l, channel, now + wait, now + wait');
            Arrives(l, l', now, ln) && Elements(busy') == l'.ends.Keys && (channel >= 0 ==> channel !in l.ends)
  {
    BusyCount(busy, l.ends);
    if channel >= 0 { BusyGrows(busy, l.ends, channel); }
    WaitsArrive(l, channel, wait, wait', now, ln);
  }

  /** A START_CALL as far as the cell is concerned: the call arrives, and the times of what follows are drawn. */
  method Arrive(now: real, cell: Cell, noise: Source) returns (channel: int, wait: real, wait': real)
    requires cell.Balanced() && noise.Valid()
    modifies cell`channelCounter, cell`arrivingCalls, cell`blockedOnSetup, cell`ta
    modifies cell.table, cell.table.channelState, cell.table.nodes, noise.generator
    ensures cell.Balanced() && fresh(cell.table.nodes - old(cell.table.nodes))
    ensures Waits(channel, wait, wait', now, noise.ln)
    ensures channel < 0 <==> |old(cell.Busy())| == CHANNELS_PER_CELL
    ensures channel >= 0 ==> channel < CHANNELS_PER_CELL && Least(channel, old(cell.Busy()))
    ensures cell.Busy() == if channel >= 0 then [channel as nat] + old(cell.Busy()) else old(cell.Busy())
    ensures cell.arrivingCalls == Count(old(cell.arrivingCalls))
  {
    wait := 0.0;
    if cell.channelCounter != 0 {
      wait := noise.Expent(cell.taDuration);
    }
    channel := Admit(cell, noise);
    cell.ta := RecomputeTa(cell.refTa, now);
    wait' := noise.Expent(cell.ta);
  }

  /** The same for a cell with an account, in which what will be scheduled is noted. */
  method ArriveBooked(now: real, cell: Cell, noise: Source) returns (channel: int, wait: real, wait': real)
    requires cell.Balanced() && cell.Booking() && noise.Valid()
    modifies cell`channelCounter, cell`arrivingCalls, cell`blockedOnSetup, cell`ta, cell`ledger
    modifies cell.table, cell.table.channelState, cell.table.nodes, noise.generator
    ensures cell.Balanced() && cell.Booking() && fresh(cell.table.nodes - old(cell.table.nodes))
    ensures wait >= 0.0 && wait' >= 0.0 && (channel >= 0 ==> channel !in old(cell.ledger.ends))
    ensures cell.ledger == After(old(cell.ledger), channel, now + wait, now + wait')
    ensures Arrives(old(cell.ledger), cell.ledger, now, noise.ln)
    ensures cell.arrivingCalls == Count(old(cell.arrivingCalls))
  {
    ghost var busy := cell.Busy();
    assert AllDifferent(busy);
    channel, wait, wait' := Arrive(now, cell, noise);
    CallIsBooked(busy, cell.Busy(), cell.ledger, channel, wait, wait', now, noise.ln);
    cell.ledger := After(cell.ledger, channel, now + wait, now + wait');
  }

  /** A START_CALL: the call arrives, and the next one is scheduled. */
  method StartCall(me: nat, now: real, cell: Cell, q: Queue, noise: Source) returns (verdict: Verdict)
    requires cell.Balanced() && cell.Booking() && noise.Valid()
    requires q.Linked() && Ready(q.S()) && Items(q.S()) == Ends(me, cell.ledger.ends)
    requires now >= 0.0 && q.lastprio <= now
    modifies cell`channelCounter, cell`arrivingCalls, cell`blockedOnSetup, cell`ta, cell`ledger
    modifies cell.table, cell.table.channelState, cell.table.nodes, q, q.calq, noise.generator
    ensures verdict == Continue || verdict == QueueStopped
    ensures old(Footing(q)) == 2 && Distinct(Items(q.S())) ==> verdict != QueueStopped
    ensures q.lastprio == old(q.lastprio) && cell.arrivingCalls == Count(old(cell.arrivingCalls))
    ensures cell.Balanced() && cell.Booking() && fresh(cell.table.nodes - old(cell.table.nodes))
    ensures q.Linked() && Footing(q) >= old(Footing(q))
    ensures verdict == Continue ==> Ready(q.S()) && Items(q.S()) == Booked(me, cell.ledger)
    ensures verdict == Continue ==> Arrives(old(cell.ledger), cell.ledger, now, noise.ln)
  {
    ghost var l := cell.ledger;
    var channel, wait, wait' := ArriveBooked(now, cell, noise);
    var ok := ScheduleNext(me, now, channel, wait, wait', q, l);
    verdict := if ok then Continue else QueueStopped;
  }

  lemma LessOne(ids: seq<nat>, k: nat)
    requires k < |ids| && forall a, b :: 0 <= a < b < |ids| ==> ids[a] != ids[b]
    ensures Elements(Without(ids, k)) == Elements(ids) - {ids[k]} && |Without(ids, k)| == |ids| - 1
  {
    forall i: nat ensures i in Without(ids, k) <==> i in ids && i != ids[k] {
      WithoutMember(ids, k, i);
    }
  }

  /** Giving a busy channel back. */
  method Disconnect(channel: nat, cell: Cell, noise: Source) returns (found: bool)
    requires cell.table.Valid() && noise.Valid() && channel in cell.Busy()
    modifies cell.table, cell.table.channelState, cell.table.nodes, noise.generator
    ensures found && cell.table.Valid()
    ensures Elements(cell.Busy()) == Elements(old(cell.Busy())) - {channel} && |cell.Busy()| == |old(cell.Busy())| - 1
    ensures cell.table.nodes == old(cell.table.nodes)
  {
    ghost var ids := cell.Busy();
    ghost var k;
    found, k := cell.table.Deallocation(channel, noise);
    LessOne(ids, k);
  }

  /** The counters at the end of a call. */
  method CountEnd(channel: nat, cell: Cell)
    modifies cell`channelCounter, cell`completeCalls, cell`ledger
    ensures cell.channelCounter == old(cell.channelCounter) + 1 && cell.completeCalls == Count(old(cell.completeCalls))
    ensures cell.ledger == old(cell.ledger).(ends := old(cell.ledger.ends) - {channel})
  {
    cell.channelCounter := cell.channelCounter + 1;
    cell.completeCalls := Count(cell.completeCalls);
    cell.ledger := cell.ledger.(ends := cell.ledger.ends - {channel});
  }

  /** The counters change, and the channel is given back. */
  method Release(channel: nat, cell: Cell, noise: Source) returns (found: bool)
    requires cell.table.Valid() && cell.Booking() && noise.Valid() && channel in cell.ledger.ends
    modifies cell`channelCounter, cell`completeCalls, cell`ledger, cell.table, cell.table.channelState, cell.table.nodes, noise.generator
    ensures found && cell.table.Valid() && cell.table.nodes == old(cell.table.nodes)
    ensures cell.channelCounter == old(cell.channelCounter) + 1 && cell.completeCalls == Count(old(cell.completeCalls))
    ensures cell.ledger == old(cell.ledger).(ends := old(cell.ledger.ends) - {channel}) && cell.Booking()
    ensures |cell.Busy()| == |old(cell.Busy())| - 1
  {
    CountEnd(channel, cell);
    found := Disconnect(channel, cell, noise);
  }

  /** An END_CALL: its channel becomes free. The run is over after the last call that counts. */
  method EndCall(channel: nat, cell: Cell, noise: Source) returns (verdict: Verdict)
    requires cell.Balanced() && cell.Booking() && noise.Valid()
    requires channel in cell.ledger.ends
    modifies cell`channelCounter, cell`completeCalls, cell`ledger, cell.table, cell.table.channelState, cell.table.nodes, noise.generator
    ensures verdict == Continue || verdict == Finished
    ensures verdict == Finished <==> cell.completeCalls == COMPLETE_CALLS
    ensures cell.completeCalls == Count(old(cell.completeCalls))
    ensures cell.table.nodes == old(cell.table.nodes)
    ensures cell.ledger == old(cell.ledger).(ends := old(cell.ledger.ends) - {channel}) && cell.Booking()
    ensures verdict == Continue ==> cell.Balanced()
  {
    TallySteps(cell.arrivingCalls, cell.blockedOnSetup, cell.completeCalls, |cell.Busy()|);
    var found := Release(channel, cell, noise);
    verdict := if !found then Aborted else if cell.completeCalls == COMPLETE_CALLS then Finished else Continue;
  }

  /** Every event sets the local time and is counted. */
  method Note(cell: Cell, now: real)
    modifies cell`lvt, cell`executedEvents
    ensures cell.lvt == now && cell.executedEvents == Count(old(cell.executedEvents))
  {
    cell.lvt := now;
    cell.executedEvents := Count(cell.executedEvents);
  }

  /** A START_CALL of a cell that exists (ProcessEvent with a state). */
  method ProcessStart(msg: Msg, cell: Cell, q: Queue, noise: Source) returns (verdict: Verdict)
    requires cell.Balanced() && cell.Booking() && noise.Valid()
    requires q.Linked() && Ready(q.S()) && q.lastprio <= msg.timestamp && msg.timestamp >= 0.0
    requires Items(q.S()) == Ends(msg.receiver, cell.ledger.ends)
    modifies cell`lvt, cell`executedEvents, cell`channelCounter, cell`arrivingCalls, cell`blockedOnSetup, cell`ta, cell`ledger
    modifies cell.table, cell.table.channelState, cell.table.nodes, q, q.calq, noise.generator
    ensures verdict == Continue || verdict == QueueStopped
    ensures cell.lvt == msg.timestamp && cell.executedEvents == Count(old(cell.executedEvents))
    ensures cell.arrivingCalls == Count(old(cell.arrivingCalls))
    ensures old(Footing(q)) == 2 && Distinct(Items(q.S())) ==> verdict != QueueStopped
    ensures q.Linked() && q.lastprio == old(q.lastprio) && Footing(q) >= old(Footing(q))
    ensures fresh(cell.table.nodes - old(cell.table.nodes))
    ensures cell.Balanced() && cell.Booking()
    ensures verdict == Continue ==> Ready(q.S()) && Items(q.S()) == Booked(msg.receiver, cell.ledger)
    ensures verdict == Continue ==> Arrives(old(cell.ledger), cell.ledger, msg.timestamp, noise.ln)
  {
    Note(cell, msg.timestamp);
    assert cell.Balanced() && cell.Booking();
    verdict := StartCall(msg.receiver, msg.timestamp, cell, q, noise);
  }

  /** An END_CALL of a cell that exists (ProcessEvent with a state). */
  method ProcessEnd(msg: Msg, cell: Cell, noise: Source) returns (verdict: Verdict)
    requires cell.Balanced() && cell.Booking() && noise.Valid() && msg.channel in cell.ledger.ends
    modifies cell`lvt, cell`executedEvents, cell`channelCounter, cell`completeCalls, cell`ledger
    modifies cell.table, cell.table.channelState, cell.table.nodes, noise.generator
    ensures verdict == Continue || verdict == Finished
    ensures cell.lvt == msg.timestamp && cell.executedEvents == Count(old(cell.executedEvents))
    ensures cell.completeCalls == Count(old(cell.completeCalls))
    ensures verdict == Finished <==> cell.completeCalls == COMPLETE_CALLS
    ensures cell.table.nodes == old(cell.table.nodes)
    ensures cell.ledger == old(cell.ledger).(ends := old(cell.ledger.ends) - {msg.channel}) && cell.Booking()
    ensures verdict == Continue ==> cell.Balanced()
  {
    Note(cell, msg.timestamp);
    verdict := EndCall(msg.channel, cell, noise);
  }

  /** The events of a cell that exists (ProcessEvent with a state). */
  method ProcessCall(msg: Msg, cell: Cell, q: Queue, noise: Source) returns (verdict: Verdict)
    requires cell.Balanced() && cell.Booking() && noise.Valid()
    requires q.Linked() && Ready(q.S()) && q.lastprio <= msg.timestamp && msg.timestamp >= 0.0
    requires msg.kind == START_CALL || msg.kind == END_CALL
    requires msg.kind == START_CALL ==> Items(q.S()) == Ends(msg.receiver, cell.ledger.ends)
    requires msg.kind == END_CALL ==>
               && msg.channel in cell.ledger.ends
               && Items(q.S()) == Booked(msg.receiver, Ledger(cell.ledger.start, cell.ledger.ends - {msg.channel}))
    modifies cell, cell.table, cell.table.channelState, cell.table.nodes, q, q.calq, noise.generator
    ensures verdict != Aborted && cell.lvt == msg.timestamp
    ensures cell.executedEvents == Count(old(cell.executedEvents))
    ensures cell.arrivingCalls == if msg.kind == START_CALL then Count(old(cell.arrivingCalls)) else old(cell.arrivingCalls)
    ensures cell.completeCalls == if msg.kind == END_CALL then Count(old(cell.completeCalls)) else old(cell.completeCalls)
    ensures old(Footing(q)) == 2 && Distinct(Items(q.S())) ==> verdict != QueueStopped
    ensures verdict == Finished ==> cell.completeCalls == COMPLETE_CALLS
    ensures q.Linked() && q.lastprio == old(q.lastprio) && Footing(q) >= old(Footing(q))
    ensures fresh(cell.table.nodes - old(cell.table.nodes))
    ensures verdict == Continue ==>
              cell.Balanced() && cell.Booking() && Ready(q.S()) && Items(q.S()) == Booked(msg.receiver, cell.ledger)
    ensures verdict == Continue || verdict == Finished ==> Handles(old(cell.ledger), cell.ledger, msg, noise.ln)
  {
    if msg.kind == START_CALL {
      verdict := ProcessStart(msg, cell, q, noise);
      return;
    }
    if msg.kind == END_CALL {
      verdict := ProcessEnd(msg, cell, noise);
      return;
    }
    verdict := Aborted;
  }

  /** A new cell, and the time of its first call, which is noted. */
  method NewCell(noise: Source) returns (cell: Cell, timestamp: real)
    modifies noise.generator
    ensures fresh(cell) && fresh(cell.table) && fresh(cell.table.channelState) && cell.table.nodes == {}
    ensures cell.Balanced() && cell.Booking() && cell.lvt == 0.0 && Counters(cell) == Counts(0, 0, 0)
    ensures timestamp == 20.0 * Random.Output(noise.generator.S()) && cell.ledger == Ledger(timestamp, map[])
  {
    cell := new Cell();
    assert cell.Busy() == [];
    timestamp := noise.Uniform();
    timestamp := 20.0 * timestamp;
    cell.ledger := Ledger(timestamp, map[]);
  }

  /** The first START_CALL, into an empty queue. */
  method FirstStart(me: nat, timestamp: real, q: Queue) returns (ok: bool)
    requires q.Linked() && Ready(q.S()) && Items(q.S()) == multiset{} && q.lastprio == 0.0 && timestamp >= 0.0
    modifies q, q.calq
    ensures q.Linked() && q.lastprio == 0.0 && Footing(q) >= old(Footing(q)) && (old(Footing(q)) == 2 ==> ok)
    ensures ok ==> Ready(q.S()) && Items(q.S()) == Booked(me, Ledger(timestamp, map[]))
  {
    OneIsDistinct(Scheduled(me, START_CALL, timestamp, -1));
    ok := ScheduleStart(me, timestamp, q, Ledger(timestamp, map[]));
  }

  /** The INIT event (ProcessEvent without a state): a new cell, with its first START_CALL. */
  method ProcessInit(me: nat, q: Queue, noise: Source) returns (verdict: Verdict, cell: Cell)
    requires q.Linked() && Ready(q.S()) && Items(q.S()) == multiset{} && q.lastprio == 0.0 && noise.Valid()
    modifies q, q.calq, noise.generator
    ensures verdict == Continue || verdict == QueueStopped
    ensures fresh(cell) && fresh(cell.table) && fresh(cell.table.channelState) && cell.table.nodes == {}
    ensures cell.Balanced() && cell.Booking() && cell.lvt == 0.0 && Counters(cell) == Counts(0, 0, 0)
    ensures old(Footing(q)) == 2 ==> verdict == Continue
    ensures q.Linked() && q.lastprio == 0.0 && Footing(q) >= old(Footing(q))
    ensures verdict == Continue ==> Ready(q.S()) && Items(q.S()) == Booked(me, cell.ledger)
    ensures cell.ledger == Ledger(20.0 * Random.Output(noise.generator.S()), map[])
  {
    var timestamp;
    cell, timestamp := NewCell(noise);
    var ok := FirstStart(me, timestamp, q);
    verdict := if ok then Continue else QueueStopped;
  }

  /** What the loop knows of a served entry: it is the START_CALL or one of the END_CALLs. */
  lemma ServedEvent(me: nat, cell: Cell, e: Entry<Msg>, rest: multiset<Entry<Msg>>)
    requires Booked(me, cell.ledger) == rest + multiset{e}
    ensures var msg := e.payload;
            && msg.receiver == me && msg.timestamp == e.priority
            && (msg.kind == START_CALL || msg.kind == END_CALL)
            && (msg.kind == START_CALL ==> rest == Ends(me, cell.ledger.ends))
            && (msg.kind == END_CALL ==>
                  && msg.channel in cell.ledger.ends
                  && rest == Booked(me, Ledger(cell.ledger.start, cell.ledger.ends - {msg.channel})))
  {
    ServedIsBooked(me, cell.ledger, e, rest);
  }

  const NO_EVENT := Msg(0, 0, INIT, 0.0, 0)

  /** Fetching the next event, with the failure exits of the dispatch loop. */
  method Fetch(me: nat, cell: Cell, q: Queue) returns (verdict: Verdict, e: Entry<Msg>)
    requires q.Linked() && Ready(q.S()) && Items(q.S()) == Booked(me, cell.ledger)
    modifies q, q.calq
    ensures verdict == Continue || verdict == QueueStopped
    ensures old(Items(q.S())) == Items(q.S()) + multiset{e} && OfCell(me, e)
    ensures old(Footing(q)) == 2 && Distinct(old(Items(q.S()))) ==> verdict == Continue
    ensures q.Linked() && (verdict == Continue ==> Ready(q.S())) && q.lastprio == e.priority >= 0.0
    ensures Footing(q) >= Kept(old(Footing(q)), old(q.S()))
    ensures CanServe(old(q.S())) && e == Served(old(q.S()))
    ensures e.payload.kind == START_CALL ==> Items(q.S()) == Ends(me, cell.ledger.ends)
    ensures e.payload.kind == END_CALL ==>
              && e.payload.channel in cell.ledger.ends
              && Items(q.S()) == Booked(me, Ledger(cell.ledger.start, cell.ledger.ends - {e.payload.channel}))
  {
    assert Scheduled(me, START_CALL, cell.ledger.start, -1) in Items(q.S());
    var r, ok := Serve(q);
    if r.None? {
      return Aborted, Entry(0.0, NO_EVENT);
    }
    e := r.value;
    ServedEvent(me, cell, e, Items(q.S()));
    if e.payload.receiver != me {
      return Aborted, e;
    }
    verdict := if ok then Continue else QueueStopped;
  }

  /** One turn of the dispatch loop for a cell that exists: the event e is handled. */
  method Turn(me: nat, cell: Cell, q: Queue, noise: Source) returns (verdict: Verdict, e: Entry<Msg>)
    requires cell.Balanced() && cell.Booking() && noise.Valid()
    requires q.Linked() && Ready(q.S()) && Items(q.S()) == Booked(me, cell.ledger)
    modifies cell, cell.table, cell.table.channelState, cell.table.nodes, q, q.calq, noise.generator
    ensures verdict != Aborted && OfCell(me, e) && q.lastprio == e.priority
    ensures old(Footing(q)) == 2 && verdict == QueueStopped ==>
              !Distinct(Items(q.S())) || !Distinct(Items(q.S()) + multiset{e})
    ensures verdict == Finished ==> cell.completeCalls == COMPLETE_CALLS
    ensures q.Linked() && fresh(cell.table.nodes - old(cell.table.nodes))
    ensures Footing(q) >= Kept(old(Footing(q)), old(q.S()))
    ensures CanServe(old(q.S())) && e == Served(old(q.S()))
    ensures verdict == Continue || verdict == Finished ==>
              && cell.lvt == e.priority && cell.executedEvents == Count(old(cell.executedEvents))
              && cell.arrivingCalls == (if e.payload.kind == START_CALL then Count(old(cell.arrivingCalls)) else old(cell.arrivingCalls))
              && cell.completeCalls == (if e.payload.kind == END_CALL then Count(old(cell.completeCalls)) else old(cell.completeCalls))
    ensures verdict == Continue ==>
              cell.Balanced() && cell.Booking() && Ready(q.S()) && Items(q.S()) == Booked(me, cell.ledger)
    ensures verdict == Continue || verdict == Finished ==> Handles(old(cell.ledger), cell.ledger, e.payload, noise.ln)
  {
    verdict, e := Fetch(me, cell, q);
    if verdict != Continue {
      return;
    }
    verdict := ProcessCall(e.payload, cell, q, noise);
  }

  /** A new queue, into which the INIT event is put. */
  method PutInit(id: nat, realign: bool) returns (ok: bool, q: Queue, init: Entry<Msg>)
    ensures fresh(q) && fresh(q.calq) && q.Linked() && q.realign == realign && Footing(q) > 0
    ensures realign ==> Footing(q) == 2 && ok
    ensures init.payload.receiver == id && (ok ==> Ready(q.S()) && Items(q.S()) == multiset{init} && q.lastprio == 0.0)
    ensures init.priority == 0.0
  {
    q := new Q.CalendarQueue<Msg>(realign);
    LocalInitGood<Msg>(0, 2, 1.0, 0.0, true);
    InStepIsSound(LocalInit<Msg>(0, 2, 1.0, 0.0, true));
    var stamp, channel := 0.0, 0;
    init := Entry(0.0, Msg(id, id, INIT, stamp, channel));
    OneIsDistinct(init);
    ok := Enter(q, init);
  }

  /** The start of the run up to the INIT event, which is fetched. */
  method Init(id: nat, realign: bool) returns (verdict: Verdict, q: Queue)
    ensures verdict == Continue || verdict == QueueStopped
    ensures fresh(q) && fresh(q.calq) && q.Linked() && q.realign == realign && Footing(q) > 0
    ensures realign ==> Footing(q) == 2 && verdict == Continue
    ensures verdict == Continue ==> Ready(q.S()) && Items(q.S()) == multiset{} && q.lastprio == 0.0
  {
    var ok, init;
    ok, q, init := PutInit(id, realign);
    if !ok {
      return QueueStopped, q;
    }
    OneIsServed(q.S(), init);
    OneIsDistinct(init);
    var e;
    e, ok := Serve(q);
    if !ok {
      return QueueStopped, q;
    }
    verdict := if e.None? || e.value.payload.receiver != id then Aborted else Continue;
  }

  /** The start of a fiber's work: its queue, the INIT event and the cell it makes. */
  method Boot(id: nat, realign: bool, noise: Source) returns (verdict: Verdict, q: Queue, cell: Cell?)
    requires noise.Valid()
    modifies noise.generator
    ensures verdict == Continue || verdict == QueueStopped
    ensures fresh(q) && fresh(q.calq) && q.Linked() && q.realign == realign && Footing(q) > 0 && (realign ==> Footing(q) == 2)
    ensures realign ==> verdict == Continue
    ensures verdict == Continue ==> cell != null && cell.ledger.ends == map[] && 0.0 < cell.ledger.start < 20.0
    ensures cell != null ==> fresh(cell) && fresh(cell.table) && fresh(cell.table.channelState)
                             && cell.table.nodes == {}
    ensures verdict == Continue ==>
              cell.Balanced() && cell.Booking() && Ready(q.S()) && Items(q.S()) == Booked(id, cell.ledger)
    ensures cell != null ==> Counters(cell) == Counts(0, 0, 0)
  {
    verdict, q := Init(id, realign);
    cell := null;
    if verdict == Continue {
      verdict, cell := ProcessInit(id, q, noise);
    }
  }

  /** The cell and its queue agree: the queue holds one START_CALL and one END_CALL for each busy
      channel and nothing else, and counters, bits and list name as many, and the same, channels. */
  ghost predicate InAgreement(id: nat, cell: Cell, q: Queue)
    reads cell, cell.table, cell.table.channelState, cell.table.spine, q, q.calq
  {
    cell.Balanced() && cell.Booking() && q.Linked() && Ready(q.S()) && Items(q.S()) == Booked(id, cell.ledger)
  }

  /** What a cell has come to. */
  datatype Progress = Progress(counts: Counts, time: real)

  /** For a cell that agrees with its queue; nothing for one that does not. */
  ghost function ProgressOf(id: nat, cell: Cell, q: Queue): Option<Progress>
    reads cell, cell.table, cell.table.channelState, cell.table.spine, q, q.calq
  {
    if InAgreement(id, cell, q) then Some(Progress(Counters(cell), cell.lvt)) else None
  }

  /** A run that goes on: cell and queue agree, the counters count the events handled, and the
      cell's time is that of the last of them. */
  ghost predicate Going(id: nat, cell: Cell, q: Queue, fetched: seq<State<Msg>>, handled: seq<Entry<Msg>>)
    reads cell, cell.table, cell.table.channelState, cell.table.spine, q, q.calq
  {
    && ProgressOf(id, cell, q).Some? && ProgressOf(id, cell, q).value.counts == CountsOf(handled)
    && Reached(q.realign, fetched, handled, q.lastprio, Footing(q))
    && (handled != [] ==> ProgressOf(id, cell, q).value.time == handled[|handled| - 1].priority)
  }

  /** A run that ended: after the last call that counts, or, with the realigning queue, only where
      two events have the same time. */
  ghost predicate Ended(verdict: Verdict, cell: Cell, q: Queue, handled: seq<Entry<Msg>>)
    reads cell, q
  {
    && handled != [] && (verdict == Finished || verdict == QueueStopped)
    && (verdict == Finished ==> cell.completeCalls == COMPLETE_CALLS && Counters(cell) == CountsOf(handled)
                                && cell.lvt == handled[|handled| - 1].priority)
    && (verdict == QueueStopped && q.realign ==> Tied(handled, Items(q.S())))
  }

  lemma TurnGrows(id: nat, realign: bool, fetched: seq<State<Msg>>, handled: seq<Entry<Msg>>, s: State<Msg>, e: Entry<Msg>,
                  footing: nat, footing': nat)
    requires Past(id, realign, fetched, handled) && Reached(realign, fetched, handled, s.at.lastprio, footing)
    requires OfCell(id, e) && CanServe(s) && e == Served(s) && footing' >= Kept(footing, s) && footing' <= 2
    requires (footing > 0 ==> Stands(s)) && (realign && footing == 2 ==> StateInStep(s))
    ensures Past(id, realign, fetched + [s], handled + [e])
    ensures Reached(realign, fetched + [s], handled + [e], e.priority, footing')
    ensures CountsOf(handled + [e]) == Counted(CountsOf(handled), e.payload.kind)
  {
    PastGrows(id, realign, fetched, handled, s, e, footing, footing');
    CountsGrow(handled, e);
  }

  lemma TurnIsAccounted(id: nat, ln: real -> real, ledgers: seq<Ledger>, handled: seq<Entry<Msg>>, before: Ledger, after: Ledger,
                        s: State<Msg>, e: Entry<Msg>)
    requires Accounted(id, ln, ledgers, handled, before) && Handles(before, after, e.payload, ln)
    requires CanServe(s) && e == Served(s) && Items(s) == Booked(id, before)
    ensures Accounted(id, ln, ledgers + [before], handled + [e], after)
  {
    ServeGood(s, false);
    AccountGrows(id, ln, ledgers, handled, before, after, e);
  }

  /** One turn of the work. */
  method NextTurn(id: nat, cell: Cell, q: Queue, noise: Source, ghost fetched: seq<State<Msg>>, ghost ledgers: seq<Ledger>,
                  handled: seq<Entry<Msg>>)
    returns (verdict: Verdict, ghost fetched': seq<State<Msg>>, ghost ledgers': seq<Ledger>, more: seq<Entry<Msg>>)
    requires Accounted(id, noise.ln, ledgers, handled, cell.ledger)
    requires Going(id, cell, q, fetched, handled) && Past(id, q.realign, fetched, handled) && noise.Valid()
    modifies cell, cell.table, cell.table.channelState, cell.table.nodes, q, q.calq, noise.generator
    ensures |more| == |handled| + 1
    ensures if verdict == Continue then Going(id, cell, q, fetched', more) else Ended(verdict, cell, q, more)
    ensures Past(id, q.realign, fetched', more)
    ensures verdict != QueueStopped ==> Accounted(id, noise.ln, ledgers', more, cell.ledger)
    ensures fresh(cell.table.nodes - old(cell.table.nodes))
  {
    ghost var s, footing, before := q.S(), Footing(q), cell.ledger;
    var e;
    verdict, e := Turn(id, cell, q, noise);
    fetched', ledgers', more := fetched + [s], ledgers + [before], handled + [e];
    if StateInStep(s) { InStepIsSound(s); }
    TurnGrows(id, q.realign, fetched, handled, s, e, footing, Footing(q));
    if verdict != QueueStopped {
      TurnIsAccounted(id, noise.ln, ledgers, handled, before, cell.ledger, s, e);
    }
    if verdict == QueueStopped && q.realign {
      TieStays(handled, e, Items(q.S()));
    }
  }

  /** The turns of a new cell. */
  method Work(id: nat, turns: nat, cell: Cell, q: Queue, noise: Source)
    returns (verdict: Verdict, ghost fetched: seq<State<Msg>>, ghost ledgers: seq<Ledger>, handled: seq<Entry<Msg>>)
    requires cell.ledger.ends == map[] && 0.0 < cell.ledger.start < 20.0
    requires Going(id, cell, q, [], []) && cell.table.nodes == {} && noise.Valid()
    modifies cell, cell.table, cell.table.channelState, q, q.calq, noise.generator
    ensures |handled| <= turns && (verdict == Continue ==> |handled| == turns)
    ensures if verdict == Continue then Going(id, cell, q, fetched, handled) else Ended(verdict, cell, q, handled)
    ensures Past(id, q.realign, fetched, handled)
    ensures verdict != QueueStopped ==> Accounted(id, noise.ln, ledgers, handled, cell.ledger)
  {
    verdict, fetched, ledgers, handled := Continue, [], [], [];
    while |handled| < turns && verdict == Continue
      invariant |handled| <= turns && fresh(cell.table.nodes) && Past(id, q.realign, fetched, handled)
      invariant if verdict == Continue then Going(id, cell, q, fetched, handled) else Ended(verdict, cell, q, handled)
      invariant verdict != QueueStopped ==> Accounted(id, noise.ln, ledgers, handled, cell.ledger)
      decreases turns - |handled|
    {
      verdict, fetched, ledgers, handled := NextTurn(id, cell, q, noise, fetched, ledgers, handled);
    }
  }

  /** The work of one fiber, for any number of turns. No run ever takes an abort or a failure exit.
      After every turn that goes on, cell and queue agree, and the cell's counters count the events
      handled; the run ends after the last call that counts. As long as the events are fetched from
      sound cursors their times do not go back; with the realigning queue they always are, and that
      queue stops only where two of the events handled or still queued have the same time. */
  method MainLoop(id: nat, turns: nat, realign: bool, noise: Source)
    returns (verdict: Verdict, q: Queue, cell: Cell?, ghost fetched: seq<State<Msg>>, ghost ledgers: seq<Ledger>,
             handled: seq<Entry<Msg>>)
    requires noise.Valid()
    modifies noise.generator
    ensures q.realign == realign && verdict != Aborted
    ensures |handled| <= turns && (verdict == Continue ==> |handled| == turns)
    ensures verdict == Continue ==> cell != null && Going(id, cell, q, fetched, handled)
    ensures verdict == Finished ==> cell != null && Ended(verdict, cell, q, handled)
    ensures verdict == QueueStopped && handled != [] ==> cell != null && Ended(verdict, cell, q, handled)
    ensures verdict == QueueStopped && realign ==> handled != []
    ensures Past(id, realign, fetched, handled)
    ensures verdict != QueueStopped ==> Accounted(id, noise.ln, ledgers, handled, cell.ledger)
    ensures OrderedWhileSound(fetched, handled) && (realign ==> AllSound(fetched) && AscendingEntries(handled))
  {
    fetched, ledgers, handled := [], [], [];
    verdict, q, cell := Boot(id, realign, noise);
    if verdict != Continue {
      return;
    }
    verdict, fetched, ledgers, handled := Work(id, turns, cell, q, noise);
    PastIsOrdered(id, realign, fetched, handled);
  }
}
