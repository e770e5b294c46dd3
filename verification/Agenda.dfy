/** The calendar queue as its clients see it: a multiset of entries to put into and serve from. */
module Agenda {
  import opened Common
  import opened Calendar
  import opened QueueModel
  import opened QueueRuns
  import Q = CalendarQueue

  /** The queue is ready for its next operation. */
  ghost predicate Ready<P(!new)>(s: State<P>) {
    Good(s) && Settled(s) && s.geo.resizeEnabled
  }

  /** How well the cursor stands: 2 for the realigning variant in step, whose next entry always is a
      minimum; 1 for either version where the cursor stands somewhere; 0 once order is lost. */
  ghost function Footing<P(!new)>(q: Q.CalendarQueue<P>): nat
    reads q
  {
    if q.realign && StateInStep(q.S()) then 2 else if Stands(q.S()) then 1 else 0
  }

  /** A put, which is not ok where a resize meets an unusable width; with the realigning variant
      that takes two equal priorities. */
  method Enter<P(!new)>(q: Q.CalendarQueue<P>, e: Entry<P>) returns (ok: bool)
    requires q.Linked() && Ready(q.S()) && e.priority >= 0.0
    modifies q, q.calq
    ensures q.Linked() && Items(q.S()) == old(Items(q.S())) + multiset{e}
    ensures ok ==> Ready(q.S())
    ensures q.lastprio == old(q.lastprio)
    ensures e.priority >= q.lastprio ==> Footing(q) >= old(Footing(q))
    ensures old(Footing(q)) == 2 && e.priority >= q.lastprio && Distinct(Items(q.S())) ==> ok
  {
    PutAdds(q.S(), e, q.realign);
    PutSettled(q.S(), e, q.realign);
    if Footing(q) > 0 && e.priority >= q.lastprio {
      EnterKeeps(q.S(), e, q.realign);
    }
    ok := q.Put(e.priority, e.payload);
  }

  lemma EnterKeeps<P(!new)>(s: State<P>, e: Entry<P>, realign: bool)
    requires (Stands(s) || StateInStep(s)) && e.priority >= s.at.lastprio
    ensures Stands(Put(s, e, realign).state) && (StateInStep(s) ==> StateInStep(Put(s, e, realign).state))
    ensures realign && StateInStep(s) && Distinct(Items(s) + multiset{e}) ==> Put(s, e, realign).ok
  {
    if StateInStep(s) { InStepIsSound(s); }
    PutStands(s, e, realign);
    if realign && StateInStep(s) && Distinct(Items(s) + multiset{e}) {
      RealignedPut(s, e);
      PutOk(s, e, true);
    }
  }

  lemma ServeKeeps<P(!new)>(s: State<P>, realign: bool)
    requires CanServe(s)
    ensures Stands(s) && IsMinimum(Served(s), Items(s)) ==> Stands(Deq(s, realign).state) && s.at.lastprio <= Served(s).priority
    ensures realign && StateInStep(s) ==> StateInStep(Deq(s, realign).state)
    ensures realign && StateInStep(s) && Distinct(Items(s)) ==> Deq(s, realign).ok
  {
    if Stands(s) && IsMinimum(Served(s), Items(s)) { MinimumStands(s, realign); }
    if realign && StateInStep(s) {
      InStepIsSound(s);
      DeqInStep(s, true);
      RealignedDeq(s);
      if Distinct(Items(s)) { DeqOk(s, true); }
    }
  }

  /** What a get leaves of the footing: all of it where it serves a minimum, which it does from every
      sound cursor. */
  ghost function Kept<P(!new)>(footing: nat, s: State<P>): nat {
    if footing == 2 || (CanServe(s) && IsMinimum(Served(s), Items(s))) then footing else 0
  }

  lemma SoundServes<P(!new)>(s: State<P>, realign: bool)
    requires CanServe(s) && Stands(s) && Sound(s)
    ensures IsMinimum(Served(s), Items(s)) && s.at.lastprio <= Served(s).priority
  {
    ServesMinimum(s);
    MinimumStands(s, realign);
  }

  /** A get, with the priority of the node it frees. */
  method Serve<P(!new)>(q: Q.CalendarQueue<P>) returns (r: Option<Entry<P>>, ok: bool)
    requires q.Linked() && Ready(q.S())
    modifies q, q.calq
    ensures q.Linked()
    ensures r.None? <==> old(Items(q.S())) == multiset{}
    ensures r.Some? ==> CanServe(old(q.S())) && r.value == Served(old(q.S()))
    ensures r.Some? ==> old(Items(q.S())) == Items(q.S()) + multiset{r.value} && q.lastprio == r.value.priority
                        && r.value.priority >= 0.0
    ensures ok ==> Ready(q.S())
    ensures r.Some? && old(Stands(q.S()) && Sound(q.S())) ==>
              IsMinimum(r.value, old(Items(q.S()))) && old(q.lastprio) <= r.value.priority
    ensures r.Some? ==> Footing(q) >= Kept(old(Footing(q)), old(q.S()))
    ensures old(Footing(q)) == 2 && Distinct(old(Items(q.S()))) ==> ok
  {
    GoodFacts(q.S());
    if q.qsize > 0 {
      DeqRemoves(q.S(), q.realign);
      DeqSettled(q.S(), q.realign);
      ServeKeeps(q.S(), q.realign);
      if StateInStep(q.S()) { InStepIsSound(q.S()); }
      if Stands(q.S()) && Sound(q.S()) { SoundServes(q.S(), q.realign); }
    }
    r, ok := q.Deq();
  }
}
