/** Running the class is running the model. */
module QueueDriver {
  import opened Common
  import opened Calendar
  import opened QueueModel
  import opened QueueRuns
  import Q = CalendarQueue

  /** One operation of a run that has not stopped. */
  method Apply<P(!new)>(q: Q.CalendarQueue<P>, op: Op<P>, ghost r: Running<P>) returns (ok: bool, e: Option<Entry<P>>)
    requires q.Linked() && Good(q.S()) && q.S() == r.state && r.ok && Settled(r.state)
    requires op.PutOp? ==> op.entry.priority >= 0.0
    modifies q, q.calq
    ensures q.Linked() && q.S() == Next(r, op, q.realign).state && ok == Next(r, op, q.realign).ok
    ensures Next(r, op, q.realign).served == r.served + if e.Some? then [e.value] else []
  {
    if op.PutOp? {
      ok := q.Put(op.entry.priority, op.entry.payload);
      e := None;
    } else {
      e, ok := q.Deq();
    }
  }

  /** One round of a run, which does nothing once the run has stopped. */
  method Round<P(!new)>(q: Q.CalendarQueue<P>, ops: seq<Op<P>>, i: nat, stillOk: bool, sofar: seq<Entry<P>>)
    returns (ok: bool, served: seq<Entry<P>>)
    requires Proper(ops) && i < |ops| && q.Linked() && q.S() == Run(ops, i, q.realign).state
    requires stillOk == Run(ops, i, q.realign).ok && sofar == Run(ops, i, q.realign).served
    modifies q, q.calq
    ensures q.Linked() && q.S() == Run(ops, i + 1, q.realign).state
    ensures ok == Run(ops, i + 1, q.realign).ok && served == Run(ops, i + 1, q.realign).served
  {
    ok, served := stillOk, sofar;
    if ok {
      RunPaid(ops, i, q.realign);
      var e;
      ok, e := Apply(q, ops[i], Run(ops, i, q.realign));
      served := served + if e.Some? then [e.value] else [];
    }
  }

  /** A fresh queue driven through any sequence of puts and gets does what Run says; it stops
      at the first resize whose width it cannot work with. */
  method Execute<P(!new)>(ops: seq<Op<P>>, realign: bool) returns (ok: bool, served: seq<Entry<P>>)
    requires Proper(ops)
    ensures ok == Run(ops, |ops|, realign).ok && served == Run(ops, |ops|, realign).served
  {
    var q := new Q.CalendarQueue<P>(realign);
    ok, served := true, [];
    for i := 0 to |ops|
      invariant q.Linked() && fresh(q) && fresh(q.calq) && q.realign == realign
      invariant q.S() == Run(ops, i, realign).state
      invariant ok == Run(ops, i, realign).ok && served == Run(ops, i, realign).served
    {
      ok, served := Round(q, ops, i, ok, served);
    }
  }
}
