/** Execution times of kernel fibers: what the handler of CPU dispatches and the explicit switch
    charge to the active fiber, in microseconds, against a monotone clock in nanoseconds. */
module FiberTime {
  import opened Common
  import KernelFibers

  /** A task; a fiber record, by its identity. */
  type Task = KernelFibers.Task
  type Fid = nat

  datatype Fiber = Fiber(startingTime: nat, totalTime: nat)

  /** A charge: the interval that was added to a fiber's total, and the CPU it passed on. */
  datatype Charge = Charge(fiber: Fid, cpu: nat, from: nat, to: nat)

  /** current is the task on each CPU, scheduled the handler's own record of it; active maps
      registered threads to fibers. start, since and ledger are bookkeeping that no step depends
      on: since is when a CPU last changed its task or that task's fiber. */
  datatype State = State(
    now: nat, current: seq<Task>, scheduled: seq<Option<Task>>,
    active: map<Task, Fid>, fibers: map<Fid, Fiber>, nextId: nat,
    start: nat, since: seq<nat>, ledger: seq<Charge>)

  // ---------- Steps ----------

  datatype Step =
    | Tick(d: nat)
    | Dispatch(cpu: nat, next: Task)
    | Convert(cpu: nat)
    | Create(cpu: nat)
    | SwitchTo(cpu: nat, to: Fid)
    | Exit(cpu: nat)

  /** Adding the time since the starting time, in whole microseconds. */
  function Charged(s: State, cpu: nat, f: Fid): State
    requires f in s.fibers && s.fibers[f].startingTime <= s.now
  {
    var fiber := s.fibers[f];
    s.(fibers := s.fibers[f := fiber.(totalTime := fiber.totalTime + (s.now - fiber.startingTime) / 1000)],
       ledger := s.ledger + [Charge(f, cpu, fiber.startingTime, s.now)])
  }

  function Started(s: State, f: Fid): State
    requires f in s.fibers
  {
    s.(fibers := s.fibers[f := s.fibers[f].(startingTime := s.now)])
  }

  function Since(s: State, cpu: nat): State
    requires cpu < |s.since|
  {
    s.(since := s.since[cpu := s.now])
  }

  /** The handler charges the thread it recorded, if that is registered, and starts the clock of
      the new task's fiber. */
  ghost function DoDispatch(s: State, cpu: nat, next: Task): State
    requires Inv(s) && cpu < |s.current|
  {
    var last := s.scheduled[cpu];
    assert CpuOk(s, cpu) && (next in s.active ==> ActiveOk(s, next));
    assert last.Some? && last.value in s.active ==> ActiveOk(s, last.value);
    var charged := if last.Some? && last.value in s.active then Charged(s, cpu, s.active[last.value]) else s;
    var started := if next in s.active then Started(charged, s.active[next]) else charged;
    Since(started, cpu).(current := s.current[cpu := next], scheduled := s.scheduled[cpu := Some(next)])
  }

  ghost function DoSwitch(s: State, cpu: nat, to: Fid): State
    requires Inv(s) && cpu < |s.current|
  {
    var t := s.current[cpu];
    if t !in s.active || to !in s.fibers || to in s.active.Values then s
    else
      assert CpuOk(s, cpu) && ActiveOk(s, t);
      var f := s.active[t];
      var charged := if s.fibers[f].startingTime != 0 then Charged(s, cpu, f) else s;
      Since(Started(charged, to), cpu).(active := s.active[t := to])
  }

  function DoConvert(s: State, cpu: nat): State
    requires cpu < |s.current| == |s.since|
  {
    if s.current[cpu] in s.active then s
    else Since(s, cpu).(active := s.active[s.current[cpu] := s.nextId], nextId := s.nextId + 1,
            fibers := s.fibers[s.nextId := Fiber(s.now, 0)])
  }

  function DoCreate(s: State, cpu: nat): State
    requires cpu < |s.current|
  {
    if s.current[cpu] !in s.active then s
    else s.(nextId := s.nextId + 1, fibers := s.fibers[s.nextId := Fiber(0, 0)])
  }

  function DoExit(s: State, cpu: nat): State
    requires cpu < |s.current|
  {
    var t := s.current[cpu];
    if t !in s.active then s else s.(active := s.active - {t}, fibers := s.fibers - {s.active[t]})
  }

  /** A task is dispatched on one CPU at a time. */
  ghost function Next(s: State, step: Step): State
    requires Inv(s)
  {
    match step
    case Tick(d) => s.(now := s.now + d)
    case Dispatch(cpu, next) =>
      if cpu >= |s.current| || (exists c :: 0 <= c < |s.current| && c != cpu && s.current[c] == next) then s
      else DoDispatch(s, cpu, next)
    case SwitchTo(cpu, to) => if cpu >= |s.current| then s else DoSwitch(s, cpu, to)
    case Convert(cpu) => if cpu >= |s.current| then s else DoConvert(s, cpu)
    case Create(cpu) => if cpu >= |s.current| then s else DoCreate(s, cpu)
    case Exit(cpu) => if cpu >= |s.current| then s else DoExit(s, cpu)
  }

  // ---------- The ledger ----------

  /** What the entries of one fiber add up to, rounded down one by one. */
  function TotalOf(l: seq<Charge>, f: Fid): nat
    requires Forward(l)
  {
    if l == [] then 0
    else
      var e := l[|l| - 1];
      TotalOf(l[..|l| - 1], f) + if e.fiber == f then (e.to - e.from) / 1000 else 0
  }

  /** The nanoseconds charged on one CPU. */
  function SpentOn(l: seq<Charge>, cpu: nat): nat
    requires Forward(l)
  {
    if l == [] then 0
    else
      var e := l[|l| - 1];
      SpentOn(l[..|l| - 1], cpu) + if e.cpu == cpu then e.to - e.from else 0
  }

  predicate Forward(l: seq<Charge>) {
    forall i :: 0 <= i < |l| ==> l[i].from <= l[i].to
  }

  /** Charges of one fiber do not overlap, and neither do charges on one CPU. */
  predicate Disjoint(l: seq<Charge>) {
    forall i, j :: 0 <= i < j < |l| && (l[i].fiber == l[j].fiber || l[i].cpu == l[j].cpu) ==> l[i].to <= l[j].from
  }

  predicate Within(l: seq<Charge>, lo: nat, hi: nat) {
    forall i :: 0 <= i < |l| ==> lo <= l[i].from && l[i].to <= hi
  }

  // ---------- What holds at every moment ----------

  /** Nothing was charged to fiber f, or on the CPU, after the given moment. */
  predicate NotAfter(l: seq<Charge>, f: Fid, cpu: nat, moment: nat) {
    forall i :: 0 <= i < |l| && (l[i].fiber == f || l[i].cpu == cpu) ==> l[i].to <= moment
  }

  ghost predicate ActiveOk(s: State, t: Task)
    requires t in s.active
  {
    s.active[t] in s.fibers && forall u :: u in s.active && s.active[u] == s.active[t] ==> u == t
  }

  /** The task on a CPU is the recorded one, if any is recorded; it is on no other CPU; its fiber's
      clock was started after all that was charged to the fiber or on the CPU. */
  ghost predicate CpuOk(s: State, cpu: nat)
    requires cpu < |s.current| == |s.scheduled| == |s.since|
  {
    var t := s.current[cpu];
    && (s.scheduled[cpu].Some? ==> s.scheduled[cpu].value == t)
    && (forall c :: 0 <= c < |s.current| && c != cpu ==> s.current[c] != t)
    && (t in s.active && s.active[t] in s.fibers ==>
          var f := s.active[t];
          s.start <= s.fibers[f].startingTime == s.since[cpu] <= s.now && NotAfter(s.ledger, f, cpu, s.fibers[f].startingTime))
  }

  ghost predicate FiberOk(s: State, f: Fid)
    requires f in s.fibers && Forward(s.ledger)
  {
    f < s.nextId && s.fibers[f].totalTime == TotalOf(s.ledger, f)
  }

  ghost predicate LedgerOk(s: State) {
    && s.start <= s.now && Forward(s.ledger) && Disjoint(s.ledger) && Within(s.ledger, s.start, s.now)
    && forall i :: 0 <= i < |s.ledger| ==> s.ledger[i].fiber < s.nextId && s.ledger[i].cpu < |s.current|
  }

  ghost predicate Inv(s: State) {
    && LedgerOk(s) && |s.current| == |s.scheduled| == |s.since|
    && (forall cpu {:trigger CpuOk(s, cpu)} :: 0 <= cpu < |s.current| ==> CpuOk(s, cpu))
    && (forall t {:trigger ActiveOk(s, t)} :: t in s.active ==> ActiveOk(s, t))
    && (forall f {:trigger FiberOk(s, f)} :: f in s.fibers ==> FiberOk(s, f))
  }

  // ---------- Every step keeps it ----------

  lemma {:induction false} TotalOfNew(l: seq<Charge>, f: Fid)
    requires Forward(l) && forall i :: 0 <= i < |l| ==> l[i].fiber != f
    ensures TotalOf(l, f) == 0
  {
    if l != [] { TotalOfNew(l[..|l| - 1], f); }
  }

  /** The time of a charge: the fiber is on the CPU since its clock was started. */
  ghost predicate MayCharge(s: State, cpu: nat, f: Fid) {
    && LedgerOk(s) && cpu < |s.current| && f in s.fibers && f < s.nextId
    && s.start <= s.fibers[f].startingTime <= s.now
    && NotAfter(s.ledger, f, cpu, s.fibers[f].startingTime)
  }

  lemma ChargeKeepsLedger(s: State, cpu: nat, f: Fid)
    requires MayCharge(s, cpu, f)
    ensures LedgerOk(Charged(s, cpu, f))
  {
  }

  lemma ChargeKeepsTotal(s: State, cpu: nat, f: Fid, g: Fid)
    requires MayCharge(s, cpu, f) && g in s.fibers && FiberOk(s, g)
    ensures LedgerOk(Charged(s, cpu, f)) && FiberOk(Charged(s, cpu, f), g)
  {
    ChargeKeepsLedger(s, cpu, f);
    var l := Charged(s, cpu, f).ledger;
    assert l[..|l| - 1] == s.ledger;
  }

  ghost predicate At(s: State, cpu: nat) {
    Inv(s) && cpu < |s.current|
  }

  /** The task on a CPU, if registered, may be charged. */
  lemma OnCpu(s: State, cpu: nat)
    requires At(s, cpu) && s.current[cpu] in s.active
    ensures ActiveOk(s, s.current[cpu]) && CpuOk(s, cpu) && MayCharge(s, cpu, s.active[s.current[cpu]])
  {
    assert CpuOk(s, cpu) && ActiveOk(s, s.current[cpu]) && FiberOk(s, s.active[s.current[cpu]]);
  }

  /** After a charge, another CPU's clock still runs ahead of its charges. */
  lemma ChargeKeepsCpu(s: State, cpu: nat, other: nat)
    requires At(s, cpu) && s.current[cpu] in s.active && s.active[s.current[cpu]] in s.fibers
    requires MayCharge(s, cpu, s.active[s.current[cpu]]) && other < |s.current| && other != cpu
    ensures CpuOk(Charged(s, cpu, s.active[s.current[cpu]]), other)
  {
    assert CpuOk(s, cpu) && CpuOk(s, other) && ActiveOk(s, s.current[cpu]);
  }

  /** All that is fine except the clock of the fiber on one CPU, which is about to be restarted. */
  ghost predicate Restarting(s: State, cpu: nat) {
    && LedgerOk(s) && cpu < |s.current| == |s.scheduled| == |s.since|
    && (forall c {:trigger CpuOk(s, c)} :: 0 <= c < |s.current| && c != cpu ==> CpuOk(s, c))
    && (s.scheduled[cpu].Some? ==> s.scheduled[cpu].value == s.current[cpu])
    && (forall c :: 0 <= c < |s.current| && c != cpu ==> s.current[c] != s.current[cpu])
    && (forall t {:trigger ActiveOk(s, t)} :: t in s.active ==> ActiveOk(s, t))
    && (forall f {:trigger FiberOk(s, f)} :: f in s.fibers ==> FiberOk(s, f))
  }

  lemma ChargeKeeps(s: State, cpu: nat)
    requires At(s, cpu) && s.current[cpu] in s.active && s.active[s.current[cpu]] in s.fibers
    requires MayCharge(s, cpu, s.active[s.current[cpu]])
    ensures Restarting(Charged(s, cpu, s.active[s.current[cpu]]), cpu)
  {
    var f := s.active[s.current[cpu]];
    var s' := Charged(s, cpu, f);
    ChargeKeepsLedger(s, cpu, f);
    forall c | 0 <= c < |s.current| && c != cpu ensures CpuOk(s', c) { ChargeKeepsCpu(s, cpu, c); }
    assert CpuOk(s, cpu);
    forall t | t in s'.active ensures ActiveOk(s', t) { assert ActiveOk(s, t); }
    forall g | g in s'.fibers ensures FiberOk(s', g) {
      assert FiberOk(s, g);
      ChargeKeepsTotal(s, cpu, f, g);
    }
  }

  lemma SkipKeeps(s: State, cpu: nat)
    requires At(s, cpu)
    ensures Restarting(s, cpu)
  {
    assert CpuOk(s, cpu);
  }

  /** Another task, or another fiber of the task, on the CPU, and its clock restarted. */
  lemma RestartKeeps(s: State, cpu: nat, f: Fid)
    requires Restarting(s, cpu) && f in s.fibers
    requires forall c :: 0 <= c < |s.current| && c != cpu && s.current[c] in s.active ==> s.active[s.current[c]] != f
    requires s.current[cpu] in s.active ==> s.active[s.current[cpu]] == f
    ensures Inv(Since(Started(s, f), cpu))
  {
    var s' := Since(Started(s, f), cpu);
    forall c | 0 <= c < |s'.current| ensures CpuOk(s', c) {
      if c != cpu { assert CpuOk(s, c); }
    }
    forall t | t in s'.active ensures ActiveOk(s', t) { assert ActiveOk(s, t); }
    forall g | g in s'.fibers ensures FiberOk(s', g) { assert FiberOk(s, g); }
  }

  /** The task on a CPU changes. */
  lemma MoveKeeps(s: State, cpu: nat, next: Task)
    requires Restarting(s, cpu) && forall c :: 0 <= c < |s.current| && c != cpu ==> s.current[c] != next
    ensures Restarting(s.(current := s.current[cpu := next], scheduled := s.scheduled[cpu := Some(next)]), cpu)
  {
    var s' := s.(current := s.current[cpu := next], scheduled := s.scheduled[cpu := Some(next)]);
    forall c | 0 <= c < |s.current| && c != cpu ensures CpuOk(s', c) { assert CpuOk(s, c); }
    forall t | t in s'.active ensures ActiveOk(s', t) { assert ActiveOk(s, t); }
    forall g | g in s'.fibers ensures FiberOk(s', g) { assert FiberOk(s, g); }
  }

  /** A task without a fiber has no clock to restart. */
  lemma IdleKeeps(s: State, cpu: nat)
    requires Restarting(s, cpu) && s.current[cpu] !in s.active
    ensures Inv(Since(s, cpu))
  {
    var s' := Since(s, cpu);
    forall c | 0 <= c < |s'.current| ensures CpuOk(s', c) {
      if c != cpu { assert CpuOk(s, c); }
    }
    forall t | t in s'.active ensures ActiveOk(s', t) { assert ActiveOk(s, t); }
    forall g | g in s'.fibers ensures FiberOk(s', g) { assert FiberOk(s, g); }
  }

  lemma DispatchKeeps(s: State, cpu: nat, next: Task)
    requires At(s, cpu) && forall c :: 0 <= c < |s.current| && c != cpu ==> s.current[c] != next
    ensures Inv(DoDispatch(s, cpu, next))
  {
    var last := s.scheduled[cpu];
    assert CpuOk(s, cpu);
    if s.current[cpu] in s.active { OnCpu(s, cpu); }
    var charged := if last.Some? && last.value in s.active then Charged(s, cpu, s.active[last.value]) else s;
    if last.Some? && last.value in s.active { ChargeKeeps(s, cpu); } else { SkipKeeps(s, cpu); }
    MoveKeeps(charged, cpu, next);
    var moved := charged.(current := s.current[cpu := next], scheduled := s.scheduled[cpu := Some(next)]);
    if next in s.active {
      assert ActiveOk(s, next);
      RestartKeeps(moved, cpu, s.active[next]);
    } else {
      IdleKeeps(moved, cpu);
    }
  }

  /** The active fiber of the task on a CPU changes to one that no thread has. */
  lemma TakeKeeps(s: State, cpu: nat, to: Fid)
    requires Restarting(s, cpu) && s.current[cpu] in s.active && to in s.fibers && to !in s.active.Values
    ensures Restarting(s.(active := s.active[s.current[cpu] := to]), cpu)
  {
    var t := s.current[cpu];
    var s' := s.(active := s.active[t := to]);
    forall c | 0 <= c < |s.current| && c != cpu ensures CpuOk(s', c) { assert CpuOk(s, c); }
    forall u | u in s'.active ensures ActiveOk(s', u) {
      if u != t { assert ActiveOk(s, u); }
    }
    forall g | g in s'.fibers ensures FiberOk(s', g) { assert FiberOk(s, g); }
  }

  lemma SwitchKeeps(s: State, cpu: nat, to: Fid)
    requires At(s, cpu)
    ensures Inv(DoSwitch(s, cpu, to))
  {
    var t := s.current[cpu];
    if t in s.active && to in s.fibers && to !in s.active.Values {
      OnCpu(s, cpu);
      var f := s.active[t];
      var charged := if s.fibers[f].startingTime != 0 then Charged(s, cpu, f) else s;
      if s.fibers[f].startingTime != 0 { ChargeKeeps(s, cpu); } else { SkipKeeps(s, cpu); }
      TakeKeeps(charged, cpu, to);
      RestartKeeps(charged.(active := s.active[t := to]), cpu, to);
    }
  }

  lemma ConvertKeeps(s: State, cpu: nat)
    requires At(s, cpu)
    ensures Inv(DoConvert(s, cpu))
  {
    var s' := DoConvert(s, cpu);
    assert CpuOk(s, cpu);
    TotalOfNew(s.ledger, s.nextId);
    forall c | 0 <= c < |s'.current| ensures CpuOk(s', c) {
      assert CpuOk(s, c);
      if s.current[c] in s.active { ActiveIsOld(s, s.current[c]); }
    }
    forall f | f in s'.fibers ensures FiberOk(s', f) {
      if f in s.fibers { assert FiberOk(s, f); }
    }
    forall t | t in s'.active ensures ActiveOk(s', t) { ConvertActive(s, cpu, t); }
  }

  lemma ActiveIsOld(s: State, t: Task)
    requires Inv(s) && t in s.active
    ensures s.active[t] in s.fibers && s.active[t] < s.nextId
  {
    assert ActiveOk(s, t) && FiberOk(s, s.active[t]);
  }

  lemma ConvertActive(s: State, cpu: nat, t: Task)
    requires At(s, cpu) && t in DoConvert(s, cpu).active
    ensures ActiveOk(DoConvert(s, cpu), t)
  {
    forall u | u in s.active ensures s.active[u] < s.nextId { ActiveIsOld(s, u); }
    if t in s.active { assert ActiveOk(s, t); }
  }

  lemma CreateKeeps(s: State, cpu: nat)
    requires At(s, cpu)
    ensures Inv(DoCreate(s, cpu))
  {
    var s' := DoCreate(s, cpu);
    TotalOfNew(s.ledger, s.nextId);
    forall c | 0 <= c < |s'.current| ensures CpuOk(s', c) {
      assert CpuOk(s, c);
      if s.current[c] in s.active { ActiveIsOld(s, s.current[c]); }
    }
    forall f | f in s'.fibers ensures FiberOk(s', f) {
      if f in s.fibers { assert FiberOk(s, f); }
    }
    forall t | t in s'.active ensures ActiveOk(s', t) { assert ActiveOk(s, t); }
  }

  lemma ExitKeeps(s: State, cpu: nat)
    requires At(s, cpu)
    ensures Inv(DoExit(s, cpu))
  {
    var s' := DoExit(s, cpu);
    forall c | 0 <= c < |s'.current| ensures CpuOk(s', c) { assert CpuOk(s, c); }
    forall f | f in s'.fibers ensures FiberOk(s', f) { assert FiberOk(s, f); }
    forall t | t in s'.active ensures ActiveOk(s', t) {
      assert ActiveOk(s, t);
      if s.current[cpu] in s.active { assert ActiveOk(s, s.current[cpu]); }
    }
  }

  lemma TickKeeps(s: State, d: nat)
    requires Inv(s)
    ensures Inv(s.(now := s.now + d))
  {
    var s' := s.(now := s.now + d);
    forall c | 0 <= c < |s'.current| ensures CpuOk(s', c) { assert CpuOk(s, c); }
    forall f | f in s'.fibers ensures FiberOk(s', f) { assert FiberOk(s, f); }
    forall t | t in s'.active ensures ActiveOk(s', t) { assert ActiveOk(s, t); }
  }

  lemma NextKeeps(s: State, step: Step)
    requires Inv(s)
    ensures Inv(Next(s, step))
  {
    match step
    case Tick(d) => TickKeeps(s, d);
    case Dispatch(cpu, next) =>
      if cpu < |s.current| && forall c :: 0 <= c < |s.current| && c != cpu ==> s.current[c] != next {
        DispatchKeeps(s, cpu, next);
      }
    case SwitchTo(cpu, to) => if cpu < |s.current| { SwitchKeeps(s, cpu, to); }
    case Convert(cpu) => if cpu < |s.current| { ConvertKeeps(s, cpu); }
    case Create(cpu) => if cpu < |s.current| { CreateKeeps(s, cpu); }
    case Exit(cpu) => if cpu < |s.current| { ExitKeeps(s, cpu); }
  }

  // ---------- Over a whole run ----------

  /** Tasks on all CPUs, no dispatch seen yet, and no fibers. */
  ghost predicate Initial(s: State) {
    && s.start == s.now && s.ledger == [] && s.active == map[] && s.fibers == map[]
    && |s.scheduled| == |s.current| == |s.since| && (forall c :: 0 <= c < |s.current| ==> s.scheduled[c] == None)
    && forall c, d :: 0 <= c < d < |s.current| ==> s.current[c] != s.current[d]
  }

  lemma InitialIsFine(s: State)
    requires Initial(s)
    ensures Inv(s)
  {
  }

  ghost function Run(s: State, steps: seq<Step>): (r: State)
    requires Inv(s)
    ensures Inv(r)
  {
    if steps == [] then s
    else
      var r := Run(s, steps[..|steps| - 1]);
      NextKeeps(r, steps[|steps| - 1]);
      Next(r, steps[|steps| - 1])
  }

  /** What all charges come to, in microseconds. */
  function Credited(l: seq<Charge>): nat
    requires Forward(l)
  {
    if l == [] then 0
    else
      var e := l[|l| - 1];
      Credited(l[..|l| - 1]) + (e.to - e.from) / 1000
  }

  /** The total times of some fibers. */
  function SumOf(s: State, fs: seq<Fid>): nat
    requires forall i :: 0 <= i < |fs| ==> fs[i] in s.fibers
  {
    if fs == [] then 0 else SumOf(s, fs[1..]) + s.fibers[fs[0]].totalTime
  }

  function SumCredited(l: seq<Charge>, fs: seq<Fid>): nat
    requires Forward(l)
  {
    if fs == [] then 0 else SumCredited(l, fs[1..]) + TotalOf(l, fs[0])
  }

  /** The nanoseconds charged on the first n CPUs. */
  function SpentUpTo(l: seq<Charge>, n: nat): nat
    requires Forward(l)
  {
    if n == 0 then 0 else SpentUpTo(l, n - 1) + SpentOn(l, n - 1)
  }

  /** What is charged on one CPU fits between the start and the end of the last charge there. */
  lemma {:induction false} SpentFits(l: seq<Charge>, cpu: nat, lo: nat, hi: nat)
    requires Forward(l) && Disjoint(l) && lo <= hi
    requires forall i :: 0 <= i < |l| && l[i].cpu == cpu ==> lo <= l[i].from && l[i].to <= hi
    ensures SpentOn(l, cpu) <= hi - lo
  {
    if l != [] {
      var e := l[|l| - 1];
      SpentFits(l[..|l| - 1], cpu, lo, if e.cpu == cpu then e.from else hi);
    }
  }

  lemma OneMore(n: nat, d: nat)
    requires n > 0
    ensures n * d == (n - 1) * d + d
  {
  }

  lemma {:induction false} SpentUpToFits(l: seq<Charge>, n: nat, lo: nat, hi: nat, d: nat)
    requires Forward(l) && Disjoint(l) && Within(l, lo, hi) && hi == lo + d
    ensures SpentUpTo(l, n) <= n * d
  {
    if n > 0 {
      SpentUpToFits(l, n - 1, lo, hi, d);
      SpentFits(l, n - 1, lo, hi);
      OneMore(n, d);
    }
  }

  /** One more charge counts on one CPU. */
  lemma {:induction false} SpentGrows(l: seq<Charge>, n: nat)
    requires l != [] && Forward(l)
    ensures var e := l[|l| - 1];
            SpentUpTo(l, n) == SpentUpTo(l[..|l| - 1], n) + if e.cpu < n then e.to - e.from else 0
  {
    if n > 0 { SpentGrows(l, n - 1); }
  }

  /** All that is credited was spent on the CPUs. */
  lemma {:induction false} CreditedWasSpent(l: seq<Charge>, n: nat)
    requires Forward(l) && forall i :: 0 <= i < |l| ==> l[i].cpu < n
    ensures 1000 * Credited(l) <= SpentUpTo(l, n)
  {
    if l != [] {
      CreditedWasSpent(l[..|l| - 1], n);
      SpentGrows(l, n);
    }
  }

  predicate AllDifferent(fs: seq<Fid>) {
    forall i, j :: 0 <= i < j < |fs| ==> fs[i] != fs[j]
  }

  /** One more charge counts for one fiber. */
  lemma {:induction false} CreditGrows(l: seq<Charge>, fs: seq<Fid>)
    requires l != [] && Forward(l) && AllDifferent(fs)
    ensures var e := l[|l| - 1];
            SumCredited(l, fs) == SumCredited(l[..|l| - 1], fs) + if e.fiber in fs then (e.to - e.from) / 1000 else 0
  {
    if fs != [] { CreditGrows(l, fs[1..]); }
  }

  lemma {:induction false} CreditsAreParts(l: seq<Charge>, fs: seq<Fid>)
    requires Forward(l) && AllDifferent(fs)
    ensures SumCredited(l, fs) <= Credited(l)
  {
    if l == [] {
      NoCredit(l, fs);
    } else {
      CreditsAreParts(l[..|l| - 1], fs);
      CreditGrows(l, fs);
    }
  }

  lemma {:induction false} NoCredit(l: seq<Charge>, fs: seq<Fid>)
    requires l == []
    ensures SumCredited(l, fs) == 0
  {
    if fs != [] { NoCredit(l, fs[1..]); }
  }

  lemma {:induction false} TotalsAreCredits(s: State, fs: seq<Fid>)
    requires Inv(s) && forall i :: 0 <= i < |fs| ==> fs[i] in s.fibers
    ensures SumOf(s, fs) == SumCredited(s.ledger, fs)
  {
    if fs != [] {
      assert FiberOk(s, fs[0]);
      TotalsAreCredits(s, fs[1..]);
    }
  }

  lemma CreditsFit(l: seq<Charge>, fs: seq<Fid>, cpus: nat, lo: nat, hi: nat)
    requires Forward(l) && Disjoint(l) && Within(l, lo, hi) && lo <= hi && AllDifferent(fs)
    requires forall i :: 0 <= i < |l| ==> l[i].cpu < cpus
    ensures 1000 * SumCredited(l, fs) <= cpus * (hi - lo)
  {
    CreditsAreParts(l, fs);
    CreditedWasSpent(l, cpus);
    SpentUpToFits(l, cpus, lo, hi, hi - lo);
  }

  /** Conservation: over any run, the total times of any fibers together are no more than the
      time that passed on the CPUs. */
  lemma TotalsWereSpent(s: State, steps: seq<Step>, fs: seq<Fid>)
    requires Initial(s) && Inv(s) && AllDifferent(fs)
    requires forall i :: 0 <= i < |fs| ==> fs[i] in Run(s, steps).fibers
    ensures var r := Run(s, steps);
            r.start <= r.now && 1000 * SumOf(r, fs) <= |r.current| * (r.now - r.start)
  {
    var r := Run(s, steps);
    TotalsAreCredits(r, fs);
    CreditsFit(r.ledger, fs, |r.current|, r.start, r.now);
  }

  /** The intervals charged to one fiber never overlap, whichever of the two places charged them,
      and a fiber's total is what they add up to. */
  lemma ChargesNeverOverlap(s: State, steps: seq<Step>, f: Fid)
    requires Initial(s) && Inv(s)
    ensures var r := Run(s, steps);
            && (forall i, j :: 0 <= i < j < |r.ledger| && r.ledger[i].fiber == f && r.ledger[j].fiber == f
                  ==> r.ledger[i].to <= r.ledger[j].from)
            && (forall i :: 0 <= i < |r.ledger| ==> r.start <= r.ledger[i].from <= r.ledger[i].to <= r.now)
            && (f in r.fibers ==> r.fibers[f].totalTime == TotalOf(r.ledger, f))
  {
    var r := Run(s, steps);
    if f in r.fibers { assert FiberOk(r, f); }
  }

  // ---------- Charges are exact ----------

  /** A dispatch after the first one on a CPU charges the fiber that leaves it exactly the time
      since it came there, and no other. */
  lemma DispatchChargesItsTime(s: State, cpu: nat, next: Task, f: Fid)
    requires At(s, cpu) && s.scheduled[cpu].Some? && f in s.fibers
    ensures var r := DoDispatch(s, cpu, next);
            f in r.fibers && r.fibers[f].totalTime == s.fibers[f].totalTime +
              if s.current[cpu] in s.active && s.active[s.current[cpu]] == f then (s.now - s.since[cpu]) / 1000 else 0
  {
    assert CpuOk(s, cpu);
    if s.current[cpu] in s.active { OnCpu(s, cpu); }
    if next in s.active { assert ActiveOk(s, next); }
  }

  /** So does a switch between fibers, except on a clock at zero. */
  lemma SwitchChargesItsTime(s: State, cpu: nat, to: Fid, f: Fid)
    requires At(s, cpu) && f in s.fibers && to in s.fibers && to !in s.active.Values
    ensures var r := DoSwitch(s, cpu, to);
            f in r.fibers && r.fibers[f].totalTime == s.fibers[f].totalTime +
              if s.current[cpu] in s.active && s.active[s.current[cpu]] == f && s.since[cpu] > 0
              then (s.now - s.since[cpu]) / 1000 else 0
  {
    assert CpuOk(s, cpu);
    if s.current[cpu] in s.active { OnCpu(s, cpu); }
  }

  // ---------- The two places that charge ----------

  class Accounts {
    var now: nat
    var current: seq<Task>
    var scheduled: seq<Option<Task>>
    var active: map<Task, Fid>
    var fibers: map<Fid, Fiber>
    var nextId: nat
    ghost var start: nat
    ghost var since: seq<nat>
    ghost var ledger: seq<Charge>

    ghost function View(): State
      reads this
    {
      State(now, current, scheduled, active, fibers, nextId, start, since, ledger)
    }

    constructor (tasks: seq<Task>, clock: nat)
      requires forall c, d :: 0 <= c < d < |tasks| ==> tasks[c] != tasks[d]
      ensures Initial(View()) && View().current == tasks && View().now == clock
    {
      now, current, scheduled := clock, tasks, seq(|tasks|, i => None);
      active, fibers, nextId := map[], map[], 0;
      start, since, ledger := clock, seq(|tasks|, i => clock), [];
    }

    /** total_time grows by the microseconds since starting_time. */
    method AddTime(cpu: nat, f: Fid)
      requires f in fibers && fibers[f].startingTime <= now
      modifies this
      ensures View() == Charged(old(View()), cpu, f)
    {
      var passed := now - fibers[f].startingTime;
      passed := passed / 1000;
      ledger := ledger + [Charge(f, cpu, fibers[f].startingTime, now)];
      fibers := fibers[f := fibers[f].(totalTime := fibers[f].totalTime + passed)];
    }

    /** The handler of a dispatch: the task it recorded is charged, the new one's clock starts. */
    method SwitchHandler(cpu: nat, next: Task)
      requires Inv(View()) && cpu < |current|
      modifies this
      ensures View() == DoDispatch(old(View()), cpu, next)
    {
      assert CpuOk(View(), cpu);
      if scheduled[cpu].Some? && scheduled[cpu].value in active {
        assert ActiveOk(View(), scheduled[cpu].value);
        AddTime(cpu, active[scheduled[cpu].value]);
      }
      if next in active {
        assert ActiveOk(old(View()), next);
        fibers := fibers[active[next] := fibers[active[next]].(startingTime := now)];
      }
      current := current[cpu := next];
      scheduled := scheduled[cpu := Some(next)];
      since := since[cpu := now];
    }

    /** The accounting of SWITCHTOFIBER, to a fiber that no thread runs. */
    method SwitchTo(cpu: nat, to: Fid)
      requires Inv(View()) && cpu < |current|
      modifies this
      ensures View() == DoSwitch(old(View()), cpu, to)
    {
      var t := current[cpu];
      if t !in active || to !in fibers || to in active.Values { return; }
      assert CpuOk(View(), cpu) && ActiveOk(View(), t);
      if fibers[active[t]].startingTime != 0 {
        AddTime(cpu, active[t]);
      }
      active := active[t := to];
      fibers := fibers[to := fibers[to].(startingTime := now)];
      since := since[cpu := now];
    }
  }
}
