/** Kernel fibers: processes, threads and fibers driven by ioctls. The critical section of a
    switch is split into the steps between its lock and unlock, and interleaves with the other
    ioctls, which do not take that lock, and with the exits of other threads. */
module KernelFibers {
  import Fls = FiberStorage

  /** A Linux task: its process and its own number. */
  datatype Task = Task(tgid: int, pid: int)

  /** A fiber is named by its process and its index there. */
  datatype Key = Key(pid: int, index: int)

  /** The user registers that the driver looks into, and the rest of them. */
  datatype Regs = Regs(ip: int, sp: int, bp: int, di: int, others: int)

  /** Registers and FPU state: of a task, or saved in a fiber. */
  datatype Context = Context(regs: Regs, fpu: int)

  datatype Fiber = Fiber(
    running: bool, saved: Context, startingPoint: int, threadId: int,
    activations: nat, failedActivations: nat, storage: Fls.Slots)

  /** lock_fiber, with the task that took it. */
  datatype Lock = Free | HeldBy(task: Task)

  datatype Process = Process(fiberId: nat, lock: Lock)

  /** Where a task is in the critical section of SWITCHTOFIBER. */
  datatype Phase =
    | Outside
    | Locked(index: int)   // lock_fiber is taken
    | Found(to: Key)       // the target exists and does not run
    | Kept(to: Key)        // the task's context is in its active fiber
    | Loaded(to: Key)      // the target's context is the task's
    | Stopped(to: Key)     // the active fiber is marked as not running

  datatype TaskState = TaskState(live: Context, phase: Phase)

  /** threads maps a registered thread to its active fiber. owner and logical are bookkeeping that
      no step depends on: the thread a fiber is active on, and the context a fiber is entitled to. */
  datatype Kernel = Kernel(
    processes: map<int, Process>, threads: map<Task, Key>, fibers: map<Key, Fiber>,
    tasks: map<Task, TaskState>, countThreads: int,
    owner: map<Key, Task>, logical: map<Key, Context>)

  datatype Call =
    | Compute(live: Context)                  // user code changes its registers
    | Convert
    | Create(stack: int, start: int, param: int)
    | Switch(index: int)
    | Go                                      // the next step of a switch under way
    | FlsAlloc
    | FlsFree(slot: int)
    | FlsSetValue(at: nat, value: int)
    | Exit
    | Spawn(live: Context)                    // a task begins, with a number that no task has

  // ---------- What holds at every moment ----------

  ghost predicate Holder(k: Kernel, t: Task) {
    t.tgid in k.processes && k.processes[t.tgid].lock == HeldBy(t)
  }

  /** A free fiber of the task's process, which only the holder of the lock may take. */
  ghost predicate Target(k: Kernel, t: Task, to: Key) {
    to.pid == t.tgid && to in k.fibers && to !in k.owner
  }

  ghost predicate Registered(k: Kernel, t: Task) {
    && t in k.threads && k.threads[t].pid == t.tgid && t.tgid in k.processes
    && k.threads[t] in k.fibers && k.threads[t] in k.logical
    && k.threads[t] in k.owner && k.owner[k.threads[t]] == t
  }

  /** Whose context is live, and whose is saved, as a switch goes on. */
  ghost predicate ContextsOk(k: Kernel, t: Task)
    requires t in k.tasks && Registered(k, t)
  {
    var s, active := k.tasks[t], k.threads[t];
    match s.phase
    case Kept(to) => s.live == k.logical[active] && k.fibers[active].saved == k.logical[active]
    case Loaded(to) => to in k.logical && s.live == k.logical[to] && k.fibers[active].saved == k.logical[active]
    case Stopped(to) => to in k.logical && s.live == k.logical[to] && k.fibers[active].saved == k.logical[active]
    case _ => s.live == k.logical[active]
  }

  /** What is true of a task at each of its program points. A task whose process record was freed
      under it, which happens only to one that is not registered and still searches, does not
      hold the lock any more. */
  ghost predicate TaskOk(k: Kernel, t: Task)
    requires t in k.tasks
  {
    && (t in k.threads ==> Registered(k, t) && ContextsOk(k, t))
    && match k.tasks[t].phase
       case Outside => true
       case Locked(index) => t in k.threads ==> Holder(k, t)
       case Found(to) => (t in k.threads ==> Holder(k, t)) && (Holder(k, t) ==> Target(k, t, to))
       case Kept(to) => t in k.threads && Holder(k, t) && Target(k, t, to)
       case Loaded(to) => t in k.threads && Holder(k, t) && Target(k, t, to)
       case Stopped(to) => t in k.threads && Holder(k, t) && Target(k, t, to)
  }

  ghost predicate Halting(k: Kernel, t: Task) {
    t in k.tasks && k.tasks[t].phase.Stopped?
  }

  ghost predicate FiberOk(k: Kernel, f: Key)
    requires f in k.fibers
  {
    && f.pid in k.processes && 0 <= f.index < k.processes[f.pid].fiberId && f in k.logical
    && (k.fibers[f].running <==> f in k.owner && !Halting(k, k.owner[f]))
    && (f in k.owner ==> k.owner[f] in k.threads && k.threads[k.owner[f]] == f)
    && (f !in k.owner ==> k.fibers[f].saved == k.logical[f])
  }

  /** The lock of a process is taken by a task that is in the critical section. */
  ghost predicate LockOk(k: Kernel, pid: int)
    requires pid in k.processes
  {
    match k.processes[pid].lock
    case Free => true
    case HeldBy(u) => u.tgid == pid && u in k.tasks && !k.tasks[u].phase.Outside?
  }

  ghost predicate Inv(k: Kernel) {
    && WellFormed(k)
    && (forall t {:trigger TaskOk(k, t)} :: t in k.tasks ==> TaskOk(k, t))
    && (forall f {:trigger FiberOk(k, f)} :: f in k.fibers ==> FiberOk(k, f))
    && (forall pid {:trigger LockOk(k, pid)} :: pid in k.processes ==> LockOk(k, pid))
  }

  ghost predicate WellFormed(k: Kernel) {
    k.threads.Keys <= k.tasks.Keys && k.owner.Keys <= k.fibers.Keys && k.countThreads == |k.threads|
  }

  // ---------- The calls ----------

  /** A fiber of thread t, as Convert and Create fill it in. */
  function NewFiber(running: bool, saved: Context, start: int, t: Task): Fiber {
    Fiber(running, saved, start, t.pid, if running then 1 else 0, 0, map[])
  }

  /** The registers a created fiber starts with. */
  function Initial(live: Context, stack: int, start: int, param: int): Context {
    live.(regs := live.regs.(sp := stack, ip := start, di := param, bp := stack))
  }

  /** Such registers: entry point, stack and parameter are those given, the frame is empty, and the
      other registers and the FPU state are the creator's. */
  predicate StartsAt(c: Context, creator: Context, stack: int, start: int, param: int) {
    && c.regs.ip == start && c.regs.di == param && c.regs.sp == stack && c.regs.bp == stack
    && c.regs.others == creator.regs.others && c.fpu == creator.fpu
  }

  function AddFiber(k: Kernel, p: Process, key: Key, fiber: Fiber): Kernel {
    k.(processes := k.processes[key.pid := p.(fiberId := p.fiberId + 1)],
       fibers := k.fibers[key := fiber], logical := k.logical[key := fiber.saved])
  }

  function DoConvert(k: Kernel, t: Task): Kernel
    requires t in k.tasks
  {
    var p := if t.tgid in k.processes then k.processes[t.tgid] else Process(0, Free);
    if t in k.threads then k
    else
      var key, live := Key(t.tgid, p.fiberId), k.tasks[t].live;
      AddFiber(k, p, key, NewFiber(true, live, live.regs.ip, t))
        .(threads := k.threads[t := key], countThreads := k.countThreads + 1, owner := k.owner[key := t])
  }

  function DoCreate(k: Kernel, t: Task, stack: int, start: int, param: int): Kernel
    requires t in k.tasks
  {
    if t.tgid !in k.processes || t !in k.threads then k
    else
      var p := k.processes[t.tgid];
      AddFiber(k, p, Key(t.tgid, p.fiberId), NewFiber(false, Initial(k.tasks[t].live, stack, start, param), start, t))
  }

  function SetPhase(k: Kernel, t: Task, phase: Phase): Kernel
    requires t in k.tasks
  {
    k.(tasks := k.tasks[t := k.tasks[t].(phase := phase)])
  }

  function SetLock(k: Kernel, pid: int, lock: Lock): Kernel
    requires pid in k.processes
  {
    k.(processes := k.processes[pid := k.processes[pid].(lock := lock)])
  }

  function SetFiber(k: Kernel, key: Key, fiber: Fiber): Kernel {
    k.(fibers := k.fibers[key := fiber])
  }

  /** Taking lock_fiber; a task that finds it taken spins. */
  function DoLock(k: Kernel, t: Task, index: int): Kernel
    requires t in k.tasks
  {
    if t.tgid !in k.processes || k.processes[t.tgid].lock != Free then k
    else SetPhase(SetLock(k, t.tgid, HeldBy(t)), t, Locked(index))
  }

  function Leave(k: Kernel, t: Task): Kernel
    requires t in k.tasks && t.tgid in k.processes
  {
    SetPhase(SetLock(k, t.tgid, Free), t, Outside)
  }

  /** One step inside the critical section. A task whose process record was freed meanwhile, which
      only happens to one that is not registered, just leaves. */
  function DoGo(k: Kernel, t: Task): Kernel
    requires t in k.tasks && TaskOk(k, t)
  {
    var s := k.tasks[t];
    if s.phase.Outside? then k
    else if t.tgid !in k.processes || k.processes[t.tgid].lock != HeldBy(t) then SetPhase(k, t, Outside)
    else match s.phase
      case Locked(index) =>
        var key := Key(t.tgid, index);
        if key !in k.fibers then Leave(k, t)
        else if k.fibers[key].running then
          Leave(SetFiber(k, key, k.fibers[key].(failedActivations := k.fibers[key].failedActivations + 1)), t)
        else SetPhase(k, t, Found(key))
      case Found(to) =>
        if t !in k.threads then Leave(k, t)
        else SetPhase(SetFiber(k, k.threads[t], k.fibers[k.threads[t]].(saved := s.live)), t, Kept(to))
      case Kept(to) =>
        k.(tasks := k.tasks[t := TaskState(k.fibers[to].saved, Loaded(to))])
      case Loaded(to) =>
        SetPhase(SetFiber(k, k.threads[t], k.fibers[k.threads[t]].(running := false)), t, Stopped(to))
      case Stopped(to) =>
        var fiber := k.fibers[to];
        Leave(SetFiber(k, to, fiber.(running := true, activations := fiber.activations + 1)), t)
          .(threads := k.threads[t := to], owner := (k.owner - {k.threads[t]})[to := t])
  }

  /** The storage of the active fiber. */
  function Stored(storage: Fls.Slots, call: Call): Fls.Slots {
    match call
    case FlsAlloc => Fls.Alloc(storage).0
    case FlsFree(slot) => Fls.Free(storage, slot).0
    case FlsSetValue(at, value) => Fls.Set(storage, at, value)
    case _ => storage
  }

  function DoStorage(k: Kernel, t: Task, call: Call): Kernel
    requires t in k.tasks && TaskOk(k, t)
  {
    if t !in k.threads then k
    else
      var fiber := k.fibers[k.threads[t]];
      SetFiber(k, k.threads[t], fiber.(storage := Stored(fiber.storage, call)))
  }

  function Purge(m: map<Key, Fiber>, pid: int): map<Key, Fiber> {
    map key | key in m && key.pid != pid :: m[key]
  }

  function DropThread(k: Kernel, t: Task): Kernel
    requires t in k.threads
  {
    k.(tasks := k.tasks - {t}, threads := k.threads - {t}, countThreads := k.countThreads - 1,
       fibers := k.fibers - {k.threads[t]}, owner := k.owner - {k.threads[t]})
  }

  /** do_exit: the thread's record and its active fiber go; with the last thread of all
      processes, so does the process record, and with it whatever fibers it still lists. */
  function DoExit(k: Kernel, t: Task): Kernel
    requires t in k.tasks
  {
    if t.tgid !in k.processes || t !in k.threads then k.(tasks := k.tasks - {t})
    else
      var k' := DropThread(k, t);
      if k'.countThreads == 0
      then k'.(processes := k'.processes - {t.tgid}, fibers := Purge(k'.fibers, t.tgid))
      else k'
  }

  function DoCompute(k: Kernel, t: Task, live: Context): Kernel
    requires t in k.tasks
  {
    k.(tasks := k.tasks[t := k.tasks[t].(live := live)],
       logical := if t in k.threads then k.logical[k.threads[t] := live] else k.logical)
  }

  /** The state after a step of a task. Calls are entered from user code only. */
  function Next(k: Kernel, t: Task, call: Call): Kernel
    requires Inv(k)
  {
    if t !in k.tasks then
      if call.Spawn? then k.(tasks := k.tasks[t := TaskState(call.live, Outside)]) else k
    else if call.Go? then DoGo(k, t)
    else if !k.tasks[t].phase.Outside? then k
    else match call
      case Compute(live) => DoCompute(k, t, live)
      case Convert => DoConvert(k, t)
      case Create(stack, start, param) => DoCreate(k, t, stack, start, param)
      case Switch(index) => DoLock(k, t, index)
      case Exit => DoExit(k, t)
      case Spawn(live) => k
      case _ => DoStorage(k, t, call)
  }

  // ---------- What a step leaves alone ----------

  /** Nothing about fiber f changed that a thread relies on. */
  ghost predicate Same(k: Kernel, k': Kernel, f: Key) {
    && f in k.fibers && f in k'.fibers
    && k'.fibers[f].running == k.fibers[f].running && k'.fibers[f].saved == k.fibers[f].saved
    && (f in k'.owner <==> f in k.owner) && (f in k.owner ==> k'.owner[f] == k.owner[f])
    && (f in k'.logical <==> f in k.logical) && (f in k.logical ==> k'.logical[f] == k.logical[f])
  }

  /** Nothing of the tasks but t changed. */
  ghost predicate OthersStay(k: Kernel, k': Kernel, t: Task) {
    && (forall u :: u in k.tasks && u != t ==> u in k'.tasks && k'.tasks[u] == k.tasks[u])
    && (forall u :: u in k'.tasks && u != t ==> u in k.tasks)
    && (forall u :: u in k.threads && u != t ==> u in k'.threads && k'.threads[u] == k.threads[u])
    && (forall u :: u in k'.threads && u != t ==> u in k.threads)
  }

  /** Processes stay, indices only grow, and t only takes and releases its own process's lock. */
  ghost predicate ProcessesStay(k: Kernel, k': Kernel, t: Task) {
    && (forall pid :: pid in k.processes ==> pid in k'.processes && k.processes[pid].fiberId <= k'.processes[pid].fiberId)
    && (forall pid :: pid in k'.processes && (pid !in k.processes || k'.processes[pid].lock != k.processes[pid].lock)
          ==> MayLock(if pid in k.processes then k.processes[pid].lock else Free, k'.processes[pid].lock, t) && pid == t.tgid)
  }

  predicate MayLock(before: Lock, after: Lock, t: Task) {
    (before == Free || before == HeldBy(t)) && (after == Free || after == HeldBy(t))
  }

  /** The fibers a step of t may change. */
  ghost predicate Mine(k: Kernel, t: Task, f: Key) {
    || f !in k.fibers
    || (f in k.owner && k.owner[f] == t)
    || (Holder(k, t) && Target(k, t, f))
  }

  lemma OtherTask(k: Kernel, k': Kernel, t: Task, u: Task, touched: set<Key>)
    requires u in k.tasks && TaskOk(k, u) && u != t
    requires OthersStay(k, k', t) && ProcessesStay(k, k', t)
    requires forall f :: f in touched ==> Mine(k, t, f)
    requires forall f :: f in k.fibers && f !in touched ==> Same(k, k', f)
    ensures u in k'.tasks && TaskOk(k', u)
  {
    if u in k.threads {
      assert k.threads[u] !in touched;
      assert Same(k, k', k.threads[u]);
    }
    assert Holder(k, u) <==> Holder(k', u);
    var phase := k.tasks[u].phase;
    if !phase.Outside? && !phase.Locked? && Holder(k, u) {
      assert Target(k, u, phase.to) && phase.to !in touched;
      assert Same(k, k', phase.to);
    }
  }

  lemma OtherFiber(k: Kernel, k': Kernel, t: Task, f: Key)
    requires f in k.fibers && FiberOk(k, f) && Same(k, k', f)
    requires OthersStay(k, k', t) && ProcessesStay(k, k', t)
    requires t in k.threads && k.threads[t] == f ==>
               t in k'.threads && k'.threads[t] == f && (Halting(k, t) <==> Halting(k', t))
    ensures FiberOk(k', f)
  {
  }

  lemma OtherLock(k: Kernel, k': Kernel, t: Task, pid: int)
    requires pid in k'.processes && (pid in k.processes ==> LockOk(k, pid))
    requires OthersStay(k, k', t) && ProcessesStay(k, k', t)
    requires Holder(k', t) ==> t in k'.tasks && !k'.tasks[t].phase.Outside?
    ensures LockOk(k', pid)
  {
  }

  /** What a step of t that changes the fibers touched leaves alone. */
  ghost predicate Frame(k: Kernel, k': Kernel, t: Task, touched: set<Key>) {
    && OthersStay(k, k', t) && ProcessesStay(k, k', t)
    && (forall f :: f in touched ==> Mine(k, t, f))
    && (forall f :: f in k.fibers && f !in touched ==> Same(k, k', f))
    && (forall f :: f in k'.fibers && f !in touched ==> f in k.fibers)
    && (t in k.threads && k.threads[t] !in touched ==>
          t in k'.threads && k'.threads[t] == k.threads[t] && (Halting(k, t) <==> Halting(k', t)))
  }

  /** What has to be shown of t and the fibers it touched. */
  ghost predicate Local(k': Kernel, t: Task, touched: set<Key>) {
    && (t in k'.tasks ==> TaskOk(k', t))
    && (Holder(k', t) ==> t in k'.tasks && !k'.tasks[t].phase.Outside?)
    && (forall f :: f in touched && f in k'.fibers ==> FiberOk(k', f))
  }

  lemma StepKeeps(k: Kernel, k': Kernel, t: Task, touched: set<Key>)
    requires Inv(k) && WellFormed(k') && Frame(k, k', t, touched) && Local(k', t, touched)
    ensures Inv(k')
  {
    forall u | u in k'.tasks ensures TaskOk(k', u) {
      if u != t { OtherTask(k, k', t, u, touched); }
    }
    forall f | f in k'.fibers ensures FiberOk(k', f) {
      if f !in touched { OtherFiber(k, k', t, f); }
    }
    forall pid | pid in k'.processes ensures LockOk(k', pid) {
      OtherLock(k, k', t, pid);
    }
  }

  // ---------- Every step keeps it ----------

  /** All that a step of t needs to know of t itself. */
  ghost predicate Ready(k: Kernel, t: Task) {
    t in k.tasks && TaskOk(k, t) && (t in k.threads ==> FiberOk(k, k.threads[t]))
  }

  /** A task in user code holds no lock. */
  ghost predicate InUserCode(k: Kernel, t: Task) {
    Ready(k, t) && k.tasks[t].phase.Outside? && !Holder(k, t)
  }

  ghost predicate Inside(k: Kernel, t: Task) {
    Ready(k, t) && Holder(k, t)
  }

  lemma IsReady(k: Kernel, t: Task)
    requires Inv(k) && t in k.tasks
    ensures Ready(k, t) && (k.tasks[t].phase.Outside? ==> InUserCode(k, t))
  {
    assert TaskOk(k, t);
    if t.tgid in k.processes { assert LockOk(k, t.tgid); }
    if t in k.threads { assert FiberOk(k, k.threads[t]); }
  }

  lemma ComputeSteps(k: Kernel, t: Task, live: Context)
    requires InUserCode(k, t)
    ensures var touched := if t in k.threads then {k.threads[t]} else {};
            Frame(k, DoCompute(k, t, live), t, touched) && Local(DoCompute(k, t, live), t, touched)
  {
  }

  lemma ComputeKeeps(k: Kernel, t: Task, live: Context)
    requires Inv(k) && InUserCode(k, t)
    ensures Inv(DoCompute(k, t, live))
  {
    ComputeSteps(k, t, live);
    StepKeeps(k, DoCompute(k, t, live), t, if t in k.threads then {k.threads[t]} else {});
  }

  /** The name of the next fiber of t's process. */
  function NextKey(k: Kernel, t: Task): Key {
    Key(t.tgid, if t.tgid in k.processes then k.processes[t.tgid].fiberId else 0)
  }

  lemma IndexIsBelow(k: Kernel, f: Key)
    requires Inv(k) && f in k.fibers
    ensures f.pid in k.processes && 0 <= f.index < k.processes[f.pid].fiberId
  {
    assert FiberOk(k, f);
  }

  lemma NextKeyIsNew(k: Kernel, t: Task)
    requires Inv(k)
    ensures NextKey(k, t) !in k.fibers && NextKey(k, t) !in k.owner
  {
    var f := NextKey(k, t);
    if f in k.fibers { IndexIsBelow(k, f); }
  }

  lemma ConvertStays(k: Kernel, t: Task)
    requires InUserCode(k, t) && t !in k.threads
    ensures OthersStay(k, DoConvert(k, t), t) && ProcessesStay(k, DoConvert(k, t), t)
  {
  }

  lemma ConvertFrame(k: Kernel, t: Task)
    requires InUserCode(k, t) && t !in k.threads && NextKey(k, t) !in k.fibers
    ensures Frame(k, DoConvert(k, t), t, {NextKey(k, t)})
  {
    ConvertStays(k, t);
  }

  lemma ConvertLocal(k: Kernel, t: Task)
    requires InUserCode(k, t) && t !in k.threads && NextKey(k, t) !in k.fibers
    ensures Local(DoConvert(k, t), t, {NextKey(k, t)})
  {
  }

  lemma CountAdds<A(!new), B(!new)>(m: map<A, B>, a: A, b: B)
    requires a !in m
    ensures |m[a := b]| == |m| + 1
  {
    assert m[a := b].Keys == m.Keys + {a};
    assert |m[a := b].Keys| == |m[a := b]| && |m.Keys| == |m|;
  }

  lemma CountRemoves<A(!new), B(!new)>(m: map<A, B>, a: A)
    requires a in m
    ensures |m - {a}| == |m| - 1
  {
    CountAdds(m - {a}, a, m[a]);
    assert (m - {a})[a := m[a]] == m;
  }

  lemma ConvertKeeps(k: Kernel, t: Task)
    requires Inv(k) && InUserCode(k, t)
    ensures Inv(DoConvert(k, t))
  {
    if t !in k.threads {
      NextKeyIsNew(k, t);
      ConvertFrame(k, t);
      ConvertLocal(k, t);
      CountAdds(k.threads, t, NextKey(k, t));
      StepKeeps(k, DoConvert(k, t), t, {NextKey(k, t)});
    }
  }

  lemma CreateSteps(k: Kernel, t: Task, stack: int, start: int, param: int)
    requires InUserCode(k, t) && t in k.threads && NextKey(k, t) !in k.fibers && NextKey(k, t) !in k.owner
    ensures Frame(k, DoCreate(k, t, stack, start, param), t, {NextKey(k, t)})
    ensures Local(DoCreate(k, t, stack, start, param), t, {NextKey(k, t)})
  {
  }

  lemma CreateKeeps(k: Kernel, t: Task, stack: int, start: int, param: int)
    requires Inv(k) && InUserCode(k, t)
    ensures Inv(DoCreate(k, t, stack, start, param))
  {
    if t in k.threads {
      NextKeyIsNew(k, t);
      CreateSteps(k, t, stack, start, param);
      StepKeeps(k, DoCreate(k, t, stack, start, param), t, {NextKey(k, t)});
    }
  }

  lemma LockSteps(k: Kernel, t: Task, index: int)
    requires InUserCode(k, t) && t.tgid in k.processes && k.processes[t.tgid].lock == Free
    ensures Frame(k, DoLock(k, t, index), t, {}) && Local(DoLock(k, t, index), t, {})
  {
  }

  lemma LockKeeps(k: Kernel, t: Task, index: int)
    requires Inv(k) && InUserCode(k, t)
    ensures Inv(DoLock(k, t, index))
  {
    if t.tgid in k.processes && k.processes[t.tgid].lock == Free {
      LockSteps(k, t, index);
      StepKeeps(k, DoLock(k, t, index), t, {});
    }
  }

  lemma StorageSteps(k: Kernel, t: Task, call: Call)
    requires InUserCode(k, t)
    ensures Frame(k, DoStorage(k, t, call), t, {}) && Local(DoStorage(k, t, call), t, {})
  {
  }

  lemma StorageKeeps(k: Kernel, t: Task, call: Call)
    requires Inv(k) && InUserCode(k, t)
    ensures Inv(DoStorage(k, t, call))
  {
    StorageSteps(k, t, call);
    StepKeeps(k, DoStorage(k, t, call), t, {});
  }

  lemma DropSteps(k: Kernel, t: Task)
    requires InUserCode(k, t) && t in k.threads
    ensures Frame(k, DropThread(k, t), t, {k.threads[t]}) && Local(DropThread(k, t), t, {k.threads[t]})
  {
  }

  lemma DropKeeps(k: Kernel, t: Task)
    requires Inv(k) && InUserCode(k, t) && t in k.threads
    ensures Inv(DropThread(k, t))
  {
    DropSteps(k, t);
    CountRemoves(k.threads, t);
    StepKeeps(k, DropThread(k, t), t, {k.threads[t]});
  }

  lemma OwnedIsActive(k: Kernel, f: Key)
    requires Inv(k) && f in k.owner
    ensures k.owner[f] in k.threads && k.threads[k.owner[f]] == f
  {
    assert FiberOk(k, f);
  }

  lemma NothingIsOwned(k: Kernel, f: Key)
    requires Inv(k) && k.countThreads == 0
    ensures f !in k.owner
  {
    if f in k.owner { OwnedIsActive(k, f); }
  }

  /** With no thread left anywhere a process record can go. */
  lemma PurgeKeeps(k: Kernel, pid: int)
    requires Inv(k) && k.countThreads == 0
    ensures Inv(k.(processes := k.processes - {pid}, fibers := Purge(k.fibers, pid)))
  {
    var k' := k.(processes := k.processes - {pid}, fibers := Purge(k.fibers, pid));
    assert k.threads == map[];
    forall t | t in k'.tasks ensures TaskOk(k', t) {
      assert TaskOk(k, t);
    }
    forall f ensures f !in k.owner {
      NothingIsOwned(k, f);
    }
    forall f | f in k'.fibers ensures FiberOk(k', f) {
      assert FiberOk(k, f);
    }
    forall p | p in k'.processes ensures LockOk(k', p) {
      assert LockOk(k, p);
    }
  }

  lemma LeaverSteps(k: Kernel, t: Task)
    requires InUserCode(k, t) && t !in k.threads
    ensures Frame(k, DoExit(k, t), t, {}) && Local(DoExit(k, t), t, {})
  {
  }

  lemma ExitKeeps(k: Kernel, t: Task)
    requires Inv(k) && InUserCode(k, t)
    ensures Inv(DoExit(k, t))
  {
    if t in k.threads {
      DropKeeps(k, t);
      var k' := DropThread(k, t);
      if k'.countThreads == 0 { PurgeKeeps(k', t.tgid); }
    } else {
      LeaverSteps(k, t);
      StepKeeps(k, DoExit(k, t), t, {});
    }
  }

  /** No two tasks of a process are past the search in the critical section. */
  lemma OneInside(k: Kernel, t: Task, u: Task)
    requires Inv(k) && Holder(k, t) && u in k.tasks && u.tgid == t.tgid
    requires k.tasks[u].phase.Kept? || k.tasks[u].phase.Loaded? || k.tasks[u].phase.Stopped?
    ensures u == t
  {
    assert TaskOk(k, u);
  }

  /** While a task that is still searching holds the lock, every active fiber is marked. */
  lemma IdleIsFree(k: Kernel, t: Task, f: Key)
    requires Inv(k) && Inside(k, t) && k.tasks[t].phase.Locked? && f in k.fibers && f.pid == t.tgid
    ensures k.fibers[f].running <==> f in k.owner
  {
    assert FiberOk(k, f);
    if f in k.owner && Halting(k, k.owner[f]) {
      assert TaskOk(k, k.owner[f]);
      OneInside(k, t, k.owner[f]);
    }
  }

  lemma LeaveFrame(k: Kernel, t: Task)
    requires Inside(k, t) && k.tasks[t].phase.Locked?
    ensures Frame(k, Leave(k, t), t, {})
  {
  }

  lemma BusyFrame(k: Kernel, t: Task, f: Key, failed: nat)
    requires Inside(k, t) && k.tasks[t].phase.Locked? && f in k.fibers
    ensures Frame(k, Leave(SetFiber(k, f, k.fibers[f].(failedActivations := failed)), t), t, {})
  {
  }

  lemma FindFrame(k: Kernel, t: Task, f: Key)
    requires Inside(k, t) && k.tasks[t].phase.Locked?
    ensures Frame(k, SetPhase(k, t, Found(f)), t, {})
  {
  }

  lemma LockedFrame(k: Kernel, t: Task)
    requires Inside(k, t) && k.tasks[t].phase.Locked?
    ensures Frame(k, DoGo(k, t), t, {})
  {
    var f := Key(t.tgid, k.tasks[t].phase.index);
    if f !in k.fibers {
      assert DoGo(k, t) == Leave(k, t);
      LeaveFrame(k, t);
    } else if k.fibers[f].running {
      assert DoGo(k, t) == Leave(SetFiber(k, f, k.fibers[f].(failedActivations := k.fibers[f].failedActivations + 1)), t);
      BusyFrame(k, t, f, k.fibers[f].failedActivations + 1);
    } else {
      assert DoGo(k, t) == SetPhase(k, t, Found(f));
      FindFrame(k, t, f);
    }
  }

  lemma LockedLocal(k: Kernel, t: Task)
    requires Inside(k, t) && k.tasks[t].phase.Locked?
    requires var f := Key(t.tgid, k.tasks[t].phase.index); f in k.fibers ==> (k.fibers[f].running <==> f in k.owner)
    ensures Local(DoGo(k, t), t, {})
  {
  }

  lemma LockedKeeps(k: Kernel, t: Task)
    requires Inv(k) && Inside(k, t) && k.tasks[t].phase.Locked?
    ensures Inv(DoGo(k, t))
  {
    var f := Key(t.tgid, k.tasks[t].phase.index);
    if f in k.fibers { IdleIsFree(k, t, f); }
    LockedFrame(k, t);
    LockedLocal(k, t);
    StepKeeps(k, DoGo(k, t), t, {});
  }

  lemma FoundSteps(k: Kernel, t: Task)
    requires Inside(k, t) && k.tasks[t].phase.Found?
    ensures var touched := if t in k.threads then {k.threads[t]} else {};
            Frame(k, DoGo(k, t), t, touched) && Local(DoGo(k, t), t, touched)
  {
  }

  lemma FoundKeeps(k: Kernel, t: Task)
    requires Inv(k) && Inside(k, t) && k.tasks[t].phase.Found?
    ensures Inv(DoGo(k, t))
  {
    FoundSteps(k, t);
    StepKeeps(k, DoGo(k, t), t, if t in k.threads then {k.threads[t]} else {});
  }

  lemma KeptSteps(k: Kernel, t: Task)
    requires Inside(k, t) && k.tasks[t].phase.Kept? && FiberOk(k, k.tasks[t].phase.to)
    ensures Frame(k, DoGo(k, t), t, {}) && Local(DoGo(k, t), t, {})
  {
  }

  lemma KeptKeeps(k: Kernel, t: Task)
    requires Inv(k) && Inside(k, t) && k.tasks[t].phase.Kept?
    ensures Inv(DoGo(k, t))
  {
    KeptSteps(k, t);
    StepKeeps(k, DoGo(k, t), t, {});
  }

  lemma LoadedSteps(k: Kernel, t: Task)
    requires Inside(k, t) && k.tasks[t].phase.Loaded?
    ensures Frame(k, DoGo(k, t), t, {k.threads[t]}) && Local(DoGo(k, t), t, {k.threads[t]})
  {
  }

  lemma LoadedKeeps(k: Kernel, t: Task)
    requires Inv(k) && Inside(k, t) && k.tasks[t].phase.Loaded?
    ensures Inv(DoGo(k, t))
  {
    LoadedSteps(k, t);
    StepKeeps(k, DoGo(k, t), t, {k.threads[t]});
  }

  lemma StoppedFrame(k: Kernel, t: Task)
    requires Inside(k, t) && k.tasks[t].phase.Stopped?
    ensures Frame(k, DoGo(k, t), t, {k.threads[t], k.tasks[t].phase.to})
  {
  }

  lemma StoppedLocal(k: Kernel, t: Task)
    requires Inside(k, t) && k.tasks[t].phase.Stopped? && FiberOk(k, k.tasks[t].phase.to)
    ensures Local(DoGo(k, t), t, {k.threads[t], k.tasks[t].phase.to})
  {
  }

  lemma StoppedKeeps(k: Kernel, t: Task)
    requires Inv(k) && Inside(k, t) && k.tasks[t].phase.Stopped?
    ensures Inv(DoGo(k, t))
  {
    StoppedFrame(k, t);
    StoppedLocal(k, t);
    CountStays(k.threads, t, k.tasks[t].phase.to);
    StepKeeps(k, DoGo(k, t), t, {k.threads[t], k.tasks[t].phase.to});
  }

  lemma CountStays<A(!new), B(!new)>(m: map<A, B>, a: A, b: B)
    requires a in m
    ensures |m[a := b]| == |m|
  {
    assert m[a := b].Keys == m.Keys;
    assert |m[a := b].Keys| == |m[a := b]| && |m.Keys| == |m|;
  }

  lemma GoneSteps(k: Kernel, t: Task)
    requires Ready(k, t) && !Holder(k, t) && !k.tasks[t].phase.Outside?
    ensures Frame(k, DoGo(k, t), t, {}) && Local(DoGo(k, t), t, {})
  {
  }

  lemma GoKeeps(k: Kernel, t: Task)
    requires Inv(k) && Ready(k, t)
    ensures Inv(DoGo(k, t))
  {
    if !k.tasks[t].phase.Outside? {
      if !Holder(k, t) {
        GoneSteps(k, t);
        StepKeeps(k, DoGo(k, t), t, {});
      } else {
        match k.tasks[t].phase
        case Locked(index) => LockedKeeps(k, t);
        case Found(to) => FoundKeeps(k, t);
        case Kept(to) => KeptKeeps(k, t);
        case Loaded(to) => LoadedKeeps(k, t);
        case Stopped(to) => StoppedKeeps(k, t);
      }
    }
  }

  lemma SpawnKeeps(k: Kernel, t: Task, live: Context)
    requires Inv(k) && t !in k.tasks
    ensures Inv(k.(tasks := k.tasks[t := TaskState(live, Outside)]))
  {
    if t.tgid in k.processes { assert LockOk(k, t.tgid); }
    StepKeeps(k, k.(tasks := k.tasks[t := TaskState(live, Outside)]), t, {});
  }

  /** Every step of every task keeps the invariant. */
  lemma NextKeeps(k: Kernel, t: Task, call: Call)
    requires Inv(k)
    ensures Inv(Next(k, t, call))
  {
    if t in k.tasks {
      IsReady(k, t);
      if call.Go? {
        GoKeeps(k, t);
      } else if k.tasks[t].phase.Outside? {
        match call
        case Compute(live) => ComputeKeeps(k, t, live);
        case Convert => ConvertKeeps(k, t);
        case Create(stack, start, param) => CreateKeeps(k, t, stack, start, param);
        case Switch(index) => LockKeeps(k, t, index);
        case Exit => ExitKeeps(k, t);
        case Spawn(live) =>
        case _ => StorageKeeps(k, t, call);
      }
    } else if call.Spawn? {
      SpawnKeeps(k, t, call.live);
    }
  }
}
