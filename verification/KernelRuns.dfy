/** What holds over every interleaving of the kernel's calls: exclusivity, what a switch means
    for registers and fiber-local storage, indices, and the life of process records. */
module KernelRuns {
  import opened KernelFibers
  import Fls = FiberStorage

  /** No fibers yet; any number of tasks, in user code. */
  ghost predicate Start(k: Kernel) {
    && k.processes == map[] && k.threads == map[] && k.fibers == map[] && k.owner == map[] && k.countThreads == 0
    && forall t :: t in k.tasks ==> k.tasks[t].phase.Outside?
  }

  lemma StartIsFine(k: Kernel)
    requires Start(k)
    ensures Inv(k)
  {
  }

  type Schedule = seq<(Task, Call)>

  ghost predicate Then(k: Kernel, step: (Task, Call), k': Kernel) {
    Inv(k) ==> k' == Next(k, step.0, step.1)
  }

  /** ks are the states of an interleaving, from the start. */
  ghost predicate Trace(ks: seq<Kernel>, schedule: Schedule) {
    && |ks| == |schedule| + 1 && Start(ks[0])
    && forall i :: 0 <= i < |schedule| ==> StepAt(ks, schedule, i)
  }

  ghost predicate StepAt(ks: seq<Kernel>, schedule: Schedule, i: int)
    requires 0 <= i < |schedule| < |ks|
  {
    Then(ks[i], schedule[i], ks[i + 1])
  }

  lemma ThenKeeps(k: Kernel, step: (Task, Call), k': Kernel)
    requires Inv(k) && Then(k, step, k')
    ensures Inv(k')
  {
    NextKeeps(k, step.0, step.1);
  }

  lemma {:induction false} TraceKeeps(ks: seq<Kernel>, schedule: Schedule, n: nat)
    requires Trace(ks, schedule) && n < |ks|
    ensures Inv(ks[n])
  {
    if n == 0 {
      StartIsFine(ks[0]);
    } else {
      TraceKeeps(ks, schedule, n - 1);
      assert StepAt(ks, schedule, n - 1);
      ThenKeeps(ks[n - 1], schedule[n - 1], ks[n]);
    }
  }

  // ---------- Exclusivity ----------

  /** A fiber is marked as running exactly while it is the active fiber of a registered thread,
      the moment excepted in which that thread has cleared the mark and still holds the lock; no
      two threads share an active fiber, and the thread is one of the fiber's process. */
  lemma RunningMeansActive(ks: seq<Kernel>, schedule: Schedule, n: nat, f: Key)
    requires Trace(ks, schedule) && n < |ks| && f in ks[n].fibers
    ensures var r := ks[n];
            && (r.fibers[f].running <==> exists t :: t in r.threads && r.threads[t] == f && !Halting(r, t))
            && (forall t :: t in r.threads && r.threads[t] == f ==> t.tgid == f.pid)
            && forall t, u :: t in r.threads && u in r.threads && r.threads[t] == f && r.threads[u] == f ==> t == u
  {
    var r := ks[n];
    TraceKeeps(ks, schedule, n);
    assert FiberOk(r, f);
    forall t | t in r.threads ensures Registered(r, t) {
      assert TaskOk(r, t);
    }
  }

  /** Between the search of the target and the release of the lock a process has one task at most. */
  lemma SwitchesExclude(ks: seq<Kernel>, schedule: Schedule, n: nat, t: Task, u: Task)
    requires Trace(ks, schedule) && n < |ks|
    requires var r := ks[n]; t in r.tasks && u in r.tasks && Switching(r, t) && Switching(r, u)
    requires t.tgid == u.tgid
    ensures t == u
  {
    TraceKeeps(ks, schedule, n);
    assert TaskOk(ks[n], t);
    OneInside(ks[n], t, u);
  }

  predicate Switching(k: Kernel, t: Task) {
    t in k.tasks && (k.tasks[t].phase.Kept? || k.tasks[t].phase.Loaded? || k.tasks[t].phase.Stopped?)
  }

  /** A task of the process is in the critical section. */
  ghost predicate InSection(k: Kernel, pid: int, t: Task) {
    t in k.tasks && t.tgid == pid && !k.tasks[t].phase.Outside?
  }

  /** The lock of a process is taken exactly while a task of the process is in its critical section.
      The one task that does not count is one that is not registered and was still searching when
      the last registered thread of all exited, and with it the record that the task had locked. */
  lemma LockMeansInside(ks: seq<Kernel>, schedule: Schedule, n: nat, pid: int)
    requires Trace(ks, schedule) && n < |ks| && pid in ks[n].processes
    ensures var k := ks[n];
            && (k.processes[pid].lock != Free ==> exists t :: InSection(k, pid, t))
            && (forall t :: InSection(k, pid, t) && (t in k.threads || Switching(k, t)) ==> k.processes[pid].lock != Free)
            && (forall t, u :: InSection(k, pid, t) && InSection(k, pid, u) && t in k.threads && u in k.threads ==> t == u)
  {
    TraceKeeps(ks, schedule, n);
    var k := ks[n];
    assert LockOk(k, pid);
    if k.processes[pid].lock != Free {
      assert InSection(k, pid, k.processes[pid].lock.task);
    }
    forall t | InSection(k, pid, t) && (t in k.threads || Switching(k, t)) ensures k.processes[pid].lock == HeldBy(t) {
      assert TaskOk(k, t);
    }
  }

  // ---------- Switches refine a change of the active fiber ----------

  /** The machine a client may think of: every fiber owns a context and its storage, a thread
      has an active fiber. */
  datatype Own = Own(context: Context, storage: Fls.Slots)
  datatype View = View(active: map<Task, Key>, fibers: map<Key, Own>)

  function Seen(k: Kernel): View {
    View(k.threads, map f | f in k.fibers :: Owned(k, f))
  }

  function Owned(k: Kernel, f: Key): Own
    requires f in k.fibers
  {
    Own(if f in k.logical then k.logical[f] else k.fibers[f].saved, k.fibers[f].storage)
  }

  /** A registered thread in user code finds the context of its active fiber in its registers; the
      context of a fiber that is not active is the saved one. */
  lemma RegistersAreOwn(ks: seq<Kernel>, schedule: Schedule, n: nat)
    requires Trace(ks, schedule) && n < |ks|
    ensures var r := ks[n];
            && (forall t :: t in r.threads && t in r.tasks && r.tasks[t].phase.Outside? ==>
                  r.threads[t] in r.fibers && r.tasks[t].live == Seen(r).fibers[r.threads[t]].context)
            && (forall f :: f in r.fibers && f !in r.threads.Values ==> r.fibers[f].saved == Seen(r).fibers[f].context)
  {
    var r := ks[n];
    TraceKeeps(ks, schedule, n);
    forall t | t in r.threads && t in r.tasks && r.tasks[t].phase.Outside?
      ensures r.threads[t] in r.fibers && r.tasks[t].live == Seen(r).fibers[r.threads[t]].context
    {
      assert TaskOk(r, t);
    }
    forall f | f in r.fibers && f !in r.threads.Values ensures r.fibers[f].saved == Seen(r).fibers[f].context {
      assert FiberOk(r, f);
    }
  }

  /** What a step does to the client's machine: user code changes the context of the active fiber
      and nothing else, a step of a switch either nothing or which fiber is active. */
  ghost predicate ViewStep(v: View, v': View, t: Task, call: Call, made: Key, s: TaskState) {
    match call
    case Compute(context) =>
      v' == if t in v.active && v.active[t] in v.fibers
            then v.(fibers := v.fibers[v.active[t] := v.fibers[v.active[t]].(context := context)]) else v
    case Convert =>
      v' == if t in v.active then v
            else View(v.active[t := made], v.fibers[made := Own(s.live, map[])])
    case Create(stack, start, param) =>
      && v' == (if t !in v.active then v else v.(fibers := v'.fibers))
      && (t in v.active ==>
            && made in v'.fibers && v'.fibers == v.fibers[made := v'.fibers[made]]
            && v'.fibers[made].storage == map[] && StartsAt(v'.fibers[made].context, s.live, stack, start, param))
    case Switch(index) => v' == v
    case Go =>
      if s.phase.Stopped?
      then t in v.active && s.phase.to in v.fibers && s.phase.to !in v.active.Values && s.phase.to.pid == t.tgid
           && v' == v.(active := v.active[t := s.phase.to])
      else v' == v
    case Spawn(context) => v' == v
    case Exit =>
      if t !in v.active then v' == v
      else v'.active == v.active - {t}
           && v'.fibers == map f | f in v.fibers && f != v.active[t] && (v'.active == map[] ==> f.pid != t.tgid) :: v.fibers[f]
    case _ =>
      v' == if t in v.active && v.active[t] in v.fibers
            then v.(fibers := v.fibers[v.active[t] := v.fibers[v.active[t]].(storage := Stored(v.fibers[v.active[t]].storage, call))])
            else v
  }


  lemma ComputeRefines(k: Kernel, t: Task, live: Context)
    requires InUserCode(k, t)
    ensures ViewStep(Seen(k), Seen(DoCompute(k, t, live)), t, Compute(live), NextKey(k, t), k.tasks[t])
  {
  }

  lemma ConvertRefines(k: Kernel, t: Task)
    requires InUserCode(k, t) && NextKey(k, t) !in k.fibers
    ensures ViewStep(Seen(k), Seen(DoConvert(k, t)), t, Convert, NextKey(k, t), k.tasks[t])
  {
  }

  lemma CreateRefines(k: Kernel, t: Task, stack: int, start: int, param: int)
    requires InUserCode(k, t) && NextKey(k, t) !in k.fibers
    ensures ViewStep(Seen(k), Seen(DoCreate(k, t, stack, start, param)), t, Create(stack, start, param),
                     NextKey(k, t), k.tasks[t])
  {
  }

  lemma StorageRefines(k: Kernel, t: Task, call: Call)
    requires InUserCode(k, t) && (call.FlsAlloc? || call.FlsFree? || call.FlsSetValue?)
    ensures ViewStep(Seen(k), Seen(DoStorage(k, t, call)), t, call, NextKey(k, t), k.tasks[t])
  {
  }

  lemma DropRefines(k: Kernel, t: Task)
    requires InUserCode(k, t) && t in k.threads
    ensures Seen(DropThread(k, t)).active == Seen(k).active - {t}
    ensures Seen(DropThread(k, t)).fibers == map f | f in Seen(k).fibers && f != k.threads[t] :: Seen(k).fibers[f]
  {
  }

  lemma PurgeRefines(k: Kernel, pid: int)
    ensures Seen(k.(processes := k.processes - {pid}, fibers := Purge(k.fibers, pid)))
            == Seen(k).(fibers := map f | f in Seen(k).fibers && f.pid != pid :: Seen(k).fibers[f])
  {
  }

  lemma ExitCases(k: Kernel, t: Task)
    requires InUserCode(k, t) && k.countThreads == |k.threads| && t in k.threads
    ensures var k' := DropThread(k, t);
            DoExit(k, t) == if k'.threads == map[]
                            then k'.(processes := k'.processes - {t.tgid}, fibers := Purge(k'.fibers, t.tgid)) else k'
  {
    CountRemoves(k.threads, t);
    assert |k.threads - {t}| == 0 <==> k.threads - {t} == map[];
  }

  lemma ExitRefines(k: Kernel, t: Task)
    requires InUserCode(k, t) && k.countThreads == |k.threads|
    ensures ViewStep(Seen(k), Seen(DoExit(k, t)), t, Exit, NextKey(k, t), k.tasks[t])
  {
    if t in k.threads {
      ExitCases(k, t);
      DropRefines(k, t);
      var k' := DropThread(k, t);
      PurgeRefines(k', t.tgid);
      if k'.threads == map[] {
        assert Seen(DoExit(k, t)) == Seen(k').(fibers := map f | f in Seen(k').fibers && f.pid != t.tgid :: Seen(k').fibers[f]);
      } else {
        assert Seen(DoExit(k, t)) == Seen(k');
      }
    }
  }

  lemma GoLogical(k: Kernel, t: Task)
    requires Ready(k, t)
    ensures DoGo(k, t).logical == k.logical
  {
  }

  lemma GoKeys(k: Kernel, t: Task, f: Key)
    requires Ready(k, t)
    ensures f in DoGo(k, t).fibers <==> f in k.fibers
  {
    var phase := k.tasks[t].phase;
    if phase.Outside? || phase.Kept? || t.tgid !in k.processes || k.processes[t.tgid].lock != HeldBy(t) {
      assert DoGo(k, t).fibers == k.fibers;
    }
  }

  lemma GoStorage(k: Kernel, t: Task, f: Key)
    requires Ready(k, t) && f in k.fibers && f in DoGo(k, t).fibers
    ensures DoGo(k, t).fibers[f].storage == k.fibers[f].storage
  {
  }

  lemma GoThreads(k: Kernel, t: Task)
    requires Ready(k, t)
    ensures DoGo(k, t).threads == if k.tasks[t].phase.Stopped? then k.threads[t := k.tasks[t].phase.to] else k.threads
  {
  }

  lemma SameFibers(k: Kernel, k': Kernel)
    requires k'.logical == k.logical && forall f :: f in k.fibers ==> f in k.logical
    requires forall f :: f in k'.fibers <==> f in k.fibers
    requires forall f :: f in k.fibers ==> k'.fibers[f].storage == k.fibers[f].storage
    ensures Seen(k').fibers == Seen(k).fibers
  {
  }

  lemma GoRefines(k: Kernel, t: Task)
    requires Ready(k, t) && (forall f :: f in k.fibers ==> f in k.logical)
    requires forall u :: u in k.threads ==> k.threads[u] in k.owner
    ensures ViewStep(Seen(k), Seen(DoGo(k, t)), t, Go, NextKey(k, t), k.tasks[t])
  {
    GoLogical(k, t);
    GoThreads(k, t);
    var k' := DoGo(k, t);
    forall f
      ensures f in k'.fibers <==> f in k.fibers
      ensures f in k.fibers ==> k'.fibers[f].storage == k.fibers[f].storage
    {
      GoKeys(k, t, f);
      if f in k.fibers { GoStorage(k, t, f); }
    }
    SameFibers(k, DoGo(k, t));
  }

  /** Every step of the interleaved machine is a step of the client's machine: of a task that is in
      user code, or goes on with a switch. Nothing happens where there is no such task, or it is in
      the middle of a switch and tries something else; a switch takes effect in its last step. */
  lemma NextRefines(k: Kernel, t: Task, call: Call)
    requires Inv(k)
    ensures if t !in k.tasks then Seen(Next(k, t, call)) == Seen(k)
            else if !call.Go? && !k.tasks[t].phase.Outside? then Next(k, t, call) == k
            else ViewStep(Seen(k), Seen(Next(k, t, call)), t, call, NextKey(k, t), k.tasks[t])
  {
    if t in k.tasks {
      IsReady(k, t);
      if call.Go? {
        forall u | u in k.threads ensures k.threads[u] in k.owner {
          assert TaskOk(k, u);
        }
        forall f | f in k.fibers ensures f in k.logical {
          assert FiberOk(k, f);
        }
        GoRefines(k, t);
      } else if k.tasks[t].phase.Outside? {
        NextKeyIsNew(k, t);
        match call
        case Compute(live) => ComputeRefines(k, t, live);
        case Convert => ConvertRefines(k, t);
        case Create(stack, start, param) => CreateRefines(k, t, stack, start, param);
        case Switch(index) =>
        case Spawn(live) =>
        case Exit => ExitRefines(k, t);
        case _ => StorageRefines(k, t, call);
      }
    }
  }

  // ---------- A suspended fiber is left alone ----------

  /** The thread t executes the fiber f and is in user code. */
  ghost predicate Executes(k: Kernel, t: Task, f: Key) {
    t in k.tasks && k.tasks[t].phase.Outside? && t in k.threads && k.threads[t] == f
  }

  /** Steps of the code that runs on fiber f. */
  ghost predicate ByFiber(k: Kernel, step: (Task, Call), f: Key) {
    Executes(k, step.0, f) && (step.1.Compute? || step.1.FlsAlloc? || step.1.FlsFree? || step.1.FlsSetValue?)
  }

  lemma ViewLeavesAlone(v: View, v': View, t: Task, call: Call, made: Key, s: TaskState, f: Key)
    requires ViewStep(v, v', t, call, made, s) && f in v.fibers && f in v'.fibers && f != made
    requires t in v.active && v.active[t] == f ==> call.Convert? || call.Create? || call.Switch? || call.Go? || call.Exit? || call.Spawn?
    ensures v'.fibers[f] == v.fibers[f]
  {
  }

  /** Only the code that runs on a fiber changes its context and its storage. */
  lemma OthersLeaveItAlone(k: Kernel, step: (Task, Call), k': Kernel, f: Key)
    requires Inv(k) && Then(k, step, k') && f in k.fibers && f in k'.fibers && !ByFiber(k, step, f)
    ensures Owned(k', f) == Owned(k, f)
  {
    var (t, call) := step;
    NextRefines(k, t, call);
    assert f in Seen(k).fibers && Seen(k).fibers[f] == Owned(k, f);
    assert f in Seen(k').fibers && Seen(k').fibers[f] == Owned(k', f);
    if t in k.tasks && (call.Go? || k.tasks[t].phase.Outside?) {
      NextKeyIsNew(k, t);
      if Seen(k') != Seen(k) {
        ViewLeavesAlone(Seen(k), Seen(k'), t, call, NextKey(k, t), k.tasks[t], f);
      }
    }
  }

  /** From state n to state m the fiber exists, and no code runs on it. */
  ghost predicate Suspended(ks: seq<Kernel>, schedule: Schedule, n: nat, m: nat, f: Key)
    requires n <= m < |ks| && |ks| == |schedule| + 1
  {
    && (forall i {:trigger ks[i].fibers} :: n <= i <= m ==> f in ks[i].fibers)
    && forall i {:trigger ByFiber(ks[i], schedule[i], f)} :: n <= i < m ==> !ByFiber(ks[i], schedule[i], f)
  }

  lemma {:induction false} SuspendedKeeps(ks: seq<Kernel>, schedule: Schedule, n: nat, m: nat, f: Key)
    requires Trace(ks, schedule) && n <= m < |ks| && Suspended(ks, schedule, n, m, f)
    ensures f in ks[n].fibers && f in ks[m].fibers && Owned(ks[m], f) == Owned(ks[n], f)
    decreases m
  {
    assert f in ks[m].fibers && f in ks[n].fibers;
    if n < m {
      SuspendedKeeps(ks, schedule, n, m - 1, f);
      TraceKeeps(ks, schedule, m - 1);
      assert StepAt(ks, schedule, m - 1);
      OthersLeaveItAlone(ks[m - 1], schedule[m - 1], ks[m], f);
    }
  }

  lemma ExecutesOwn(k: Kernel, t: Task, f: Key)
    requires Inv(k) && Executes(k, t, f)
    ensures f in k.fibers && k.tasks[t].live == Owned(k, f).context
  {
    assert TaskOk(k, t);
  }

  /** A fiber that a thread left goes on, on any thread of its process and whatever happened
      between, with the registers, FPU state and storage it had. */
  lemma ResumesWhereItLeft(ks: seq<Kernel>, schedule: Schedule, n: nat, m: nat, t: Task, u: Task, f: Key)
    requires Trace(ks, schedule) && n <= m < |ks| && Suspended(ks, schedule, n, m, f)
    requires Executes(ks[n], t, f) && Executes(ks[m], u, f)
    ensures ks[m].tasks[u].live == ks[n].tasks[t].live
    ensures f in ks[m].fibers && f in ks[n].fibers && ks[m].fibers[f].storage == ks[n].fibers[f].storage
  {
    SuspendedKeeps(ks, schedule, n, m, f);
    TraceKeeps(ks, schedule, n);
    TraceKeeps(ks, schedule, m);
    ExecutesOwn(ks[n], t, f);
    ExecutesOwn(ks[m], u, f);
  }

  lemma CreateOwns(k: Kernel, t: Task, stack: int, start: int, param: int)
    requires Inv(k) && t in k.threads && Executes(k, t, k.threads[t])
    ensures var f, k' := NextKey(k, t), DoCreate(k, t, stack, start, param);
            && f in k'.fibers && Owned(k', f).storage == map[]
            && StartsAt(Owned(k', f).context, k.tasks[t].live, stack, start, param)
  {
    IsReady(k, t);
  }

  lemma ThenCreate(k: Kernel, t: Task, stack: int, start: int, param: int, k': Kernel)
    requires Inv(k) && t in k.tasks && k.tasks[t].phase.Outside? && Then(k, (t, Create(stack, start, param)), k')
    ensures k' == DoCreate(k, t, stack, start, param)
  {
  }

  /** A created fiber starts, on whichever thread, with the stack, entry point and parameter that
      Create was given, the creator's other registers, and no storage. */
  lemma FreshFiberStarts(ks: seq<Kernel>, schedule: Schedule, n: nat, m: nat, t: Task, u: Task, stack: int, start: int, param: int)
    requires Trace(ks, schedule) && n < m < |ks| && schedule[n] == (t, Create(stack, start, param))
    requires t in ks[n].threads && Executes(ks[n], t, ks[n].threads[t])
    requires Suspended(ks, schedule, n + 1, m, NextKey(ks[n], t)) && Executes(ks[m], u, NextKey(ks[n], t))
    ensures var live, creator := ks[m].tasks[u].live, ks[n].tasks[t].live;
            && live.regs.ip == start && live.regs.di == param && live.regs.sp == stack && live.regs.bp == stack
            && live.regs.others == creator.regs.others && live.fpu == creator.fpu
    ensures ks[m].threads[u] in ks[m].fibers && ks[m].fibers[ks[m].threads[u]].storage == map[]
  {
    TraceKeeps(ks, schedule, n);
    TraceKeeps(ks, schedule, m);
    assert StepAt(ks, schedule, n);
    ThenCreate(ks[n], t, stack, start, param, ks[n + 1]);
    CreateOwns(ks[n], t, stack, start, param);
    SuspendedKeeps(ks, schedule, n + 1, m, NextKey(ks[n], t));
    ExecutesOwn(ks[m], u, NextKey(ks[n], t));
  }

  // ---------- Indices and process records ----------

  lemma ExitFrees(k: Kernel, t: Task, pid: int)
    requires InUserCode(k, t) && k.countThreads == |k.threads| && pid in k.processes && pid !in DoExit(k, t).processes
    ensures DoExit(k, t).threads == map[] && k.threads.Keys == {t} && t.tgid == pid
  {
    ExitCases(k, t);
    assert k.threads.Keys <= DropThread(k, t).threads.Keys + {t};
  }

  /** A process record goes exactly on the exit of its thread when no other thread of any process is
      registered. */
  lemma FreedWhenNobodyIsLeft(k: Kernel, t: Task, call: Call, pid: int)
    requires Inv(k) && pid in k.processes
    ensures pid !in Next(k, t, call).processes <==>
            call == Exit && InUserCode(k, t) && t.tgid == pid && k.threads.Keys == {t}
    ensures pid !in Next(k, t, call).processes ==> Next(k, t, call).threads == map[]
  {
    if t in k.tasks {
      IsReady(k, t);
      if call.Go? {
        GoProcesses(k, t, pid);
      } else if call == Exit && k.tasks[t].phase.Outside? {
        ExitFreesIff(k, t, pid);
      }
    }
  }

  lemma ExitFreesIff(k: Kernel, t: Task, pid: int)
    requires InUserCode(k, t) && k.countThreads == |k.threads| && pid in k.processes
    requires t in k.threads ==> t.tgid in k.processes
    ensures pid !in DoExit(k, t).processes <==> t.tgid == pid && k.threads.Keys == {t}
    ensures pid !in DoExit(k, t).processes ==> DoExit(k, t).threads == map[]
  {
    assert |k.threads| == |k.threads.Keys|;
    if pid !in DoExit(k, t).processes {
      ExitFrees(k, t, pid);
    }
  }

  lemma GoProcesses(k: Kernel, t: Task, pid: int)
    requires t in k.tasks && TaskOk(k, t) && pid in k.processes
    ensures pid in DoGo(k, t).processes && DoGo(k, t).processes[pid].fiberId == k.processes[pid].fiberId
  {
    var phase := k.tasks[t].phase;
    if phase.Outside? || t.tgid !in k.processes || k.processes[t.tgid].lock != HeldBy(t) {
      assert DoGo(k, t).processes == k.processes;
    } else if phase.Kept? || phase.Loaded? {
      assert DoGo(k, t).processes == k.processes;
    } else if phase.Stopped? {
      assert DoGo(k, t).processes == k.processes[t.tgid := k.processes[t.tgid].(lock := Free)];
    }
  }

  /** An index that was handed out and whose fiber is gone. */
  ghost predicate Spent(k: Kernel, f: Key) {
    f.pid in k.processes && f.index < k.processes[f.pid].fiberId && f !in k.fibers
  }

  lemma SpentStays(k: Kernel, t: Task, call: Call, f: Key)
    requires Inv(k) && Spent(k, f) && f.pid in Next(k, t, call).processes
    ensures Spent(Next(k, t, call), f)
  {
    if t in k.tasks {
      IsReady(k, t);
      if call.Go? {
        GoProcesses(k, t, f.pid);
        GoKeys(k, t, f);
      }
    }
  }

  lemma ThenSpent(k: Kernel, step: (Task, Call), k': Kernel, f: Key)
    requires Inv(k) && Then(k, step, k') && f.pid in k'.processes && (Spent(k, f) || (f in k.fibers && f !in k'.fibers))
    ensures Spent(k', f)
  {
    var (t, call) := step;
    if Spent(k, f) {
      SpentStays(k, t, call, f);
    } else {
      IndexIsBelow(k, f);
      OnlyExitRemoves(k, t, call, f);
    }
  }

  lemma SpentAt(ks: seq<Kernel>, schedule: Schedule, i: nat, f: Key)
    requires Trace(ks, schedule) && i < |schedule| && f.pid in ks[i + 1].processes
    requires Spent(ks[i], f) || (f in ks[i].fibers && f !in ks[i + 1].fibers)
    ensures Spent(ks[i + 1], f)
  {
    TraceKeeps(ks, schedule, i);
    assert StepAt(ks, schedule, i);
    ThenSpent(ks[i], schedule[i], ks[i + 1], f);
  }

  lemma OnlyExitRemoves(k: Kernel, t: Task, call: Call, f: Key)
    requires Inv(k) && f in k.fibers && f !in Next(k, t, call).fibers && f.pid in Next(k, t, call).processes
    ensures f.pid in k.processes && Next(k, t, call).processes[f.pid] == k.processes[f.pid]
  {
    assert t in k.tasks;
    IsReady(k, t);
    IndexIsBelow(k, f);
    if call.Go? { GoKeys(k, t, f); }
  }

  /** While a process record lives, the index of a fiber that is gone is never used again. */
  lemma {:induction false} IndicesAreNotReused(ks: seq<Kernel>, schedule: Schedule, n: nat, m: nat, f: Key)
    requires Trace(ks, schedule) && n < m < |ks| && f in ks[n].fibers && f !in ks[n + 1].fibers
    requires forall i {:trigger ks[i].processes} :: n < i <= m ==> f.pid in ks[i].processes
    ensures f !in ks[m].fibers && f.pid in ks[m].processes && f.index < ks[m].processes[f.pid].fiberId
    decreases m
  {
    assert f.pid in ks[m].processes;
    if n + 1 < m { IndicesAreNotReused(ks, schedule, n, m - 1, f); }
    SpentAt(ks, schedule, m - 1, f);
  }

  /** count_threads is the number of registered threads, and every index lies below fiber_id. */
  lemma CountsAgree(ks: seq<Kernel>, schedule: Schedule, n: nat)
    requires Trace(ks, schedule) && n < |ks|
    ensures var r := ks[n];
            && r.countThreads == |r.threads|
            && forall f :: f in r.fibers ==> f.pid in r.processes && 0 <= f.index < r.processes[f.pid].fiberId
  {
    var r := ks[n];
    TraceKeeps(ks, schedule, n);
    forall f | f in r.fibers ensures f.pid in r.processes && 0 <= f.index < r.processes[f.pid].fiberId {
      IndexIsBelow(r, f);
    }
  }

  // ---------- A switch that is left alone completes ----------

  /** The switch in one piece: the thread's context goes to the fiber it leaves, the target's to
      the thread, and the marks and the active fiber follow. */
  function Switched(k: Kernel, t: Task, to: Key): Kernel
    requires t in k.tasks && t in k.threads && k.threads[t] in k.fibers && to in k.fibers
  {
    var active := k.threads[t];
    k.(tasks := k.tasks[t := TaskState(k.fibers[to].saved, Outside)],
       threads := k.threads[t := to],
       fibers := k.fibers[active := k.fibers[active].(running := false, saved := k.tasks[t].live)]
                         [to := k.fibers[to].(running := true, activations := k.fibers[to].activations + 1)],
       owner := (k.owner - {active})[to := t])
  }

  // The states of that switch, one by one.

  function Entered(k: Kernel, t: Task, index: int): Kernel
    requires t in k.tasks && t.tgid in k.processes
  {
    SetPhase(SetLock(k, t.tgid, HeldBy(t)), t, Locked(index))
  }

  function Saved(k: Kernel, t: Task, to: Key): Kernel
    requires t in k.tasks && t in k.threads && k.threads[t] in k.fibers
  {
    SetPhase(SetFiber(k, k.threads[t], k.fibers[k.threads[t]].(saved := k.tasks[t].live)), t, Kept(to))
  }

  function Halted(k: Kernel, t: Task, to: Key): Kernel
    requires t in k.tasks && t in k.threads && k.threads[t] in k.fibers
  {
    SetPhase(SetFiber(k, k.threads[t], k.fibers[k.threads[t]].(running := false)), t, Stopped(to))
  }

  function Taken(k: Kernel, t: Task, to: Key): Kernel
    requires t in k.tasks && t in k.threads && to in k.fibers && t.tgid in k.processes
  {
    Leave(SetFiber(k, to, k.fibers[to].(running := true, activations := k.fibers[to].activations + 1)), t)
      .(threads := k.threads[t := to], owner := (k.owner - {k.threads[t]})[to := t])
  }

  ghost predicate Goes(ks: seq<Kernel>, schedule: Schedule, i: nat, t: Task) {
    Trace(ks, schedule) && i < |schedule| && schedule[i] == (t, Go) && t in ks[i].tasks && Holder(ks[i], t)
  }

  lemma GoesTo(ks: seq<Kernel>, schedule: Schedule, i: nat, t: Task)
    requires Goes(ks, schedule, i, t)
    ensures Ready(ks[i], t) && ks[i + 1] == DoGo(ks[i], t)
  {
    TraceKeeps(ks, schedule, i);
    IsReady(ks[i], t);
    assert StepAt(ks, schedule, i);
  }

  lemma EnterAt(ks: seq<Kernel>, schedule: Schedule, i: nat, t: Task, index: int)
    requires Trace(ks, schedule) && i < |schedule| && schedule[i] == (t, Switch(index))
    requires InUserCode(ks[i], t) && t.tgid in ks[i].processes && ks[i].processes[t.tgid].lock == Free
    ensures ks[i + 1] == Entered(ks[i], t, index)
  {
    TraceKeeps(ks, schedule, i);
    assert StepAt(ks, schedule, i);
  }

  lemma Composed(k: Kernel, t: Task, to: Key)
    requires t in k.tasks && t in k.threads && k.threads[t] in k.fibers && t.tgid in k.processes
    requires k.tasks[t].phase.Outside? && k.processes[t.tgid].lock == Free && to in k.fibers && to != k.threads[t]
    ensures var k3 := Saved(SetPhase(Entered(k, t, to.index), t, Found(to)), t, to);
            var k4 := k3.(tasks := k3.tasks[t := TaskState(k3.fibers[to].saved, Loaded(to))]);
            Taken(Halted(k4, t, to), t, to) == Switched(k, t, to)
  {
    assert k.processes[t.tgid := k.processes[t.tgid].(lock := Free)] == k.processes;
  }

  /** Its first three steps. */
  lemma SwitchSaves(ks: seq<Kernel>, schedule: Schedule, n: nat, t: Task, to: Key)
    requires Trace(ks, schedule) && n + 3 < |ks| && schedule[n] == (t, Switch(to.index))
    requires schedule[n + 1] == schedule[n + 2] == (t, Go)
    requires InUserCode(ks[n], t) && t in ks[n].threads && t.tgid in ks[n].processes && ks[n].processes[t.tgid].lock == Free
    requires ks[n].threads[t] in ks[n].fibers && to.pid == t.tgid && to in ks[n].fibers && !ks[n].fibers[to].running
    ensures ks[n + 3] == Saved(SetPhase(Entered(ks[n], t, to.index), t, Found(to)), t, to)
  {
    EnterAt(ks, schedule, n, t, to.index);
    assert ks[n + 2] == SetPhase(ks[n + 1], t, Found(to)) by { GoesTo(ks, schedule, n + 1, t); }
    GoesTo(ks, schedule, n + 2, t);
  }

  /** A switch to a fiber that nobody runs, not interrupted by other tasks, does what the switch
      in one piece does. */
  lemma SwitchCompletes(ks: seq<Kernel>, schedule: Schedule, n: nat, t: Task, to: Key)
    requires Trace(ks, schedule) && n + 6 < |ks| && schedule[n] == (t, Switch(to.index))
    requires forall i :: n < i < n + 6 ==> schedule[i] == (t, Go)
    requires InUserCode(ks[n], t) && t in ks[n].threads && ks[n].processes[t.tgid].lock == Free
    requires to.pid == t.tgid && to in ks[n].fibers && !ks[n].fibers[to].running
    ensures ks[n].threads[t] in ks[n].fibers && ks[n + 6] == Switched(ks[n], t, to)
  {
    TraceKeeps(ks, schedule, n);
    assert TaskOk(ks[n], t);
    SwitchSaves(ks, schedule, n, t, to);
    assert ks[n + 4] == ks[n + 3].(tasks := ks[n + 3].tasks[t := TaskState(ks[n + 3].fibers[to].saved, Loaded(to))]) by {
      GoesTo(ks, schedule, n + 3, t);
    }
    assert ks[n + 5] == Halted(ks[n + 4], t, to) by { GoesTo(ks, schedule, n + 4, t); }
    assert ks[n + 6] == Taken(ks[n + 5], t, to) by { GoesTo(ks, schedule, n + 5, t); }
    Composed(ks[n], t, to);
  }

  lemma Undone(k: Kernel, t: Task, index: int)
    requires t in k.tasks && k.tasks[t].phase.Outside? && t.tgid in k.processes && k.processes[t.tgid].lock == Free
    ensures Leave(Entered(k, t, index), t) == k
  {
    assert k.processes[t.tgid := k.processes[t.tgid].(lock := Free)] == k.processes;
  }

  /** A switch to a fiber that somebody runs counts as a failed activation, one to a fiber that
      does not exist leaves no trace. */
  lemma SwitchRefused(ks: seq<Kernel>, schedule: Schedule, n: nat, t: Task, to: Key)
    requires Trace(ks, schedule) && n + 2 < |ks| && schedule[n] == (t, Switch(to.index)) && schedule[n + 1] == (t, Go)
    requires InUserCode(ks[n], t) && t.tgid in ks[n].processes && ks[n].processes[t.tgid].lock == Free
    requires to.pid == t.tgid && (to in ks[n].fibers ==> ks[n].fibers[to].running)
    ensures ks[n + 2] == if to in ks[n].fibers
      then SetFiber(ks[n], to, ks[n].fibers[to].(failedActivations := ks[n].fibers[to].failedActivations + 1)) else ks[n]
  {
    EnterAt(ks, schedule, n, t, to.index);
    GoesTo(ks, schedule, n + 1, t);
    Undone(ks[n], t, to.index);
  }
}
