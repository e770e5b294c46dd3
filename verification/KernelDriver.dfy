/** The driver's entry points, statement by statement, for a caller that nobody interrupts. The
    tables are fields that the commands reassign, and every fiber has a storage object, a bitmap
    and an array, that lasts from its creation to its end. A command does what the interleaved
    machine does in its step, or in the steps of a whole switch, and its contract says what that
    means for the fibers. */
module KernelDriver {
  import opened Common
  import opened KernelFibers
  import opened KernelRuns
  import Fls = FiberStorage

  // ---------- What the steps mean ----------

  /** One fiber is new, without storage, and no other changed. */
  ghost predicate Adds(k: Kernel, k': Kernel, f: Key) {
    && f !in k.fibers && f in k'.fibers && Owned(k', f).storage == map[]
    && (forall g :: g in k'.fibers && g != f ==> g in k.fibers)
    && forall g :: g in k.fibers ==> g in k'.fibers && Owned(k', g) == Owned(k, g)
  }

  /** What a new record says of its fiber: whether it runs, which thread made it, where it starts, and
      that it was activated once if it runs, never if not, and never in vain. */
  predicate Registers(f: Fiber, t: Task, running: bool, start: int) {
    && f.running == running && f.threadId == t.pid && f.startingPoint == start
    && (running ==> f.activations == 1) && (!running ==> f.activations == 0) && f.failedActivations == 0
  }

  /** An index of a process is used up, the next one in order; its lock is as before, and so are the
      other processes. */
  ghost predicate Numbers(ps: map<int, Process>, ps': map<int, Process>, pid: int, r: int) {
    && pid in ps' && ps' == ps[pid := ps'[pid]] && ps'[pid].fiberId == r + 1
    && (pid in ps ==> r == ps[pid].fiberId && ps'[pid].lock == ps[pid].lock)
    && (pid !in ps ==> r == 0 && ps'[pid].lock == Free)
  }

  lemma ConvertAdds(k: Kernel, t: Task)
    requires Inv(k) && InUserCode(k, t) && t !in k.threads
    ensures var f, k' := NextKey(k, t), DoConvert(k, t);
            Adds(k, k', f) && Owned(k', f).context == k.tasks[t].live && Registers(k'.fibers[f], t, true, k.tasks[t].live.regs.ip)
  {
    NextKeyIsNew(k, t);
  }

  lemma CreateAdds(k: Kernel, t: Task, stack: int, start: int, param: int)
    requires Inv(k) && InUserCode(k, t) && t in k.threads
    ensures var f, k' := NextKey(k, t), DoCreate(k, t, stack, start, param);
            && Adds(k, k', f) && StartsAt(Owned(k', f).context, k.tasks[t].live, stack, start, param)
            && Registers(k'.fibers[f], t, false, start)
  {
    NextKeyIsNew(k, t);
  }

  /** Only the storage of one fiber changed. */
  ghost predicate Stores(k: Kernel, k': Kernel, f: Key, storage: Fls.Slots) {
    && f in k.fibers && k'.threads == k.threads && k'.fibers.Keys == k.fibers.Keys
    && Owned(k', f) == Owned(k, f).(storage := storage)
    && forall g :: g in k.fibers && g != f ==> Owned(k', g) == Owned(k, g)
  }

  lemma StorageStores(k: Kernel, t: Task, call: Call)
    requires InUserCode(k, t) && t in k.threads
    ensures Stores(k, DoStorage(k, t, call), k.threads[t], Stored(k.fibers[k.threads[t]].storage, call))
  {
  }

  lemma NobodyHalts(k: Kernel, u: Task)
    requires Inv(k) && u in k.threads && u.tgid in k.processes && k.processes[u.tgid].lock == Free
    ensures !Halting(k, u)
  {
    assert TaskOk(k, u);
  }

  lemma OwnerOf(k: Kernel, f: Key)
    requires Inv(k) && f in k.owner
    ensures k.owner[f] in k.threads && k.owner[f].tgid == f.pid
  {
    OwnedIsActive(k, f);
    assert TaskOk(k, k.owner[f]);
  }

  /** While nobody is in the critical section, a fiber that is not marked belongs to nobody. */
  lemma UnmarkedIsFree(k: Kernel, to: Key)
    requires Inv(k) && to in k.fibers && !k.fibers[to].running && to.pid in k.processes && k.processes[to.pid].lock == Free
    ensures to !in k.owner && to in k.logical && k.fibers[to].saved == k.logical[to]
  {
    assert FiberOk(k, to);
    if to in k.owner {
      OwnerOf(k, to);
      NobodyHalts(k, k.owner[to]);
    }
  }

  /** The marks and counters of a switch: the fiber that was left does not run, the other one runs
      and was activated once more. */
  ghost predicate Marks(k: Kernel, k': Kernel, from: Key, to: Key)
    requires from in k.fibers && to in k.fibers
  {
    && k'.fibers.Keys == k.fibers.Keys && !k'.fibers[from].running && k'.fibers[to].running
    && k'.fibers[to].activations == k.fibers[to].activations + 1 && k'.fibers[from].activations == k.fibers[from].activations
    && (forall f :: f in k.fibers && f != from && f != to ==> k'.fibers[f] == k.fibers[f])
  }

  /** A switch changes which fiber is active, and nobody's context or storage; the thread goes on
      with the context of the fiber it took. */
  lemma SwitchedTakes(k: Kernel, t: Task, to: Key)
    requires Inv(k) && InUserCode(k, t) && t in k.threads && to in k.fibers && !k.fibers[to].running
    requires to.pid == t.tgid && k.processes[t.tgid].lock == Free
    ensures k.threads[t] in k.fibers && to != k.threads[t]
    ensures Seen(Switched(k, t, to)) == Seen(k).(active := k.threads[t := to])
    ensures Switched(k, t, to).tasks[t].live == Owned(k, to).context
    ensures Marks(k, Switched(k, t, to), k.threads[t], to)
  {
    UnmarkedIsFree(k, to);
    forall f | f in k.fibers ensures f in k.logical { assert FiberOk(k, f); }
    SameFibers(k, Switched(k, t, to));
  }

  // ---------- The tables ----------

  /** A fiber record without its storage. */
  datatype Record = Record(
    running: bool, saved: Context, startingPoint: int, threadId: int,
    activations: nat, failedActivations: nat)

  function Plain(f: Fiber): Record {
    Record(f.running, f.saved, f.startingPoint, f.threadId, f.activations, f.failedActivations)
  }

  /** A record and what it leaves out. */
  function Filled(r: Record, storage: Fls.Slots): Fiber {
    Fiber(r.running, r.saved, r.startingPoint, r.threadId, r.activations, r.failedActivations, storage)
  }

  predicate Shown(r: Record, f: Fiber) {
    r == Plain(f)
  }

  /** The records are those of these fibers. */
  ghost predicate Shows(records: map<Key, Record>, fibers: map<Key, Fiber>) {
    records.Keys == fibers.Keys
    && forall f {:trigger Shown(records[f], fibers[f])} :: f in fibers ==> Shown(records[f], fibers[f])
  }

  /** What the storage objects hold. */
  ghost function Contents(fibers: map<Key, Fiber>): map<Key, Fls.Slots> {
    map f | f in fibers :: fibers[f].storage
  }

  ghost predicate Has(slots: Fls.Storage, content: Fls.Slots)
    reads slots.bitmap, slots.values
  {
    slots.Valid() && slots.View() == content
  }

  /** The storage objects hold these contents. */
  ghost predicate Holds(stores: map<Key, Fls.Storage>, contents: map<Key, Fls.Slots>)
    reads set f | f in stores :: stores[f].bitmap, set f | f in stores :: stores[f].values
  {
    && stores.Keys == contents.Keys
    && (forall f {:trigger Has(stores[f], contents[f])} :: f in stores ==> Has(stores[f], contents[f]))
  }

  predicate Distinct(a: Fls.Storage, b: Fls.Storage) {
    a.bitmap != b.bitmap && a.values != b.values
  }

  /** No two fibers share a bitmap or an array. */
  ghost predicate Apart(stores: map<Key, Fls.Storage>) {
    forall f, g {:trigger Distinct(stores[f], stores[g])} ::
      f in stores && g in stores && f != g ==> Distinct(stores[f], stores[g])
  }

  // Adding, changing and dropping entries.

  lemma AddShows(records: map<Key, Record>, fibers: map<Key, Fiber>, key: Key, fiber: Fiber)
    requires Shows(records, fibers)
    ensures Shows(records[key := Plain(fiber)], fibers[key := fiber])
    ensures Contents(fibers[key := fiber]) == Contents(fibers)[key := fiber.storage]
  {
  }

  lemma AddHolds(stores: map<Key, Fls.Storage>, contents: map<Key, Fls.Slots>, key: Key, slots: Fls.Storage)
    requires Holds(stores, contents) && Apart(stores) && slots.Valid()
    requires forall f :: f in stores ==> stores[f].bitmap != slots.bitmap && stores[f].values != slots.values
    ensures Holds(stores[key := slots], contents[key := slots.View()]) && Apart(stores[key := slots])
  {
  }

  lemma SetShows(records: map<Key, Record>, fibers: map<Key, Fiber>, key: Key, r: Record)
    requires Shows(records, fibers) && key in fibers
    ensures Shows(records[key := r], fibers[key := Filled(r, fibers[key].storage)])
    ensures Contents(fibers[key := Filled(r, fibers[key].storage)]) == Contents(fibers)
  {
  }

  lemma StoreShows(records: map<Key, Record>, fibers: map<Key, Fiber>, key: Key, storage: Fls.Slots)
    requires Shows(records, fibers) && key in fibers
    ensures Shows(records, fibers[key := fibers[key].(storage := storage)])
    ensures Contents(fibers[key := fibers[key].(storage := storage)]) == Contents(fibers)[key := storage]
  {
    assert Shown(records[key], fibers[key]);
  }

  lemma KeepShows(records: map<Key, Record>, fibers: map<Key, Fiber>, keys: set<Key>)
    requires Shows(records, fibers)
    ensures Shows(map f | f in records && f in keys :: records[f], map f | f in fibers && f in keys :: fibers[f])
    ensures Contents(map f | f in fibers && f in keys :: fibers[f])
            == map f | f in Contents(fibers) && f in keys :: Contents(fibers)[f]
  {
  }

  lemma KeepHolds(stores: map<Key, Fls.Storage>, contents: map<Key, Fls.Slots>, keys: set<Key>)
    requires Holds(stores, contents) && Apart(stores)
    ensures Holds(map f | f in stores && f in keys :: stores[f], map f | f in contents && f in keys :: contents[f])
    ensures Apart(map f | f in stores && f in keys :: stores[f])
  {
  }

  /** What stays true while one storage object is written. */
  ghost predicate OthersHold(stores: map<Key, Fls.Storage>, contents: map<Key, Fls.Slots>, f: Key)
    requires f in stores
    reads set g | g in stores && Distinct(stores[g], stores[f]) :: stores[g].bitmap
    reads set g | g in stores && Distinct(stores[g], stores[f]) :: stores[g].values
  {
    && stores.Keys == contents.Keys
    && forall g {:trigger Has(stores[g], contents[g])} ::
         g in stores && Distinct(stores[g], stores[f]) ==> Has(stores[g], contents[g])
  }

  /** One storage object changed, and so did its contents. */
  lemma OneChanged(stores: map<Key, Fls.Storage>, contents: map<Key, Fls.Slots>, f: Key, storage: Fls.Slots)
    requires Apart(stores) && f in stores && OthersHold(stores, contents, f) && Has(stores[f], storage)
    ensures Holds(stores, contents[f := storage])
  {
    forall g | g in stores && g != f ensures Has(stores[g], contents[g]) {
      assert Distinct(stores[g], stores[f]);
    }
  }

  class Driver {
    var processes: map<int, Process>
    var threads: map<Task, Key>
    var records: map<Key, Record>
    var stores: map<Key, Fls.Storage>
    var tasks: map<Task, TaskState>
    var countThreads: int
    ghost var fibers: map<Key, Fiber>
    ghost var owner: map<Key, Task>
    ghost var logical: map<Key, Context>

    ghost function View(): Kernel
      reads this
    {
      Kernel(processes, threads, fibers, tasks, countThreads, owner, logical)
    }

    /** Records and storage objects are those of the fibers. */
    ghost predicate Linked()
      reads this`records, this`stores, this`fibers
      reads set f | f in stores :: stores[f].bitmap, set f | f in stores :: stores[f].values
    {
      Shows(records, fibers) && Apart(stores) && Holds(stores, Contents(fibers))
    }

    /** One fiber has a storage object that nobody knew, and the others have theirs. */
    twostate predicate NewStore(key: Key)
      reads this`stores
    {
      && key in stores && stores == old(stores)[key := stores[key]]
      && fresh(stores[key].bitmap) && fresh(stores[key].values)
    }

    method NewSlots(key: Key) returns (slots: Fls.Storage)
      requires Apart(stores) && Holds(stores, Contents(fibers))
      modifies this`stores
      ensures stores == old(stores)[key := slots] && fresh(slots.bitmap) && fresh(slots.values)
      ensures Apart(stores) && Holds(stores, Contents(fibers)[key := map[]])
    {
      slots := new Fls.Storage();
      AddHolds(stores, Contents(fibers), key, slots);
      stores := stores[key := slots];
    }

    /** The record of a fiber whose storage object is in place already. */
    method Enter(key: Key, ghost fiber: Fiber, r: Record)
      requires Shows(records, fibers) && Apart(stores) && r == Plain(fiber)
      requires Holds(stores, Contents(fibers)[key := fiber.storage])
      modifies this`records, this`fibers
      ensures Linked() && fibers == old(fibers)[key := fiber]
    {
      AddShows(records, fibers, key, fiber);
      records := records[key := r];
      fibers := fibers[key := fiber];
    }

    /** A new fiber, with its record and an empty storage. */
    method AddFiber(key: Key, running: bool, saved: Context, start: int, t: Task)
      requires Linked() && key !in fibers
      modifies this`records, this`stores, this`fibers, this`logical
      ensures Linked() && logical == old(logical)[key := saved]
      ensures fibers == old(fibers)[key := NewFiber(running, saved, start, t)]
      ensures NewStore(key)
    {
      var slots := NewSlots(key);
      Enter(key, NewFiber(running, saved, start, t), Record(running, saved, start, t.pid, if running then 1 else 0, 0));
      logical := logical[key := saved];
    }

    /** No tables; every task is in user code. */
    constructor (live: map<Task, Context>)
      ensures Start(View()) && Linked() && View().tasks.Keys == live.Keys && stores == map[]
      ensures forall t :: t in live ==> View().tasks[t].live == live[t]
    {
      processes, threads, records, stores, countThreads := map[], map[], map[], map[], 0;
      tasks := map t | t in live :: TaskState(live[t], Outside);
      fibers, owner, logical := map[], map[], map[];
    }

    /** A registered thread has a process record. */
    lemma Known(t: Task)
      requires Inv(View()) && t in threads
      ensures t in tasks && t.tgid in processes && Registered(View(), t)
    {
      assert TaskOk(View(), t);
    }

    method SetRecord(key: Key, r: Record)
      requires Linked() && key in fibers
      modifies this`records, this`fibers
      ensures Linked() && fibers == old(fibers)[key := Filled(r, old(fibers)[key].storage)]
    {
      SetShows(records, fibers, key, r);
      records := records[key := r];
      fibers := fibers[key := Filled(r, fibers[key].storage)];
    }

    method Save(key: Key, context: Context)
      requires Linked() && key in fibers
      modifies this`records, this`fibers
      ensures Linked() && fibers == old(fibers)[key := old(fibers)[key].(saved := context)]
    {
      assert Shown(records[key], fibers[key]);
      SetRecord(key, records[key].(saved := context));
    }

    method Stop(key: Key)
      requires Linked() && key in fibers
      modifies this`records, this`fibers
      ensures Linked() && fibers == old(fibers)[key := old(fibers)[key].(running := false)]
    {
      assert Shown(records[key], fibers[key]);
      SetRecord(key, records[key].(running := false));
    }

    /** Handing out an index, from a process record that is made if there is none. */
    method NextIndex(pid: int) returns (r: nat)
      modifies this`processes
      ensures var p := if pid in old(processes) then old(processes)[pid] else Process(0, Free);
              r == p.fiberId && processes == old(processes)[pid := p.(fiberId := r + 1)]
    {
      if pid !in processes {
        processes := processes[pid := Process(0, Free)];
      }
      r := processes[pid].fiberId;
      processes := processes[pid := processes[pid].(fiberId := r + 1)];
    }

    /** A new fiber that is active on a thread from its first moment. */
    method AddActive(key: Key, live: Context, t: Task)
      requires Linked() && key !in fibers
      modifies this`records, this`stores, this`fibers, this`logical, this`threads, this`countThreads, this`owner
      ensures Linked() && logical == old(logical)[key := live]
      ensures fibers == old(fibers)[key := NewFiber(true, live, live.regs.ip, t)]
      ensures NewStore(key)
      ensures threads == old(threads)[t := key] && countThreads == old(countThreads) + 1 && owner == old(owner)[key := t]
    {
      AddFiber(key, true, live, live.regs.ip, t);
      threads := threads[t := key];
      countThreads := countThreads + 1;
      owner := owner[key := t];
    }

    /** CONVERTTOFIBER: the index of the new fiber, -1 for a thread that has one. The new fiber is
        the thread's, with the thread's registers and no storage; no other fiber changes. */
    method ConvertToFiber(t: Task) returns (r: int)
      requires Linked() && Inv(View()) && InUserCode(View(), t)
      modifies this
      ensures Linked() && View() == DoConvert(old(View()), t)
      ensures r == -1 <==> t in old(threads)
      ensures r == -1 ==> View() == old(View()) && stores == old(stores)
      ensures r != -1 ==>
                && threads == old(threads)[t := Key(t.tgid, r)]
                && Adds(old(View()), View(), Key(t.tgid, r)) && Numbers(old(processes), processes, t.tgid, r)
                && Owned(View(), Key(t.tgid, r)).context == old(tasks)[t].live
                && Registers(fibers[Key(t.tgid, r)], t, true, old(tasks)[t].live.regs.ip)
                && NewStore(Key(t.tgid, r))
    {
      if t in threads {
        Known(t);
        return -1;
      }
      ConvertAdds(View(), t);
      r := NextIndex(t.tgid);
      AddActive(Key(t.tgid, r), tasks[t].live, t);
    }

    /** CREATEFIBER: the index of the new fiber, -1 for a thread that is not registered. The new
        fiber is free, with the registers it starts with and no storage; no other fiber changes. */
    method CreateFiber(t: Task, stack: int, start: int, param: int) returns (r: int)
      requires Linked() && Inv(View()) && InUserCode(View(), t)
      modifies this
      ensures Linked() && View() == DoCreate(old(View()), t, stack, start, param)
      ensures r == -1 <==> t !in old(threads)
      ensures r == -1 ==> View() == old(View()) && stores == old(stores)
      ensures r != -1 ==>
                && threads == old(threads)
                && Adds(old(View()), View(), Key(t.tgid, r)) && Numbers(old(processes), processes, t.tgid, r)
                && StartsAt(Owned(View(), Key(t.tgid, r)).context, old(tasks)[t].live, stack, start, param)
                && Registers(fibers[Key(t.tgid, r)], t, false, start)
                && NewStore(Key(t.tgid, r))
    {
      if t in threads { Known(t); }
      if t.tgid !in processes || t !in threads { return -1; }
      CreateAdds(View(), t, stack, start, param);
      r := NextIndex(t.tgid);
      var saved := tasks[t].live;
      saved := saved.(regs := saved.regs.(sp := stack));
      saved := saved.(regs := saved.regs.(ip := start));
      saved := saved.(regs := saved.regs.(di := param));
      saved := saved.(regs := saved.regs.(bp := saved.regs.sp));
      AddFiber(Key(t.tgid, r), false, saved, start, t);
    }

    /** The first half of a switch: the thread's registers go into its fiber, and those of the
        fiber it changes to are loaded. */
    method SaveAndLoad(t: Task, to: Key)
      requires Linked() && t in tasks && t in threads && threads[t] in fibers && to in fibers && to != threads[t]
      modifies this`records, this`fibers, this`tasks
      ensures Linked()
      ensures fibers == old(fibers)[threads[t] := old(fibers)[threads[t]].(saved := old(tasks)[t].live, running := false)]
      ensures tasks == old(tasks)[t := old(tasks)[t].(live := old(fibers)[to].saved)]
    {
      Save(threads[t], tasks[t].live);
      assert Shown(records[to], fibers[to]);
      tasks := tasks[t := tasks[t].(live := records[to].saved)];
      Stop(threads[t]);
    }

    /** The second half: the fiber becomes the thread's. */
    method TakeOver(t: Task, to: Key)
      requires Linked() && t in threads && to in fibers
      modifies this`records, this`fibers, this`threads, this`owner
      ensures Linked() && threads == old(threads)[t := to] && owner == (old(owner) - {old(threads)[t]})[to := t]
      ensures fibers == old(fibers)[to := old(fibers)[to].(running := true, activations := old(fibers)[to].activations + 1)]
    {
      owner := (owner - {threads[t]})[to := t];
      threads := threads[t := to];
      assert Shown(records[to], fibers[to]);
      SetRecord(to, records[to].(running := true));
      assert Shown(records[to], fibers[to]);
      SetRecord(to, records[to].(activations := records[to].activations + 1));
    }

    /** SWITCHTOFIBER, from the lock to its release: 0 if the thread now runs the fiber, with the
        context the fiber was left with; no context or storage of a fiber changes. */
    method SwitchToFiber(t: Task, index: int) returns (r: int)
      requires Linked() && Inv(View()) && InUserCode(View(), t)
      requires t.tgid in processes ==> processes[t.tgid].lock == Free
      modifies this`records, this`fibers, this`tasks, this`threads, this`owner
      ensures Linked()
      ensures var k, to := old(View()), Key(t.tgid, index);
              if t.tgid !in k.processes || to !in k.fibers then r == -1 && View() == k
              else if k.fibers[to].running then
                r == -1 && View() == SetFiber(k, to, k.fibers[to].(failedActivations := k.fibers[to].failedActivations + 1))
              else if t !in k.threads then r == -1 && View() == k
              else
                && r == 0 && k.threads[t] in k.fibers && View() == Switched(k, t, to) && Marks(k, View(), k.threads[t], to)
                && Seen(View()) == Seen(k).(active := k.threads[t := to])
                && tasks[t].live == Owned(k, to).context
    {
      var to := Key(t.tgid, index);
      if t.tgid !in processes { return -1; }
      if to !in records { return -1; }
      assert Shown(records[to], fibers[to]);
      if records[to].running {
        SetRecord(to, records[to].(failedActivations := records[to].failedActivations + 1));
        return -1;
      }
      if t !in threads { return -1; }
      Known(t);
      SwitchedTakes(View(), t, to);
      SaveAndLoad(t, to);
      TakeOver(t, to);
      return 0;
    }

    /** Dropping the records and storage objects of some fibers. */
    method Keep(keys: set<Key>)
      requires Linked()
      modifies this`records, this`stores, this`fibers
      ensures Linked() && fibers == map f | f in old(fibers) && f in keys :: old(fibers)[f]
    {
      KeepShows(records, fibers, keys);
      KeepHolds(stores, Contents(fibers), keys);
      records := map f | f in records && f in keys :: records[f];
      stores := map f | f in stores && f in keys :: stores[f];
      fibers := map f | f in fibers && f in keys :: fibers[f];
    }

    method DropFiber(f: Key)
      requires Linked()
      modifies this`records, this`stores, this`fibers
      ensures Linked() && fibers == old(fibers) - {f}
    {
      Keep(records.Keys - {f});
      assert fibers == old(fibers) - {f};
    }

    /** The record of a thread, and its active fiber, go. */
    method Drop(t: Task)
      requires Linked() && t in threads && owner.Keys <= fibers.Keys
      modifies this`tasks, this`threads, this`countThreads, this`records, this`stores, this`fibers, this`owner
      ensures Linked() && View() == DropThread(old(View()), t)
    {
      tasks := tasks - {t};
      countThreads := countThreads - 1;
      var f := threads[t];
      threads := threads - {t};
      DropFiber(f);
      owner := owner - {f};
    }

    /** The record of a process, and the fibers it still has, go. */
    method DropProcess(pid: int)
      requires Linked()
      modifies this`processes, this`records, this`stores, this`fibers
      ensures Linked() && processes == old(processes) - {pid} && fibers == Purge(old(fibers), pid)
    {
      processes := processes - {pid};
      Keep(set g | g in records && g.pid != pid);
    }

    /** A thread goes, and its process with the last thread of all processes. */
    method Unregister(t: Task)
      requires Linked() && t in tasks && t.tgid in processes && t in threads && owner.Keys <= fibers.Keys
      modifies this`processes, this`tasks, this`threads, this`countThreads, this`records, this`stores, this`fibers, this`owner
      ensures Linked() && View() == DoExit(old(View()), t)
    {
      Drop(t);
      if countThreads == 0 { DropProcess(t.tgid); }
    }

    /** Pre_Handler, on the exit of a task: its thread and its fiber go and, when no thread is left,
        the fibers of its process; no other thread or fiber changes. */
    method PreHandler(t: Task)
      requires Linked() && Inv(View()) && InUserCode(View(), t)
      modifies this
      ensures Linked() && View() == DoExit(old(View()), t)
      ensures ViewStep(Seen(old(View())), Seen(View()), t, Exit, NextKey(old(View()), t), old(tasks)[t])
    {
      ExitRefines(View(), t);
      if t.tgid !in processes || t !in threads {
        tasks := tasks - {t};
        return;
      }
      Unregister(t);
    }

    // ---------- Fiber-local storage ----------

    /** The storage object of a fiber was changed; no other one was. */
    method Note(f: Key, ghost storage: Fls.Slots)
      requires Shows(records, fibers) && Apart(stores) && f in fibers && Holds(stores, Contents(fibers)[f := storage])
      modifies this`fibers
      ensures Linked() && fibers == old(fibers)[f := old(fibers)[f].(storage := storage)]
    {
      StoreShows(records, fibers, f, storage);
      fibers := fibers[f := fibers[f].(storage := storage)];
    }

    /** FLSALLOC, for the active fiber: the least free slot, with value 0; -1 for a thread without
        fiber, or when every slot is taken. */
    method FlsAllocate(t: Task) returns (r: int)
      requires Linked() && Inv(View()) && InUserCode(View(), t)
      modifies this`fibers, set f | f in stores :: stores[f].bitmap, set f | f in stores :: stores[f].values
      ensures Linked() && View() == DoStorage(old(View()), t, FlsAlloc)
      ensures t !in threads ==> r == -1
      ensures t in threads ==>
                var f := threads[t];
                && f in old(fibers) && r == Fls.Alloc(old(fibers)[f].storage).1
                && Stores(old(View()), View(), f, Fls.Alloc(old(fibers)[f].storage).0)
    {
      if t in threads { Known(t); StorageStores(View(), t, FlsAlloc); }
      if t.tgid !in processes || t !in threads { return -1; }
      var f := threads[t];
      assert Has(stores[f], fibers[f].storage) && OthersHold(stores, Contents(fibers), f);
      r := stores[f].FlsAlloc();
      OneChanged(stores, Contents(fibers), f, Fls.Alloc(fibers[f].storage).0);
      Note(f, Fls.Alloc(fibers[f].storage).0);
    }

    /** FLSFREE, for the active fiber: any slot but 0. */
    method FlsRelease(t: Task, slot: int) returns (freed: bool)
      requires Linked() && Inv(View()) && InUserCode(View(), t)
      modifies this`fibers, set f | f in stores :: stores[f].bitmap
      ensures Linked() && View() == DoStorage(old(View()), t, FlsFree(slot))
      ensures freed <==> t in threads && 0 < slot < Fls.MAX_FLS
      ensures t in threads ==>
                var f := threads[t];
                f in old(fibers) && Stores(old(View()), View(), f, Fls.Free(old(fibers)[f].storage, slot).0)
    {
      if t in threads { Known(t); StorageStores(View(), t, FlsFree(slot)); }
      if t.tgid !in processes || t !in threads { return false; }
      var f := threads[t];
      assert Has(stores[f], fibers[f].storage) && OthersHold(stores, Contents(fibers), f);
      freed := stores[f].FlsFree(slot);
      OneChanged(stores, Contents(fibers), f, Fls.Free(fibers[f].storage, slot).0);
      Note(f, Fls.Free(fibers[f].storage, slot).0);
    }

    /** FLSGETVALUE: the value of a slot that the active fiber has allocated, None for the driver's error. */
    method FlsGet(t: Task, slot: nat) returns (r: Option<int>)
      requires Linked() && Inv(View()) && slot < Fls.MAX_FLS
      ensures r.Some? <==> t in threads && threads[t] in fibers && slot in fibers[threads[t]].storage
      ensures r.Some? ==> r.value == fibers[threads[t]].storage[slot]
    {
      if t in threads { Known(t); }
      if t.tgid !in processes || t !in threads { return None; }
      assert Has(stores[threads[t]], fibers[threads[t]].storage);
      r := stores[threads[t]].FlsGetValue(slot);
    }

    /** FLSSETVALUE: a later FLSGETVALUE of the slot on this fiber gives the value, if the slot is
        allocated; all other slots stay, and so does the storage of every other fiber. */
    method FlsPut(t: Task, slot: nat, value: int)
      requires Linked() && Inv(View()) && InUserCode(View(), t) && slot < Fls.MAX_FLS
      modifies this`fibers, set f | f in stores :: stores[f].values
      ensures Linked() && View() == DoStorage(old(View()), t, FlsSetValue(slot, value))
      ensures t in threads ==>
                var f := threads[t];
                && f in old(fibers) && Stores(old(View()), View(), f, fibers[f].storage)
                && forall j: nat :: Fls.Get(fibers[f].storage, j)
                     == if j == slot && slot in old(fibers)[f].storage then Some(value)
                        else Fls.Get(old(fibers)[f].storage, j)
    {
      if t in threads { Known(t); StorageStores(View(), t, FlsSetValue(slot, value)); }
      if t.tgid !in processes || t !in threads { return; }
      var f := threads[t];
      ghost var m := fibers[f].storage;
      assert Has(stores[f], m) && OthersHold(stores, Contents(fibers), f);
      stores[f].FlsSetValue(slot, value);
      OneChanged(stores, Contents(fibers), f, Fls.Set(m, slot, value));
      Note(f, Fls.Set(m, slot, value));
      Fls.SetThenGet(m, slot, value);
    }
  }
}
