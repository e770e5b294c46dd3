/** User-space fibers: how threads hand fibers to each other with one flag per fiber. Every step
    of a thread between two accesses to shared memory is one step of the machine, and threads
    interleave freely. */
module UltHandoff {

  type Fid = nat
  type Tid = nat

  /** Where a saved context goes on when it is jumped to: behind the switch of ult_switch_to,
      behind the switch of a creation (about to return the new fiber), in the trampoline on a
      new fiber's stack, or behind the boot code's switch (about to call the fiber's function). */
  datatype Resume = AfterSwitch | AfterCreate(made: Fid) | AtTrampoline | AtStart

  /** A saved context: the place and the registers, which are opaque. */
  datatype Context = Zeroed | Saved(resume: Resume, regs: int)

  datatype Fiber = Fiber(running: bool, context: Context)

  /** The program points of a thread. */
  datatype Phase =
    | Outside                // before ult_convert
    | User                   // in client code, or entering ult_switch_to or ult_creat
    | Locked(to: Fid)        // ult_switch_to: the target's flag is taken
    | Chosen(to: Fid)        // current is the target
    | Kept(to: Fid)          // the switcher's context is saved
    | Released(to: Fid)      // the switcher's flag is cleared; only the jump is left
    | Fresh(n: Fid)          // ult_creat: the new record is allocated
    | Trampolined(n: Fid)    // the signal handler has saved a context on the new stack
    | LockedNew(n: Fid)      // context_switch_create: the new fiber's flag is taken
    | KeptCreator(n: Fid)    // the creator's context is saved
    | ReleasedCreator(n: Fid)// the creator's flag is cleared
    | Boot                   // context_create_boot on the new stack
    | LockedBack             // the creator's flag is taken again
    | KeptNew                // the new fiber's context is saved
    | ReleasedNew            // the new fiber's flag is cleared
    | Returning(n: Fid)      // the creator goes on, about to return the new fiber
    | Lost                   // jumped to a context nobody saved

  /** A thread: its place, the fiber whose code it executes, its thread-local variables current
      and context_creat, and its registers. */
  datatype Thread = Thread(phase: Phase, exec: Fid, current: Fid, creating: Fid, regs: int)

  /** holder, pending and stale are bookkeeping that no step depends on: which thread took a
      flag last, which new fibers have no flag taken yet, which fibers ran since they were saved. */
  datatype State = State(
    fibers: map<Fid, Fiber>, threads: map<Tid, Thread>, published: set<Fid>, nextId: nat,
    holder: map<Fid, Tid>, pending: map<Fid, Tid>, stale: set<Fid>)

  // ---------- Elementary effects ----------

  function At(s: State, t: Tid, th: Thread): State {
    s.(threads := s.threads[t := th])
  }

  /** Test-and-set of a flag that was clear. */
  function Lock(s: State, t: Tid, f: Fid): State
    requires f in s.fibers
  {
    s.(fibers := s.fibers[f := s.fibers[f].(running := true)], holder := s.holder[f := t], pending := s.pending - {f})
  }

  function Unlock(s: State, f: Fid): State
    requires f in s.fibers
  {
    s.(fibers := s.fibers[f := s.fibers[f].(running := false)], holder := s.holder - {f})
  }

  /** set_jmp on a fiber's context. */
  function Save(s: State, f: Fid, resume: Resume, regs: int): State
    requires f in s.fibers
  {
    s.(fibers := s.fibers[f := s.fibers[f].(context := Saved(resume, regs))], stale := s.stale - {f})
  }

  /** long_jmp to a fiber's context. */
  function Jump(s: State, t: Tid, f: Fid): State
    requires f in s.fibers && t in s.threads
  {
    var th := s.threads[t];
    match s.fibers[f].context
    case Zeroed => At(s, t, th.(phase := Lost))
    case Saved(resume, regs) =>
      var phase := match resume
        case AfterSwitch => User
        case AfterCreate(n) => Returning(n)
        case AtTrampoline => Boot
        case AtStart => User;
      At(s, t, th.(phase := phase, exec := f, regs := regs)).(stale := s.stale + {f})
  }

  // ---------- Steps ----------

  datatype Step =
    | Compute(regs: int)     // client code, or the handler's registers, are arbitrary
    | Convert
    | TrySwitch(to: Fid)
    | Create
    | Go                     // the next step of a switch or a creation under way

  /** The state after a step of thread t; unchanged where the step is not possible, which for
      ult_lock means that the thread spins. */
  function Next(s: State, t: Tid, step: Step): State
    requires Inv(s)
  {
    if t !in s.threads then s
    else
      var th := s.threads[t];
      match step
      case Compute(regs) => if th.phase.User? then At(s, t, th.(regs := regs)) else s
      case Convert =>
        if th.phase.Outside? then
          var n := s.nextId;
          At(s, t, th.(phase := User, exec := n, current := n))
            .(fibers := s.fibers[n := Fiber(true, Saved(AfterSwitch, th.regs))], nextId := n + 1,
              published := s.published + {n}, holder := s.holder[n := t], stale := s.stale + {n})
        else s
      case TrySwitch(to) =>
        if th.phase.User? && to in s.published && !s.fibers[to].running
        then At(Lock(s, t, to), t, th.(phase := Locked(to)))
        else s
      case Create =>
        if th.phase.User? then
          var n := s.nextId;
          At(s, t, th.(phase := Fresh(n), creating := n))
            .(fibers := s.fibers[n := Fiber(false, Zeroed)], nextId := n + 1,
              pending := s.pending[n := t], stale := s.stale + {n})
        else s
      case Go => GoOn(s, t)
  }

  function GoOn(s: State, t: Tid): State
    requires Inv(s) && t in s.threads
  {
    var th := s.threads[t];
    assert ThreadOk(s, t);
    match th.phase
    case Locked(to) => At(s, t, th.(phase := Chosen(to), current := to))
    case Chosen(to) => At(Save(s, th.exec, AfterSwitch, th.regs), t, th.(phase := Kept(to)))
    case Kept(to) => At(Unlock(s, th.exec), t, th.(phase := Released(to)))
    case Released(to) => Jump(s, t, to)
    case Fresh(n) => At(Save(s, th.creating, AtTrampoline, th.regs), t, th.(phase := Trampolined(n)))
    case Trampolined(n) =>
      if s.fibers[n].running then s else At(Lock(s, t, n), t, th.(phase := LockedNew(n)))
    case LockedNew(n) => At(Save(s, th.current, AfterCreate(n), th.regs), t, th.(phase := KeptCreator(n)))
    case KeptCreator(n) => At(Unlock(s, th.current), t, th.(phase := ReleasedCreator(n)))
    case ReleasedCreator(n) => Jump(s, t, n)
    case Boot =>
      if s.fibers[th.current].running then s else At(Lock(s, t, th.current), t, th.(phase := LockedBack))
    case LockedBack => At(Save(s, th.creating, AtStart, th.regs), t, th.(phase := KeptNew))
    case KeptNew => At(Unlock(s, th.creating), t, th.(phase := ReleasedNew))
    case ReleasedNew => Jump(s, t, th.current)
    case Returning(n) => At(s, t, th.(phase := User)).(published := s.published + {n})
    case Outside => s
    case User => s
    case Lost => s
  }

  // ---------- What holds at every moment ----------

  ghost predicate Held(s: State, t: Tid, f: Fid) {
    f in s.fibers && f in s.holder && s.holder[f] == t
  }

  /** A context that was saved after its fiber last ran. */
  ghost predicate Current(s: State, f: Fid) {
    f in s.fibers && f !in s.stale && s.fibers[f].context.Saved?
  }

  ghost predicate AtTheTrampoline(s: State, f: Fid) {
    Current(s, f) && s.fibers[f].context.resume.AtTrampoline?
  }

  ghost predicate Prepared(s: State, t: Tid, n: Fid) {
    n in s.fibers && n in s.pending && s.pending[n] == t
  }

  /** The thread holds the fiber it executes, which ran since it was saved. */
  ghost predicate Running(s: State, t: Tid) {
    t in s.threads && Held(s, t, s.threads[t].exec) && s.threads[t].exec in s.stale
  }

  /** What is true of a thread at each of its program points: the flags it has taken, and the
      contexts it relies on. */
  ghost predicate ThreadOk(s: State, t: Tid)
    requires t in s.threads
  {
    var th := s.threads[t];
    match th.phase
    case Outside => true
    case User => Running(s, t) && th.exec == th.current
    case Locked(to) => Running(s, t) && th.exec == th.current && Held(s, t, to) && to != th.exec && Current(s, to)
    case Chosen(to) => Running(s, t) && Held(s, t, to) && to == th.current && to != th.exec && Current(s, to)
    case Kept(to) => Held(s, t, th.exec) && Held(s, t, to) && to == th.current && to != th.exec
                     && Current(s, to) && Current(s, th.exec)
    case Released(to) => Held(s, t, to) && to == th.current && Current(s, to)
    case Fresh(n) => Running(s, t) && th.exec == th.current && n == th.creating && Prepared(s, t, n) && n in s.stale
    case Trampolined(n) => Running(s, t) && th.exec == th.current && n == th.creating && Prepared(s, t, n)
                           && AtTheTrampoline(s, n)
    case LockedNew(n) => Running(s, t) && th.exec == th.current && n == th.creating && n != th.exec
                         && Held(s, t, n) && AtTheTrampoline(s, n)
    case KeptCreator(n) => Held(s, t, th.exec) && th.exec == th.current && n == th.creating && n != th.exec
                           && Held(s, t, n) && AtTheTrampoline(s, n) && Current(s, th.exec)
    case ReleasedCreator(n) => n == th.creating && Held(s, t, n) && AtTheTrampoline(s, n)
                               && th.current in s.fibers && th.current !in s.pending && n != th.current
    case Boot => th.exec == th.creating && Running(s, t)
                 && th.current in s.fibers && th.current !in s.pending && th.exec != th.current
    case LockedBack => th.exec == th.creating && Running(s, t) && Held(s, t, th.current)
                       && th.exec != th.current && Current(s, th.current)
    case KeptNew => th.exec == th.creating && Held(s, t, th.exec) && Held(s, t, th.current)
                    && th.exec != th.current && Current(s, th.current) && Current(s, th.exec)
    case ReleasedNew => Held(s, t, th.current) && Current(s, th.current)
    case Returning(n) => Running(s, t) && th.exec == th.current && n in s.fibers && n !in s.pending
    case Lost => false
  }

  /** The fibers whose flag a thread has taken and not cleared, by its program point. */
  predicate Holds(th: Thread, f: Fid) {
    match th.phase
    case Outside => false
    case User => f == th.exec
    case Locked(to) => f == th.exec || f == to
    case Chosen(to) => f == th.exec || f == to
    case Kept(to) => f == th.exec || f == to
    case Released(to) => f == to
    case Fresh(n) => f == th.exec
    case Trampolined(n) => f == th.exec
    case LockedNew(n) => f == th.exec || f == n
    case KeptCreator(n) => f == th.exec || f == n
    case ReleasedCreator(n) => f == n
    case Boot => f == th.exec
    case LockedBack => f == th.exec || f == th.current
    case KeptNew => f == th.exec || f == th.current
    case ReleasedNew => f == th.current
    case Returning(n) => f == th.exec
    case Lost => false
  }

  /** The new fiber a thread is about to take the flag of, and to start on its own stack. */
  predicate Prepares(th: Thread, f: Fid) {
    (th.phase.Fresh? || th.phase.Trampolined?) && f == th.phase.n
  }

  predicate Launches(th: Thread, f: Fid) {
    (th.phase.LockedNew? || th.phase.KeptCreator? || th.phase.ReleasedCreator?) && f == th.phase.n
  }

  /** What is true of a fiber: its flag is set exactly while a thread holds it; a free fiber that
      others may know has an up-to-date context; a new fiber is known to its creator alone until
      its flag is taken; only its creator runs the context saved in the trampoline. */
  ghost predicate FiberOk(s: State, f: Fid)
    requires f in s.fibers
  {
    var fiber := s.fibers[f];
    && f < s.nextId
    && (fiber.running <==> f in s.holder)
    && (f in s.holder ==> s.holder[f] in s.threads && Holds(s.threads[s.holder[f]], f) && f !in s.pending)
    && (f in s.pending ==> s.pending[f] in s.threads && Prepares(s.threads[s.pending[f]], f) && f !in s.published)
    && (f !in s.holder && f !in s.pending ==> Current(s, f))
    && (fiber.context.Saved? && fiber.context.resume.AfterCreate? ==>
          fiber.context.resume.made in s.fibers && fiber.context.resume.made !in s.pending)
    && (AtTheTrampoline(s, f) ==>
          f in s.pending || (f in s.holder && s.holder[f] in s.threads && Launches(s.threads[s.holder[f]], f)))
  }

  ghost predicate Inv(s: State) {
    && WellFormed(s)
    && (forall t {:trigger ThreadOk(s, t)} :: t in s.threads ==> ThreadOk(s, t))
    && (forall f {:trigger FiberOk(s, f)} :: f in s.fibers ==> FiberOk(s, f))
  }

  ghost predicate WellFormed(s: State) {
    s.published <= s.fibers.Keys && s.holder.Keys <= s.fibers.Keys && s.pending.Keys <= s.fibers.Keys
  }

  // ---------- What a step leaves alone ----------

  /** Nothing about fiber f changed. */
  ghost predicate Same(s: State, s': State, f: Fid) {
    && f in s.fibers && f in s'.fibers && s'.fibers[f] == s.fibers[f]
    && (f in s'.holder <==> f in s.holder) && (f in s.holder ==> s'.holder[f] == s.holder[f])
    && (f in s'.pending <==> f in s.pending) && (f in s.pending ==> s'.pending[f] == s.pending[f])
    && (f in s'.stale <==> f in s.stale)
  }

  ghost predicate Mine(s: State, t: Tid, f: Fid) {
    Held(s, t, f) || Prepared(s, t, f)
  }

  /** No thread but t has taken the flag of f, or is about to. */
  ghost predicate NobodyElses(s: State, t: Tid, f: Fid) {
    (f in s.holder ==> s.holder[f] == t) && (f in s.pending ==> s.pending[f] == t)
  }

  /** Fibers only get more, and an old fiber never becomes pending. */
  ghost predicate Grows(s: State, s': State) {
    && s.fibers.Keys <= s'.fibers.Keys && s.nextId <= s'.nextId
    && forall f :: f in s.fibers && f !in s.pending ==> f !in s'.pending
  }

  /** A thread whose fibers are left alone is still fine. */
  lemma OtherThread(s: State, s': State, u: Tid)
    requires u in s.threads && u in s'.threads && s'.threads[u] == s.threads[u] && ThreadOk(s, u)
    requires Grows(s, s') && forall f :: Mine(s, u, f) ==> Same(s, s', f)
    ensures ThreadOk(s', u)
  {
    var th := s.threads[u];
    assert Held(s, u, th.exec) ==> Mine(s, u, th.exec);
    assert Held(s, u, th.current) ==> Mine(s, u, th.current);
    assert Held(s, u, th.creating) ==> Mine(s, u, th.creating);
    assert th.phase.Locked? ==> Mine(s, u, th.phase.to);
    assert Prepared(s, u, th.creating) ==> Mine(s, u, th.creating);
  }

  /** A fiber that is left alone is still fine, if the stepping thread still plays its part for it. */
  lemma OtherFiber(s: State, s': State, t: Tid, f: Fid)
    requires f in s.fibers && FiberOk(s, f) && Same(s, s', f) && Grows(s, s')
    requires t in s.threads && s'.threads.Keys == s.threads.Keys
    requires forall u :: u in s.threads && u != t ==> s'.threads[u] == s.threads[u]
    requires Holds(s.threads[t], f) ==> Holds(s'.threads[t], f)
    requires Prepares(s.threads[t], f) ==> Prepares(s'.threads[t], f)
    requires Launches(s.threads[t], f) ==> Launches(s'.threads[t], f) || !AtTheTrampoline(s', f)
    requires f in s'.published ==> f in s.published || f !in s'.pending
    ensures FiberOk(s', f)
  {
  }

  // ---------- Every step keeps it ----------

  /** A step of t is fine if t is fine after it, the fibers it touches are, and everything else
      was left alone. */
  lemma StepKeeps(s: State, s': State, t: Tid, touched: set<Fid>)
    requires Inv(s) && WellFormed(s') && t in s.threads && s'.threads.Keys == s.threads.Keys
    requires Grows(s, s') && forall u :: u in s.threads && u != t ==> s'.threads[u] == s.threads[u]
    requires forall f :: f in touched ==> NobodyElses(s, t, f)
    requires forall f :: f in s'.fibers && f !in touched ==> f in s.fibers && Same(s, s', f)
    requires forall f :: f in s.fibers && f !in touched ==>
               && (Holds(s.threads[t], f) ==> Holds(s'.threads[t], f))
               && (Prepares(s.threads[t], f) ==> Prepares(s'.threads[t], f))
               && (Launches(s.threads[t], f) ==> Launches(s'.threads[t], f) || !AtTheTrampoline(s', f))
               && (f in s'.published ==> f in s.published || f !in s'.pending)
    requires ThreadOk(s', t) && forall f :: f in touched && f in s'.fibers ==> FiberOk(s', f)
    ensures Inv(s')
  {
    forall u | u in s'.threads ensures ThreadOk(s', u) {
      if u != t {
        forall f | Mine(s, u, f) ensures Same(s, s', f) {
          assert f !in touched;
        }
        OtherThread(s, s', u);
      }
    }
    forall f | f in s'.fibers ensures FiberOk(s', f) {
      if f !in touched {
        OtherFiber(s, s', t, f);
      }
    }
  }

  lemma ComputeKeeps(s: State, t: Tid, regs: int)
    requires Inv(s)
    ensures Inv(Next(s, t, Compute(regs)))
  {
    var s' := Next(s, t, Compute(regs));
    if t in s.threads && s.threads[t].phase.User? {
      assert ThreadOk(s, t);
      StepKeeps(s, s', t, {});
    }
  }

  lemma IdIsBelow(s: State, f: Fid)
    requires Inv(s) && f in s.fibers
    ensures f < s.nextId
  {
    assert FiberOk(s, f);
  }

  lemma NextIdIsNew(s: State)
    requires Inv(s)
    ensures s.nextId !in s.fibers && s.nextId !in s.holder && s.nextId !in s.pending
  {
    if s.nextId in s.fibers { IdIsBelow(s, s.nextId); }
  }

  lemma ConvertKeeps(s: State, t: Tid)
    requires Inv(s)
    ensures Inv(Next(s, t, Convert))
  {
    var s' := Next(s, t, Convert);
    if t in s.threads && s.threads[t].phase.Outside? {
      NextIdIsNew(s);
      StepKeeps(s, s', t, {s.nextId});
    }
  }

  lemma TrySwitchKeeps(s: State, t: Tid, to: Fid)
    requires Inv(s)
    ensures Inv(Next(s, t, TrySwitch(to)))
  {
    var s' := Next(s, t, TrySwitch(to));
    if s' != s {
      assert ThreadOk(s, t) && FiberOk(s, to);
      StepKeeps(s, s', t, {to});
    }
  }

  lemma CreateKeeps(s: State, t: Tid)
    requires Inv(s)
    ensures Inv(Next(s, t, Create))
  {
    var s' := Next(s, t, Create);
    if t in s.threads && s.threads[t].phase.User? {
      assert ThreadOk(s, t);
      NextIdIsNew(s);
      StepKeeps(s, s', t, {s.nextId});
    }
  }

  /** Clearing the flag of a fiber whose context is up to date. */
  lemma UnlockedFiberOk(s: State, s': State, t: Tid, f: Fid)
    requires f in s.fibers && FiberOk(s, f) && Held(s, t, f) && Current(s, f) && t in s.threads
    requires !Launches(s.threads[t], f)
    requires s'.fibers == Unlock(s, f).fibers && s'.holder == Unlock(s, f).holder && s'.nextId == s.nextId
    requires s'.pending == s.pending && s'.stale == s.stale
    ensures FiberOk(s', f)
  {
  }

  /** The thread goes on holding, preparing and launching what it did, f excepted. */
  ghost predicate GoesOn(th: Thread, th': Thread, f: Fid) {
    forall g :: g != f ==>
      && (Holds(th, g) ==> Holds(th', g))
      && (Prepares(th, g) ==> Prepares(th', g))
      && (Launches(th, g) ==> Launches(th', g))
  }

  lemma UnlockStep(s: State, t: Tid, f: Fid, th': Thread)
    requires Inv(s) && t in s.threads && Held(s, t, f) && Current(s, f) && !Launches(s.threads[t], f)
    requires GoesOn(s.threads[t], th', f)
    requires ThreadOk(At(Unlock(s, f), t, th'), t)
    ensures Inv(At(Unlock(s, f), t, th'))
  {
    var s' := At(Unlock(s, f), t, th');
    assert FiberOk(s, f);
    UnlockedFiberOk(s, s', t, f);
    StepKeeps(s, s', t, {f});
  }

  ghost predicate AtPhase(s: State, t: Tid) {
    Inv(s) && t in s.threads
  }

  lemma LockedKeeps(s: State, t: Tid)
    requires AtPhase(s, t) && s.threads[t].phase.Locked?
    ensures Inv(GoOn(s, t))
  {
    var th, s' := s.threads[t], GoOn(s, t);
    assert ThreadOk(s, t);
    StepKeeps(s, s', t, {});
  }

  lemma ChosenKeeps(s: State, t: Tid)
    requires AtPhase(s, t) && s.threads[t].phase.Chosen?
    ensures Inv(GoOn(s, t))
  {
    var th, s' := s.threads[t], GoOn(s, t);
    assert ThreadOk(s, t);
    assert FiberOk(s, th.exec);
    StepKeeps(s, s', t, {th.exec});
  }

  lemma KeptKeeps(s: State, t: Tid)
    requires AtPhase(s, t) && s.threads[t].phase.Kept?
    ensures Inv(GoOn(s, t))
  {
    var th := s.threads[t];
    assert ThreadOk(s, t) && FiberOk(s, th.exec);
    UnlockStep(s, t, th.exec, th.(phase := Released(th.phase.to)));
  }

  lemma ReturningKeeps(s: State, t: Tid)
    requires AtPhase(s, t) && s.threads[t].phase.Returning?
    ensures Inv(GoOn(s, t))
  {
    var th, s' := s.threads[t], GoOn(s, t);
    assert ThreadOk(s, t);
    StepKeeps(s, s', t, {});
  }

  lemma FreshKeeps(s: State, t: Tid)
    requires AtPhase(s, t) && s.threads[t].phase.Fresh?
    ensures Inv(GoOn(s, t))
  {
    var th, s' := s.threads[t], GoOn(s, t);
    assert ThreadOk(s, t);
    assert FiberOk(s, th.creating);
    StepKeeps(s, s', t, {th.creating});
  }

  lemma TrampolinedKeeps(s: State, t: Tid)
    requires AtPhase(s, t) && s.threads[t].phase.Trampolined?
    ensures Inv(GoOn(s, t))
  {
    var th, s' := s.threads[t], GoOn(s, t);
    assert ThreadOk(s, t);
    assert FiberOk(s, th.creating);
    if s' != s {
      StepKeeps(s, s', t, {th.creating});
    }
  }

  lemma LockedNewKeeps(s: State, t: Tid)
    requires AtPhase(s, t) && s.threads[t].phase.LockedNew?
    ensures Inv(GoOn(s, t))
  {
    var th, s' := s.threads[t], GoOn(s, t);
    assert ThreadOk(s, t);
    assert FiberOk(s, th.current) && FiberOk(s, th.creating);
    StepKeeps(s, s', t, {th.current});
  }

  lemma KeptCreatorKeeps(s: State, t: Tid)
    requires AtPhase(s, t) && s.threads[t].phase.KeptCreator?
    ensures Inv(GoOn(s, t))
  {
    var th := s.threads[t];
    assert ThreadOk(s, t) && FiberOk(s, th.current);
    UnlockStep(s, t, th.current, th.(phase := ReleasedCreator(th.phase.n)));
  }

  lemma BootKeeps(s: State, t: Tid)
    requires AtPhase(s, t) && s.threads[t].phase.Boot?
    ensures Inv(GoOn(s, t))
  {
    var th, s' := s.threads[t], GoOn(s, t);
    assert ThreadOk(s, t);
    assert FiberOk(s, th.current);
    if s' != s {
      StepKeeps(s, s', t, {th.current});
    }
  }

  lemma LockedBackKeeps(s: State, t: Tid)
    requires AtPhase(s, t) && s.threads[t].phase.LockedBack?
    ensures Inv(GoOn(s, t))
  {
    var th, s' := s.threads[t], GoOn(s, t);
    assert ThreadOk(s, t);
    assert FiberOk(s, th.creating);
    StepKeeps(s, s', t, {th.creating});
  }

  lemma KeptNewKeeps(s: State, t: Tid)
    requires AtPhase(s, t) && s.threads[t].phase.KeptNew?
    ensures Inv(GoOn(s, t))
  {
    var th := s.threads[t];
    assert ThreadOk(s, t) && FiberOk(s, th.creating);
    UnlockStep(s, t, th.creating, th.(phase := ReleasedNew));
  }

  ghost predicate MayJump(s: State, t: Tid, f: Fid) {
    && Inv(s) && t in s.threads && Held(s, t, f) && Current(s, f)
    && if AtTheTrampoline(s, f)
       then Launches(s.threads[t], f) && s.threads[t].creating == f && f != s.threads[t].current
            && s.threads[t].current in s.fibers && s.threads[t].current !in s.pending
       else s.threads[t].current == f
  }

  lemma JumpedThreadOk(s: State, t: Tid, f: Fid)
    requires MayJump(s, t, f)
    ensures ThreadOk(Jump(s, t, f), t) && FiberOk(Jump(s, t, f), f)
  {
    assert FiberOk(s, f);
  }

  /** A jump to a context that was saved after its fiber last ran, by the thread that holds the
      fiber's flag and has made it current. */
  lemma JumpKeeps(s: State, t: Tid, f: Fid)
    requires MayJump(s, t, f)
    requires forall g :: Holds(s.threads[t], g) ==> g == f
    requires forall g :: !Prepares(s.threads[t], g) && (Launches(s.threads[t], g) ==> g == f)
    ensures Inv(Jump(s, t, f)) && !Jump(s, t, f).threads[t].phase.Lost?
  {
    JumpedThreadOk(s, t, f);
    assert FiberOk(s, f);
    StepKeeps(s, Jump(s, t, f), t, {f});
  }

  lemma JumpingKeeps(s: State, t: Tid)
    requires AtPhase(s, t)
    requires s.threads[t].phase.Released? || s.threads[t].phase.ReleasedCreator? || s.threads[t].phase.ReleasedNew?
    ensures Inv(GoOn(s, t))
  {
    var th := s.threads[t];
    assert ThreadOk(s, t);
    var f := if th.phase.ReleasedCreator? then th.phase.n else th.current;
    assert FiberOk(s, f);
    JumpKeeps(s, t, f);
  }

  lemma GoKeeps(s: State, t: Tid)
    requires AtPhase(s, t)
    ensures Inv(GoOn(s, t))
  {
    match s.threads[t].phase
    case Locked(to) => LockedKeeps(s, t);
    case Chosen(to) => ChosenKeeps(s, t);
    case Kept(to) => KeptKeeps(s, t);
    case Released(to) => JumpingKeeps(s, t);
    case Fresh(n) => FreshKeeps(s, t);
    case Trampolined(n) => TrampolinedKeeps(s, t);
    case LockedNew(n) => LockedNewKeeps(s, t);
    case KeptCreator(n) => KeptCreatorKeeps(s, t);
    case ReleasedCreator(n) => JumpingKeeps(s, t);
    case Boot => BootKeeps(s, t);
    case LockedBack => LockedBackKeeps(s, t);
    case KeptNew => KeptNewKeeps(s, t);
    case ReleasedNew => JumpingKeeps(s, t);
    case Returning(n) => ReturningKeeps(s, t);
    case _ =>
  }

  /** Every step of every thread keeps the invariant. */
  lemma NextKeeps(s: State, t: Tid, step: Step)
    requires Inv(s)
    ensures Inv(Next(s, t, step))
  {
    if t in s.threads {
      match step
      case Compute(regs) => ComputeKeeps(s, t, regs);
      case Convert => ConvertKeeps(s, t);
      case TrySwitch(to) => TrySwitchKeeps(s, t, to);
      case Create => CreateKeeps(s, t);
      case Go => GoKeeps(s, t);
    }
  }

  // ---------- Every interleaving ----------

  /** Threads that have not called ult_convert, and no fibers. */
  ghost predicate Initial(s: State) {
    && s.fibers == map[] && s.published == {} && s.holder == map[] && s.pending == map[]
    && forall t :: t in s.threads ==> s.threads[t].phase.Outside?
  }

  /** The state after the first n steps of an interleaving. */
  ghost function Run(s: State, schedule: seq<(Tid, Step)>, n: nat): (r: State)
    requires Inv(s) && n <= |schedule|
    ensures Inv(r)
  {
    if n == 0 then s
    else
      var r := Run(s, schedule, n - 1);
      NextKeeps(r, schedule[n - 1].0, schedule[n - 1].1);
      Next(r, schedule[n - 1].0, schedule[n - 1].1)
  }

  /** A thread runs on the stack of the fiber whose flag it holds; between clearing that flag and
      the jump it only has the jump left. */
  predicate Executes(th: Thread) {
    !th.phase.Outside? && !th.phase.Released? && !th.phase.ReleasedCreator? && !th.phase.ReleasedNew? && !th.phase.Lost?
  }

  lemma HoldsIsHeld(s: State, t: Tid, f: Fid)
    requires t in s.threads && ThreadOk(s, t) && Holds(s.threads[t], f)
    ensures Held(s, t, f)
  {
  }

  /** Hand-off safety, in every state of every interleaving of any number of threads: a fiber's
      flag is set exactly while one thread holds it, and no two threads hold it. */
  lemma FlagMeansHolder(s: State, schedule: seq<(Tid, Step)>, n: nat, f: Fid)
    requires Initial(s) && Inv(s) && n <= |schedule| && f in Run(s, schedule, n).fibers
    ensures var r := Run(s, schedule, n);
            && (r.fibers[f].running <==> exists t :: t in r.threads && Holds(r.threads[t], f))
            && forall t, u :: t in r.threads && u in r.threads && Holds(r.threads[t], f) && Holds(r.threads[u], f) ==> t == u
  {
    var r := Run(s, schedule, n);
    assert FiberOk(r, f);
    forall t | t in r.threads && Holds(r.threads[t], f) ensures Held(r, t, f) {
      HoldsIsHeld(r, t, f);
    }
  }

  lemma InitialIsFine(s: State)
    requires Initial(s)
    ensures Inv(s)
  {
  }

  lemma ExecutesHolds(s: State, t: Tid)
    requires t in s.threads && ThreadOk(s, t) && Executes(s.threads[t])
    ensures Held(s, t, s.threads[t].exec)
  {
  }

  /** No two threads execute the same fiber. */
  lemma NoFiberRunsTwice(s: State, schedule: seq<(Tid, Step)>, n: nat, t: Tid, u: Tid)
    requires Initial(s) && Inv(s) && n <= |schedule| && t != u
    requires t in Run(s, schedule, n).threads && u in Run(s, schedule, n).threads
    requires Executes(Run(s, schedule, n).threads[t]) && Executes(Run(s, schedule, n).threads[u])
    ensures Run(s, schedule, n).threads[t].exec != Run(s, schedule, n).threads[u].exec
  {
    var r := Run(s, schedule, n);
    ExecutesHolds(r, t);
    ExecutesHolds(r, u);
  }

  /** The fiber a thread is about to jump to. */
  function Target(th: Thread): Fid {
    if th.phase.Released? then th.phase.to
    else if th.phase.ReleasedCreator? then th.phase.n
    else th.current
  }

  /** No thread jumps to a context that was not saved since its fiber last ran, and none is ever lost. */
  lemma JumpsAreUpToDate(s: State, schedule: seq<(Tid, Step)>, n: nat, t: Tid)
    requires Initial(s) && Inv(s) && n <= |schedule| && t in Run(s, schedule, n).threads
    ensures var r := Run(s, schedule, n);
            var th := r.threads[t];
            && !th.phase.Lost?
            && (th.phase.Released? || th.phase.ReleasedCreator? || th.phase.ReleasedNew? ==>
                  Current(r, Target(th)) && Held(r, t, Target(th)))
  {
    assert ThreadOk(Run(s, schedule, n), t);
  }

  /** A creator never waits for its new fiber's flag: nobody else knows the fiber yet. */
  lemma NewFiberIsFree(s: State, schedule: seq<(Tid, Step)>, n: nat, t: Tid)
    requires Initial(s) && Inv(s) && n <= |schedule| && t in Run(s, schedule, n).threads
    requires Run(s, schedule, n).threads[t].phase.Trampolined?
    ensures var r := Run(s, schedule, n);
            var f := r.threads[t].phase.n;
            f in r.fibers && !r.fibers[f].running && f !in r.published && GoOn(r, t).threads[t].phase == LockedNew(f)
  {
    var r := Run(s, schedule, n);
    assert ThreadOk(r, t);
    assert FiberOk(r, r.threads[t].phase.n);
  }
}
