/** What a switched-out fiber finds when it goes on, in every interleaving; and what a switch and a
    creation come to when no other thread interferes. */
module UltRuns {
  import opened UltHandoff

  // ---------- Every interleaving ----------

  type Schedule = seq<(Tid, Step)>

  ghost predicate StepAt(ss: seq<State>, schedule: Schedule, i: int)
    requires 0 <= i < |schedule| < |ss|
  {
    Inv(ss[i]) ==> ss[i + 1] == Next(ss[i], schedule[i].0, schedule[i].1)
  }

  /** ss are the states of an interleaving, from threads without fibers. */
  ghost predicate Trace(ss: seq<State>, schedule: Schedule) {
    && |ss| == |schedule| + 1 && Initial(ss[0])
    && forall i :: 0 <= i < |schedule| ==> StepAt(ss, schedule, i)
  }

  lemma {:induction false} TraceKeeps(ss: seq<State>, schedule: Schedule, n: nat)
    requires Trace(ss, schedule) && n < |ss|
    ensures Inv(ss[n])
  {
    if n == 0 {
      InitialIsFine(ss[0]);
    } else {
      TraceKeeps(ss, schedule, n - 1);
      assert StepAt(ss, schedule, n - 1);
      NextKeeps(ss[n - 1], schedule[n - 1].0, schedule[n - 1].1);
    }
  }

  /** The thread saves the fiber f it executes, to leave it: in a switch, as a creator, or as a new
      fiber on its first run. */
  ghost predicate LeavesNow(s: State, step: (Tid, Step), f: Fid) {
    && step.1.Go? && step.0 in s.threads && s.threads[step.0].exec == f
    && (s.threads[step.0].phase.Chosen? || s.threads[step.0].phase.LockedNew? || s.threads[step.0].phase.LockedBack?)
  }

  /** The place behind that save. */
  function Behind(phase: Phase): Phase {
    if phase.LockedNew? then Returning(phase.n) else User
  }

  /** The thread jumps to the fiber f. */
  ghost predicate ResumesNow(s: State, step: (Tid, Step), f: Fid) {
    && step.1.Go? && step.0 in s.threads && Target(s.threads[step.0]) == f
    && (s.threads[step.0].phase.Released? || s.threads[step.0].phase.ReleasedCreator? || s.threads[step.0].phase.ReleasedNew?)
  }

  /** The fiber f is saved, with these registers, to go on at this place. */
  ghost predicate SavedAs(s: State, f: Fid, regs: int, phase: Phase) {
    && Current(s, f) && s.fibers[f].context.regs == regs
    && match s.fibers[f].context.resume
       case AfterSwitch => phase == User
       case AfterCreate(n) => phase == Returning(n)
       case AtTrampoline => false
       case AtStart => phase == User
  }

  lemma LeavingSaves(s: State, step: (Tid, Step), f: Fid)
    requires Inv(s) && LeavesNow(s, step, f)
    ensures SavedAs(Next(s, step.0, step.1), f, s.threads[step.0].regs, Behind(s.threads[step.0].phase))
  {
    assert ThreadOk(s, step.0);
  }

  /** No step but a jump to it touches a saved fiber's context: only fibers that ran since are saved. */
  lemma GoLeavesSaved(s: State, t: Tid, f: Fid, regs: int, phase: Phase)
    requires Inv(s) && t in s.threads && SavedAs(s, f, regs, phase) && !ResumesNow(s, (t, Go), f)
    ensures SavedAs(GoOn(s, t), f, regs, phase)
  {
    assert ThreadOk(s, t);
  }

  lemma OthersLeaveSaved(s: State, step: (Tid, Step), f: Fid, regs: int, phase: Phase)
    requires Inv(s) && SavedAs(s, f, regs, phase) && !ResumesNow(s, step, f)
    ensures SavedAs(Next(s, step.0, step.1), f, regs, phase)
  {
    if step.0 in s.threads {
      NextIdIsNew(s);
      if step.1.Go? {
        GoLeavesSaved(s, step.0, f, regs, phase);
      }
    }
  }

  lemma ResumingRestores(s: State, step: (Tid, Step), f: Fid, regs: int, phase: Phase)
    requires Inv(s) && SavedAs(s, f, regs, phase) && ResumesNow(s, step, f)
    ensures var r := Next(s, step.0, step.1);
            step.0 in r.threads && r.threads[step.0].exec == f && r.threads[step.0].regs == regs && r.threads[step.0].phase == phase
  {
    assert ThreadOk(s, step.0);
  }

  lemma {:induction false} StaysSaved(ss: seq<State>, schedule: Schedule, n: nat, m: nat, f: Fid)
    requires Trace(ss, schedule) && n < m < |ss| && LeavesNow(ss[n], schedule[n], f)
    requires forall i :: n < i < m ==> !ResumesNow(ss[i], schedule[i], f)
    ensures SavedAs(ss[m], f, ss[n].threads[schedule[n].0].regs, Behind(ss[n].threads[schedule[n].0].phase))
    decreases m
  {
    var th := ss[n].threads[schedule[n].0];
    if m == n + 1 {
      TraceKeeps(ss, schedule, n);
      assert StepAt(ss, schedule, n);
      LeavingSaves(ss[n], schedule[n], f);
    } else {
      StaysSaved(ss, schedule, n, m - 1, f);
      TraceKeeps(ss, schedule, m - 1);
      assert StepAt(ss, schedule, m - 1);
      OthersLeaveSaved(ss[m - 1], schedule[m - 1], f, th.regs, Behind(th.phase));
    }
  }

  /** In every interleaving a fiber that goes on, on whichever thread, has the registers it was left
      with, behind the place where it was left. */
  lemma ResumesWhereItLeft(ss: seq<State>, schedule: Schedule, n: nat, m: nat, f: Fid)
    requires Trace(ss, schedule) && n < m < |schedule| && LeavesNow(ss[n], schedule[n], f)
    requires forall i :: n < i < m ==> !ResumesNow(ss[i], schedule[i], f)
    requires ResumesNow(ss[m], schedule[m], f)
    ensures var left, u := ss[n].threads[schedule[n].0], schedule[m].0;
            && u in ss[m + 1].threads && ss[m + 1].threads[u].exec == f
            && ss[m + 1].threads[u].regs == left.regs && ss[m + 1].threads[u].phase == Behind(left.phase)
  {
    var left := ss[n].threads[schedule[n].0];
    StaysSaved(ss, schedule, n, m, f);
    TraceKeeps(ss, schedule, m);
    assert StepAt(ss, schedule, m);
    ResumingRestores(ss[m], schedule[m], f, left.regs, Behind(left.phase));
  }

  // ---------- Known fibers ----------

  /** The step after which the fiber f is known: its conversion, or the return of its creation. */
  ghost predicate MakesKnown(s: State, step: (Tid, Step), f: Fid) {
    && step.0 in s.threads
    && ((step.1.Convert? && s.threads[step.0].phase.Outside? && f == s.nextId)
        || (step.1.Go? && s.threads[step.0].phase == Returning(f)))
  }

  lemma KnownAfter(s: State, step: (Tid, Step), f: Fid)
    requires Inv(s) && MakesKnown(s, step, f)
    ensures f in Next(s, step.0, step.1).published
  {
  }

  lemma KnownStays(s: State, step: (Tid, Step))
    requires Inv(s)
    ensures s.published <= Next(s, step.0, step.1).published
  {
    if step.0 in s.threads { assert ThreadOk(s, step.0); }
  }

  lemma {:induction false} StaysKnown(ss: seq<State>, schedule: Schedule, n: nat, m: nat, f: Fid)
    requires Trace(ss, schedule) && n < m < |ss| && MakesKnown(ss[n], schedule[n], f)
    ensures f in ss[m].published
    decreases m
  {
    TraceKeeps(ss, schedule, m - 1);
    assert StepAt(ss, schedule, m - 1);
    if m == n + 1 {
      KnownAfter(ss[n], schedule[n], f);
    } else {
      StaysKnown(ss, schedule, n, m - 1, f);
      KnownStays(ss[m - 1], schedule[m - 1]);
    }
  }

  /** In every interleaving, a fiber that was converted or created can be switched to by any thread
      in user code at any later moment when its flag is clear: the thread takes the flag. */
  lemma KnownCanBeTaken(ss: seq<State>, schedule: Schedule, n: nat, m: nat, f: Fid, u: Tid)
    requires Trace(ss, schedule) && n < m < |ss| && MakesKnown(ss[n], schedule[n], f)
    requires u in ss[m].threads && ss[m].threads[u].phase.User?
    ensures Inv(ss[m]) && f in ss[m].fibers
    ensures !ss[m].fibers[f].running ==>
              var r := Next(ss[m], u, TrySwitch(f));
              && u in r.threads && r.threads[u].phase == Locked(f)
              && f in r.fibers && r.fibers[f].running && f in r.holder && r.holder[f] == u
  {
    TraceKeeps(ss, schedule, m);
    StaysKnown(ss, schedule, n, m, f);
  }

  // ---------- A thread alone ----------

  /** ss are the states of a thread that takes a step, and goes on alone. */
  ghost predicate Solo(ss: seq<State>, t: Tid, step: Step) {
    && ss != [] && Inv(ss[0]) && t in ss[0].threads
    && forall i :: 0 <= i < |ss| - 1 ==> SoloAt(ss, t, step, i)
  }

  ghost predicate SoloAt(ss: seq<State>, t: Tid, step: Step, i: int)
    requires 0 <= i < |ss| - 1
  {
    Inv(ss[i]) ==> ss[i + 1] == Next(ss[i], t, if i == 0 then step else Go)
  }

  lemma ThreadStays(s: State, t: Tid, step: Step)
    requires Inv(s) && t in s.threads
    ensures t in Next(s, t, step).threads
  {
  }

  lemma {:induction false} SoloKeeps(ss: seq<State>, t: Tid, step: Step, n: nat)
    requires Solo(ss, t, step) && n < |ss|
    ensures Inv(ss[n]) && t in ss[n].threads
  {
    if n > 0 {
      SoloKeeps(ss, t, step, n - 1);
      assert SoloAt(ss, t, step, n - 1);
      NextKeeps(ss[n - 1], t, if n == 1 then step else Go);
      ThreadStays(ss[n - 1], t, if n == 1 then step else Go);
    }
  }

  lemma SoloGoes(ss: seq<State>, t: Tid, step: Step, n: nat)
    requires Solo(ss, t, step) && 0 < n < |ss| - 1
    ensures Inv(ss[n]) && t in ss[n].threads && ThreadOk(ss[n], t) && ss[n + 1] == GoOn(ss[n], t)
  {
    SoloKeeps(ss, t, step, n);
    assert SoloAt(ss, t, step, n);
  }

  // ---------- The steps of a switch ----------

  lemma SwitchStarts(ss: seq<State>, t: Tid, to: Fid)
    requires Solo(ss, t, TrySwitch(to)) && |ss| > 1
    requires ss[0].threads[t].phase.User? && to in ss[0].published && to in ss[0].fibers && !ss[0].fibers[to].running
    ensures ss[1] == At(Lock(ss[0], t, to), t, ss[0].threads[t].(phase := Locked(to)))
    ensures ss[0].threads[t].exec in ss[0].fibers && ss[0].threads[t].exec != to && ss[0].fibers[to].context.Saved?
  {
    assert SoloAt(ss, t, TrySwitch(to), 0);
    assert ThreadOk(ss[0], t) && FiberOk(ss[0], to);
  }

  /** A switch to a free fiber: the switcher's fiber is left free, with its registers saved, and
      the thread goes on where the target's context says, with the target's registers and flag. */
  lemma SwitchCompletes(ss: seq<State>, t: Tid, to: Fid)
    requires Solo(ss, t, TrySwitch(to)) && |ss| == 6
    requires ss[0].threads[t].phase.User? && to in ss[0].published && to in ss[0].fibers && !ss[0].fibers[to].running
    ensures var s, th, r := ss[0], ss[0].threads[t], ss[5];
            && th.exec in s.fibers && s.fibers[to].context.Saved? && t in r.threads
            && r.fibers == s.fibers[to := s.fibers[to].(running := true)][th.exec := Fiber(false, Saved(AfterSwitch, th.regs))]
            && r.threads[t].exec == r.threads[t].current == to && r.threads[t].regs == s.fibers[to].context.regs
            && r.threads == s.threads[t := r.threads[t]] && r.published == s.published && r.nextId == s.nextId
  {
    SwitchStarts(ss, t, to);
    var th := ss[0].threads[t].(current := to);
    assert ss[2] == At(ss[1], t, th.(phase := Chosen(to))) by { SoloGoes(ss, t, TrySwitch(to), 1); }
    assert ss[3] == At(Save(ss[2], th.exec, AfterSwitch, th.regs), t, th.(phase := Kept(to))) by {
      SoloGoes(ss, t, TrySwitch(to), 2);
    }
    assert ss[4] == At(Unlock(ss[3], th.exec), t, th.(phase := Released(to))) by { SoloGoes(ss, t, TrySwitch(to), 3); }
    assert ss[5] == Jump(ss[4], t, to) by { SoloGoes(ss, t, TrySwitch(to), 4); }
  }

  /** A switch to a fiber whose flag is set does nothing. */
  lemma SwitchRefused(ss: seq<State>, t: Tid, to: Fid)
    requires Solo(ss, t, TrySwitch(to)) && |ss| == 2 && to in ss[0].fibers && ss[0].fibers[to].running
    ensures ss[1] == ss[0]
  {
    assert SoloAt(ss, t, TrySwitch(to), 0);
  }

  // ---------- A conversion ----------

  /** A conversion: the thread goes on in user code with its registers, on a new fiber that it holds
      and that is known, saved as the thread was; no other fiber changes. */
  lemma ConvertCompletes(ss: seq<State>, t: Tid)
    requires Solo(ss, t, Convert) && |ss| == 2 && ss[0].threads[t].phase.Outside?
    ensures var s, th, n, r := ss[0], ss[0].threads[t], ss[0].nextId, ss[1];
            && n !in s.fibers && r.nextId == n + 1 && r.published == s.published + {n}
            && r.fibers == s.fibers[n := Fiber(true, Saved(AfterSwitch, th.regs))]
            && r.holder == s.holder[n := t] && r.threads == s.threads[t := Thread(User, n, n, th.creating, th.regs)]
  {
    assert SoloAt(ss, t, Convert, 0);
    NextIdIsNew(ss[0]);
  }

  // ---------- The steps of a creation ----------

  lemma CreationStarts(ss: seq<State>, t: Tid)
    requires Solo(ss, t, Create) && |ss| > 1 && ss[0].threads[t].phase.User?
    ensures var s, th := ss[0], ss[0].threads[t];
            && s.nextId !in s.fibers && th.exec in s.fibers && th.exec == th.current
            && ss[1] == At(s, t, th.(phase := Fresh(s.nextId), creating := s.nextId))
                 .(fibers := s.fibers[s.nextId := Fiber(false, Zeroed)], nextId := s.nextId + 1,
                   pending := s.pending[s.nextId := t], stale := s.stale + {s.nextId})
  {
    assert SoloAt(ss, t, Create, 0);
    assert ThreadOk(ss[0], t);
    NextIdIsNew(ss[0]);
  }

  /** Up to the boot code: the creator's fiber is saved and free, the thread runs on the new stack. */
  lemma CreationBoots(ss: seq<State>, t: Tid)
    requires Solo(ss, t, Create) && |ss| == 12 && ss[0].threads[t].phase.User?
    ensures var s, th, n, r := ss[0], ss[0].threads[t], ss[0].nextId, ss[6];
            && n !in s.fibers && th.exec in s.fibers && t in r.threads
            && r.fibers == s.fibers[n := Fiber(true, Saved(AtTrampoline, th.regs))]
                                   [th.exec := Fiber(false, Saved(AfterCreate(n), th.regs))]
            && r.threads[t] == Thread(Boot, n, th.exec, n, th.regs) && r.published == s.published
            && r.nextId == n + 1 && r.threads == s.threads[t := r.threads[t]]
  {
    var n := ss[0].nextId;
    CreationStarts(ss, t);
    var th := ss[1].threads[t];
    assert ss[2] == At(Save(ss[1], n, AtTrampoline, th.regs), t, th.(phase := Trampolined(n))) by { SoloGoes(ss, t, Create, 1); }
    // Nobody else knows the new fiber, so its flag is free.
    assert ss[3] == At(Lock(ss[2], t, n), t, th.(phase := LockedNew(n))) by {
      SoloGoes(ss, t, Create, 2);
      assert FiberOk(ss[2], n);
    }
    assert ss[4] == At(Save(ss[3], th.exec, AfterCreate(n), th.regs), t, th.(phase := KeptCreator(n))) by {
      SoloGoes(ss, t, Create, 3);
    }
    assert ss[5] == At(Unlock(ss[4], th.exec), t, th.(phase := ReleasedCreator(n))) by { SoloGoes(ss, t, Create, 4); }
    assert ss[6] == Jump(ss[5], t, n) by { SoloGoes(ss, t, Create, 5); }
  }

  /** A creation: the creator goes on with the fiber it ran and its own registers, and the new
      fiber is known, free, and ready to call its function on its own stack. */
  lemma CreationCompletes(ss: seq<State>, t: Tid)
    requires Solo(ss, t, Create) && |ss| == 12 && ss[0].threads[t].phase.User?
    ensures var s, th, n, r := ss[0], ss[0].threads[t], ss[0].nextId, ss[11];
            && n !in s.fibers && th.exec in s.fibers && t in r.threads
            && r.fibers == s.fibers[n := Fiber(false, Saved(AtStart, th.regs))]
                                   [th.exec := Fiber(true, Saved(AfterCreate(n), th.regs))]
            && r.threads[t] == Thread(User, th.exec, th.exec, n, th.regs) && r.published == s.published + {n}
            && r.nextId == n + 1 && r.threads == s.threads[t := r.threads[t]]
  {
    var n := ss[0].nextId;
    CreationBoots(ss, t);
    var th := ss[6].threads[t];
    assert ss[7] == At(Lock(ss[6], t, th.current), t, th.(phase := LockedBack)) by { SoloGoes(ss, t, Create, 6); }
    assert ss[8] == At(Save(ss[7], n, AtStart, th.regs), t, th.(phase := KeptNew)) by { SoloGoes(ss, t, Create, 7); }
    assert ss[9] == At(Unlock(ss[8], n), t, th.(phase := ReleasedNew)) by { SoloGoes(ss, t, Create, 8); }
    assert ss[10] == Jump(ss[9], t, th.current) by { SoloGoes(ss, t, Create, 9); }
    assert ss[11] == At(ss[10], t, ss[10].threads[t].(phase := User)).(published := ss[10].published + {n}) by {
      SoloGoes(ss, t, Create, 10);
    }
  }
}
