/** The accounting follows the kernel's machine: its threads and active fibers are those of the
    kernel, and each call of the task on a CPU is a step of the accounting. */
module KernelTime {
  import opened KernelFibers
  import opened KernelRuns
  import T = FiberTime

  /** The accounting knows the kernel's threads and fibers, by the identities that name gives. */
  ghost predicate Follows(v: View, s: T.State, name: map<Key, T.Fid>) {
    && name.Keys == v.fibers.Keys
    && (forall f, g :: f in name && g in name && f != g ==> name[f] != name[g])
    && (forall f :: f in name ==> name[f] in s.fibers)
    && (forall t :: t in v.active <==> t in s.active)
    && (forall t :: t in v.active ==> v.active[t] in name && s.active[t] == name[v.active[t]])
  }

  /** The step of the accounting when the task on a CPU makes a call: a switch counts in the step
      in which it takes effect. */
  ghost function Timed(s: T.State, cpu: nat, call: Call, ts: TaskState, name: map<Key, T.Fid>): T.State
    requires T.Inv(s) && cpu < |s.current|
  {
    match call
    case Convert => T.DoConvert(s, cpu)
    case Create(stack, start, param) => T.DoCreate(s, cpu)
    case Go => if ts.phase.Stopped? && ts.phase.to in name then T.DoSwitch(s, cpu, name[ts.phase.to]) else s
    case Exit => T.DoExit(s, cpu)
    case _ => s
  }

  /** The names after a call: a new fiber gets a new name, a fiber that goes loses its own. */
  function Renamed(name: map<Key, T.Fid>, v': View, made: Key, id: T.Fid): map<Key, T.Fid> {
    map f | f in v'.fibers && (f in name || f == made) :: if f in name then name[f] else id
  }

  lemma NewIdentity(s: T.State, f: T.Fid)
    requires T.Inv(s) && f in s.fibers
    ensures f < s.nextId
  {
    assert T.FiberOk(s, f);
  }

  lemma NamesAreOld(v: View, s: T.State, name: map<Key, T.Fid>)
    requires T.Inv(s) && Follows(v, s, name)
    ensures forall f :: f in name ==> name[f] < s.nextId
  {
    forall f | f in name ensures name[f] < s.nextId { NewIdentity(s, name[f]); }
  }

  /** Every call that a task makes on a CPU keeps the two machines together. */
  lemma CallIsTimed(v: View, v': View, s: T.State, cpu: nat, call: Call, made: Key, ts: TaskState, name: map<Key, T.Fid>)
    requires T.Inv(s) && cpu < |s.current| && Follows(v, s, name) && made !in v.fibers
    requires ViewStep(v, v', s.current[cpu], call, made, ts)
    ensures Follows(v', Timed(s, cpu, call, ts, name), Renamed(name, v', made, s.nextId))
  {
    NamesAreOld(v, s, name);
    var name', t := Renamed(name, v', made, s.nextId), s.current[cpu];
    match call
    case Convert => ConvertIsTimed(v, v', s, cpu, made, ts, name);
    case Create(stack, start, param) => CreateIsTimed(v, v', s, cpu, call, made, ts, name);
    case Exit => ExitIsTimed(v, v', s, cpu, made, ts, name);
    case Go => GoIsTimed(v, v', s, cpu, made, ts, name);
    case _ => OtherIsTimed(v, v', s, call, made, ts, name, t);
  }

  lemma ConvertIsTimed(v: View, v': View, s: T.State, cpu: nat, made: Key, ts: TaskState, name: map<Key, T.Fid>)
    requires cpu < |s.current| == |s.since| && Follows(v, s, name) && made !in v.fibers
    requires forall f :: f in name ==> name[f] < s.nextId
    requires ViewStep(v, v', s.current[cpu], Convert, made, ts)
    ensures Follows(v', T.DoConvert(s, cpu), Renamed(name, v', made, s.nextId))
  {
  }

  lemma CreateIsTimed(v: View, v': View, s: T.State, cpu: nat, call: Call, made: Key, ts: TaskState, name: map<Key, T.Fid>)
    requires cpu < |s.current| && Follows(v, s, name) && made !in v.fibers && call.Create?
    requires forall f :: f in name ==> name[f] < s.nextId
    requires ViewStep(v, v', s.current[cpu], call, made, ts)
    ensures Follows(v', T.DoCreate(s, cpu), Renamed(name, v', made, s.nextId))
  {
  }

  lemma ExitIsTimed(v: View, v': View, s: T.State, cpu: nat, made: Key, ts: TaskState, name: map<Key, T.Fid>)
    requires T.Inv(s) && cpu < |s.current| && Follows(v, s, name) && made !in v.fibers
    requires ViewStep(v, v', s.current[cpu], Exit, made, ts)
    ensures Follows(v', T.DoExit(s, cpu), Renamed(name, v', made, s.nextId))
  {
    var t := s.current[cpu];
    forall u | u in v'.active && u != t ensures u in v.active && (t in v.active ==> v.active[u] != v.active[t]) {
      if t in v.active { ActiveDiffer(s, u, t); }
    }
  }

  lemma ActiveDiffer(s: T.State, u: Task, t: Task)
    requires T.Inv(s) && u in s.active && t in s.active && u != t
    ensures s.active[u] != s.active[t]
  {
    assert T.ActiveOk(s, u);
  }

  lemma GoIsTimed(v: View, v': View, s: T.State, cpu: nat, made: Key, ts: TaskState, name: map<Key, T.Fid>)
    requires T.Inv(s) && cpu < |s.current| && Follows(v, s, name) && made !in v.fibers
    requires ViewStep(v, v', s.current[cpu], Go, made, ts)
    ensures Follows(v', Timed(s, cpu, Go, ts, name), Renamed(name, v', made, s.nextId))
  {
    assert v'.fibers == v.fibers;
    assert Renamed(name, v', made, s.nextId) == name;
    if ts.phase.Stopped? {
      TakeIsTimed(v, v', s, cpu, ts.phase.to, name);
    }
  }

  lemma TakeIsTimed(v: View, v': View, s: T.State, cpu: nat, to: Key, name: map<Key, T.Fid>)
    requires T.Inv(s) && cpu < |s.current| && Follows(v, s, name)
    requires s.current[cpu] in v.active && to in v.fibers && to !in v.active.Values && v' == v.(active := v.active[s.current[cpu] := to])
    ensures Follows(v', T.DoSwitch(s, cpu, name[to]), name)
  {
    var t := s.current[cpu];
    forall u | u in s.active ensures s.active[u] != name[to] {
      assert v.active[u] in v.active.Values;
    }
    var s' := T.DoSwitch(s, cpu, name[to]);
    assert s'.active == s.active[t := name[to]] && s'.fibers.Keys == s.fibers.Keys;
  }

  lemma OtherIsTimed(v: View, v': View, s: T.State, call: Call, made: Key, ts: TaskState, name: map<Key, T.Fid>, t: Task)
    requires Follows(v, s, name) && made !in v.fibers && ViewStep(v, v', t, call, made, ts)
    requires !call.Convert? && !call.Create? && !call.Exit? && !call.Go?
    ensures Follows(v', s, Renamed(name, v', made, s.nextId))
  {
    assert Renamed(name, v', made, s.nextId) == name;
  }

  /** So every step of the kernel's machine by the task on a CPU is a step of the accounting. */
  lemma NextIsTimed(k: Kernel, s: T.State, cpu: nat, call: Call, name: map<Key, T.Fid>)
    requires Inv(k) && T.Inv(s) && cpu < |s.current| && Follows(Seen(k), s, name)
    requires s.current[cpu] in k.tasks && (call.Go? || k.tasks[s.current[cpu]].phase.Outside?)
    ensures var t := s.current[cpu];
            var v' := Seen(Next(k, t, call));
            Follows(v', Timed(s, cpu, call, k.tasks[t], name), Renamed(name, v', NextKey(k, t), s.nextId))
  {
    var t := s.current[cpu];
    NextRefines(k, t, call);
    NextKeyIsNew(k, t);
    CallIsTimed(Seen(k), Seen(Next(k, t, call)), s, cpu, call, NextKey(k, t), k.tasks[t], name);
  }
}
