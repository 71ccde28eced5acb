/** What may have become of a session when a resumed process reports back. */
module Outcomes {
  import opened Base
  import opened Tracee
  import opened Overlay
  import opened Session

  /** Every task outside `touched` is as it was. */
  predicate OthersKept(before: map<nat, Task>, after: map<nat, Task>, touched: set<nat>) {
    forall p :: p in before && p !in touched ==> p in after && after[p] == before[p]
  }

  /** Everything that belonged to the replaced image is forgotten. */
  function WithoutImage(d: Domain): Domain {
    d.(table := map[], ids := map[], pending := None, watchpoint := None, snapshot := None, signals := map[])
  }

  /** The tables of the parent, now about its fork child. */
  function Adopted(d: Domain, child: nat): Domain {
    d.(process := d.process.(pid := child, state := Stopped),
       signals := map[],
       watchpoint := if d.snapshot.Some? then d.watchpoint else None,
       snapshot := if d.snapshot.Some? then Some(d.snapshot.value.(tid := child)) else None)
  }

  /** A fork child kept beside its parent: no breakpoint, the parent's watchpoint. */
  function FreshDomain(parent: Domain, child: nat): Domain {
    Domain(Process(child, parent.process.origin, Stopped), Stop(TrapStop, 19, child), map[], map[], map[], None,
           parent.watchpoint,
           if parent.watchpoint.Some? && parent.snapshot.Some? then Some(Snapshot(child, parent.snapshot.value.debug))
           else None)
  }

  function Ended(d: Domain, state: ProcessState): Domain {
    d.(process := d.process.(state := state),
       signals := d.signals - {d.process.pid},
       watchpoint := if d.snapshot.Some? && d.snapshot.value.tid == d.process.pid then None else d.watchpoint,
       snapshot := if d.snapshot.Some? && d.snapshot.value.tid == d.process.pid then None else d.snapshot)
  }

  ghost predicate Forking(s: State, policy: FollowPolicy, s': State, fork: Forked) {
    var d, d' := s.active, s'.active;
    var pid, child := d.process.pid, fork.child;
    && fork.parent == pid && child != pid && child !in s.tasks && child in s'.tasks && pid in s'.tasks
    && OthersKept(s.tasks, s'.tasks, {pid})
    && match policy
       case FollowParent =>
         // The released child holds the program's own bytes and registers.
         && !fork.retained
         && d' == d.(stop := d'.stop) && s'.retained == s.retained
         && s'.tasks[child].cpu.mem == Logical(d', s'.tasks[pid]).mem
         && (d.snapshot.Some? ==> s'.tasks[child].debug == d.snapshot.value.debug)
       case FollowChild =>
         // The released parent does; the child has every breakpoint, by id.
         && !fork.retained
         && d' == Adopted(d, child).(stop := d'.stop) && s'.retained == s.retained
         && s'.tasks[pid].cpu.mem == Logical(d', s'.tasks[child]).mem
         && (d.snapshot.Some? ==> s'.tasks[pid].debug == d.snapshot.value.debug)
       case FollowBoth =>
         // Both stay, the child with no breakpoint at all in its memory.
         && fork.retained
         && d.table == map[] && d.pending.None?
         && d' == d.(stop := d'.stop) && s'.retained == s.retained[child := FreshDomain(d, child)]
         && s'.tasks[child].cpu.mem == s'.tasks[pid].cpu.mem
  }

  /** `s'` is what a normal return with stop report `info` leaves of `s`. */
  ghost predicate Outcome(s: State, policy: FollowPolicy, s': State, info: StopInfo) {
    var d, d' := s.active, s'.active;
    var pid := d.process.pid;
    && d'.stop == info && s'.nextId == s.nextId
    && match info.reason
       case InitialExec => false
       case AttachedStop => false
       case BreakpointHit =>
         && s'.retained == s.retained && pid in s'.tasks && OthersKept(s.tasks, s'.tasks, {pid})
         && info.forked.None? && info.address.Some? && info.address.value in d.table
         && d.table[info.address.value].installed
         && d' == HitDomain(d, info.address.value).(stop := info)
         && s'.tasks[pid].cpu.rip == info.address.value
       case WatchpointHit =>
         && info.forked.None?
         && s'.retained == s.retained && pid in s'.tasks && OthersKept(s.tasks, s'.tasks, {pid})
         && d.watchpoint.Some? && d' == d.(stop := info)
       case SingleStepped =>
         && info.forked.None?
         && s'.retained == s.retained && pid in s'.tasks && OthersKept(s.tasks, s'.tasks, {pid})
         && d' == d.(stop := info)
       case SignalReceived =>
         && info.forked.None?
         && s'.retained == s.retained && pid in s'.tasks && OthersKept(s.tasks, s'.tasks, {pid})
         && d' == d.(stop := info, signals := d.signals[pid := info.value])
       case TrapStop =>
         if info.forked.Some? then Forking(s, policy, s', info.forked.value)
         else
           && s'.retained == s.retained && pid in s'.tasks && OthersKept(s.tasks, s'.tasks, {pid})
           && d' == d.(stop := info)
       case ExecStopped =>
         && info.forked.None?
         && s'.retained == s.retained && pid in s'.tasks && OthersKept(s.tasks, s'.tasks, {pid})
         && d' == WithoutImage(d).(stop := info)
       case ExitedStop =>
         && info.forked.None? && s.retained == map[] == s'.retained && d' == Ended(d, Exited).(stop := info)
       case SignaledStop =>
         && info.forked.None? && s.retained == map[] == s'.retained && d' == Ended(d, Signaled).(stop := info)
       case ProcessExited => info.forked.None? && HandedOver(s, s')
       case ProcessSignaled => info.forked.None? && HandedOver(s, s')
  }

  /** The active process is gone, and a retained one has taken its place with its
      tables and its memory as they were. */
  ghost predicate HandedOver(s: State, s': State) {
    && s'.active.process.pid in s.retained
    && s'.active == s.retained[s'.active.process.pid].(stop := s'.active.stop)
    && s'.retained == s.retained - {s'.active.process.pid}
    && s'.tasks == s.tasks - {s.active.process.pid}
  }

  // ----- every outcome keeps the session consistent -----

  /** Tasks that the registry is not about may come and go. */
  lemma RegistryFrame(s: State, d: Domain, tasks: map<nat, Task>)
    requires Registry(s)
    requires d.process.pid !in s.retained && d.process.origin == s.active.process.origin
    requires d.ids.Keys <= s.active.ids.Keys
    requires forall p :: p in s.retained ==> p in tasks && tasks[p] == s.tasks[p]
    ensures Registry(s.(active := d, tasks := tasks))
  {
    hide Sound, Settled;
    ActiveChangeKeepsRegistry(s, d, s.nextId, tasks);
  }

  lemma RetainedAreTasks(s: State)
    requires Registry(s)
    ensures s.active.process.pid !in s.retained
    ensures forall p :: p in s.retained ==>
      p in s.tasks && s.retained[p].process.pid == p && s.retained[p].process.state == Stopped
  {
    hide Sound, Settled;
    forall p | p in s.retained
      ensures p in s.tasks && s.retained[p].process.pid == p && s.retained[p].process.state == Stopped
    {
      assert RetainedOk(s.retained[p], p, s.tasks);
    }
  }

  /** The debug registers a child needs to hold its parent's watchpoint. */
  function Inherited(debug: DebugRegisters): DebugRegisters {
    debug.(dr6 := debug.dr6 & !DR6_SLOT0)
  }

  function HandedDown(d: Domain, parent: Task, child: Task): Task {
    if d.snapshot.Some? then child.(debug := Inherited(parent.debug)) else child
  }

  lemma HandedDownMemory(d: Domain, parent: Task, child: Task)
    ensures HandedDown(d, parent, child).cpu == child.cpu
    ensures d.snapshot.Some? ==> HandedDown(d, parent, child).debug == Inherited(parent.debug)
  {
  }

  lemma AdoptingKeepsSound(d: Domain, parent: Task, child: nat, task: Task, stop: StopInfo)
    requires Sound(d, parent)
    requires task.cpu.mem == parent.cpu.mem
    requires d.snapshot.Some? ==> task.debug == Inherited(parent.debug)
    ensures Sound(Adopted(d, child).(stop := stop), task) && Settled(Adopted(d, child).(stop := stop), task)
    ensures Logical(Adopted(d, child).(stop := stop), task).mem == Logical(d, parent).mem
  {
    hide MapsAgree, Overlaid, OutIffPending, ConfiguredControl, LengthEncoding, Restored, Saved;
    ClearedBit(parent.debug.dr6);
  }

  lemma RetainingKeepsSound(d: Domain, parent: Task, child: nat, task: Task)
    requires Sound(d, parent)
    requires d.watchpoint.Some? ==> task.debug == Inherited(parent.debug)
    ensures Sound(FreshDomain(d, child), task) && Settled(FreshDomain(d, child), task)
  {
    hide ConfiguredControl, LengthEncoding;
    ClearedBit(parent.debug.dr6);
  }

  lemma Overwritten<T>(m: map<nat, T>, k: nat, a: T, b: T)
    ensures m[k := a][k := b] == m[k := b]
  {
  }

  lemma Interchanged<T>(m: map<nat, T>, i: nat, a: T, j: nat, b: T)
    requires i != j
    ensures m[i := a][j := b] == m[j := b][i := a]
  {
  }

  lemma AdoptedIsStopped(d: Domain, child: nat)
    ensures Adopted(d, child).process == d.process.(pid := child, state := Stopped)
  {
  }

  lemma FreshFrame(d: Domain, stop: StopInfo, child: nat)
    ensures FreshDomain(d.(stop := stop), child) == FreshDomain(d, child)
  {
  }

  lemma EndedIsTerminal(d: Domain, state: ProcessState)
    ensures Ended(d, state).process == d.process.(state := state) && Ended(d, state).ids == d.ids
  {
  }

  /** The terminal domain itself does not matter for the hand-over. */
  lemma HandedOverFrom(s: State, t: State, survivor: nat, stop: StopInfo)
    requires survivor in s.retained && s.retained == t.retained && s.retained[survivor].process.pid == survivor
    requires s.tasks == t.tasks && s.active.process.pid == t.active.process.pid && t.active.process.pid !in t.tasks
    ensures s.tasks == s.tasks - {s.active.process.pid}
    ensures HandedOver(t, State(s.retained[survivor].(stop := stop), s.retained - {survivor}, s.nextId, s.tasks))
  {
  }

  lemma ExchangedThenErased<T>(m: map<nat, T>, k: nat, v: T, p: nat)
    requires k !in m
    ensures (m - {p})[k := v] - {k} == m - {p}
  {
  }

  lemma OneMore<T>(m: map<nat, T>, k: nat, v: T)
    requires k !in m
    ensures |m[k := v]| == |m| + 1
  {
    assert m[k := v].Keys == m.Keys + {k};
  }

  lemma OneLess<T>(m: map<nat, T>, k: nat)
    requires k in m
    ensures |m - {k}| == |m| - 1
  {
    assert (m - {k}).Keys == m.Keys - {k};
  }

  lemma RetainingKeepsIds(s: State, child: nat, newcomer: Domain)
    requires IdsDisjoint(s) && child !in s.retained && newcomer.ids == map[]
    ensures IdsDisjoint(s.(retained := s.retained[child := newcomer]))
  {
    var retained := s.retained[child := newcomer];
    assert GivenOut(newcomer, s.nextId) && forall d :: Apart(newcomer, d) && Apart(d, newcomer);
    hide GivenOut, Apart;
    forall p | p in retained
      ensures GivenOut(retained[p], s.nextId) && Apart(retained[p], s.active)
    {
      assert p != child ==> p in s.retained;
    }
    forall p, q | p in retained && q in retained && p != q
      ensures Apart(retained[p], retained[q])
    {
      assert p != child && q != child ==> p in s.retained && q in s.retained;
    }
  }

  lemma HandOverKeepsIds(s: State, survivor: nat, stop: StopInfo, tasks: map<nat, Task>)
    requires IdsDisjoint(s) && survivor in s.retained
    ensures IdsDisjoint(State(s.retained[survivor].(stop := stop), s.retained - {survivor}, s.nextId, tasks))
  {
    var d, retained := s.retained[survivor], s.retained - {survivor};
    StopHasNoIds(d, stop, s.nextId);
    hide GivenOut, Apart;
    forall p | p in retained
      ensures GivenOut(retained[p], s.nextId) && Apart(retained[p], d.(stop := stop))
    {
      assert p in s.retained && p != survivor && retained[p] == s.retained[p];
    }
    forall p, q | p in retained && q in retained && p != q
      ensures Apart(retained[p], retained[q])
    {
      assert p in s.retained && q in s.retained;
    }
  }

  lemma StopHasNoIds(d: Domain, stop: StopInfo, nextId: nat)
    ensures GivenOut(d.(stop := stop), nextId) <==> GivenOut(d, nextId)
    ensures forall e :: Apart(e, d.(stop := stop)) <==> Apart(e, d)
  {
  }

  /** A fork child beside its parent: still at most three domains, ids disjoint. */
  lemma RetainingKeepsConsistent(s: State, child: nat)
    requires Consistent(s) && s.active.process.state == Stopped && s.active.process.origin == Launched
    requires 1 + |s.retained| < MAX_DOMAINS
    requires child in s.tasks && child !in s.retained && child != s.active.process.pid
    requires Sound(FreshDomain(s.active, child), s.tasks[child]) && Settled(FreshDomain(s.active, child), s.tasks[child])
    ensures Consistent(s.(retained := s.retained[child := FreshDomain(s.active, child)]))
  {
    hide Sound, Settled, IdsDisjoint;
    var newcomer := FreshDomain(s.active, child);
    var s' := s.(retained := s.retained[child := newcomer]);
    OneMore(s.retained, child, newcomer);
    RetainingKeepsIds(s, child, newcomer);
    forall p | p in s'.retained
      ensures RetainedOk(s'.retained[p], p, s'.tasks)
    {
      if p != child {
        assert RetainedOk(s.retained[p], p, s.tasks);
      }
    }
  }

  /** A replaced image starts with nothing armed. */
  lemma ExecKeepsConsistent(s: State, stop: StopInfo)
    requires Registry(s) && s.active.process.pid in s.tasks
    ensures var d := WithoutImage(s.active).(process := s.active.process.(state := Stopped), stop := stop);
            Consistent(s.(active := d)) && Logical(d, ActiveTask(s)) == ActiveTask(s).cpu
  {
    hide Sound, Settled, Registry, Logical;
    var d, t := WithoutImage(s.active).(process := s.active.process.(state := Stopped), stop := stop), ActiveTask(s);
    BareIsSound(d, t);
    ChangeKeepsConsistent(s, d, t, s.nextId);
    Rewritten(s.tasks, s.active.process.pid);
  }

  lemma BareIsSound(d: Domain, t: Task)
    requires d.table == map[] && d.ids == map[] && d.pending.None? && d.watchpoint.None? && d.snapshot.None?
    ensures Sound(d, t) && Settled(d, t) && Logical(d, t) == t.cpu
  {
    assert Saved(d.table) == map[];
    RestoreNone(t.cpu);
  }

  lemma EndKeepsConsistent(s: State, d: Domain)
    requires Registry(s) && s.retained == map[]
    requires d.process.state in {Exited, Signaled, Detached}
    requires d.ids.Keys <= s.active.ids.Keys
    ensures Consistent(s.(active := d))
  {
  }

  /** The survivor's tables and bytes were consistent all along. */
  lemma HandOverKeepsConsistent(s: State, survivor: nat, stop: StopInfo)
    requires Registry(s) && survivor in s.retained
    ensures survivor in s.tasks
    ensures Consistent(State(s.retained[survivor].(stop := stop), s.retained - {survivor}, s.nextId,
                             s.tasks - {s.active.process.pid}))
  {
    hide Sound, IdsDisjoint;
    assert RetainedOk(s.retained[survivor], survivor, s.tasks);
    var d, tasks := s.retained[survivor], s.tasks - {s.active.process.pid};
    SoundFrame(d, s.tasks[survivor], d.(stop := stop), s.tasks[survivor]);
    var s' := State(d.(stop := stop), s.retained - {survivor}, s.nextId, tasks);
    OneLess(s.retained, survivor);
    HandOverKeepsIds(s, survivor, stop, tasks);
    forall p | p in s'.retained
      ensures RetainedOk(s'.retained[p], p, s'.tasks)
    {
      assert RetainedOk(s.retained[p], p, s.tasks);
    }
  }

  // ----- forks -----

  function ForkReport(parent: nat, child: nat, tid: nat, retained: bool): StopInfo {
    Stop(TrapStop, 5, tid).(forked := Some(Forked(parent, child, retained)))
  }

  /** A fork child given back the program's own bytes and debug registers. */
  function Released(d: Domain, t: Task): Task {
    Task(Lift(t.cpu, Saved(d.table)),
         if d.snapshot.Some? && d.snapshot.value.tid == d.process.pid then d.snapshot.value.debug else t.debug)
  }

  lemma ReleasingKeepsConsistent(s: State, child: nat, task: Task, stop: StopInfo)
    requires Consistent(s) && s.active.process.state == Stopped
    requires child !in s.retained && child != s.active.process.pid
    ensures s.active.process.pid in s.tasks
    ensures Consistent(s.(active := s.active.(stop := stop), tasks := s.tasks[child := task]))
    ensures Logical(s.active.(stop := stop), ActiveTask(s)) == Logical(s.active, ActiveTask(s))
  {
    var d, t := s.active.(stop := stop), ActiveTask(s);
    SoundFrame(s.active, t, d, t);
    hide Sound, IdsDisjoint;
    RetainedAreTasks(s);
    RegistryFrame(s, d, s.tasks[child := task]);
  }

  /** The child takes the parent's place with all its breakpoints and watchpoint. */
  lemma AdoptingKeepsConsistent(s: State, child: nat, parent: Task, task: Task, stop: StopInfo)
    requires Consistent(s) && s.active.process.state == Stopped
    requires child !in s.retained && child != s.active.process.pid && s.active.process.pid in s.tasks
    requires task.cpu.mem == ActiveTask(s).cpu.mem
    requires s.active.snapshot.Some? ==> task.debug == Inherited(ActiveTask(s).debug)
    ensures Consistent(s.(active := Adopted(s.active, child).(stop := stop),
                          tasks := s.tasks[s.active.process.pid := parent][child := task]))
    ensures Logical(Adopted(s.active, child).(stop := stop), task).mem == Logical(s.active, ActiveTask(s)).mem
  {
    hide Sound, Settled, IdsDisjoint, Logical, Inherited;
    StoppedIsActive(s);
    var d := Adopted(s.active, child).(stop := stop);
    AdoptingKeepsSound(s.active, ActiveTask(s), child, task, stop);
    RetainedAreTasks(s);
    RegistryFrame(s, d, s.tasks[s.active.process.pid := parent][child := task]);
  }

  lemma ForkBesideKeepsConsistent(s: State, child: nat, task: Task, stop: StopInfo)
    requires Consistent(s) && s.active.process.state == Stopped && s.active.process.origin == Launched
    requires child !in s.retained && child != s.active.process.pid && s.active.process.pid in s.tasks
    requires 1 + |s.retained| < MAX_DOMAINS
    requires s.active.snapshot.Some? ==> task.debug == Inherited(ActiveTask(s).debug)
    ensures Consistent(s.(active := s.active.(stop := stop), retained := s.retained[child := FreshDomain(s.active, child)],
                          tasks := s.tasks[child := task]))
    ensures Logical(s.active.(stop := stop), ActiveTask(s)) == Logical(s.active, ActiveTask(s))
  {
    StoppedIsActive(s);
    SnapshotIsOwn(s.active, ActiveTask(s));
    hide Consistent, Sound, Settled, Logical, FreshDomain, Inherited;
    ReleasingKeepsConsistent(s, child, task, stop);
    RetainingKeepsSound(s.active, ActiveTask(s), child, task);
    FreshFrame(s.active, stop, child);
    RetainingKeepsConsistent(s.(active := s.active.(stop := stop), tasks := s.tasks[child := task]), child);
  }
}
