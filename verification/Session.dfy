/** What the debugger remembers of one process, what it remembers of all of them,
    and when that is consistent with the processes themselves. */
module Session {
  import opened Base
  import opened Tracee
  import opened Overlay

  datatype ProcessState = Stopped | Running | Exited | Signaled | Detached
  datatype Origin = Launched | Attached
  datatype FollowPolicy = FollowParent | FollowChild | FollowBoth
  datatype SignalPolicy = Suppress | Forward

  /** A process with one task, whose tid is the pid. */
  datatype Process = Process(pid: nat, origin: Origin, state: ProcessState)

  datatype StopReason =
    | InitialExec | AttachedStop | ExecStopped
    | ProcessExited | ProcessSignaled
    | BreakpointHit | WatchpointHit | SingleStepped | SignalReceived | TrapStop
    | ExitedStop | SignaledStop

  datatype Forked = Forked(parent: nat, child: nat, retained: bool)

  datatype StopInfo = StopInfo(reason: StopReason, value: int, tid: nat, address: Option<int>,
                               watchpoint: Option<nat>, forked: Option<Forked>)

  function Stop(reason: StopReason, value: int, tid: nat): StopInfo {
    StopInfo(reason, value, tid, None, None, None)
  }

  datatype Pending = Pending(address: int, tid: nat)
  datatype Watchpoint = Watchpoint(id: nat, address: U64, length: nat)
  datatype Snapshot = Snapshot(tid: nat, debug: DebugRegisters)

  /** The part of the debugger that is exchanged when another process becomes
      active. */
  datatype Domain = Domain(
    process: Process,
    stop: StopInfo,
    signals: map<nat, int>,
    table: Table,
    ids: map<nat, int>,
    pending: Option<Pending>,
    watchpoint: Option<Watchpoint>,
    snapshot: Option<Snapshot>)

  // ----- debug-register slot 0 -----

  const DR6_SLOT0: bv64 := 0x1
  const DR7_ENABLE0: bv64 := 0x3
  const DR7_CONTROL0: bv64 := 0xF_0000

  function LengthEncoding(length: nat): (code: Result<bv64>) {
    if length == 1 then Ok(0)
    else if length == 2 then Ok(1)
    else if length == 4 then Ok(3)
    else if length == 8 then Ok(2)
    else Err(InvalidArgument)
  }

  function DisabledControl(dr7: bv64): bv64 {
    dr7 & !(DR7_ENABLE0 | DR7_CONTROL0)
  }

  function ConfiguredControl(dr7: bv64, code: bv64): bv64 {
    DisabledControl(dr7) | 1 | (1 << 16) | (code << 18)
  }

  /** Arming slot 0 leaves every control bit of the other slots alone, enables the
      slot, and disarming it again undoes only that. */
  lemma ArmingKeepsOtherSlots(dr7: bv64, length: nat)
    requires LengthEncoding(length).Ok?
    ensures var armed := ConfiguredControl(dr7, LengthEncoding(length).value);
            && DisabledControl(armed) == DisabledControl(dr7)
            && armed & DR7_ENABLE0 == 1
  {
    var code := LengthEncoding(length).value;
    assert code == 0 || code == 1 || code == 2 || code == 3;
  }

  predicate Aligned(address: U64, length: nat)
    requires LengthEncoding(length).Ok?
  {
    address % length == 0
  }

  // ----- consistency of one process -----

  /** The address map and the id map are inverse to each other. */
  ghost predicate MapsAgree(table: Table, ids: map<nat, int>) {
    && (forall a :: a in table ==> table[a].address == a && table[a].id in ids && ids[table[a].id] == a)
    && (forall i :: i in ids ==> ids[i] in table && table[ids[i]].id == i)
  }

  /** A breakpoint is out exactly while its displaced step is pending. */
  ghost predicate OutIffPending(table: Table, pending: Option<Pending>) {
    && (forall a :: a in table ==> (!table[a].installed <==> pending.Some? && pending.value.address == a))
    && (pending.Some? ==> pending.value.address in table)
  }

  /** While a watchpoint is set, slot 0 watches it and nothing else of DR7 is
      changed; what was there before is in the snapshot. */
  ghost predicate WatchHeld(d: Domain, debug: DebugRegisters) {
    && (d.watchpoint.Some? <==> d.snapshot.Some?)
    && (d.watchpoint.Some? ==>
          && d.snapshot.value.tid == d.process.pid
          && d.snapshot.value.debug.dr7 & DR7_ENABLE0 == 0
          && debug.dr0 == d.watchpoint.value.address
          && LengthEncoding(d.watchpoint.value.length).Ok?
          && debug.dr7 == ConfiguredControl(d.snapshot.value.debug.dr7,
                                            LengthEncoding(d.watchpoint.value.length).value))
  }

  ghost predicate Sound(d: Domain, t: Task) {
    && MapsAgree(d.table, d.ids)
    && Overlaid(t.cpu.mem, d.table)
    && OutIffPending(d.table, d.pending)
    && WatchHeld(d, t.debug)
  }

  /** No watchpoint report is left over from an earlier stop. */
  ghost predicate Settled(d: Domain, t: Task) {
    d.watchpoint.Some? ==> t.debug.dr6 & DR6_SLOT0 == 0
  }

  /** The program as it would be with no debugger attached. */
  function Logical(d: Domain, t: Task): Cpu {
    Lift(t.cpu, Saved(d.table))
  }

  /** In a consistent domain every saved byte is the logical byte. */
  lemma SavedBytesAreLogical(d: Domain, t: Task)
    requires Sound(d, t)
    ensures forall a :: a in d.table ==> a in Logical(d, t).mem && Logical(d, t).mem[a] == d.table[a].original
    ensures forall a :: a in t.cpu.mem && a !in d.table ==> Logical(d, t).mem[a] == t.cpu.mem[a]
  {
    forall a | a in d.table
      ensures a in Logical(d, t).mem && Logical(d, t).mem[a] == d.table[a].original
    {
      assert Mapped(t.cpu.mem, a, WORD) && a in t.cpu.mem;
    }
  }

  // ----- one step of the breakpoint table -----

  function ArmedDomain(d: Domain, a: int, id: nat, original: Byte): Domain {
    d.(table := d.table[a := Breakpoint(id, a, original, true)], ids := d.ids[id := a])
  }

  function StoredTask(t: Task, a: int, value: Byte): Task {
    t.(cpu := t.cpu.(mem := t.cpu.mem[a := value]))
  }

  lemma ArmingKeepsSound(d: Domain, t: Task, a: int, id: nat)
    requires Sound(d, t)
    requires a !in d.table && id !in d.ids && Mapped(t.cpu.mem, a, WORD)
    ensures Sound(ArmedDomain(d, a, id, t.cpu.mem[a]), StoredTask(t, a, INT3))
    ensures Logical(ArmedDomain(d, a, id, t.cpu.mem[a]), StoredTask(t, a, INT3)) == Logical(d, t)
  {
    ArmingIsInvisible(t.cpu, d.table, a, id);
  }

  function ErasedDomain(d: Domain, id: nat): Domain
    requires id in d.ids
  {
    var a := d.ids[id];
    d.(table := d.table - {a}, ids := d.ids - {id},
       pending := if d.pending.Some? && d.pending.value.address == a then None else d.pending)
  }

  function DisarmedTask(d: Domain, t: Task, id: nat): Task
    requires id in d.ids
  {
    var a := d.ids[id];
    if a in d.table && d.table[a].installed then StoredTask(t, a, d.table[a].original) else t
  }

  lemma RemovingKeepsSound(d: Domain, t: Task, id: nat)
    requires Sound(d, t) && id in d.ids
    ensures Sound(ErasedDomain(d, id), DisarmedTask(d, t, id))
    ensures Logical(ErasedDomain(d, id), DisarmedTask(d, t, id)) == Logical(d, t)
  {
    RemovingIsInvisible(t.cpu, d.table, d.ids[id]);
  }

  /** Forgetting a breakpoint without writing its byte back leaves the rest of the
      domain consistent, but the INT3 becomes part of the program: the logical
      machine is kept if and only if the breakpoint was out or hid an INT3. */
  lemma DiscardingKeepsSound(d: Domain, t: Task, id: nat)
    requires Sound(d, t) && id in d.ids
    ensures Sound(ErasedDomain(d, id), t)
    ensures Logical(ErasedDomain(d, id), t) == Logical(d, t) <==>
      !d.table[d.ids[id]].installed || d.table[d.ids[id]].original == INT3
  {
    var a := d.ids[id];
    assert a in t.cpu.mem;
    var before, after := Restored(t.cpu.mem, Saved(d.table)), Restored(t.cpu.mem, Saved(d.table - {a}));
    assert after[a] == t.cpu.mem[a] && before[a] == d.table[a].original;
    if !d.table[a].installed || d.table[a].original == INT3 {
      assert after == before;
    }
  }

  /** The repair after a breakpoint was hit: RIP moved back, the byte restored, the
      displaced step noted. */
  function HitDomain(d: Domain, a: int): Domain
    requires a in d.table
  {
    d.(table := d.table[a := d.table[a].(installed := false)], pending := Some(Pending(a, d.process.pid)))
  }

  lemma HitKeepsSound(d: Domain, t: Task, a: int)
    requires Sound(d, t) && d.pending.None? && a in d.table
    ensures Sound(HitDomain(d, a), StoredTask(t, a, d.table[a].original))
    ensures Logical(HitDomain(d, a), StoredTask(t, a, d.table[a].original)) == Logical(d, t)
  {
    LiftingOneIsInvisible(t.cpu, d.table, a);
  }

  function ReinsertedDomain(d: Domain): Domain
    requires d.pending.Some? && d.pending.value.address in d.table
  {
    var a := d.pending.value.address;
    d.(table := d.table[a := d.table[a].(installed := true)], pending := None)
  }

  lemma ReinsertingKeepsSound(d: Domain, t: Task)
    requires Sound(d, t) && d.pending.Some?
    ensures Sound(ReinsertedDomain(d), StoredTask(t, d.pending.value.address, INT3))
    ensures Logical(ReinsertedDomain(d), StoredTask(t, d.pending.value.address, INT3)) == Logical(d, t)
  {
    ReinsertingIsInvisible(t.cpu, d.table, d.pending.value.address);
  }

  // ----- consistency of all processes -----

  /** The active domain, the retained ones by pid, and the tasks they are about. */
  datatype State = State(active: Domain, retained: map<nat, Domain>, nextId: nat, tasks: map<nat, Task>)

  const MAX_DOMAINS: nat := 3

  /** A retained process is stopped, was launched, and has no displaced step
      pending; so all its breakpoints are installed. */
  ghost predicate RetainedOk(d: Domain, p: nat, tasks: map<nat, Task>) {
    && d.process == Process(p, Launched, Stopped)
    && d.pending.None?
    && p in tasks
    && Sound(d, tasks[p])
    && Settled(d, tasks[p])
  }

  /** All ids of a domain were given out already. */
  ghost predicate GivenOut(d: Domain, nextId: nat) {
    forall i :: i in d.ids ==> i < nextId
  }

  ghost predicate Apart(d: Domain, e: Domain) {
    forall i :: i in d.ids ==> i !in e.ids
  }

  /** An id belongs to one domain and is never given out again. */
  ghost predicate IdsDisjoint(s: State) {
    && GivenOut(s.active, s.nextId)
    && (forall p :: p in s.retained ==> GivenOut(s.retained[p], s.nextId) && Apart(s.retained[p], s.active))
    && (forall p, q :: p in s.retained && q in s.retained && p != q ==> Apart(s.retained[p], s.retained[q]))
  }

  ghost predicate Registry(s: State) {
    && 1 + |s.retained| <= MAX_DOMAINS
    && s.active.process.pid !in s.retained
    && (forall p :: p in s.retained ==> RetainedOk(s.retained[p], p, s.tasks))
    && IdsDisjoint(s)
    && (s.retained != map[] ==> s.active.process.origin == Launched)
  }

  ghost predicate ActiveOk(s: State) {
    && s.active.process.pid in s.tasks
    && Sound(s.active, s.tasks[s.active.process.pid])
    && Settled(s.active, s.tasks[s.active.process.pid])
  }

  /** The invariant of every session. */
  ghost predicate Consistent(s: State) {
    && Registry(s)
    && s.active.process.state != Running
    && (s.retained != map[] ==> s.active.process.state == Stopped)
    && (s.active.process.state == Stopped ==> ActiveOk(s))
  }

  lemma ActiveChangeKeepsIds(s: State, d: Domain, nextId: nat, tasks: map<nat, Task>)
    requires IdsDisjoint(s) && nextId >= s.nextId
    requires forall i :: i in d.ids ==> i < nextId && (i in s.active.ids || i >= s.nextId)
    ensures IdsDisjoint(State(d, s.retained, nextId, tasks))
  {
    assert GivenOut(d, nextId);
    forall p | p in s.retained
      ensures GivenOut(s.retained[p], nextId)
    {
      assert GivenOut(s.retained[p], s.nextId);
    }
    forall p | p in s.retained
      ensures Apart(s.retained[p], d)
    {
      assert GivenOut(s.retained[p], s.nextId) && Apart(s.retained[p], s.active);
    }
    assert forall p, q :: p in s.retained && q in s.retained && p != q ==> Apart(s.retained[p], s.retained[q]) by {
      hide GivenOut, Apart;
    }
  }

  /** A change of the active process and its tables does not touch the others. */
  lemma ActiveChangeKeepsRegistry(s: State, d: Domain, nextId: nat, tasks: map<nat, Task>)
    requires Registry(s)
    requires d.process.pid !in s.retained && d.process.origin == s.active.process.origin
    requires forall p :: p in s.retained ==> p in tasks && tasks[p] == s.tasks[p]
    requires nextId >= s.nextId
    requires forall i :: i in d.ids ==> i < nextId && (i in s.active.ids || i >= s.nextId)
    ensures Registry(State(d, s.retained, nextId, tasks))
  {
    var s' := State(d, s.retained, nextId, tasks);
    ActiveChangeKeepsIds(s, d, nextId, tasks);
    hide Sound, Settled, IdsDisjoint;
    forall p | p in s.retained
      ensures RetainedOk(s'.retained[p], p, tasks)
    {
      assert RetainedOk(s.retained[p], p, s.tasks);
    }
  }

  // ----- one step of a whole session -----

  function ActiveTask(s: State): Task
    requires s.active.process.pid in s.tasks
  {
    s.tasks[s.active.process.pid]
  }

  /** The active program as it would be with no debugger attached. */
  function ProgramOf(s: State): Cpu
    requires s.active.process.pid in s.tasks
  {
    Logical(s.active, ActiveTask(s))
  }

  /** RIP sits on an INT3 the debugger has put there. */
  predicate RipArmed(s: State)
    requires s.active.process.pid in s.tasks
  {
    ActiveTask(s).cpu.rip in Saved(s.active.table)
  }

  /** `trace` is a run of the undebugged program that ends in the present state. */
  ghost predicate FaithfulTo(moves: Behaviour, trace: seq<Cpu>, s: State) {
    && IsRun(moves, trace)
    && (s.active.process.state == Stopped && s.active.process.pid in s.tasks ==> trace[|trace| - 1] == ProgramOf(s))
  }

  /** The active domain and its task replaced. */
  function Changed(s: State, d: Domain, t: Task): State {
    s.(active := d, tasks := s.tasks[s.active.process.pid := t])
  }

  lemma StoppedIsActive(s: State)
    requires Consistent(s) && s.active.process.state == Stopped
    ensures s.active.process.pid in s.tasks
    ensures Sound(s.active, ActiveTask(s)) && Settled(s.active, ActiveTask(s))
    ensures forall a :: a in s.active.table ==> Mapped(ActiveTask(s).cpu.mem, a, WORD)
  {
  }

  lemma ConsistentHasRegistry(s: State)
    requires Consistent(s)
    ensures Registry(s)
  {
  }

  /** A sound change of the active process keeps the session consistent. */
  lemma ChangeKeepsConsistent(s: State, d: Domain, t: Task, nextId: nat)
    requires Registry(s) && s.active.process.pid in s.tasks
    requires d.process == s.active.process.(state := Stopped)
    requires Sound(d, t) && Settled(d, t)
    requires nextId >= s.nextId
    requires forall i :: i in d.ids ==> i < nextId && (i in s.active.ids || i >= s.nextId)
    ensures Consistent(Changed(s, d, t).(nextId := nextId))
  {
    hide Sound, Settled;
    ActiveChangeKeepsRegistry(s, d, nextId, s.tasks[s.active.process.pid := t]);
  }

  /** The same for a change that leaves the set of ids alone. */
  lemma MoveKeepsConsistent(s: State, d: Domain, tasks: map<nat, Task>)
    requires Registry(s) && s.active.process.pid in tasks
    requires tasks == s.tasks[s.active.process.pid := tasks[s.active.process.pid]]
    requires d.process == s.active.process.(state := Stopped) && d.ids == s.active.ids
    requires Sound(d, tasks[s.active.process.pid]) && Settled(d, tasks[s.active.process.pid])
    ensures Consistent(s.(active := d, tasks := tasks))
  {
    hide Sound, Settled;
    ActiveChangeKeepsRegistry(s, d, s.nextId, tasks);
  }

  function Armed(s: State, a: int): State
    requires s.active.process.pid in s.tasks && a in ActiveTask(s).cpu.mem
  {
    Changed(s, ArmedDomain(s.active, a, s.nextId, ActiveTask(s).cpu.mem[a]), StoredTask(ActiveTask(s), a, INT3))
      .(nextId := s.nextId + 1)
  }

  lemma IdsAreOld(s: State)
    requires Registry(s)
    ensures forall i :: i in s.active.ids ==> i < s.nextId
  {
    hide RetainedOk;
  }

  lemma MappedHas(mem: Memory, a: int)
    requires Mapped(mem, a, WORD)
    ensures a in mem
  {
  }

  lemma ArmingKeepsSettled(d: Domain, t: Task, a: int, id: nat)
    requires Settled(d, t) && a in t.cpu.mem
    ensures Settled(ArmedDomain(d, a, id, t.cpu.mem[a]), StoredTask(t, a, INT3))
  {
  }

  lemma ArmingKeepsConsistent(s: State, a: int)
    requires Consistent(s) && s.active.process.state == Stopped
    requires s.active.process.pid in s.tasks && a !in s.active.table && Mapped(ActiveTask(s).cpu.mem, a, WORD)
    ensures a in ActiveTask(s).cpu.mem
    ensures Consistent(Armed(s, a))
    ensures Logical(Armed(s, a).active, ActiveTask(Armed(s, a))) == Logical(s.active, ActiveTask(s))
  {
    hide Consistent, Sound, Settled, Logical, Mapped;
    StoppedIsActive(s);
    ConsistentHasRegistry(s);
    IdsAreOld(s);
    MappedHas(ActiveTask(s).cpu.mem, a);
    var t, id := ActiveTask(s), s.nextId;
    ArmingKeepsSound(s.active, t, a, id);
    ArmingKeepsSettled(s.active, t, a, id);
    hide Registry;
    ChangeKeepsConsistent(s, ArmedDomain(s.active, a, id, t.cpu.mem[a]), StoredTask(t, a, INT3), id + 1);
  }

  /** A breakpoint removed: its byte is written back if the process is stopped. */
  function Removed(s: State, id: nat): State
    requires id in s.active.ids
    requires s.active.process.state == Stopped ==> s.active.process.pid in s.tasks
  {
    if s.active.process.state == Stopped then
      Changed(s, ErasedDomain(s.active, id), DisarmedTask(s.active, ActiveTask(s), id))
    else s.(active := ErasedDomain(s.active, id))
  }

  lemma RemovingKeepsConsistent(s: State, id: nat)
    requires Consistent(s) && id in s.active.ids
    ensures s.active.process.state == Stopped ==> s.active.process.pid in s.tasks
    ensures Consistent(Removed(s, id))
    ensures s.active.process.state == Stopped ==>
      Logical(Removed(s, id).active, ActiveTask(Removed(s, id))) == Logical(s.active, ActiveTask(s))
  {
    var d := ErasedDomain(s.active, id);
    if s.active.process.state == Stopped {
      var t := ActiveTask(s);
      RemovingKeepsSound(s.active, t, id);
      hide Sound, Logical;
      ChangeKeepsConsistent(s, d, DisarmedTask(s.active, t, id), s.nextId);
    } else {
      hide Sound;
      ActiveChangeKeepsRegistry(s, d, s.nextId, s.tasks);
    }
  }

  lemma IdIsInTable(d: Domain, t: Task, id: nat)
    requires Sound(d, t) && id in d.ids
    ensures d.ids[id] in d.table
  {
  }

  lemma ErasingKeepsSettled(d: Domain, t: Task, id: nat)
    requires Settled(d, t) && id in d.ids
    ensures Settled(ErasedDomain(d, id), t)
  {
  }

  lemma Rewritten<T>(m: map<nat, T>, k: nat)
    requires k in m
    ensures m[k := m[k]] == m
  {
  }

  lemma DiscardingKeepsConsistent(s: State, id: nat)
    requires Consistent(s) && id in s.active.ids && s.active.process.state == Stopped
    ensures s.active.process.pid in s.tasks && s.active.ids[id] in s.active.table
    ensures Consistent(s.(active := ErasedDomain(s.active, id)))
    ensures Logical(ErasedDomain(s.active, id), ActiveTask(s)) == Logical(s.active, ActiveTask(s)) <==>
      !s.active.table[s.active.ids[id]].installed || s.active.table[s.active.ids[id]].original == INT3
  {
    hide Consistent, Settled, Logical, Sound;
    StoppedIsActive(s);
    ConsistentHasRegistry(s);
    IdIsInTable(s.active, ActiveTask(s), id);
    var d, t := ErasedDomain(s.active, id), ActiveTask(s);
    DiscardingKeepsSound(s.active, t, id);
    ErasingKeepsSettled(s.active, t, id);
    IdsAreOld(s);
    hide Registry;
    ChangeKeepsConsistent(s, d, t, s.nextId);
    Rewritten(s.tasks, s.active.process.pid);
    assert Changed(s, d, t).(nextId := s.nextId) == s.(active := d);
  }

  // ----- stops -----

  /** The debug-status register reports the watchpoint of this process. */
  predicate WatchReported(d: Domain, t: Task) {
    && d.watchpoint.Some? && d.snapshot.Some? && d.snapshot.value.tid == d.process.pid
    && t.debug.dr6 & DR6_SLOT0 != 0
  }

  function WatchStop(d: Domain): StopInfo
    requires d.watchpoint.Some?
  {
    Stop(WatchpointHit, 5, d.process.pid).(watchpoint := Some(d.watchpoint.value.id),
                                           address := Some(d.watchpoint.value.address))
  }

  function Acknowledged(t: Task): Task {
    t.(debug := t.debug.(dr6 := t.debug.dr6 & !DR6_SLOT0))
  }

  /** The program has just fetched an INT3 the debugger put there. */
  predicate AtInstalled(d: Domain, t: Task) {
    t.cpu.rip > 0 && t.cpu.rip - 1 in d.table && d.table[t.cpu.rip - 1].installed
  }

  function RepairedTask(d: Domain, t: Task, a: nat): Task
    requires a in d.table
  {
    StoredTask(t.(cpu := t.cpu.(rip := a)), a, d.table[a].original)
  }

  /** What a SIGTRAP stop means: a watchpoint report, the end of a requested step, a
      breakpoint hit to be repaired, or a trap that is not the debugger's. */
  function Classify(d: Domain, t: Task, stepping: bool): (r: (Domain, Task)) {
    if WatchReported(d, t) then
      (d.(stop := WatchStop(d)), Acknowledged(t))
    else if stepping then
      (d.(stop := Stop(SingleStepped, 5, d.process.pid)), t)
    else if AtInstalled(d, t) then
      var a := t.cpu.rip - 1;
      (HitDomain(d, a).(stop := Stop(BreakpointHit, 5, d.process.pid).(address := Some(a))), RepairedTask(d, t, a))
    else
      (d.(stop := Stop(TrapStop, 5, d.process.pid)), t)
  }

  /** Soundness is about the tables, the bytes and slot 0; RIP, the status register
      and the stop report do not matter. */
  lemma SoundFrame(d: Domain, t: Task, d': Domain, t': Task)
    requires Sound(d, t)
    requires d'.table == d.table && d'.ids == d.ids && d'.pending == d.pending
    requires d'.process.pid == d.process.pid && d'.watchpoint == d.watchpoint && d'.snapshot == d.snapshot
    requires t'.cpu.mem == t.cpu.mem && t'.debug.dr0 == t.debug.dr0 && t'.debug.dr7 == t.debug.dr7
    ensures Sound(d', t')
    ensures Logical(d', t').mem == Logical(d, t).mem
  {
    hide MapsAgree, Overlaid, OutIffPending, Restored, Saved, ConfiguredControl, LengthEncoding;
  }

  lemma PendingIsInTable(d: Domain, t: Task)
    requires Sound(d, t) && d.pending.Some?
    ensures d.pending.value.address in d.table
  {
  }

  lemma SettledFrame(d: Domain, t: Task)
    requires Settled(d, t) && d.pending.Some? && d.pending.value.address in d.table
    ensures Settled(ReinsertedDomain(d), StoredTask(t, d.pending.value.address, INT3))
  {
  }

  lemma SnapshotIsOwn(d: Domain, t: Task)
    requires Sound(d, t)
    ensures d.watchpoint.Some? <==> d.snapshot.Some?
    ensures d.snapshot.Some? ==> d.snapshot.value.tid == d.process.pid
  {
  }

  lemma OwnSnapshot(s: State)
    requires Consistent(s) && s.active.process.state == Stopped
    ensures s.active.process.pid in s.tasks
    ensures s.active.snapshot.Some? ==> s.active.snapshot.value.tid == s.active.process.pid
  {
    StoppedIsActive(s);
    SnapshotIsOwn(s.active, ActiveTask(s));
  }

  lemma ClearedBit(dr6: bv64)
    ensures (dr6 & !DR6_SLOT0) & DR6_SLOT0 == 0
  {
  }

  lemma ClassifySettles(d: Domain, t: Task, stepping: bool)
    requires WatchHeld(d, t.debug)
    ensures var (d', t') := Classify(d, t, stepping); Settled(d', t')
    ensures var (d', t') := Classify(d, t, stepping);
            d'.process == d.process && d'.ids == d.ids && d'.table.Keys == d.table.Keys
  {
    hide ConfiguredControl, LengthEncoding;
    ClearedBit(t.debug.dr6);
  }

  lemma ClassifyKeepsProcess(d: Domain, t: Task, stepping: bool)
    ensures Classify(d, t, stepping).0.process == d.process
    ensures Classify(d, t, stepping).0.watchpoint == d.watchpoint
    ensures Classify(d, t, stepping).1.debug.dr7 == t.debug.dr7 && Classify(d, t, stepping).1.debug.dr0 == t.debug.dr0
  {
    hide WatchReported;
  }

  lemma ClassifyKeepsSound(d: Domain, t: Task, stepping: bool)
    requires Sound(d, t) && (!stepping ==> d.pending.None?)
    ensures var (d', t') := Classify(d, t, stepping);
            Sound(d', t') && Logical(d', t') == Logical(d, t).(rip := t'.cpu.rip)
  {
    hide Sound, Saved, Restored, WatchReported;
    var (d', t') := Classify(d, t, stepping);
    if d'.stop.reason == BreakpointHit {
      var rip := t.cpu.rip;
      var moved, marked := t.(cpu := t.cpu.(rip := rip - 1)), d.(stop := d'.stop);
      SoundFrame(d, t, marked, moved);
      HitKeepsSound(marked, moved, rip - 1);
      hide Logical;
      assert (d', t') == (HitDomain(marked, rip - 1), StoredTask(moved, rip - 1, marked.table[rip - 1].original));
      LogicalMoves(d, t, marked, moved);
    } else {
      SoundFrame(d, t, d', t');
    }
  }

  lemma LogicalRip(d: Domain, t: Task)
    ensures Logical(d, t).rip == t.cpu.rip
  {
  }

  lemma LogicalMoves(d: Domain, t: Task, d': Domain, t': Task)
    requires d'.table == d.table && t'.cpu == t.cpu.(rip := t'.cpu.rip)
    ensures Logical(d', t') == Logical(d, t).(rip := t'.cpu.rip)
  {
  }
}
