/** Sessions in which the deferred breakpoints fail: the user has a breakpoint at the
    entry point before the dynamic loader has come up. */
module FailingSessions {
  import opened Base
  import opened Tracee
  import opened Overlay
  import opened Kernel
  import opened Session
  import opened Outcomes
  import opened Resuming
  import opened Worlds
  import opened Debugging
  import opened Driver
  import opened SourceMotion
  import opened Requests
  import opened Deferred
  import FailingInputs

  // ----- the program and its loader -----

  const ENTRY: nat := 2

  /** The loader's rendezvous structure, one byte: zero before the loader has come up, and
      then how far it has got. */
  const SLOT: nat := 12

  function Code(): set<int> {
    {2, 3, 4}
  }

  /** The loader reports changes at address 3 at first, and later at address 4; no target
      ever resolves, and the loader never says that it is done. */
  function MovingLoader(): Loader {
    Loader((target, now) => Ok(None), now => Ok(ENTRY),
           (c: Cpu, now) => if SLOT in c.mem && c.mem[SLOT] > 0 then Ok(Some(SLOT)) else Ok(None),
           (c: Cpu, at) => if at in c.mem && c.mem[at] == 1 then Ok(3) else Ok(4),
           (c, at) => Ok(false))
  }

  /** An instruction of one byte, which counts in the slot. */
  function Next(c: Cpu): Cpu {
    if FetchesTrap(c) || SLOT !in c.mem then c.(rip := c.rip + 1)
    else c.(rip := c.rip + 1, mem := c.mem[SLOT := Counted(c.mem[SLOT])])
  }

  function Counted(count: Byte): Byte {
    if count == 255 then 0 else count + 1
  }

  ghost function Progressing(): Behaviour {
    Behaviour((c, d) => d == Next(c), (c, d) => false)
  }

  lemma NextLifted(saved: map<int, Byte>, c: Cpu)
    requires Covered(c.mem, saved) && c.rip !in saved && saved.Keys <= Code()
    ensures Lift(Next(c), saved) == Next(Lift(c, saved))
  {
    assert SLOT !in saved;
    assert FetchesTrap(Lift(c, saved)) == FetchesTrap(c);
    if !FetchesTrap(c) && SLOT in c.mem {
      var v := Counted(c.mem[SLOT]);
      assert Restored(c.mem[SLOT := v], saved) == Restored(c.mem, saved)[SLOT := v];
    }
  }

  lemma ProgressingIsDiscreet()
    ensures Discreet(Progressing(), Code())
  {
    forall saved: map<int, Byte>, c: Cpu {:trigger Covered(c.mem, saved)} |
      saved.Keys <= Code() && Covered(c.mem, saved) && c.rip !in saved
      ensures Next(Lift(c, saved)) == Lift(Next(c), saved)
    {
      NextLifted(saved, c);
    }
    forall c: Cpu
      ensures Next(c).mem.Keys == c.mem.Keys && forall a :: a in Code() && a in c.mem ==> Next(c).mem[a] == c.mem[a]
    {
    }
    hide Lift, Covered;
  }

  /** The kernel stops the program with a signal, first after one instruction and later at
      once; in between it runs into the next INT3, if that is one instruction away. */
  function Drives(tasks: map<nat, Task>, pid: nat, stepping: bool, signal: int, time: nat): Reply {
    if pid !in tasks then Reply(tasks, ExitReport(0)) else
    var c := tasks[pid].cpu;
    if FetchesTrap(c) || SLOT !in c.mem then Reply(tasks, SignalStop(10))
    else if c.mem[SLOT] == 0 then Reply(tasks[pid := tasks[pid].(cpu := Next(c))], SignalStop(10))
    else if c.mem[SLOT] == 1 && !stepping && FetchesTrap(Next(c)) then
      Reply(tasks[pid := tasks[pid].(cpu := Next(c).(rip := Next(c).rip + 1))], SignalStop(SIGTRAP))
    else Reply(tasks, SignalStop(10))
  }

  lemma DrivingIsAnswer(tasks: map<nat, Task>, pid: nat, stepping: bool, signal: int, time: nat)
    requires pid in tasks
    ensures Answerable(Progressing(), tasks, pid, stepping, signal, Drives(tasks, pid, stepping, signal, time))
  {
    var c, reply := tasks[pid].cpu, Drives(tasks, pid, stepping, signal, time);
    if FetchesTrap(c) || SLOT !in c.mem {
      assert tasks == tasks[pid := tasks[pid]];
      assert Answers(Progressing(), tasks, pid, stepping, signal, reply, [c], SentTrap);
    } else if c.mem[SLOT] == 0 {
      assert Advance(Progressing(), c, Next(c), signal != 0);
      assert Answers(Progressing(), tasks, pid, stepping, signal, reply, [c, Next(c)], SentTrap);
    } else if c.mem[SLOT] == 1 && !stepping && FetchesTrap(Next(c)) {
      assert Advance(Progressing(), c, Next(c), signal != 0);
      assert Answers(Progressing(), tasks, pid, stepping, signal, reply, [c, Next(c)], FetchedTrap);
    } else {
      assert tasks == tasks[pid := tasks[pid]];
      assert Answers(Progressing(), tasks, pid, stepping, signal, reply, [c], SentTrap);
    }
  }

  lemma DrivingIsLawful(kernel: Machine)
    requires kernel.respond == Drives && kernel.moves == Progressing()
    ensures kernel.Lawful()
  {
    hide Answerable;
    forall tasks: map<nat, Task>, pid: nat, stepping: bool, signal: int, time: nat | pid in tasks
      ensures Answerable(Progressing(), tasks, pid, stepping, signal, Drives(tasks, pid, stepping, signal, time))
    {
      DrivingIsAnswer(tasks, pid, stepping, signal, time);
    }
    assert forall tasks: map<nat, Task>, pid: nat, stepping: bool, signal: int, time: nat ::
      kernel.respond(tasks, pid, stepping, signal, time) == Drives(tasks, pid, stepping, signal, time);
  }

  // ----- scenes -----

  function Image(slot: Byte, armed: set<int>): Memory {
    map a: int | 0 <= a < 20 :: if a in armed then INT3 else if a == SLOT then slot else 0x40
  }

  /** One process, stopped at `rip`, with these breakpoints and nothing else set. */
  ghost predicate Scene(s: State, table: Table, pending: Option<Pending>, slot: Byte, rip: nat) {
    && s.retained == map[] && s.active.process == Process(1, Launched, Stopped)
    && s.active.table == table && s.active.pending == pending && s.active.watchpoint.None? && s.active.snapshot.None?
    && 1 in s.tasks && s.tasks[1].cpu.rip == rip
    && s.tasks[1].cpu.mem == Image(slot, Installed(table))
  }

  function Installed(table: Table): set<int> {
    set a | a in table && table[a].installed
  }

  function Hidden(id: nat, a: int, installed: bool): Breakpoint {
    Breakpoint(id, a, 0x40, installed)
  }

  lemma ImageIsMapped(slot: Byte, armed: set<int>)
    ensures forall a :: a in Code() ==> Mapped(Image(slot, armed), a, WORD)
  {
  }

  lemma SceneArmed(s: State, table: Table, slot: Byte, rip: nat, a: nat, id: nat)
    requires Scene(s, table, None, slot, rip) && a in Code() && a !in table && s.nextId == id
    requires a in ActiveTask(s).cpu.mem
    ensures Scene(Armed(s, a), table[a := Hidden(id, a, true)], None, slot, rip)
  {
    var armed := Installed(table);
    InstalledMore(table, a, id);
    assert Image(slot, armed)[a] == 0x40;
    assert Image(slot, armed)[a := INT3] == Image(slot, armed + {a});
    hide Image, Installed;
  }

  lemma InstalledMore(table: Table, a: int, id: nat)
    requires a !in table
    ensures Installed(table[a := Hidden(id, a, true)]) == Installed(table) + {a}
    ensures table[a := Hidden(id, a, true)] - {a} == table
  {
    var more := table[a := Hidden(id, a, true)];
    forall e
      ensures e in Installed(more) <==> e in Installed(table) + {a}
    {
    }
  }

  /** Nothing of the user's or of a request's is set when the process is launched. */
  method Launch() returns (deferred: DeferredBreakpoints)
    ensures fresh(deferred) && fresh(deferred.debugger) && fresh(deferred.debugger.kernel)
    ensures Staged(deferred) && deferred.Memory() == Desk(map[], None, None, None, None, None)
    ensures Scene(deferred.debugger.View(), map[], None, 0, 0) && deferred.debugger.active.ids == map[]
  {
    hide Consistent, Discreet;
    var task := Task(Cpu(Image(0, {}), 0, 0), DebugRegisters(0, 0, 0));
    var kernel := new Machine(map[1 := task], Drives, Progressing());
    DrivingIsLawful(kernel);
    var debugger := new Debugger(kernel, 1, Launched);
    ProgressingIsDiscreet();
    NoneInstalled();
    deferred := new DeferredBreakpoints(debugger, MovingLoader(), Code());
  }

  lemma NoneInstalled()
    ensures Installed(map[]) == {}
  {
  }

  ghost predicate Staged(deferred: DeferredBreakpoints)
    reads deferred, deferred.debugger, deferred.debugger.kernel
  {
    && deferred.Valid(Code()) && deferred.loader == MovingLoader() && deferred.debugger.policy == FollowParent
    && deferred.debugger.kernel.respond == Drives && deferred.debugger.kernel.moves == Progressing()
  }

  // ----- a stop of the user's is swallowed -----

  function HitAtEntry(): StopInfo {
    Stop(BreakpointHit, 5, 1).(address := Some(ENTRY))
  }

  /** The user's own breakpoint: `Arm` is the debugger's call that sets one, and `Disarm`
      the one that removes it. */
  method SetOwn(deferred: DeferredBreakpoints, ghost table: Table, ghost slot: Byte, ghost rip: nat) returns (id: nat)
    requires Staged(deferred) && Scene(deferred.debugger.View(), table, None, slot, rip) && ENTRY !in table
    modifies deferred.debugger, deferred.debugger.kernel
    ensures Staged(deferred) && deferred.Memory() == old(deferred.Memory())
    ensures id == old(deferred.debugger.nextBreakpointId) && deferred.debugger.nextBreakpointId == id + 1
    ensures id !in old(deferred.debugger.active.ids)
    ensures Scene(deferred.debugger.View(), table[ENTRY := Hidden(id, ENTRY, true)], None, slot, rip)
    ensures deferred.debugger.active.ids == old(deferred.debugger.active.ids)[id := ENTRY]
  {
    hide Sane, LeadsInto, WorldOf, Image, MovingLoader;
    ghost var s := deferred.debugger.View();
    ImageIsMapped(slot, Installed(table));
    LedgerLater(deferred.requests, (deferred.loaderId, deferred.bootstrapId), s.nextId);
    var added := deferred.Arm(ENTRY, Code());
    id := added.value;
    SceneArmed(s, table, slot, rip, ENTRY, id);
  }

  /** The user has a breakpoint at the entry point, and asks for another one that cannot be
      set yet. The request is refused, and nothing of the loader's is set; but from now on a
      stop at the user's breakpoint is taken for the loader's. */
  method UserStopIsSwallowed() returns (deferred: DeferredBreakpoints, user: nat, refused: Result<nat>, internal: bool)
    ensures fresh(deferred) && fresh(deferred.debugger) && fresh(deferred.debugger.kernel)
    ensures Staged(deferred) && refused.Err? && internal
    ensures Unmonitored(deferred.Memory()) && deferred.requests == map[] && deferred.bootstrapAddress == Some(ENTRY)
    ensures Scene(deferred.debugger.View(), map[ENTRY := Hidden(user, ENTRY, true)], None, 0, 0)
    ensures deferred.debugger.active.ids == map[user := ENTRY]
  {
    hide Sane, Ledger, LeadsInto, WorldOf, Unclaimed;
    deferred := Launch();
    user := SetOwn(deferred, map[], 0, 0);
    ghost var m := deferred.Now();
    EntryIsTaken(m, map[ENTRY := Hidden(user, ENTRY, true)], 0);
    refused := deferred.AddTarget(SymbolTarget("plugin"), Code());
    internal := IsInternalStop(deferred.Memory(), HitAtEntry());
  }

  /** Before the loader has come up, with a breakpoint at the entry point. */
  lemma EntryIsTaken(m: Moment, table: Table, rip: nat)
    requires Scene(m.view, table, None, 0, rip) && table.Keys == {ENTRY} && Unmonitored(m.desk) && m.desk.requests == map[]
    ensures var m' := With(MovingLoader(), m, SymbolTarget("plugin"), 1);
            Admitted(MovingLoader(), m, SymbolTarget("plugin")) && Blocked(MovingLoader(), m') && !Monitorable(MovingLoader(), m')
  {
    assert SLOT !in Installed(table) && m.view.tasks[1].cpu.mem[SLOT] == 0;
  }

  // ----- a breakpoint is orphaned -----

  /** The program runs until a signal stops it, behind its first instruction. */
  method RunABit(deferred: DeferredBreakpoints, ghost user: nat)
    requires Staged(deferred) && Scene(deferred.debugger.View(), map[ENTRY := Hidden(user, ENTRY, true)], None, 0, 0)
    modifies deferred.debugger, deferred.debugger.kernel
    ensures Staged(deferred) && deferred.Memory() == old(deferred.Memory())
    ensures Scene(deferred.debugger.View(), map[ENTRY := Hidden(user, ENTRY, true)], None, 1, 1)
    ensures deferred.debugger.active.ids == old(deferred.debugger.active.ids)
  {
    hide LeadsInto, Ledger, WorldOf, Image, MovingLoader, Consistent, Discreet, FirstReport, Outcome, AfterContinue, Continued;
    var debugger := deferred.debugger;
    ghost var s := debugger.View();
    DiscreetBelow(debugger.kernel.moves, debugger.active.table.Keys, Code());
    var stop;
    ghost var start, stopped;
    ghost var now := debugger.kernel.clock;
    stop, start, stopped := debugger.ContinueExecution(Suppress);
    SignalComes(s, now, debugger.View(), stop, user);
    ContinueStaysWithin(s, debugger.policy, start, stopped, debugger.View(), stop.value, Code());
  }

  lemma SignalComes(s: State, now: nat, s': State, r: Result<StopInfo>, user: nat)
    requires Scene(s, map[ENTRY := Hidden(user, ENTRY, true)], None, 0, 0)
    requires FirstReport(Drives, s, Suppress, now, s', r)
    ensures Scene(s', map[ENTRY := Hidden(user, ENTRY, true)], None, 1, 1) && r.Ok?
    ensures s'.active.ids == s.active.ids && s'.nextId == s.nextId
  {
    var table: Table := map[ENTRY := Hidden(user, ENTRY, true)];
    assert Installed(table) == {ENTRY};
    assert Image(0, {ENTRY})[SLOT := 1] == Image(1, {ENTRY});
    assert Image(0, {ENTRY})[0] == 0x40 && Image(0, {ENTRY})[SLOT] == 0;
  }

  /** The user's breakpoint is taken out again. */
  method TakeOut(deferred: DeferredBreakpoints, user: nat)
    requires Staged(deferred) && Scene(deferred.debugger.View(), map[ENTRY := Hidden(user, ENTRY, true)], None, 1, 1)
    requires deferred.debugger.active.ids == map[user := ENTRY]
    modifies deferred.debugger, deferred.debugger.kernel
    ensures Staged(deferred) && deferred.Memory() == old(deferred.Memory())
    ensures Scene(deferred.debugger.View(), map[], None, 1, 1) && deferred.debugger.active.ids == map[]
  {
    hide Sane, LeadsInto, Ledger, WorldOf, MovingLoader;
    ghost var s := deferred.debugger.View();
    var _ := deferred.Disarm(user, Code());
    var table: Table := map[ENTRY := Hidden(user, ENTRY, true)];
    assert table - {ENTRY} == map[] && Installed(table) == {ENTRY} && Installed(map[]) == {};
    assert Image(1, {ENTRY})[ENTRY := 0x40] == Image(1, {});
    assert map[user := ENTRY] - {user} == map[];
  }

  /** Another request is accepted: the loader has come up, and is watched at address 3. */
  method AskAgain(deferred: DeferredBreakpoints) returns (first: nat)
    requires Staged(deferred) && Scene(deferred.debugger.View(), map[], None, 1, 1) && deferred.debugger.active.ids == map[]
    requires Unmonitored(deferred.Memory()) && deferred.requests == map[]
    modifies deferred, deferred.debugger, deferred.debugger.kernel
    ensures Staged(deferred) && deferred.loaderId == Some(first) && deferred.bootstrapId.None?
    ensures deferred.bootstrapAddress == old(deferred.bootstrapAddress)
    ensures deferred.requests != map[] && forall i :: i in deferred.requests ==> deferred.requests[i].breakpoint.None?
    ensures Scene(deferred.debugger.View(), map[3 := Hidden(first, 3, true)], None, 1, 1)
    ensures deferred.debugger.active.ids == map[first := 3] && first < deferred.debugger.nextBreakpointId
  {
    hide Sane, LeadsInto, Ledger, WorldOf, Unclaimed, Scene, LoaderReady;
    ghost var m, at := deferred.Now(), deferred.nextRequestId;
    LoaderIsUp(m, at);
    var request := deferred.AddTarget(SymbolTarget("other"), Code());
    first := deferred.loaderId.value;
    NowWatched(m, at, deferred.Now());
  }

  lemma LoaderIsUp(m: Moment, at: nat)
    requires Scene(m.view, map[], None, 1, 1) && Unmonitored(m.desk) && m.desk.requests == map[] && m.policy == FollowParent
    ensures var m' := With(MovingLoader(), m, SymbolTarget("other"), at);
            && Admitted(MovingLoader(), m, SymbolTarget("other")) && Unmonitored(m'.desk)
            && LoaderReady(MovingLoader(), m') && BreakAt(MovingLoader(), m') == Some(3)
            && m'.view == m.view && m'.desk.requests == map[at := Request(SymbolTarget("other"), None, None)]
            && m'.desk.bootstrapAddress == m.desk.bootstrapAddress
  {
    assert SLOT !in Installed(map[]) && m.view.tasks[1].cpu.mem[SLOT] == 1;
    ImageIsMapped(1, Installed(map[]));
    hide Mapped;
  }

  lemma NowWatched(m: Moment, at: nat, m': Moment)
    requires Scene(m.view, map[], None, 1, 1) && Unmonitored(m.desk) && m.desk.requests == map[] && m.policy == FollowParent
    requires m.view.active.ids == map[] && Watches(MovingLoader(), With(MovingLoader(), m, SymbolTarget("other"), at), m')
    ensures Scene(m'.view, map[3 := Hidden(m.view.nextId, 3, true)], None, 1, 1) && m'.desk.loaderId == Some(m.view.nextId)
    ensures m'.view.active.ids == map[m.view.nextId := 3] && m'.view.nextId == m.view.nextId + 1
    ensures m'.desk.bootstrapId.None? && m'.desk.bootstrapAddress == m.desk.bootstrapAddress
    ensures m'.desk.requests == map[at := Request(SymbolTarget("other"), None, None)]
  {
    LoaderIsUp(m, at);
    SceneArmed(m.view, map[], 1, 1, 3, m.view.nextId);
    hide LoaderReady, Scene;
    assert map[][3 := Hidden(m.view.nextId, 3, true)] == map[3 := Hidden(m.view.nextId, 3, true)];
  }

  function Both(first: nat, mine: nat): Table {
    map[3 := Hidden(first, 3, true)][ENTRY := Hidden(mine, ENTRY, true)]
  }

  /** The program comes to the entry point. */
  lemma EntryIsHit(s: State, now: nat, s': State, r: Result<StopInfo>, first: nat, mine: nat)
    requires Scene(s, Both(first, mine), None, 1, 1) && FirstReport(Drives, s, Suppress, now, s', r)
    ensures Scene(s', Both(first, mine)[ENTRY := Hidden(mine, ENTRY, false)], Some(Pending(ENTRY, 1)), 2, ENTRY)
    ensures r.Ok? && r.value.reason == BreakpointHit && r.value.address == Some(ENTRY)
    ensures s'.active.ids == s.active.ids
  {
    var c, after := s.tasks[1].cpu, Both(first, mine)[ENTRY := Hidden(mine, ENTRY, false)];
    assert Installed(Both(first, mine)) == {ENTRY, 3} && Installed(after) == {3};
    assert Image(1, {ENTRY, 3})[SLOT := 2][ENTRY := 0x40] == Image(2, {3});
    assert c.mem[SLOT] == 1 && c.mem[1] == 0x40 && c.mem[ENTRY] == INT3;
    assert Next(c) == c.(rip := ENTRY, mem := c.mem[SLOT := 2]) && FetchesTrap(Next(c));
  }

  /** By then the loader reports changes elsewhere. */
  lemma LoaderHasMoved(m: Moment, first: nat, mine: nat)
    requires Scene(m.view, Both(first, mine)[ENTRY := Hidden(mine, ENTRY, false)], Some(Pending(ENTRY, 1)), 2, ENTRY)
    requires m.policy == FollowParent
    ensures LoaderReady(MovingLoader(), m) && BreakAt(MovingLoader(), m) == Some(4)
  {
    var after := Both(first, mine)[ENTRY := Hidden(mine, ENTRY, false)];
    assert Installed(after) == {3} && m.view.tasks[1].cpu.mem[SLOT] == 2;
    ImageIsMapped(2, {3});
    hide Mapped;
  }

  lemma FirstTurn(t: Turn, first: nat, mine: nat)
    requires TurnMeans(MovingLoader(), t)
    requires FirstReport(Drives, t.before.view, Suppress, t.before.now, t.at.view, t.stop)
    requires Scene(t.before.view, Both(first, mine), None, 1, 1) && t.before.policy == FollowParent
    requires t.before.desk.loaderId == Some(first) && first in t.before.view.active.ids
    requires t.before.desk.bootstrapId.None? && t.before.desk.bootstrapAddress == Some(ENTRY)
    ensures t.stop.Ok? && !Replaced(t.stop.value) && t.result == Ok(None) && LostAt(MovingLoader(), t) == {first}
    ensures t.after.desk.bootstrapAddress.None? && t.after.view.active.process == Process(1, Launched, Stopped)
    ensures t.after.view.active.pending == Some(Pending(ENTRY, 1))
    ensures 1 in t.after.view.tasks && SLOT in t.after.view.tasks[1].cpu.mem && t.after.view.tasks[1].cpu.mem[SLOT] == 2
  {
    EntryIsHit(t.before.view, t.before.now, t.at.view, t.stop, first, mine);
    LoaderHasMoved(t.at, first, mine);
    assert Installed(Both(first, mine)[ENTRY := Hidden(mine, ENTRY, false)]) == {3};
    hide FirstReport, Unclaimed, OthersIds, LoaderReady, CanArm, Both;
  }

  lemma SecondTurn(t: Turn)
    requires TurnMeans(MovingLoader(), t)
    requires FirstReport(Drives, t.before.view, Suppress, t.before.now, t.at.view, t.stop)
    requires t.before.view.active.process == Process(1, Launched, Stopped)
    requires t.before.view.active.pending == Some(Pending(ENTRY, 1))
    requires 1 in t.before.view.tasks && SLOT in t.before.view.tasks[1].cpu.mem && t.before.view.tasks[1].cpu.mem[SLOT] == 2
    ensures t.stop.Ok? && t.stop.value.reason == SignalReceived && t.result == Ok(Some(t.stop.value))
    ensures IsStopped(t.after) && LostAt(MovingLoader(), t) == {}
  {
    OthersWithout(t.at.view, t.at.desk.loaderId, t.at.desk.bootstrapId);
    hide Unclaimed, OthersIds, LoaderReady, CanArm, WithoutInternal;
  }

  /** The user takes the breakpoint at the entry point out, asks again, and sets it again.
      The program then comes to the entry point, while the loader has moved the place where
      it reports changes. The stop is taken for the bootstrap breakpoint's, a second
      breakpoint of the loader's is set, and the first one is never removed: when the call
      returns, the process is stopped, nothing internal is known, and the table holds a
      breakpoint that is neither the user's nor a request's. Every step is a call any
      client may make. */
  method BreakpointIsOrphaned() returns (deferred: DeferredBreakpoints, mine: nat, orphan: nat, r: Result<Option<StopInfo>>)
    ensures deferred.Valid(Code()) && deferred.debugger.IsStopped()
    ensures r.Ok? && r.value.Some? && r.value.value.reason == SignalReceived
    ensures Unmonitored(deferred.Memory()) && orphan != mine && Unowned(deferred.Now()) == {mine, orphan}
  {
    hide Sane, LeadsInto, Ledger, WorldOf, Unclaimed, MovingLoader, TurnMeans, FirstReport, Begins, IsSeries, Reports, Ends,
         OthersIds, LostIn, Ripe;
    deferred, mine, orphan := SetTheTrap();
    ghost var m := deferred.Now();
    ghost var begun, turns;
    r, begun, turns := deferred.ContinueExecution(Suppress, 2, Code());
    TwoTurns(m, begun, turns, deferred.Now(), r, orphan, mine);
  }

  /** All but the last call. */
  method SetTheTrap() returns (deferred: DeferredBreakpoints, mine: nat, orphan: nat)
    ensures fresh(deferred) && fresh(deferred.debugger) && fresh(deferred.debugger.kernel)
    ensures Staged(deferred) && Ripe(deferred.Now(), orphan, mine) && orphan != mine && Unowned(deferred.Now()) == {mine}
    ensures deferred.loaderId.Some?
  {
    hide Sane, LeadsInto, Ledger, WorldOf, Unclaimed, MovingLoader, Scene;
    var user, refused, internal;
    deferred, user, refused, internal := UserStopIsSwallowed();
    RunABit(deferred, user);
    TakeOut(deferred, user);
    orphan := AskAgain(deferred);
    mine := SetOwn(deferred, map[3 := Hidden(orphan, 3, true)], 1, 1);
    OnlyMineIsUnowned(deferred.Now(), orphan, mine);
  }

  lemma OnlyMineIsUnowned(m: Moment, orphan: nat, mine: nat)
    requires m.view.active.ids == map[orphan := 3][mine := ENTRY] && orphan != mine
    requires m.desk.loaderId == Some(orphan) && m.desk.bootstrapId.None?
    requires forall i :: i in m.desk.requests ==> m.desk.requests[i].breakpoint.None?
    ensures Unowned(m) == {mine}
  {
  }

  lemma BegunAtOnce(m: Moment, begun: Moment)
    requires m.desk.loaderId.Some? && m.desk.requests != map[] && Begins(MovingLoader(), m, begun)
    ensures begun == m
  {
    hide MovingLoader, Unclaimed, WorldOf;
  }

  /** The kernel's and the loader's part of a call with patience for two stops. */
  ghost predicate Plays(m: Moment, turns: seq<Turn>, m': Moment, r: Result<Option<StopInfo>>) {
    IsSeries(MovingLoader(), m, turns, m') && Ends(turns, 2, r) && Reports(Drives, Suppress, turns) && IsStopped(m)
  }

  /** The user's breakpoint is set beside the loader's, and the bootstrap address is left over. */
  ghost predicate Ripe(m: Moment, orphan: nat, mine: nat) {
    && Scene(m.view, Both(orphan, mine), None, 1, 1) && m.policy == FollowParent
    && m.desk.loaderId == Some(orphan) && orphan in m.view.active.ids && m.desk.requests != map[]
    && m.desk.bootstrapId.None? && m.desk.bootstrapAddress == Some(ENTRY)
  }

  ghost predicate Stepping(m: Moment) {
    && m.view.active.process == Process(1, Launched, Stopped) && m.view.active.pending == Some(Pending(ENTRY, 1))
    && 1 in m.view.tasks && SLOT in m.view.tasks[1].cpu.mem && m.view.tasks[1].cpu.mem[SLOT] == 2
  }

  lemma FirstOfTwo(m: Moment, turns: seq<Turn>, m': Moment, r: Result<Option<StopInfo>>, orphan: nat, mine: nat)
    requires Plays(m, turns, m', r) && Ripe(m, orphan, mine)
    ensures |turns| > 0 && turns[0].result == Ok(None) && Stepping(turns[0].after)
    ensures turns[0].stop.Ok? && !Replaced(turns[0].stop.value) && LostAt(MovingLoader(), turns[0]) == {orphan}
  {
    hide LostAt, Replaced;
    FirstOfSeries(m, turns, m', r);
    FirstTurn(turns[0], orphan, mine);
  }

  lemma SecondOfTwo(m: Moment, turns: seq<Turn>, m': Moment, r: Result<Option<StopInfo>>)
    requires Plays(m, turns, m', r) && |turns| > 0 && turns[0].result == Ok(None) && Stepping(turns[0].after)
    ensures |turns| == 2 && turns[1].stop.Ok? && !Replaced(turns[1].stop.value) && LostAt(MovingLoader(), turns[1]) == {}
    ensures r.Ok? && r.value.Some? && r.value.value.reason == SignalReceived && IsStopped(m')
  {
    hide LostAt, Replaced;
    SecondOfSeries(m, turns, m', r);
    SecondTurn(turns[1]);
    SignalIsNoReplacement(turns[1].stop.value);
  }

  lemma TwoTurns(m: Moment, begun: Moment, turns: seq<Turn>, m': Moment, r: Result<Option<StopInfo>>, orphan: nat, mine: nat)
    requires Ripe(m, orphan, mine) && Begins(MovingLoader(), m, begun) && IsSeries(MovingLoader(), begun, turns, m')
    requires Ends(turns, 2, r) && Reports(Drives, Suppress, turns)
    ensures r.Ok? && r.value.Some? && r.value.value.reason == SignalReceived
    ensures IsStopped(m') && NoneReplaced(turns) && LostIn(MovingLoader(), turns) == {orphan}
  {
    hide TurnMeans, LostAt, LostIn, Replaced, MovingLoader, FirstReport;
    BegunAtOnce(m, begun);
    FirstOfTwo(m, turns, m', r, orphan, mine);
    SecondOfTwo(m, turns, m', r);
    assert turns == [turns[0], turns[1]];
    LostInTwo(turns[0], turns[1]);
  }

  lemma SignalIsNoReplacement(stop: StopInfo)
    requires stop.reason == SignalReceived
    ensures !Replaced(stop)
  {
  }

  lemma FirstOfSeries(m: Moment, turns: seq<Turn>, m': Moment, r: Result<Option<StopInfo>>)
    requires IsSeries(MovingLoader(), m, turns, m') && Ends(turns, 2, r) && Reports(Drives, Suppress, turns) && IsStopped(m)
    ensures |turns| > 0 && TurnMeans(MovingLoader(), turns[0]) && turns[0].before == m
    ensures FirstReport(Drives, m.view, Suppress, m.now, turns[0].at.view, turns[0].stop)
  {
    hide TurnMeans, FirstReport, MovingLoader;
    assert turns[0].before == StartOf(m, turns, 0);
  }

  lemma SecondOfSeries(m: Moment, turns: seq<Turn>, m': Moment, r: Result<Option<StopInfo>>)
    requires IsSeries(MovingLoader(), m, turns, m') && Ends(turns, 2, r) && Reports(Drives, Suppress, turns)
    requires |turns| > 0 && turns[0].result == Ok(None) && IsStopped(turns[0].after)
    ensures |turns| == 2 && TurnMeans(MovingLoader(), turns[1]) && turns[1].before == turns[0].after
    ensures m' == turns[1].after && r == turns[1].result
    ensures FirstReport(Drives, turns[1].before.view, Suppress, turns[1].before.now, turns[1].at.view, turns[1].stop)
  {
    hide TurnMeans, FirstReport, MovingLoader;
    assert |turns| == 2;
    assert turns[1].before == StartOf(m, turns, 1);
  }

  lemma LostInTwo(t: Turn, u: Turn)
    ensures LostIn(MovingLoader(), [t, u]) == LostAt(MovingLoader(), t) + LostAt(MovingLoader(), u)
  {
    hide LostAt;
    assert [t, u][..1] == [t] && [t][..0] == [];
    assert LostIn(MovingLoader(), []) == {};
    assert LostIn(MovingLoader(), [t]) == LostAt(MovingLoader(), t);
  }

  // ----- requests and their breakpoints -----

  /** A request whose breakpoint has left the table, as every breakpoint does in an exec,
      while its target still resolves to the same address: however it is reconciled, it
      claims a breakpoint that is not there. */
  lemma RequestIsOverlooked()
    ensures var q := Request(SymbolTarget("plugin"), Some(4), Some(1));
            && Held(q, map[1 := 4]) && Overlooked(q, map[], Some(4))
            && forall q', ids :: Converged(q, map[], Some(4), q', ids) ==> q'.breakpoint.Some? && !Held(q', ids)
  {
  }

  /** The same happens whenever the user removes the breakpoint of a request. */
  method RemovedIsOverlooked(deferred: DeferredBreakpoints, id: nat, ghost code: set<int>) returns (r: Result<()>)
    requires deferred.Valid(code) && deferred.debugger.IsStopped() && id in deferred.requests
    requires Held(deferred.requests[id], deferred.debugger.active.ids)
    requires deferred.Resolve(deferred.requests[id].target) == Ok(deferred.requests[id].address)
    modifies deferred, deferred.debugger, deferred.debugger.kernel
    ensures r.Ok? ==>
      && id in deferred.requests && deferred.requests[id].breakpoint.Some?
      && !Held(deferred.requests[id], deferred.debugger.active.ids)
  {
    hide Ledger, LeadsInto, Sane, Requested, WorldOf, Stale, PatchedWorld;
    var removed := deferred.Disarm(deferred.requests[id].breakpoint.value, code);
    ghost var m := deferred.Now();
    ghost var n;
    r, n := deferred.ReconcileRequests(code);
    assert r.Ok? ==> IsConverged(deferred.loader, m, deferred.Now(), id);
  }

  /** A request whose target has moved while its old code is still mapped: its breakpoint
      is forgotten, and the INT3 is the program's now. */
  method MovedLeavesInt3(deferred: DeferredBreakpoints, id: nat, ghost code: set<int>) returns (r: Result<()>)
    requires deferred.Valid(code) && deferred.debugger.IsStopped() && id in deferred.requests
    requires Held(deferred.requests[id], deferred.debugger.active.ids)
    requires deferred.requests[id].address.value in deferred.debugger.active.table
    requires deferred.debugger.active.table[deferred.requests[id].address.value].installed
    requires deferred.debugger.active.table[deferred.requests[id].address.value].original != INT3
    requires deferred.Resolve(deferred.requests[id].target).Ok?
    requires deferred.Resolve(deferred.requests[id].target).value != deferred.requests[id].address
    modifies deferred, deferred.debugger, deferred.debugger.kernel
    ensures old(deferred.debugger.Pid() in deferred.debugger.kernel.tasks)
    ensures deferred.debugger.Pid() in deferred.debugger.kernel.tasks
    ensures r.Ok? ==>
      var a := old(deferred.requests)[id].address.value;
      && a in old(deferred.debugger.Program()).mem && old(deferred.debugger.Program()).mem[a] != INT3
      && a in deferred.debugger.Program().mem && deferred.debugger.Program().mem[a] == INT3
  {
    hide Ledger, LeadsInto, Requested, WorldOf, PatchedWorld, Consistent, Logical, Stale, Discreet, Unclaimed;
    ghost var m, a := deferred.Now(), deferred.requests[id].address.value;
    ItsAddressIsStale(deferred.loader, m, id);
    ActiveProgram(m.view, m.policy);
    OriginalIsTheProgram(m.view, a);
    ghost var n;
    r, n := deferred.ReconcileRequests(code);
    ActiveProgram(deferred.debugger.View(), deferred.debugger.policy);
    if r.Ok? {
      StaleIsBelow(deferred.loader, m, id, n);
      PatchShows(WorldOf(m.view, m.policy), StaleBelow(deferred.loader, m, n), a);
    }
  }

  lemma ItsAddressIsStale(loader: Loader, m: Moment, id: nat)
    requires id in m.desk.requests && Held(m.desk.requests[id], m.view.active.ids)
    requires m.desk.requests[id].address.value in m.view.active.table
    requires m.view.active.table[m.desk.requests[id].address.value].installed
    requires loader.resolve(m.desk.requests[id].target, m.now).Ok?
    requires loader.resolve(m.desk.requests[id].target, m.now).value != m.desk.requests[id].address
    ensures m.desk.requests[id].address.value in Stale(loader, m, id)
  {
  }

  lemma OriginalIsTheProgram(s: State, a: int)
    requires Consistent(s) && s.active.process.state == Stopped && a in s.active.table
    ensures s.active.process.pid in s.tasks
    ensures a in ProgramOf(s).mem && ProgramOf(s).mem[a] == s.active.table[a].original
  {
    StoppedIsActive(s);
    SavedBytesAreLogical(s.active, ActiveTask(s));
    hide Consistent, Sound, Logical;
  }

  lemma PatchShows(w: World, addresses: set<int>, a: int)
    requires w.pid in w.programs && a in addresses && a in w.programs[w.pid].cpu.mem
    ensures var w' := PatchedWorld(w, addresses);
            w'.pid == w.pid && w.pid in w'.programs && a in w'.programs[w.pid].cpu.mem && w'.programs[w.pid].cpu.mem[a] == INT3
  {
  }

  /** A request with its breakpoint at address 0, while its target is at address 4 now. */
  function MovedRequest(): Moment {
    Moment(Desk(map[1 := Request(SymbolTarget("plugin"), Some(0), Some(1))], None, None, None, None, None),
           FailingInputs.SessionAt(3), FollowParent, 0)
  }

  function Elsewhere(): Loader {
    MovingLoader().(resolve := (target, now) => Ok(Some(4)))
  }

  /** Such a session: the program had another byte there, and has an INT3 afterwards. */
  lemma MovedTargetIsSeen()
    ensures var m := MovedRequest();
            && Consistent(m.view) && IsStopped(m) && m.view.active.process.pid !in m.view.retained
            && StaleBelow(Elsewhere(), m, 2) == {0}
            && PatchedWorld(WorldOf(m.view, m.policy), StaleBelow(Elsewhere(), m, 2)) != WorldOf(m.view, m.policy)
  {
    hide Consistent, WorldOf, PatchedWorld;
    var m := MovedRequest();
    FailingInputs.SessionIsConsistent(3);
    assert Stale(Elsewhere(), m, 0) == {} && Stale(Elsewhere(), m, 1) == {0};
    assert StaleBelow(Elsewhere(), m, 0) == {} && StaleBelow(Elsewhere(), m, 1) == {};
    assert StaleBelow(Elsewhere(), m, 2) == {0};
    StaleUnseenIff(Elsewhere(), m, 2);
    assert m.view.active.table[0].original == 0x40;
  }
}
