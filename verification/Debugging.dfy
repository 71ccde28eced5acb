/** The breakpoint state machine and the process domains it is spread over. */
module Debugging {
  import opened Base
  import opened Tracee
  import opened Overlay
  import opened Kernel
  import opened Session
  import opened Outcomes
  import opened Mutation
  import opened Commands
  import opened Resuming

  class Debugger {
    const kernel: Machine
    var active: Domain
    var retained: map<nat, Domain>
    var policy: FollowPolicy
    var nextBreakpointId: nat
    var nextWatchpointId: nat

    /** The logical states the active program has gone through since it was last
        changed from outside. */
    ghost var trace: seq<Cpu>

    /** Why the last resumption ended in a SIGTRAP, if it did. */
    ghost var why: Why

    /** How many foreign SIGTRAPs have been taken for breakpoint hits. */
    ghost var misreads: nat

    // ----- invariants -----

    ghost function View(): State
      reads this, kernel
    {
      State(active, retained, nextBreakpointId, kernel.tasks)
    }

    /** The tables and the processes agree. */
    ghost predicate Coherent()
      reads this, kernel
    {
      kernel.Lawful() && Consistent(View())
    }

    /** And so do the run so far and the program. */
    ghost predicate Valid()
      reads this, kernel
    {
      Coherent() && Faithful()
    }

    function Pid(): nat
      reads this
    {
      active.process.pid
    }

    predicate IsStopped()
      reads this
    {
      active.process.state == Stopped
    }

    /** The active program as it would be with no debugger attached. */
    ghost function Program(): Cpu
      requires Pid() in kernel.tasks
      reads this, kernel
    {
      ProgramOf(View())
    }

    /** The states so far are a run of the undebugged program that ends in the
        present state. */
    ghost predicate Faithful()
      reads this, kernel
    {
      FaithfulTo(kernel.moves, trace, View())
    }

    /** The program stands at the breakpoint whose displaced step is pending. */
    ghost predicate AtPending()
      reads this, kernel
    {
      AtPendingStep(View())
    }

    /** A freshly launched or attached process: nothing armed, nothing retained. */
    constructor (kernel: Machine, pid: nat, origin: Origin)
      requires kernel.Lawful() && pid in kernel.tasks
      ensures Valid() && AtPending()
      ensures this.kernel == kernel && policy == FollowParent && retained == map[]
      ensures active == Domain(Process(pid, origin, Stopped), active.stop, map[], map[], map[], None, None, None)
      ensures nextBreakpointId == 1 && nextWatchpointId == 1
      ensures trace == [kernel.tasks[pid].cpu]
    {
      this.kernel := kernel;
      var stop := if origin == Launched then Stop(InitialExec, SIGTRAP, pid) else Stop(AttachedStop, 19, pid);
      active := Domain(Process(pid, origin, Stopped), stop, map[], map[], map[], None, None, None);
      retained, policy := map[], FollowParent;
      nextBreakpointId, nextWatchpointId := 1, 1;
      trace, why, misreads := [kernel.tasks[pid].cpu], NoTrap, 0;
      new;
      RestoreNone(kernel.tasks[pid].cpu);
      assert Saved(active.table) == map[];
    }

    // ----- the breakpoint table -----

    method AddBreakpoint(address: int) returns (r: Result<nat>)
      requires Valid()
      modifies this, kernel
      ensures Valid() && (old(AtPending()) ==> AtPending())
      ensures unchanged(this`retained, this`policy, this`nextWatchpointId, this`trace, this`why, this`misreads, kernel`clock)
      ensures r.Ok? <==>
        && !(old(policy) == FollowBoth && old(retained) == map[])
        && old(IsStopped())
        && address !in old(active.table)
        && old(Pid() in kernel.tasks && Mapped(kernel.tasks[Pid()].cpu.mem, address, WORD))
      ensures r.Err? ==> unchanged(this, kernel)
      ensures r.Ok? ==>
        && r.value == old(nextBreakpointId) && nextBreakpointId == r.value + 1
        && Pid() in old(kernel.tasks) && address in old(kernel.tasks[Pid()]).cpu.mem
        && active == ArmedDomain(old(active), address, r.value, old(kernel.tasks[Pid()]).cpu.mem[address])
        && kernel.tasks == old(kernel.tasks)[Pid() := StoredTask(old(kernel.tasks[Pid()]), address, INT3)]
        && Program() == old(Program())
    {
      hide Consistent, Mapped, Logical;
      if policy == FollowBoth && retained == map[] {
        return Err(LogicError);
      }
      if active.process.state != Stopped {
        return Err(LogicError);
      }
      if address in active.table {
        return Err(InvalidArgument);
      }
      var pid := active.process.pid;
      StoppedIsActive(View());
      var mem := kernel.tasks[pid].cpu.mem;
      if !Mapped(mem, address, WORD) {
        return Err(PtraceError);
      }
      ArmingKeepsConsistent(View(), address);
      ReadByteIsTheByte(mem, address);
      var original := ReadByte(mem, address);
      kernel.Poke(pid, address, INT3);
      var id := nextBreakpointId;
      nextBreakpointId := nextBreakpointId + 1;
      active := active.(table := active.table[address := Breakpoint(id, address, original, true)],
                        ids := active.ids[id := address]);
      return Ok(id);
    }

    method RemoveBreakpoint(id: nat) returns (found: bool)
      requires Valid()
      modifies this, kernel
      ensures Valid() && (old(AtPending()) ==> AtPending())
      ensures unchanged(this`retained, this`policy, this`nextBreakpointId, this`nextWatchpointId, this`trace, this`why,
                        this`misreads, kernel`clock)
      ensures found <==> id in old(active.ids)
      ensures !found ==> unchanged(this, kernel)
      ensures found ==> old(IsStopped() ==> Pid() in kernel.tasks) && View() == Removed(old(View()), id)
      ensures old(IsStopped()) ==> old(Pid() in kernel.tasks) && Pid() in kernel.tasks && Program() == old(Program())
    {
      hide Consistent, Mapped, Logical, IsRun;
      if active.process.state == Stopped {
        StoppedIsActive(View());
      }
      if id !in active.ids {
        return false;
      }
      RemovingKeepsConsistent(View(), id);
      var address := active.ids[id];
      var pid := active.process.pid;
      if active.process.state == Stopped {
        if address in active.table && active.table[address].installed {
          kernel.Poke(pid, address, active.table[address].original);
        } else {
          Rewritten(kernel.tasks, pid);
        }
      }
      if active.pending.Some? && active.pending.value.address == address {
        active := active.(pending := None);
      }
      active := active.(table := active.table - {address}, ids := active.ids - {id});
      return true;
    }

    /** Forgets a breakpoint whose code is taken to be gone, without writing. */
    method DiscardBreakpoint(id: nat) returns (found: bool)
      requires Valid()
      modifies this`active, this`trace
      ensures Valid() && (old(AtPending()) ==> AtPending())
      ensures found <==> id in old(active.ids)
      ensures active == if found then ErasedDomain(old(active), id) else old(active)
      ensures !found ==> unchanged(this)
      ensures old(IsStopped()) ==> Pid() in kernel.tasks && (found ==> old(active.ids)[id] in old(active.table))
      ensures found && old(IsStopped()) ==>
        var breakpoint := old(active.table)[old(active.ids)[id]];
        Program() == old(Program()) <==> !breakpoint.installed || breakpoint.original == INT3
    {
      hide Consistent, Logical, IsRun;
      if id !in active.ids {
        if active.process.state == Stopped {
          StoppedIsActive(View());
        }
        return false;
      }
      if active.process.state == Stopped {
        DiscardingKeepsConsistent(View(), id);
      } else {
        RemovingKeepsConsistent(View(), id);
      }
      var address := active.ids[id];
      if active.pending.Some? && active.pending.value.address == address {
        active := active.(pending := None);
      }
      active := active.(table := active.table - {address}, ids := active.ids - {id});
      if active.process.state == Stopped {
        OneState(kernel.moves, Program());
        trace := [Program()];
      }
      return true;
    }

    // ----- stops -----

    /** Slot 0 is disabled while its registers are being exchanged. */
    method LoadDebugRegisters(pid: nat, wanted: DebugRegisters)
      requires pid in kernel.tasks
      modifies kernel`tasks
      ensures kernel.tasks == old(kernel.tasks)[pid := old(kernel.tasks[pid]).(debug := wanted)]
    {
      kernel.SetDebugControl(pid, DisabledControl(kernel.tasks[pid].debug.dr7));
      kernel.SetDebugAddress(pid, wanted.dr0);
      kernel.SetDebugStatus(pid, wanted.dr6);
      kernel.SetDebugControl(pid, wanted.dr7);
    }

    method PrepareBreakpointHit(address: nat)
      requires Pid() in kernel.tasks && address in active.table && Mapped(kernel.tasks[Pid()].cpu.mem, address, WORD)
      modifies this`active, kernel`tasks
      ensures active == HitDomain(old(active), address)
      ensures kernel.tasks == old(kernel.tasks)[old(Pid()) := RepairedTask(old(active), old(kernel.tasks[Pid()]), address)]
    {
      hide Mapped;
      var pid := active.process.pid;
      kernel.SetRip(pid, address);
      kernel.Poke(pid, address, active.table[address].original);
      active := active.(table := active.table[address := active.table[address].(installed := false)]);
      active := active.(pending := Some(Pending(address, pid)));
    }

    method ClassifyWatchpointStop() returns (reported: bool)
      requires Pid() in kernel.tasks
      modifies this`active, kernel`tasks
      ensures reported == old(WatchReported(active, kernel.tasks[Pid()]))
      ensures !reported ==> unchanged(this, kernel)
      ensures reported ==>
        && active == old(active).(stop := WatchStop(old(active)))
        && kernel.tasks == old(kernel.tasks)[old(Pid()) := Acknowledged(old(kernel.tasks[Pid()]))]
    {
      var pid := active.process.pid;
      if active.watchpoint.None? || active.snapshot.None? || active.snapshot.value.tid != pid {
        return false;
      }
      var dr6 := kernel.tasks[pid].debug.dr6;
      if dr6 & DR6_SLOT0 == 0 {
        return false;
      }
      kernel.SetDebugStatus(pid, dr6 & !DR6_SLOT0);
      active := active.(stop := Stop(WatchpointHit, SIGTRAP, pid).(
                          watchpoint := Some(active.watchpoint.value.id),
                          address := Some(active.watchpoint.value.address)));
      return true;
    }

    method ClassifyTrap(stepping: bool)
      requires Pid() in kernel.tasks && Overlaid(kernel.tasks[Pid()].cpu.mem, active.table)
      modifies this`active, kernel`tasks
      ensures active == Classify(old(active), old(kernel.tasks[Pid()]), stepping).0
      ensures kernel.tasks == old(kernel.tasks)[old(Pid()) := Classify(old(active), old(kernel.tasks[Pid()]), stepping).1]
    {
      hide Mapped, HitDomain, RepairedTask, WatchReported, WatchStop, Acknowledged;
      var pid := active.process.pid;
      ghost var before := kernel.tasks;
      var reported := ClassifyWatchpointStop();
      if reported {
        return;
      }
      assert before == before[pid := before[pid]];
      if stepping {
        active := active.(stop := Stop(SingleStepped, SIGTRAP, pid));
        return;
      }
      var rip := kernel.tasks[pid].cpu.rip;
      if rip > 0 && rip - 1 in active.table && active.table[rip - 1].installed {
        PrepareBreakpointHit(rip - 1);
        active := active.(stop := Stop(BreakpointHit, SIGTRAP, pid).(address := Some(rip - 1)));
        return;
      }
      active := active.(stop := Stop(TrapStop, SIGTRAP, pid));
    }

    // ----- process events -----

    /** Exchanges the active domain with a retained one. */
    method SwapActive(pid: nat)
      requires pid in retained && Pid() !in retained
      modifies this`active, this`retained
      ensures active == old(retained)[pid]
      ensures retained == (old(retained) - {pid})[old(Pid()) := old(active)]
    {
      var previous := active;
      active := retained[pid];
      retained := (retained - {pid})[previous.process.pid := previous];
    }

    /** The retained process with the smallest pid: all of them are stopped. */
    method FirstStoppedRetained() returns (survivor: Option<nat>)
      requires forall p :: p in retained ==> retained[p].process.state == Stopped
      ensures survivor.None? <==> retained == map[]
      ensures survivor.Some? ==> survivor.value in retained && forall p :: p in retained ==> survivor.value <= p
    {
      survivor := None;
      var todo := retained.Keys;
      while todo != {}
        invariant todo <= retained.Keys
        invariant survivor.None? ==> todo == retained.Keys
        invariant survivor.Some? ==> survivor.value in retained
        invariant survivor.Some? ==> forall p :: p in retained && p !in todo ==> survivor.value <= p
        decreases |todo|
      {
        var p :| p in todo;
        if retained[p].process.state == Stopped && (survivor.None? || p < survivor.value) {
          survivor := Some(p);
        }
        todo := todo - {p};
      }
    }

    method MarkEnded(state: ProcessState)
      modifies this`active
      ensures active == Ended(old(active), state)
    {
      var pid := active.process.pid;
      active := active.(process := active.process.(state := state), signals := active.signals - {pid});
      if active.snapshot.Some? && active.snapshot.value.tid == pid {
        active := active.(watchpoint := None, snapshot := None);
      }
    }

    /** The active process, which is gone, is replaced by a retained one. */
    method HandOver(survivor: nat, terminal: StopInfo)
      requires survivor in retained && Pid() !in retained && retained[survivor].process.pid == survivor
      requires Pid() !in kernel.tasks && survivor in kernel.tasks
      modifies this`active, this`retained, this`trace
      ensures HandedOver(old(View()), View())
      ensures active == old(retained)[survivor].(stop := terminal) && retained == old(retained) - {survivor}
      ensures trace == [Program()]
    {
      hide Logical;
      var terminalPid := active.process.pid;
      active := active.(stop := terminal);
      ExchangedThenErased(retained, terminalPid, active, survivor);
      SwapActive(survivor);
      retained := retained - {terminalPid};
      active := active.(stop := terminal);
      assert kernel.tasks - {terminalPid} == kernel.tasks;
      trace := [Program()];
    }

    /** The active process is gone; a retained one takes over if there is any. */
    method HandleEnd(state: ProcessState, value: int)
      requires state == Exited || state == Signaled
      requires kernel.Lawful() && Registry(View()) && Pid() !in kernel.tasks
      modifies this`active, this`retained, this`trace
      ensures Coherent()
      ensures old(retained) == map[] ==>
        && active == Ended(old(active), state).(stop := Stop(if state == Exited then ExitedStop else SignaledStop,
                                                             value, old(Pid())))
        && retained == map[] && trace == old(trace)
      ensures old(retained) != map[] ==>
        && HandedOver(old(View()), View())
        && active.stop == Stop(if state == Exited then ProcessExited else ProcessSignaled, value, old(Pid()))
        && IsStopped() && Pid() in kernel.tasks && trace == [Program()]
    {
      hide Registry, Consistent, Logical, Ended, HandedOver;
      RetainedAreTasks(View());
      ghost var s := View();
      var pid := active.process.pid;
      EndedIsTerminal(active, state);
      MarkEnded(state);
      var survivor := FirstStoppedRetained();
      if survivor.Some? {
        var terminal := Stop(if state == Exited then ProcessExited else ProcessSignaled, value, pid);
        HandOverKeepsConsistent(s, survivor.value, terminal);
        HandedOverFrom(View(), s, survivor.value, terminal);
        HandOver(survivor.value, terminal);
        return;
      }
      active := active.(stop := Stop(if state == Exited then ExitedStop else SignaledStop, value, pid));
      EndKeepsConsistent(s, active);
    }

    /** The image was replaced: all that was known about the old one is dropped. */
    method HandleExec()
      requires kernel.Lawful() && Registry(View()) && Pid() in kernel.tasks
      modifies this`active, this`trace
      ensures Coherent()
      ensures active == WithoutImage(old(active)).(process := old(active).process.(state := Stopped),
                                                   stop := Stop(ExecStopped, SIGTRAP, Pid()))
      ensures trace == [Program()] && Program() == kernel.tasks[Pid()].cpu
    {
      hide Consistent, Registry, Logical;
      ExecKeepsConsistent(View(), Stop(ExecStopped, SIGTRAP, Pid()));
      active := active.(process := active.process.(state := Stopped));
      active := active.(table := map[], ids := map[], pending := None, watchpoint := None, snapshot := None,
                        signals := map[]);
      active := active.(stop := Stop(ExecStopped, SIGTRAP, active.process.pid));
      trace := [Program()];
    }

    /** Gives a task that forked, or its child, the program's own bytes and registers. */
    method GiveBack(pid: nat)
      requires pid in kernel.tasks
      requires forall a :: a in Saved(active.table) ==> Mapped(kernel.tasks[pid].cpu.mem, a, WORD)
      modifies kernel`tasks
      ensures kernel.tasks == old(kernel.tasks)[pid := Released(active, old(kernel.tasks[pid]))]
    {
      hide Mapped, Lift, Saved;
      ghost var task := kernel.tasks[pid];
      kernel.RestoreBytes(pid, Saved(active.table));
      if active.snapshot.Some? && active.snapshot.value.tid == active.process.pid {
        LoadDebugRegisters(pid, active.snapshot.value.debug);
        Overwritten(old(kernel.tasks), pid, task.(cpu := Lift(task.cpu, Saved(active.table))), kernel.tasks[pid]);
      }
    }

    /** The fork child is released. */
    method ReleaseChild(child: nat)
      requires Coherent() && IsStopped() && Pid() in kernel.tasks
      requires child in kernel.tasks && child !in retained && child != Pid()
      requires kernel.tasks[child].cpu.mem == kernel.tasks[Pid()].cpu.mem
      modifies this`active, kernel`tasks
      ensures Coherent() && Pid() == old(Pid())
      ensures active == old(active).(stop := ForkReport(Pid(), child, Pid(), false))
      ensures kernel.tasks == old(kernel.tasks)[child := Released(old(active), old(kernel.tasks[child]))]
      ensures Program() == old(Program())
    {
      StoppedIsActive(View());
      hide Consistent, Mapped, Logical, Released;
      var pid := active.process.pid;
      var report := ForkReport(pid, child, pid, false);
      ReleasingKeepsConsistent(View(), child, Released(active, kernel.tasks[child]), report);
      GiveBack(child);
      active := active.(stop := report);
    }

    /** The child gets the armed debug registers, without a stale report. */
    method HandDownWatchpoint(child: nat)
      requires Pid() in kernel.tasks && child in kernel.tasks
      requires active.snapshot.Some? ==> active.snapshot.value.tid == Pid()
      modifies kernel`tasks
      ensures kernel.tasks == old(kernel.tasks)[child := HandedDown(active, old(kernel.tasks[Pid()]),
                                                                    old(kernel.tasks[child]))]
    {
      hide Inherited;
      if active.snapshot.Some? && active.snapshot.value.tid == active.process.pid {
        LoadDebugRegisters(child, Inherited(kernel.tasks[active.process.pid].debug));
      } else {
        Rewritten(kernel.tasks, child);
      }
    }

    method Adopt(child: nat)
      modifies this`active
      requires active.snapshot.Some? ==> active.snapshot.value.tid == Pid()
      ensures active == Adopted(old(active), child).(stop := ForkReport(old(Pid()), child, child, false))
    {
      var pid := active.process.pid;
      var transfer := active.snapshot.Some? && active.snapshot.value.tid == pid;
      active := active.(process := Process(child, active.process.origin, Stopped));
      if transfer {
        active := active.(snapshot := Some(active.snapshot.value.(tid := child)));
      } else {
        active := active.(watchpoint := None, snapshot := None);
      }
      active := active.(signals := map[]);
      active := active.(stop := ForkReport(pid, child, child, false));
    }

    /** The parent is released, and the child becomes the active process with every
        breakpoint and the watchpoint. */
    method FollowTheChild(child: nat)
      requires Coherent() && IsStopped() && Pid() in kernel.tasks
      requires child in kernel.tasks && child !in retained && child != Pid()
      requires kernel.tasks[child].cpu.mem == kernel.tasks[Pid()].cpu.mem
      modifies this`active, this`trace, kernel`tasks
      ensures Coherent() && Pid() == child && IsStopped()
      ensures active == Adopted(old(active), child).(stop := ForkReport(old(Pid()), child, child, false))
      ensures var parent, task := old(kernel.tasks[Pid()]), old(kernel.tasks[child]);
              kernel.tasks == old(kernel.tasks)[old(Pid()) := Released(old(active), parent)][child := HandedDown(old(active), parent, task)]
      ensures Program().mem == old(Program()).mem && trace == [Program()]
    {
      StoppedIsActive(View());
      SnapshotIsOwn(active, kernel.tasks[Pid()]);
      hide Consistent, Mapped, Logical, Sound, Settled, Released, Adopted, HandedDown;
      var pid := active.process.pid;
      ghost var s, parent := View(), Released(active, kernel.tasks[pid]);
      ghost var task := HandedDown(active, kernel.tasks[pid], kernel.tasks[child]);
      HandedDownMemory(active, kernel.tasks[pid], kernel.tasks[child]);
      AdoptingKeepsConsistent(s, child, parent, task, ForkReport(pid, child, child, false));
      AdoptedIsStopped(active, child);
      HandDownWatchpoint(child);
      GiveBack(pid);
      Interchanged(s.tasks, child, task, pid, parent);
      Adopt(child);
      trace := [Program()];
    }

    /** The child is kept beside the active process, stopped, with its watchpoint. */
    method RetainChild(child: nat)
      requires Coherent() && IsStopped() && Pid() in kernel.tasks && active.process.origin == Launched
      requires child in kernel.tasks && child !in retained && child != Pid()
      requires 1 + |retained| < MAX_DOMAINS && active.table == map[] && active.pending.None?
      modifies this`active, this`retained, kernel`tasks
      ensures Coherent() && Pid() == old(Pid())
      ensures active == old(active).(stop := ForkReport(Pid(), child, Pid(), true))
      ensures retained == old(retained)[child := FreshDomain(old(active), child)]
      ensures kernel.tasks == old(kernel.tasks)[child := HandedDown(old(active), old(kernel.tasks[Pid()]),
                                                                    old(kernel.tasks[child]))]
      ensures Program() == old(Program())
    {
      hide Consistent, Mapped, Logical, FreshDomain, HandedDown, Inherited, ForkReport;
      OwnSnapshot(View());
      var pid := active.process.pid;
      var report := ForkReport(pid, child, pid, true);
      ghost var s, task := View(), HandedDown(active, kernel.tasks[pid], kernel.tasks[child]);
      HandedDownMemory(active, kernel.tasks[pid], kernel.tasks[child]);
      ForkBesideKeepsConsistent(s, child, task, report);
      HandDownWatchpoint(child);
      retained := retained[child := FreshDomain(active, child)];
      active := active.(stop := report);
    }

    // ----- resuming -----

    /** The active process was resumed from `before` and has reported `event`. */
    ghost predicate Reporting(before: State, stepping: bool, delivered: int, event: Event, path: seq<Cpu>, cause: Cause)
      reads this, kernel
    {
      && kernel.Lawful() && Consistent(before) && before.active.process.state == Stopped
      && before.active.process.pid in before.tasks
      && Discreet(kernel.moves, before.active.table.Keys) && FaithfulTo(kernel.moves, trace, before)
      && (!stepping ==> before.active.pending.None?)
      && View().(tasks := before.tasks) == before.(active := before.active.(process := before.active.process.(state := Running)))
      && Answers(kernel.moves, before.tasks, before.active.process.pid, stepping, delivered, Reply(kernel.tasks, event),
                 path, cause)
    }

    method OnSignal(signal: int, stepping: bool, ghost delivered: int, ghost before: State, ghost path: seq<Cpu>,
                    ghost cause: Cause)
      requires signal != SIGTRAP
      requires Reporting(before, stepping, delivered, SignalStop(signal), path, cause)
      modifies this`active, this`trace
      ensures before.active.process.pid in kernel.tasks && View() == AfterSignal(before, kernel.tasks, signal, stepping)
      ensures Coherent() && Outcome(before, policy, View(), active.stop)
      ensures Told(kernel.moves, before, old(trace), stepping, delivered != 0, NoTrap, policy, View(), trace,
                   Ok(active.stop))
    {
      hide Told, Consistent, Outcome, Discreet, Answers, Runs, FaithfulTo, Tail, Unarmed, Saved, IsRun, RipArmed;
      AnswerIsSignal(kernel.moves, before, kernel.tasks, stepping, delivered, signal, path, cause);
      SignalKeepsConsistent(kernel.moves, before, kernel.tasks, policy, signal, path, delivered != 0);
      SignalKeepsFaith(kernel.moves, before, kernel.tasks, signal, path, trace, delivered != 0);
      FaithfulIsRun(kernel.moves, trace, before);
      var pid := active.process.pid;
      active := active.(process := active.process.(state := Stopped));
      active := active.(signals := active.signals[pid := signal]);
      active := active.(stop := Stop(SignalReceived, signal, pid));
      ghost var tail := Tail(path, Saved(before.active.table), false);
      ToldByTail(kernel.moves, before, trace, stepping, delivered != 0, NoTrap, policy, View(), tail, Ok(active.stop));
      trace := trace + tail;
    }

    method OnTrap(stepping: bool, ghost delivered: int, ghost before: State, ghost path: seq<Cpu>, ghost cause: Cause)
      requires Reporting(before, stepping, delivered, SignalStop(SIGTRAP), path, cause)
      modifies this`active, this`trace, this`why, this`misreads, kernel`tasks
      ensures before.active.process.pid in old(kernel.tasks)
      ensures View() == AfterSignal(before, old(kernel.tasks), SIGTRAP, stepping)
      ensures Coherent() && Outcome(before, policy, View(), active.stop)
      ensures misreads == old(misreads) + if Misread(why, Ok(active.stop)) then 1 else 0
      ensures Told(kernel.moves, before, old(trace), stepping, delivered != 0, why, policy, View(), trace, Ok(active.stop))
    {
      hide Consistent, Outcome, Discreet, Answers, Runs, Overlaid, RipArmed, ProgramOf, FaithfulTo, Trapped, Tail,
           Unarmed, Saved,
           Classify, Told;
      var pid := active.process.pid;
      AnswerIsTrap(kernel.moves, before, kernel.tasks, stepping, delivered, path, cause);
      ghost var after := kernel.tasks[pid];
      TrapKeepsConsistent(kernel.moves, before, after, policy, stepping, delivered != 0, path, cause);
      TrapIsTold(kernel.moves, before, after, policy, stepping, delivered != 0, path, cause, trace);
      active := active.(process := active.process.(state := Stopped));
      ClassifyTrap(stepping);
      Overwritten(before.tasks, pid, after, kernel.tasks[pid]);
      why := WhyOf(before.active, cause);
      misreads := misreads + if Misread(why, Ok(active.stop)) then 1 else 0;
      trace := TraceAfter(before, stepping, why, View(), trace + Tail(path, Saved(before.active.table), cause.FetchedTrap?));
    }

    /** The active process is stopped in a fork; its child is stopped too. */
    ghost predicate AtFork(before: State, child: nat)
      reads this, kernel
    {
      && before.active.process.pid in before.tasks && before.active.process.state == Stopped
      && ForkedTasks(before, kernel.tasks, child)
      && View() == before.(tasks := kernel.tasks)
      && child !in retained
      && (active.snapshot.Some? ==> active.snapshot.value.tid == Pid())
    }

    method RefuseFork(child: nat, ghost before: State, error: Error) returns (r: Result<StopInfo>)
      requires Coherent() && AtFork(before, child)
      modifies kernel`tasks
      ensures Coherent() && r == Err(error) && kernel.tasks == old(kernel.tasks) - {child}
      ensures Pid() in kernel.tasks && kernel.tasks[Pid()] == old(kernel.tasks[Pid()])
      ensures old(Faithful()) ==> Faithful()
    {
      hide Consistent, FaithfulTo, ForkedTasks;
      ForkedTasksHave(before, kernel.tasks, child);
      DroppingChildKeepsConsistent(kernel.moves, View(), child, trace);
      kernel.Kill(child);
      return Err(error);
    }

    method ForkKeepingBoth(child: nat, ghost before: State) returns (r: Result<StopInfo>)
      requires Coherent() && AtFork(before, child) && policy == FollowBoth
      modifies this`active, this`retained, kernel`tasks
      ensures Coherent() && (old(Faithful()) ==> Faithful())
      ensures Pid() == old(Pid()) && Pid() in kernel.tasks && kernel.tasks[Pid()] == old(kernel.tasks[Pid()])
      ensures r.Err? <==> RefusesFork(before, FollowBoth)
      ensures r.Err? ==>
        active == before.active && retained == before.retained && kernel.tasks == old(kernel.tasks) - {child}
      ensures r.Ok? ==> r.value == active.stop && Outcome(before, FollowBoth, View(), active.stop)
      ensures r.Ok? ==> active.stop.forked.Some? && active.stop.reason == TrapStop && Pid() in kernel.tasks
    {
      hide Consistent, Outcome, FaithfulTo, ProgramOf, ForkedTasks, FreshDomain, HandedDown;
      ghost var mid := View();
      ForkedTasksHave(before, kernel.tasks, child);
      if active.process.origin != Launched || 1 + |retained| >= MAX_DOMAINS {
        r := RefuseFork(child, before, RuntimeError);
        return;
      }
      if active.table != map[] || active.pending.Some? {
        r := RefuseFork(child, before, LogicError);
        return;
      }
      RetainChild(child);
      RetainingIsForking(before, mid, View(), child);
      SameProgramKeepsFaith(kernel.moves, trace, mid, View());
      return Ok(active.stop);
    }

    method ForkFollowingChild(child: nat, ghost before: State) returns (r: Result<StopInfo>)
      requires Coherent() && AtFork(before, child) && policy == FollowChild
      modifies this`active, this`trace, kernel`tasks
      ensures Coherent()
      ensures r.Err? <==> RefusesFork(before, FollowChild)
      ensures r.Err? ==>
        && active == before.active && kernel.tasks == old(kernel.tasks) - {child} && trace == old(trace)
        && (old(Faithful()) ==> Faithful())
      ensures r.Err? ==> Pid() in kernel.tasks && kernel.tasks[Pid()] == old(kernel.tasks[Pid()])
      ensures r.Ok? ==> r.value == active.stop && Outcome(before, FollowChild, View(), active.stop)
      ensures r.Ok? ==>
        && active.stop.forked.Some? && active.stop.reason == TrapStop && IsStopped()
        && Pid() in kernel.tasks && trace == [Program()]
      ensures r.Ok? ==> old(Pid() in kernel.tasks) && Program().mem == old(Program()).mem
    {
      hide Consistent, Outcome, FaithfulTo, ProgramOf, ForkedTasks, Adopted, Released, HandedDown;
      ghost var mid := View();
      ForkedTasksHave(before, kernel.tasks, child);
      if active.process.origin != Launched {
        r := RefuseFork(child, before, RuntimeError);
        return;
      }
      FollowTheChild(child);
      AdoptingIsForking(before, mid, View(), child);
      return Ok(active.stop);
    }

    method ForkFollowingParent(child: nat, ghost before: State) returns (r: Result<StopInfo>)
      requires Coherent() && AtFork(before, child)
      modifies this`active, kernel`tasks
      ensures Coherent() && (old(Faithful()) ==> Faithful())
      ensures Pid() == old(Pid()) && Pid() in kernel.tasks && kernel.tasks[Pid()] == old(kernel.tasks[Pid()])
      ensures r.Ok? && r.value == active.stop && Outcome(before, FollowParent, View(), active.stop)
      ensures active.stop.forked.Some? && active.stop.reason == TrapStop && Pid() in kernel.tasks
    {
      hide Consistent, Outcome, FaithfulTo, ProgramOf, ForkedTasks, Released;
      ghost var mid := View();
      ForkedTasksHave(before, kernel.tasks, child);
      ReleaseChild(child);
      ReleasingIsForking(before, mid, View(), child);
      SameProgramKeepsFaith(kernel.moves, trace, mid, View());
      return Ok(active.stop);
    }

    method OnFork(child: nat, stepping: bool, ghost delivered: int, ghost before: State, ghost path: seq<Cpu>,
                  ghost cause: Cause)
      returns (r: Result<StopInfo>)
      requires Reporting(before, stepping, delivered, ForkStop(child), path, cause)
      modifies this`active, this`retained, this`trace, kernel`tasks
      ensures Coherent()
      ensures r.Err? <==> RefusesFork(before, policy)
      ensures r.Err? ==> active == before.active && retained == before.retained && child !in kernel.tasks
      ensures r.Err? ==> OthersKept(before.tasks, kernel.tasks, {before.active.process.pid})
      ensures r.Ok? ==> r.value == active.stop && Outcome(before, policy, View(), active.stop)
      ensures Told(kernel.moves, before, old(trace), stepping, delivered != 0, NoTrap, policy, View(), trace, r)
    {
      hide Consistent, Outcome, Discreet, Answers, Runs, FaithfulTo, ProgramOf, Tail, Unarmed, Saved, ForkedTasks,
           RefusesFork, Told,
           RipArmed, IsRun, ReachedMemory, OthersKept;
      AnswerIsFork(kernel.moves, before, kernel.tasks, stepping, delivered, child, path, cause);
      ForkStopKeepsConsistent(kernel.moves, before, kernel.tasks, child, path, trace, delivered != 0);
      FaithfulIsRun(kernel.moves, trace, before);
      RefusedTasks(before, kernel.tasks, child);
      active := active.(process := active.process.(state := Stopped));
      ghost var start, tail := trace, Tail(path, Saved(before.active.table), false);
      trace := trace + tail;
      match policy
      case FollowBoth =>
        r := ForkKeepingBoth(child, before);
        ToldByTail(kernel.moves, before, start, stepping, delivered != 0, NoTrap, policy, View(), tail, r);
      case FollowChild =>
        FaithfulReaches(kernel.moves, start, tail, View());
        r := ForkFollowingChild(child, before);
        if r.Ok? {
          ToldAfresh(kernel.moves, before, start, stepping, delivered != 0, NoTrap, policy, View(), trace, r.value);
        } else {
          ToldByTail(kernel.moves, before, start, stepping, delivered != 0, NoTrap, policy, View(), tail, r);
        }
      case FollowParent =>
        NeverRefused(before);
        r := ForkFollowingParent(child, before);
        ToldByTail(kernel.moves, before, start, stepping, delivered != 0, NoTrap, policy, View(), tail, r);
    }

    method OnEnd(state: ProcessState, value: int, ghost before: State, ghost stepping: bool, ghost delivered: int,
                 ghost event: Event,
                 ghost path: seq<Cpu>, ghost cause: Cause)
      requires state == Exited || state == Signaled
      requires event == (if state == Exited then ExitReport(value) else KillReport(value))
      requires Reporting(before, stepping, delivered, event, path, cause)
      modifies this`active, this`retained, this`trace
      ensures Coherent() && Outcome(before, policy, View(), active.stop)
      ensures Told(kernel.moves, before, old(trace), stepping, delivered != 0, NoTrap, policy, View(), trace,
                   Ok(active.stop))
    {
      hide Consistent, Registry, Discreet, Answers, Outcome, HandedOver, ProgramOf, Ended, Told;
      AnswerIsEnd(kernel.moves, before, kernel.tasks, stepping, delivered, event, path, cause);
      EndKeepsRegistry(before, kernel.tasks);
      ghost var mid := View();
      HandleEnd(state, value);
      EndOutcome(before, mid, View(), policy, state, value);
      if before.retained == map[] {
        EndedKeepsProcess(mid.active, state);
      }
      FaithfulIsRun(kernel.moves, old(trace), before);
      ToldAfresh(kernel.moves, before, old(trace), stepping, delivered != 0, NoTrap, policy, View(), trace, active.stop);
    }

    method OnExec(ghost before: State, ghost stepping: bool, ghost delivered: int, ghost path: seq<Cpu>, ghost cause: Cause)
      requires Reporting(before, stepping, delivered, ExecStop, path, cause)
      modifies this`active, this`trace
      ensures Coherent() && Outcome(before, policy, View(), active.stop)
      ensures Told(kernel.moves, before, old(trace), stepping, delivered != 0, NoTrap, policy, View(), trace,
                   Ok(active.stop))
    {
      hide Consistent, Registry, Discreet, Answers, Outcome, ProgramOf, WithoutImage, Told;
      AnswerIsExec(kernel.moves, before, kernel.tasks, stepping, delivered, path, cause);
      MoveKeepsRegistry(before, kernel.tasks);
      HandleExec();
      ExecOutcome(before, View(), policy);
      FaithfulIsRun(kernel.moves, old(trace), before);
      ToldAfresh(kernel.moves, before, old(trace), stepping, delivered != 0, NoTrap, policy, View(), trace, active.stop);
    }

    /** Resumes the active process and makes sense of what it reports. */
    method Resume(stepping: bool, signal: int) returns (r: Result<StopInfo>)
      requires Coherent() && Faithful() && IsStopped() && Discreet(kernel.moves, active.table.Keys)
      requires !stepping ==> active.pending.None?
      modifies this, kernel
      ensures Coherent() && unchanged(this`policy, this`nextBreakpointId, this`nextWatchpointId)
      ensures r.Ok? ==> Outcome(old(View()), policy, View(), r.value)
      ensures r.Err? ==> RefusesFork(old(View()), policy) && active == old(active) && retained == old(retained)
      ensures r.Err? ==> OthersKept(old(kernel.tasks), kernel.tasks, {old(Pid())})
      ensures Told(kernel.moves, old(View()), old(trace), stepping, signal != 0, why, policy, View(), trace, r)
      ensures misreads == old(misreads) + if Misread(why, r) then 1 else 0
      ensures Reported(kernel.respond(old(kernel.tasks), old(Pid()), stepping, signal, old(kernel.clock)), old(View()),
                       stepping, View(), r)
    {
      hide Consistent, Outcome, Discreet, Answers, RefusesFork, Told, FaithfulTo, AfterSignal, Reported;
      var pid := active.process.pid;
      StoppedIsActive(View());
      ghost var before := View();
      ghost var reply := kernel.respond(kernel.tasks, pid, stepping, signal, kernel.clock);
      active := active.(process := active.process.(state := Running));
      why := NoTrap;
      var event;
      ghost var path, cause;
      event, path, cause := kernel.Resume(pid, stepping, signal);
      match event {
        case ExitReport(code) =>
          OnEnd(Exited, code, before, stepping, signal, event, path, cause);
          r := Ok(active.stop);
        case KillReport(sig) =>
          OnEnd(Signaled, sig, before, stepping, signal, event, path, cause);
          r := Ok(active.stop);
        case ExecStop =>
          OnExec(before, stepping, signal, path, cause);
          r := Ok(active.stop);
        case ForkStop(child) =>
          r := OnFork(child, stepping, signal, before, path, cause);
        case SignalStop(sig) =>
          if sig == SIGTRAP {
            OnTrap(stepping, signal, before, path, cause);
          } else {
            OnSignal(sig, stepping, signal, before, path, cause);
          }
          r := Ok(active.stop);
      }
      OnlySignalsAreReported(reply, before, stepping, View(), r);
    }

    /** Puts the INT3 of an uninstalled breakpoint back. */
    method ReinsertBreakpoint(address: int, tid: nat)
      requires tid in kernel.tasks && (address in active.table ==> Mapped(kernel.tasks[tid].cpu.mem, address, WORD))
      modifies this`active, kernel`tasks
      ensures address in old(active.table) && !old(active.table)[address].installed ==>
        && active == old(active).(table := old(active.table)[address := old(active.table)[address].(installed := true)])
        && kernel.tasks == old(kernel.tasks)[tid := StoredTask(old(kernel.tasks[tid]), address, INT3)]
      ensures !(address in old(active.table) && !old(active.table)[address].installed) ==> unchanged(this, kernel)
    {
      hide Mapped;
      if address !in active.table || active.table[address].installed {
        return;
      }
      kernel.Poke(tid, address, INT3);
      active := active.(table := active.table[address := active.table[address].(installed := true)]);
    }

    /** The displaced step: one instruction with the breakpoint out, then the
        breakpoint goes back into whatever process is active by then. */
    method StepOverPending() returns (r: Result<StopInfo>, ghost stopped: State)
      requires Valid() && IsStopped() && active.pending.Some? && Discreet(kernel.moves, active.table.Keys)
      modifies this, kernel
      ensures Valid() && (r.Ok? ==> AtPending()) && unchanged(this`policy, this`nextBreakpointId, this`nextWatchpointId)
      ensures r.Err? ==> RefusesFork(old(View()), policy) && active == old(active) && retained == old(retained)
      ensures r.Err? ==> OthersKept(old(kernel.tasks), kernel.tasks, {old(Pid())})
      ensures r.Ok? ==>
        && Outcome(old(View()), policy, stopped, r.value)
        && Consistent(stopped) && View() == SteppedOver(stopped) && active.pending.None?
        && r.value.reason != BreakpointHit
      ensures Told(kernel.moves, old(View()), old(trace), true, false, why, policy, View(), trace, r)
      ensures misreads == old(misreads)
      ensures Reported(kernel.respond(old(kernel.tasks), old(Pid()), true, 0, old(kernel.clock)), old(View()), true, stopped, r)
    {
      hide Reported, Consistent, Outcome, Discreet, RefusesFork, Told, FaithfulTo, ProgramOf;
      var pending := active.pending.value;
      StoppedIsActive(View());
      ghost var before := View();
      r := Resume(true, 0);
      stopped := View();
      ToldIsFaithful(kernel.moves, before, old(trace), true, false, why, policy, View(), trace, r);
      if r.Err? {
        return;
      }
      NoHitWhileStepping(kernel.moves, before, old(trace), false, why, policy, stopped, trace, r);
      SteppedOverIsSound(stopped);
      ToldAfterReinsertion(kernel.moves, before, old(trace), why, policy, stopped, trace, r);
      ToldIsFaithful(kernel.moves, before, old(trace), true, false, why, policy, SteppedOver(stopped), trace, r);
      if r.value.reason == ExecStopped {
        ExecLeavesNothingPending(before, stopped, policy, r.value);
        return;
      }
      if active.process.state == Stopped {
        WhatIsPending(before, stopped, policy, r.value);
        // The task whose step it was, or the one that has taken its place.
        var tid := if pending.tid == active.process.pid then pending.tid else active.process.pid;
        ReinsertBreakpoint(pending.address, tid);
      }
      active := active.(pending := None);
    }

    function ResumeSignal(signals: SignalPolicy): (signal: int)
      reads this
      ensures signal != 0 ==> signals == Forward
    {
      if signals == Forward && Pid() in active.signals then active.signals[Pid()] else 0
    }

    /** Resumes with every breakpoint in place, for a `continue` issued in `s`. */
    method RunOn(signals: SignalPolicy, ghost s: State, ghost told: seq<Cpu>)
      returns (r: Result<StopInfo>, ghost start: State)
      requires Valid() && IsStopped() && active.pending.None? && Discreet(kernel.moves, active.table.Keys)
      requires Pid() in kernel.tasks && Starts(kernel.moves, s, told, View(), trace)
      modifies this, kernel
      ensures Valid() && AtPending() && unchanged(this`policy, this`nextBreakpointId, this`nextWatchpointId)
      ensures start == old(View()).(active := old(active).(signals := old(active.signals) - {old(Pid())}))
      ensures r.Err? ==>
        && active == start.active && retained == start.retained
        && OthersKept(start.tasks, kernel.tasks, {start.active.process.pid})
      ensures r.Ok? ==> Outcome(start, policy, View(), r.value)
      ensures Continued(kernel.moves, s, told, signals == Forward, why, policy, View(), trace, r)
      ensures misreads == old(misreads) + if Misread(why, r) then 1 else 0
      ensures Reported(kernel.respond(start.tasks, old(Pid()), false, old(ResumeSignal(signals)), old(kernel.clock)), start,
                       false, View(), r)
    {
      hide Consistent, Outcome, Discreet, RefusesFork, Told, FaithfulTo, RipArmed, Continued, Starts, ProgramOf, Reported;
      var pid := active.process.pid;
      var signal := ResumeSignal(signals);
      ghost var mid := View();
      active := active.(signals := active.signals - {pid});
      start := View();
      SignalsDoNotMatter(kernel.moves, mid, start, trace);
      ghost var startTrace := trace;
      StartsFrom(kernel.moves, s, told, mid, start, startTrace);
      r := Resume(false, signal);
      ToldIsFaithful(kernel.moves, start, startTrace, false, signal != 0, why, policy, View(), trace, r);
      ToldFrom(kernel.moves, start, startTrace, start, false, signal != 0, why, policy, View(), trace, r);
      if r.Ok? {
        PendingAfterRun(start, policy, View(), r.value);
        SameProgramIsStopped(start, policy, View(), r.value);
        HitIsAboutToExecute(start, policy, View(), r.value);
      }
      ContinuedByRun(kernel.moves, s, told, start, startTrace, signals == Forward, why, policy, View(), trace, r);
    }

    /** The displaced step, then on if it went through. */
    method ContinueFromPending(signals: SignalPolicy)
      returns (r: Result<StopInfo>, ghost start: State, ghost stopped: State)
      requires Valid() && IsStopped() && active.pending.Some? && Discreet(kernel.moves, active.table.Keys)
      modifies this, kernel
      ensures Valid() && (r.Ok? ==> AtPending()) && unchanged(this`policy, this`nextBreakpointId, this`nextWatchpointId)
      ensures r.Err? ==> Refused(old(View()), View())
      ensures r.Ok? ==> AfterContinue(old(View()), policy, start, stopped, View(), r.value)
      ensures Continued(kernel.moves, old(View()), old(trace), signals == Forward, why, policy, View(), trace, r)
      ensures misreads == old(misreads) + if Misread(why, r) then 1 else 0
      ensures FirstReport(kernel.respond, old(View()), signals, old(kernel.clock), View(), r)
    {
      hide OthersKept, Consistent, Outcome, Discreet, RefusesFork, Told, SteppedOver, Continued, ReinsertedDomain,
           AfterContinue, FaithfulTo, Starts, Reported, FirstReport;
      StoppedIsActive(View());
      ghost var s, told := View(), trace;
      start := s;
      ghost var now := kernel.clock;
      r, stopped := StepOverPending();
      FirstReportInStep(kernel.respond, s, signals, now, stopped, r);
      if r.Ok? {
        SameProgramIsStopped(s, policy, stopped, r.value);
        SteppedOverIsSound(stopped);
      }
      ContinuedByStep(kernel.moves, s, told, signals == Forward, why, policy, View(), trace, r);
      if r.Err? {
        return;
      }
      if r.value.reason != SingleStepped {
        StoppedInStep(s, policy, stopped, r.value);
        return;
      }
      OverOneInstruction(s, policy, stopped, r.value);
      ghost var stepped, step := stopped, r.value;
      StillGoing(kernel.moves, s, told, why, policy, View(), trace, r);
      StoppedIsActive(View());
      StartsAfterStep(kernel.moves, s, told, View(), trace);
      r, start := RunOn(signals, s, told);
      stopped := View();
      if r.Ok? {
        StoppedAfterStep(s, policy, stepped, step, start, stopped, r.value);
      } else {
        RefusedAfterStep(s, policy, stepped, step, start, View());
      }
    }

    /** Runs on until the next stop; a pending displaced step comes first. */
    method ContinueExecution(signals: SignalPolicy)
      returns (r: Result<StopInfo>, ghost start: State, ghost stopped: State)
      requires Valid() && Discreet(kernel.moves, active.table.Keys)
      modifies this, kernel
      ensures Valid() && (r.Ok? ==> AtPending()) && unchanged(this`policy, this`nextBreakpointId, this`nextWatchpointId)
      ensures !old(IsStopped()) ==> r == Err(LogicError) && unchanged(this, kernel)
      ensures r.Err? ==> Refused(old(View()), View())
      ensures r.Ok? ==> AfterContinue(old(View()), policy, start, stopped, View(), r.value)
      ensures old(IsStopped()) ==> Continued(kernel.moves, old(View()), old(trace), signals == Forward, why, policy,
                                             View(), trace, r)
      ensures misreads == old(misreads) + if r.Ok? && Misread(why, r) then 1 else 0
      ensures old(IsStopped()) ==> FirstReport(kernel.respond, old(View()), signals, old(kernel.clock), View(), r)
    {
      hide OthersKept, Consistent, Outcome, Discreet, Continued, AfterContinue, FaithfulTo, Starts;
      start, stopped := View(), View();
      KeepsItself(kernel.tasks, {Pid()});
      if active.process.state != Stopped {
        return Err(LogicError), start, stopped;
      }
      StoppedIsActive(View());
      ghost var s, told := View(), trace;
      if active.pending.Some? {
        if active.pending.value.tid != active.process.pid {
          ContinuedByRefusal(kernel.moves, s, told, signals == Forward, why, policy, LogicError);
          return Err(LogicError), start, stopped;
        }
        r, start, stopped := ContinueFromPending(signals);
        return;
      }
      StartsItself(kernel.moves, s, told);
      r, start := RunOn(signals, s, told);
      stopped := View();
      if r.Ok? {
        StoppedInRun(s, policy, start, stopped, r.value);
      }
    }

    /** One instruction from where RIP stands, armed or not. */
    method StepHere(signals: SignalPolicy) returns (r: Result<StopInfo>, ghost start: State, ghost stopped: State)
      requires Valid() && IsStopped() && active.pending.None? && Discreet(kernel.moves, active.table.Keys)
      requires Pid() in kernel.tasks
      modifies this, kernel
      ensures Valid() && AtPending() && unchanged(this`policy, this`nextBreakpointId, this`nextWatchpointId, this`misreads)
      ensures r.Err? ==> Refused(old(View()), View())
      ensures r.Ok? ==> AfterContinue(old(View()), policy, start, stopped, View(), r.value)
      ensures Told(kernel.moves, old(View()), old(trace), true, signals == Forward, why, policy, View(), trace, r)
    {
      hide OthersKept, Consistent, Outcome, Discreet, RefusesFork, Told, FaithfulTo, RipArmed, AfterContinue,
           SteppedOver, ProgramOf;
      ghost var s, told := View(), trace;
      var pid := active.process.pid;
      var signal := ResumeSignal(signals);
      active := active.(signals := active.signals - {pid});
      start := View();
      SignalsDoNotMatter(kernel.moves, s, start, trace);
      r := Resume(true, signal);
      stopped := View();
      ToldIsFaithful(kernel.moves, start, told, true, signal != 0, why, policy, View(), trace, r);
      ToldFrom(kernel.moves, s, told, start, true, signal != 0, why, policy, View(), trace, r);
      if r.Ok? {
        NoHitWhileStepping(kernel.moves, start, told, signal != 0, why, policy, View(), trace, r);
        PendingAfterRun(start, policy, View(), r.value);
        KeepsItself(s.tasks, {s.active.process.pid});
        StoppedInRun(s, policy, start, stopped, r.value);
      }
    }

    /** One instruction, or the displaced step that is pending. */
    method SingleStep(signals: SignalPolicy) returns (r: Result<StopInfo>, ghost start: State, ghost stopped: State)
      requires Valid() && Discreet(kernel.moves, active.table.Keys)
      modifies this, kernel
      ensures Valid() && (r.Ok? ==> AtPending())
      ensures unchanged(this`policy, this`nextBreakpointId, this`nextWatchpointId, this`misreads)
      ensures !old(IsStopped()) ==> r == Err(LogicError) && unchanged(this, kernel)
      ensures r.Err? ==> Refused(old(View()), View())
      ensures r.Ok? ==> AfterContinue(old(View()), policy, start, stopped, View(), r.value)
      ensures old(IsStopped()) && !(r.Err? && unchanged(this, kernel)) ==>
        Told(kernel.moves, old(View()), old(trace), true, signals == Forward, why, policy, View(), trace, r)
    {
      hide OthersKept, Consistent, Outcome, Discreet, RefusesFork, Told, FaithfulTo, RipArmed, AfterContinue,
           SteppedOver, ProgramOf;
      start, stopped := View(), View();
      KeepsItself(kernel.tasks, {Pid()});
      if active.process.state != Stopped {
        return Err(LogicError), start, stopped;
      }
      StoppedIsActive(View());
      ghost var s, told := View(), trace;
      if active.pending.Some? {
        if active.pending.value.tid != active.process.pid {
          return Err(LogicError), start, stopped;
        }
        r, stopped := StepOverPending();
        ToldWithEntries(kernel.moves, s, told, true, false, why, policy, View(), trace, r);
        if r.Ok? {
          StoppedInStep(s, policy, stopped, r.value);
        }
        return;
      }
      r, start, stopped := StepHere(signals);
    }

    // ----- memory -----

    /** Stores `bytes` into the program's memory, underneath the breakpoints. */
    method WriteMemory(address: U64, bytes: seq<Byte>) returns (r: Result<()>)
      requires Valid()
      modifies this`active, this`trace, kernel`tasks
      ensures Valid() && active.ids == old(active.ids) && active.pending == old(active.pending)
      ensures old(AtPending()) ==> AtPending()
      ensures r.Ok? || r == Err(PtraceError) <==> WriteAccepted(old(View()), address, bytes)
      ensures r.Ok? ==> old(IsStopped() && Pid() in kernel.tasks) && View() == Written(old(View()), address, bytes)
      ensures r.Ok? ==> Program() == old(Program()).(mem := Stored(old(Program()).mem, address, bytes))
      ensures r.Err? && r.error != PtraceError ==> unchanged(this, kernel)
      ensures r == Err(PtraceError) ==>
        && old(IsStopped() && Pid() in kernel.tasks)
        && exists n :: 0 <= n < |bytes| && View() == PartlyWritten(old(View()), address, bytes, n)
                       && !Mapped(old(kernel.tasks[Pid()]).cpu.mem, address + n, WORD)
    {
      hide Consistent, Mapped, Poked, Rehidden, Stored, Logical;
      if active.process.state != Stopped {
        return Err(LogicError);
      }
      if bytes == [] || |bytes| > MAX_WRITE {
        return Err(InvalidArgument);
      }
      if address > TWO64 - 1 - (|bytes| - 1) {
        return Err(InvalidArgument);
      }
      if active.pending.Some? && RangeContains(address, |bytes|, active.pending.value.address) {
        return Err(LogicError);
      }
      var out := FindUninstalled(active.table, address, |bytes|);
      if out {
        return Err(LogicError);
      }
      StoppedIsActive(View());
      var pid := active.process.pid;
      ghost var s := View();
      var cpu := kernel.tasks[pid].cpu;
      var mem, done := PokeAround(cpu.mem, active.table, address, bytes);
      kernel.tasks := kernel.tasks[pid := kernel.tasks[pid].(cpu := cpu.(mem := mem))];
      if done < |bytes| {
        PartialWriteKeepsConsistent(s, address, bytes, done);
        trace := [Program()];
        return Err(PtraceError);
      }
      WritingKeepsConsistent(s, address, bytes);
      var table := Rehide(active.table, address, bytes);
      active := active.(table := table);
      trace := [Program()];
      return Ok(());
    }

    // ----- watchpoints -----

    method AddWriteWatchpoint(address: U64, length: nat) returns (r: Result<nat>)
      requires Valid()
      modifies this`active, this`nextWatchpointId, kernel`tasks
      ensures Valid() && (old(AtPending()) ==> AtPending())
      ensures old(IsStopped()) ==> old(Pid() in kernel.tasks)
      ensures r.Ok? <==>
        old(IsStopped()) && WatchRefusal(old(active), old(kernel.tasks[Pid()]).debug.dr7, address, length).None?
      ensures r.Err? ==> unchanged(this, kernel)
      ensures r.Ok? ==>
        && r.value == old(nextWatchpointId) && nextWatchpointId == r.value + 1
        && View() == Watching(old(View()), Watchpoint(r.value, address, length), LengthEncoding(length).value)
        && DisabledControl(kernel.tasks[Pid()].debug.dr7) == DisabledControl(old(kernel.tasks[Pid()]).debug.dr7)
    {
      hide Consistent, Logical, ArmedRegisters, DisabledControl, LengthEncoding, Aligned, WatchRefusal, FaithfulTo;
      if active.process.state != Stopped {
        return Err(LogicError);
      }
      StoppedIsActive(View());
      var pid := active.process.pid;
      var snapshot := kernel.tasks[pid].debug;
      var refusal := WatchRefusal(active, snapshot.dr7, address, length);
      if refusal.Some? {
        return Err(refusal.value);
      }
      ghost var s := View();
      var id := nextWatchpointId;
      WatchingKeepsConsistent(View(), Watchpoint(id, address, length));
      ArmedKeepsOtherSlots(snapshot, address, length);
      LoadDebugRegisters(pid, ArmedRegisters(snapshot, address, LengthEncoding(length).value));
      nextWatchpointId := nextWatchpointId + 1;
      active := active.(watchpoint := Some(Watchpoint(id, address, length)), snapshot := Some(Snapshot(pid, snapshot)));
      SameProgramKeepsFaith(kernel.moves, trace, s, View());
      return Ok(id);
    }

    method RemoveWatchpoint(id: nat) returns (r: Result<bool>)
      requires Valid()
      modifies this`active, kernel`tasks
      ensures Valid() && (old(AtPending()) ==> AtPending())
      ensures !(r.Ok? && r.value) ==> unchanged(this, kernel)
      ensures r == Ok(true) <==> old(active.watchpoint.Some?) && old(active.watchpoint).value.id == id && old(IsStopped())
      ensures r.Err? <==> old(active.watchpoint.Some?) && old(active.watchpoint).value.id == id && !old(IsStopped())
      ensures r == Ok(true) ==>
        && old(Pid() in kernel.tasks) && old(active.snapshot.Some?)
        && View() == Unwatched(old(View()))
        && kernel.tasks[Pid()].debug == old(active.snapshot).value.debug
    {
      hide Consistent, Logical, Sound, IsRun;
      if active.watchpoint.None? || active.watchpoint.value.id != id {
        return Ok(false);
      }
      if active.process.state != Stopped {
        return Err(LogicError);
      }
      StoppedIsActive(View());
      SnapshotIsOwn(active, kernel.tasks[active.process.pid]);
      UnwatchingKeepsConsistent(View());
      LoadDebugRegisters(active.snapshot.value.tid, active.snapshot.value.debug);
      active := active.(watchpoint := None);
      active := active.(snapshot := None);
      return Ok(true);
    }

    // ----- processes -----

    method SetForkFollowPolicy(wanted: FollowPolicy) returns (r: Result<()>)
      requires Valid()
      modifies this`policy
      ensures Valid() && (r.Err? ==> policy == old(policy)) && (r.Ok? ==> policy == wanted)
      ensures r.Ok? <==>
        if retained != map[] then wanted == FollowBoth
        else wanted == FollowBoth ==> active.process.origin == Launched && active.table == map[] && active.pending.None?
    {
      if retained != map[] {
        if wanted != FollowBoth {
          return Err(LogicError);
        }
        policy := wanted;
        return Ok(());
      }
      if wanted == FollowBoth {
        if active.process.origin != Launched {
          return Err(LogicError);
        }
        if active.table != map[] || active.pending.Some? {
          return Err(LogicError);
        }
      }
      policy := wanted;
      return Ok(());
    }

    method SelectProcess(pid: nat) returns (r: Result<()>)
      requires Valid()
      modifies this`active, this`retained, this`trace
      ensures Valid()
      ensures r.Ok? <==> pid == old(Pid()) || (pid in old(retained) && old(IsStopped()) && old(active.pending.None?))
      ensures r.Err? || pid == old(Pid()) ==> unchanged(this)
      ensures r.Ok? && pid != old(Pid()) ==>
        && View() == Exchanged(old(View()), pid) && Pid() == pid && pid in kernel.tasks && trace == [Program()]
    {
      hide Consistent, Logical;
      if pid == active.process.pid {
        return Ok(());
      }
      if pid !in retained {
        return Err(InvalidArgument);
      }
      if active.process.state != Stopped {
        return Err(LogicError);
      }
      ConsistentHasRegistry(View());
      RetainedAreTasks(View());
      if retained[pid].process.state != Stopped {
        assert false;
      }
      if active.pending.Some? {
        return Err(LogicError);
      }
      ExchangingKeepsConsistent(View(), pid);
      SwapActive(pid);
      trace := [Program()];
      return Ok(());
    }

    /** Leaves an attached process as it would be without the debugger. */
    method Detach() returns (r: Result<()>)
      requires Valid()
      modifies this`active, kernel`tasks
      ensures Valid()
      ensures r.Ok? <==> old(retained) == map[] && old(active.process.origin) == Attached && old(IsStopped())
      ensures r.Err? ==> unchanged(this, kernel)
      ensures r.Ok? ==>
        && old(Pid() in kernel.tasks) && View() == DetachedState(old(View()))
        && kernel.tasks[Pid()].cpu == old(Program())
        && (old(active.snapshot.Some?) ==> kernel.tasks[Pid()].debug == old(active.snapshot).value.debug)
    {
      hide Consistent, Logical, Mapped, Released;
      if retained != map[] {
        return Err(LogicError);
      }
      if active.process.origin != Attached {
        return Err(LogicError);
      }
      if active.process.state != Stopped {
        return Err(LogicError);
      }
      StoppedIsActive(View());
      DetachingIsClean(View());
      GiveBack(active.process.pid);
      active := active.(pending := None, process := active.process.(state := Detached));
      active := active.(table := map[], ids := map[], signals := map[], watchpoint := None, snapshot := None);
      return Ok(());
    }
  }
}
