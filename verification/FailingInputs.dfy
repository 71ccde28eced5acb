/** Concrete sessions in which the debugger does not do what it promises, on a machine
    whose only instruction besides INT3 is a one-byte count of the remaining registers. */
module FailingInputs {
  import opened Base
  import opened Tracee
  import opened Overlay
  import opened Kernel
  import opened Session
  import opened Resuming

  ghost predicate Counts(c: Cpu, d: Cpu) {
    if FetchesTrap(c) then d == c.(rip := c.rip + 1) else d == c.(rip := c.rip + 1, rest := c.rest + 1)
  }

  ghost function Counting(): Behaviour {
    Behaviour((c, d) => Counts(c, d), (c, d) => false)
  }

  /** That machine touches no managed byte at all, whichever bytes are managed. */
  lemma CountingIsDiscreet(managed: set<int>)
    ensures Discreet(Counting(), managed)
  {
    forall saved: map<int, Byte>, c: Cpu, d: Cpu {:trigger Covered(c.mem, saved), Counts(c, d)} |
      Covered(c.mem, saved) && c.rip !in saved && Counts(c, d)
      ensures Counts(Lift(c, saved), Lift(d, saved))
    {
      CountsLifted(saved, c, d);
    }
    hide Lift, Covered, Mapped;
  }

  lemma CountsLifted(saved: map<int, Byte>, c: Cpu, d: Cpu)
    requires Covered(c.mem, saved) && c.rip !in saved && Counts(c, d)
    ensures Counts(Lift(c, saved), Lift(d, saved))
  {
  }

  function Program(): Memory {
    map[0 := 0x40, 1 := 0x40, 2 := 0x40, 3 := 0x40, 4 := 0x40, 5 := 0x40, 6 := 0x40, 7 := 0x40, 8 := 0x40]
  }

  /** One breakpoint, installed at address 0, and the program stopped at `rip`. */
  function SessionAt(rip: nat): State {
    var process := Process(1, Launched, Stopped);
    var domain := Domain(process, Stop(InitialExec, SIGTRAP, 1), map[], map[0 := Breakpoint(1, 0, 0x40, true)],
                         map[1 := 0], None, None, None);
    State(domain, map[], 2, map[1 := Task(Cpu(Program()[0 := INT3], rip, 0), DebugRegisters(0, 0, 0))])
  }

  lemma SessionIsSound(rip: nat)
    ensures var s := SessionAt(rip); Sound(s.active, s.tasks[1]) && Settled(s.active, s.tasks[1])
  {
    var s := SessionAt(rip);
    assert Mapped(s.tasks[1].cpu.mem, 0, WORD);
  }

  lemma SessionIsConsistent(rip: nat)
    ensures var s := SessionAt(rip);
            && Consistent(s) && Saved(s.active.table) == map[0 := 0x40]
            && ProgramOf(s) == Cpu(Program(), rip, 0) && FaithfulTo(Counting(), [ProgramOf(s)], s)
  {
    var s := SessionAt(rip);
    assert Saved(s.active.table) == map[0 := 0x40];
    assert ProgramOf(s).mem == Program();
    SessionIsSound(rip);
    hide Sound, Settled;
  }

  function Moved(rip: nat): Task {
    SessionAt(rip).tasks[1]
  }

  /** A step requested on the armed byte: the kernel may answer so, and the stop is
      reported as a completed step, but the program makes no such step. */
  lemma StepFromArmedByteIsNoStep()
    ensures var s, after := SessionAt(0), Moved(1);
            && Consistent(s) && RipArmed(s)
            && Answers(Counting(), s.tasks, 1, true, 0, Reply(map[1 := after], SignalStop(SIGTRAP)), [s.tasks[1].cpu],
                       FetchedTrap)
            && var (d', t') := Classify(s.active, after, true);
               d'.stop.reason == SingleStepped && !Move(Counting(), ProgramOf(s), Logical(d', t'))
  {
    hide Consistent;
    SessionIsConsistent(0);
    var s, after := SessionAt(0), Moved(1);
    assert map[1 := after] == s.tasks[1 := after];
    assert Logical(s.active.(stop := Stop(SingleStepped, 5, 1)), after).rip == 1;
    assert Logical(s.active.(stop := Stop(SingleStepped, 5, 1)), after).rest == 0;
  }

  /** A SIGTRAP sent to the process while it is single-stepped: a step is reported that
      did not happen. */
  lemma SentTrapIsTakenForStep()
    ensures var s, after := SessionAt(3), Moved(3);
            && Consistent(s)
            && Answers(Counting(), s.tasks, 1, true, 0, Reply(map[1 := after], SignalStop(SIGTRAP)), [s.tasks[1].cpu],
                       SentTrap)
            && var (d', t') := Classify(s.active, after, true);
               d'.stop.reason == SingleStepped && Logical(d', t') == ProgramOf(s)
  {
    hide Consistent;
    SessionIsConsistent(3);
    var s, after := SessionAt(3), Moved(3);
    assert map[1 := after] == s.tasks[1 := after];
  }

  /** A SIGTRAP sent while the program stands just behind the breakpoint: a hit is
      reported and RIP moved back, so that the instruction there is executed twice. */
  lemma SentTrapIsTakenForHit()
    ensures var s, after := SessionAt(1), Moved(1);
            && Consistent(s)
            && Answers(Counting(), s.tasks, 1, false, 0, Reply(map[1 := after], SignalStop(SIGTRAP)), [s.tasks[1].cpu],
                       SentTrap)
            && var (d', t') := Classify(s.active, after, false);
               && d'.stop.reason == BreakpointHit
               && Logical(d', t') == ProgramOf(s).(rip := 0)
               // The next instruction leads to where the program was, counted once more.
               && Move(Counting(), Logical(d', t'), ProgramOf(s).(rest := 1))
  {
    hide Consistent;
    SessionIsConsistent(1);
    SessionIsSound(1);
    var s, after := SessionAt(1), Moved(1);
    assert map[1 := after] == s.tasks[1 := after];
    ClassifyKeepsSound(s.active, after, false);
    var (d', t') := Classify(s.active, after, false);
    assert Logical(d', t') == ProgramOf(s).(rip := 0);
    assert Counts(Cpu(Program(), 0, 0), Cpu(Program(), 1, 1));
    hide Sound;
  }

  /** An attached process, stopped at `rip` with a displaced step pending at address 0 and
      a second breakpoint installed at address 1. */
  function SteppingAt(rip: nat, rest: int): State {
    var process := Process(1, Attached, Stopped);
    var domain := Domain(process, Stop(TrapStop, SIGTRAP, 1), map[],
                         map[0 := Breakpoint(1, 0, 0x40, false), 1 := Breakpoint(2, 1, 0x40, true)], map[1 := 0, 2 := 1],
                         Some(Pending(0, 1)), None, None);
    State(domain, map[], 3, map[1 := Stepped(rip, rest)])
  }

  function Stepped(rip: nat, rest: int): Task {
    Task(Cpu(Program()[1 := INT3], rip, rest), DebugRegisters(0, 0, 0))
  }

  lemma SteppingIsSound(rip: nat, rest: int)
    ensures var s := SteppingAt(rip, rest); Sound(s.active, s.tasks[1]) && Settled(s.active, s.tasks[1])
  {
    var s := SteppingAt(rip, rest);
    assert Mapped(s.tasks[1].cpu.mem, 0, WORD) && Mapped(s.tasks[1].cpu.mem, 1, WORD);
  }

  lemma SteppingIsConsistent(rip: nat, rest: int)
    ensures var s := SteppingAt(rip, rest); Consistent(s) && ProgramOf(s) == Cpu(Program(), rip, rest)
  {
    var s := SteppingAt(rip, rest);
    assert Saved(s.active.table) == map[1 := 0x40];
    assert ProgramOf(s).mem == Program();
    SteppingIsSound(rip, rest);
    hide Sound, Settled;
  }

  /** A fork in a displaced step that the debugger does not support for attached
      processes: the step has been made but stays pending, and the program stands on the
      next breakpoint. */
  lemma RefusedForkLeavesStepPending()
    ensures var s, s' := SteppingAt(0, 0), SteppingAt(1, 1);
            && Consistent(s) && RefusesFork(s, FollowChild) && !Unfinished(s) && Consistent(s') && Unfinished(s')
            && Answers(Counting(), s.tasks, 1, true, 0, Reply(s'.tasks[2 := Stepped(1, 0)], ForkStop(2)),
                       [Stepped(0, 0).cpu, Stepped(1, 1).cpu], SentTrap)
  {
    hide Consistent;
    SteppingIsConsistent(0, 0);
    SteppingIsConsistent(1, 1);
    var s, s' := SteppingAt(0, 0), SteppingAt(1, 1);
    assert Advance(Counting(), Stepped(0, 0).cpu, Stepped(1, 1).cpu, false);
    assert s'.tasks[2 := Stepped(1, 0)] == s.tasks[1 := Stepped(1, 1)][2 := Stepped(1, 0)];
  }

  /** So the next `continue` makes its displaced step from the armed byte, and an
      instruction of the program is skipped. */
  lemma UnfinishedStepSkips()
    ensures var s, after := SteppingAt(1, 1), Stepped(2, 1);
            && Consistent(s) && Unfinished(s)
            && Answers(Counting(), s.tasks, 1, true, 0, Reply(map[1 := after], SignalStop(SIGTRAP)), [Stepped(1, 1).cpu],
                       FetchedTrap)
            && var (d', t') := Classify(s.active, after, true);
               d'.stop.reason == SingleStepped && !Move(Counting(), ProgramOf(s), Logical(d', t'))
  {
    hide Consistent;
    SteppingIsConsistent(1, 1);
    var s, after := SteppingAt(1, 1), Stepped(2, 1);
    assert map[1 := after] == s.tasks[1 := after];
    assert Logical(s.active.(stop := Stop(SingleStepped, 5, 1)), after).rest == 1;
  }

  /** A breakpoint forgotten while it is installed: the INT3 is the program's now. */
  lemma DiscardedBreakpointStays()
    ensures var s := SessionAt(3);
            && Consistent(s) && Consistent(s.(active := ErasedDomain(s.active, 1)))
            && ProgramOf(s).mem[0] == 0x40 && Logical(ErasedDomain(s.active, 1), s.tasks[1]).mem[0] == INT3
  {
    SessionIsConsistent(3);
    var s := SessionAt(3);
    DiscardingKeepsConsistent(s, 1);
    hide Consistent;
    assert s.active.table - {0} == map[];
    assert Saved(s.active.table - {0}) == map[];
    RestoreNone(s.tasks[1].cpu);
  }
}
