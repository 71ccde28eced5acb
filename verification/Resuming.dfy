/** Why the stops of a resumed process can be relied on: every answer of the kernel,
    classified and repaired, keeps the session consistent and takes the undebugged
    program along exactly the instructions that were executed. */
module Resuming {
  import opened Base
  import opened Tracee
  import opened Overlay
  import opened Kernel
  import opened Session
  import opened Outcomes

  // ----- what a SIGTRAP was -----

  /** Why the last stop was a SIGTRAP, as far as the debugger is concerned: the fetch
      of an INT3, a completed step, its own watchpoint, or something foreign, sent to
      the process or raised by a debug register that is not the debugger's. */
  datatype Why = NoTrap | Int3 | OneStep | Watched | Foreign(sent: bool)

  function WhyOf(d: Domain, cause: Cause): Why {
    match cause
    case FetchedTrap => Int3
    case SteppedOnce => OneStep
    case WroteWatched => if d.watchpoint.Some? then Watched else Foreign(false)
    case SentTrap => Foreign(true)
  }

  /** A foreign SIGTRAP was taken for a breakpoint: it came just behind one. */
  predicate Misread(why: Why, r: Result<StopInfo>) {
    why.Foreign? && r.Ok? && r.value.reason == BreakpointHit
  }

  /** A step was started on an armed byte and has executed the INT3. */
  predicate SteppedOnInt3(s: State, stepping: bool, why: Why)
    requires s.active.process.pid in s.tasks
  {
    stepping && why.Int3? && RipArmed(s)
  }

  /** The stop left RIP where the program would not stand. */
  predicate Slipped(s: State, stepping: bool, why: Why, r: Result<StopInfo>)
    requires s.active.process.pid in s.tasks
  {
    SteppedOnInt3(s, stepping, why) || Misread(why, r)
  }

  predicate ControlKept(before: DebugRegisters, after: DebugRegisters) {
    after.dr0 == before.dr0 && after.dr7 == before.dr7
  }

  // ----- what a report makes of a session -----

  /** The session after the active process has stopped with a signal. */
  function AfterSignal(s: State, tasks: map<nat, Task>, signal: int, stepping: bool): State
    requires s.active.process.pid in tasks
  {
    var pid := s.active.process.pid;
    if signal == SIGTRAP then
      var (d, t) := Classify(s.active, tasks[pid], stepping);
      s.(active := d, tasks := tasks[pid := t])
    else
      s.(active := s.active.(signals := s.active.signals[pid := signal], stop := Stop(SignalReceived, signal, pid)),
         tasks := tasks)
  }

  /** `s'` and `r` are what the debugger makes of this reply, if it is a signal. */
  predicate Reported(reply: Reply, s: State, stepping: bool, s': State, r: Result<StopInfo>) {
    reply.event.SignalStop? ==>
      && s.active.process.pid in reply.tasks
      && s' == AfterSignal(s, reply.tasks, reply.event.signal, stepping) && r == Ok(s'.active.stop)
  }

  lemma OnlySignalsAreReported(reply: Reply, s: State, stepping: bool, s': State, r: Result<StopInfo>)
    requires reply.event.SignalStop? ==>
      && s.active.process.pid in reply.tasks
      && s' == AfterSignal(s, reply.tasks, reply.event.signal, stepping) && r == Ok(s'.active.stop)
    ensures Reported(reply, s, stepping, s', r)
  {
  }

  /** The signal a resumption delivers. */
  function Delivered(s: State, signals: SignalPolicy): int {
    if signals == Forward && s.active.process.pid in s.active.signals then s.active.signals[s.active.process.pid] else 0
  }

  /** `s'` and `r` are what a `continue` makes of the first reply of the kernel, if that
      ends it: any signal when nothing is pending, and any but SIGTRAP in a displaced step. */
  predicate FirstReport(respond: Respond, s: State, signals: SignalPolicy, now: nat, s': State, r: Result<StopInfo>) {
    var pid := s.active.process.pid;
    if s.active.pending.None? then
      var start := s.(active := s.active.(signals := s.active.signals - {pid}));
      Reported(respond(s.tasks, pid, false, Delivered(s, signals), now), start, false, s', r)
    else
      var reply := respond(s.tasks, pid, true, 0, now);
      s.active.pending.value.tid == pid && reply.event.SignalStop? && reply.event.signal != SIGTRAP ==>
        && pid in reply.tasks
        && s' == SteppedOver(AfterSignal(s, reply.tasks, reply.event.signal, true)) && r == Ok(s'.active.stop)
  }

  lemma FirstReportInStep(respond: Respond, s: State, signals: SignalPolicy, now: nat, stopped: State, r: Result<StopInfo>)
    requires s.active.pending.Some?
    requires Reported(respond(s.tasks, s.active.process.pid, true, 0, now), s, true, stopped, r)
    ensures r.Err? || r.value.reason == SingleStepped ==>
      forall s', r' :: FirstReport(respond, s, signals, now, s', r')
    ensures r.Ok? ==> FirstReport(respond, s, signals, now, SteppedOver(stopped), r)
  {
    assert SteppedOver(stopped).active.stop == stopped.active.stop;
  }

  /** The active program, resumed from `before`, stopped at the end of `path`. */
  lemma RunKeepsSound(moves: Behaviour, d: Domain, before: Task, after: Task, path: seq<Cpu>, entries: bool)
    requires Sound(d, before) && Discreet(moves, d.table.Keys)
    requires Runs(moves, path, entries) && path[0] == before.cpu
    requires after.cpu.mem == path[|path| - 1].mem
    requires ControlKept(before.debug, after.debug)
    ensures Sound(d, after)
  {
    LiftedRun(moves, d.table, path, entries);
    hide Discreet, Runs, Overlaid, MapsAgree, OutIffPending;
  }

  /** A SIGTRAP stop, classified, has taken the undebugged program exactly along the
      lifted path: nothing skipped, nothing executed twice, and a step reported as
      completed is one move. It fails exactly in two cases. A step started on an armed
      byte moves RIP by one and does nothing else; a foreign SIGTRAP just behind a
      breakpoint has RIP moved back by one. */
  lemma TrapKeepsFaith(moves: Behaviour, d: Domain, before: Task, after: Task, stepping: bool, entries: bool,
                       path: seq<Cpu>, cause: Cause, trace: seq<Cpu>)
    requires Sound(d, before) && Settled(d, before) && Discreet(moves, d.table.Keys)
    requires !stepping ==> d.pending.None?
    requires Runs(moves, path, entries) && path[0] == before.cpu && Trapped(before, after, stepping, path, cause)
    requires stepping ==> |path| <= 2
    requires IsRun(moves, trace) && trace[|trace| - 1] == Logical(d, before)
    ensures var (d', t') := Classify(d, after, stepping);
            var tail := Tail(path, Saved(d.table), cause.FetchedTrap?);
            var end := (trace + tail)[|trace + tail| - 1];
            && IsRun(moves, trace + tail)
            && Unarmed(moves, (trace + tail)[|trace| - 1..], Saved(d.table).Keys, entries)
            && (if stepping && cause.FetchedTrap? && before.cpu.rip in Saved(d.table) then
                  Logical(d', t') == Logical(d, before).(rip := before.cpu.rip + 1) && d'.stop.reason != BreakpointHit
                else if WhyOf(d, cause).Foreign? && d'.stop.reason == BreakpointHit then
                  end == Logical(d', t').(rip := t'.cpu.rip + 1)
                else
                  && end == Logical(d', t')
                  && (d'.stop.reason == SingleStepped ==> |tail| == if cause.SentTrap? then 0 else 1)
                  && (d'.stop.reason == BreakpointHit ==> t'.cpu.rip in Saved(d.table)))
            && (d'.stop.reason == SingleStepped && before.cpu.rip in Saved(d.table) && !entries && !cause.SentTrap? ==>
                  cause.FetchedTrap?)
  {
    assert |path| > 0;
    hide Discreet, Runs, MapsAgree, OutIffPending, IsRun, Tail, Unarmed, Restored, Classify, Trapped;
    var saved := Saved(d.table);
    assert cause.FetchedTrap? ==> FetchesTrap(path[|path| - 1]) by { Announced(before, after, stepping, path, cause); }
    TailContinuesRun(moves, d.table, path, cause.FetchedTrap?, trace, entries);
    Announced(before, after, stepping, path, cause);
    RunKeepsSound(moves, d, before, after, path, entries);
    if before.cpu.rip in saved {
      assert FetchesTrap(path[0]);
      StaysOnTrap(moves, path, entries);
    }
    TailLength(path, saved, cause.FetchedTrap?);
    hide Overlaid, Sound, Settled, Logical, Saved;
    ClassifiedEnd(d, before, after, stepping, path, cause);
  }

  lemma Announced(before: Task, after: Task, stepping: bool, path: seq<Cpu>, cause: Cause)
    requires |path| > 0 && Trapped(before, after, stepping, path, cause)
    ensures cause.FetchedTrap? ==> FetchesTrap(path[|path| - 1])
    ensures after.cpu.mem == path[|path| - 1].mem && ControlKept(before.debug, after.debug)
    ensures cause.SteppedOnce? || cause.WroteWatched? ==> |path| > 1
  {
  }

  /** Where the classified program stands, against the end of the lifted path. */
  lemma ClassifiedEnd(d: Domain, before: Task, after: Task, stepping: bool, path: seq<Cpu>, cause: Cause)
    requires Sound(d, after) && Settled(d, before) && (!stepping ==> d.pending.None?)
    requires |path| > 0 && path[0] == before.cpu && Trapped(before, after, stepping, path, cause)
    requires stepping ==> |path| <= 2
    ensures var (d', t') := Classify(d, after, stepping);
            var saved, last := Saved(d.table), path[|path| - 1];
            var own := cause.FetchedTrap? && last.rip !in saved;
            var end := if own then Lift(last, saved).(rip := last.rip + 1) else Lift(last, saved);
            if stepping && cause.FetchedTrap? && before.cpu.rip in saved then
              Logical(d', t') == Logical(d, before).(rip := before.cpu.rip + 1) && d'.stop.reason != BreakpointHit
            else if WhyOf(d, cause).Foreign? && d'.stop.reason == BreakpointHit then
              end == Logical(d', t').(rip := t'.cpu.rip + 1)
            else
              && end == Logical(d', t')
              && (d'.stop.reason == SingleStepped ==> |path| - 1 + (if own then 1 else 0) == if cause.SentTrap? then 0 else 1)
              && (d'.stop.reason == BreakpointHit ==> t'.cpu.rip in saved)
  {
    ClassifyKeepsSound(d, after, stepping);
    hide Overlaid, MapsAgree, OutIffPending, Restored;
  }

  /** From an INT3 there is no way on but into a handler. */
  lemma StaysOnTrap(moves: Behaviour, path: seq<Cpu>, entries: bool)
    requires Runs(moves, path, entries) && FetchesTrap(path[0])
    ensures |path| == 1 || entries
  {
    assert |path| > 1 ==> Advance(moves, path[0], path[1], entries);
  }

  lemma TailLength(path: seq<Cpu>, saved: map<int, Byte>, trapped: bool)
    requires |path| > 0
    ensures |Tail(path, saved, trapped)| == |path| - 1 + if trapped && path[|path| - 1].rip !in saved then 1 else 0
  {
  }

  /** The exact condition for a sent SIGTRAP: the run goes on from the program's own
      state, and no step is reported that did not happen, if and only if no step was
      requested and the program does not stand just behind an installed breakpoint. */
  lemma SentTrapIff(moves: Behaviour, d: Domain, before: Task, after: Task, stepping: bool, entries: bool,
                    path: seq<Cpu>, trace: seq<Cpu>)
    requires Sound(d, before) && Settled(d, before) && Discreet(moves, d.table.Keys)
    requires !stepping ==> d.pending.None?
    requires Runs(moves, path, entries) && path[0] == before.cpu && Trapped(before, after, stepping, path, SentTrap)
    requires IsRun(moves, trace) && trace[|trace| - 1] == Logical(d, before)
    ensures var (d', t') := Classify(d, after, stepping);
            var tail := Tail(path, Saved(d.table), false);
            (trace + tail)[|trace + tail| - 1] == Logical(d', t') && (d'.stop.reason == SingleStepped ==> |tail| == 1)
            <==> !stepping && !AtInstalled(d, after)
  {
    TrapKeepsFaith(moves, d, before, after, stepping, entries, path, SentTrap, trace);
    hide Discreet, Runs, Sound, IsRun, Unarmed, Restored, Saved;
  }

  /** How a continued session ends up. It was resumed for good from `start`, with every
      breakpoint in place, or it stopped already in the displaced step. */
  ghost predicate AfterContinue(s: State, policy: FollowPolicy, start: State, stopped: State, s': State, info: StopInfo) {
    && Outcome(start, policy, stopped, info)
    && start.retained == s.retained && start.nextId == s.nextId
    && start.active.process == s.active.process && start.active.ids == s.active.ids
    && start.active.table.Keys == s.active.table.Keys && start.active.snapshot == s.active.snapshot
    && OthersKept(s.tasks, start.tasks, {s.active.process.pid}) && Consistent(stopped)
    && (if start == s && s.active.pending.Some? then s' == SteppedOver(stopped)
        else s' == stopped && start.active.pending.None?)
  }

  /** Some prolongation of the run so far ends in this state, or with this memory. */
  ghost predicate Reached(moves: Behaviour, trace: seq<Cpu>, c: Cpu) {
    exists run: seq<Cpu> :: IsRun(moves, run) && trace <= run && run[|run| - 1] == c
  }

  ghost predicate ReachedMemory(moves: Behaviour, trace: seq<Cpu>, mem: Memory) {
    exists run: seq<Cpu> :: IsRun(moves, run) && trace <= run && run[|run| - 1].mem == mem
  }

  /** Some run leads from the one state to the other, or to the memory, up to where RIP
      stands at its two ends. */
  ghost predicate RanBeside(moves: Behaviour, c: Cpu, d: Cpu) {
    exists run: seq<Cpu> :: IsRun(moves, run) && run[0] == c.(rip := run[0].rip)
      && run[|run| - 1] == d.(rip := run[|run| - 1].rip)
  }

  ghost predicate RanMemory(moves: Behaviour, c: Cpu, mem: Memory) {
    exists run: seq<Cpu> :: IsRun(moves, run) && run[0] == c.(rip := run[0].rip) && run[|run| - 1].mem == mem
  }

  predicate Adopting(info: StopInfo, policy: FollowPolicy) {
    info.forked.Some? && policy == FollowChild
  }

  /** A displaced step is pending, but RIP stands on another breakpoint: a fork was
      refused in the displaced step, and the step was never finished. */
  predicate Unfinished(s: State)
    requires s.active.process.pid in s.tasks
  {
    s.active.pending.Some? && RipArmed(s)
  }

  /** What a return from `continue` says about the undebugged program: the run was
      prolonged by the moves it made, in order, none of them twice; no managed
      instruction was executed on the way; and a breakpoint stop at `a` means that the
      program is about to execute `a`. Where a foreign SIGTRAP was misread RIP has been
      moved back by one, and after an unfinished step by one the other way. */
  ghost predicate Continued(moves: Behaviour, s: State, trace: seq<Cpu>, entries: bool, why: Why, policy: FollowPolicy,
                            s': State, trace': seq<Cpu>, r: Result<StopInfo>) {
    && (r.Err? || SameProgram(r.value, policy) ==>
          && s.active.process.pid in s.tasks && s'.active.process.pid in s'.tasks
          && ControlKept(ActiveTask(s).debug, ActiveTask(s').debug)
          && RanBeside(moves, ProgramOf(s), ProgramOf(s'))
          && (!Unfinished(s) ==>
                if Misread(why, r) then
                  trace' == [ProgramOf(s')] && Reached(moves, trace, ProgramOf(s').(rip := ProgramOf(s').rip + 1))
                else trace <= trace' && Unarmed(moves, trace'[|trace|..], s.active.table.Keys, entries))
          && (r.Ok? && r.value.reason == BreakpointHit ==>
                && r.value.address.Some?
                && ProgramOf(s').rip == r.value.address.value
                && r.value.address.value in s.active.table))
    && (r.Ok? && Adopting(r.value, policy) ==>
          && s.active.process.pid in s.tasks && s'.active.process.pid in s'.tasks
          && RanMemory(moves, ProgramOf(s), ProgramOf(s').mem))
  }

  /** What the end of a displaced step makes of the stop. */
  function SteppedOver(s: State): State {
    if s.active.process.state != Stopped then s.(active := s.active.(pending := None))
    else if s.active.pending.Some? && s.active.process.pid in s.tasks
      && s.active.pending.value.address in s.active.table then
      Changed(s, ReinsertedDomain(s.active), StoredTask(ActiveTask(s), s.active.pending.value.address, INT3))
    else s
  }

  /** Reinsertion keeps the session consistent and is not seen by the program: every
      breakpoint of the process that is active by then is in place. */
  lemma SteppedOverIsSound(s: State)
    requires Consistent(s)
    ensures Consistent(SteppedOver(s)) && SteppedOver(s).active.pending.None?
    ensures SteppedOver(s).active.process == s.active.process
    ensures s.active.process.pid in s.tasks ==> s.active.process.pid in SteppedOver(s).tasks
    ensures s.active.process.pid in s.tasks ==> ProgramOf(SteppedOver(s)) == ProgramOf(s)
    ensures s.active.process.pid in s.tasks ==> ActiveTask(SteppedOver(s)).debug == ActiveTask(s).debug
  {
    hide Sound, Settled, RetainedOk, IdsDisjoint;
    if s.active.process.state != Stopped {
      RegistryFrame(s, s.active.(pending := None), s.tasks);
    } else if s.active.pending.Some? {
      StoppedIsActive(s);
      PendingIsInTable(s.active, ActiveTask(s));
      ReinsertingKeepsSound(s.active, ActiveTask(s));
      SettledFrame(s.active, ActiveTask(s));
      hide Logical;
      var t := StoredTask(ActiveTask(s), s.active.pending.value.address, INT3);
      MoveKeepsConsistent(s, ReinsertedDomain(s.active), s.tasks[s.active.process.pid := t]);
    }
  }

  lemma ToldAfterReinsertion(moves: Behaviour, s: State, trace: seq<Cpu>, why: Why, policy: FollowPolicy,
                             s': State, trace': seq<Cpu>, r: Result<StopInfo>)
    requires Consistent(s') && Told(moves, s, trace, true, false, why, policy, s', trace', r)
    ensures Told(moves, s, trace, true, false, why, policy, SteppedOver(s'), trace', r)
  {
    hide Consistent, IsRun, Unarmed, RipArmed, ProgramOf;
    SteppedOverIsSound(s');
    hide SteppedOver;
  }

  /** The step is still pending in the process it was requested for, or in the fork
      child that has inherited its breakpoints; a survivor has nothing pending. */
  lemma WhatIsPending(s: State, s': State, policy: FollowPolicy, info: StopInfo)
    requires s.active.pending.Some? && s'.active.process.state == Stopped
    requires Consistent(s) && s.active.process.state == Stopped && Consistent(s')
    requires Outcome(s, policy, s', info) && info.reason !in {ExecStopped, BreakpointHit}
    ensures s'.active.process.pid in s'.tasks
    ensures var a := s.active.pending.value.address;
            && (a in s'.active.table ==> Mapped(ActiveTask(s').cpu.mem, a, WORD))
            && (if s'.active.pending.Some? then
                  s'.active.pending == s.active.pending && a in s'.active.table && !s'.active.table[a].installed
                else a in s'.active.table ==> s'.active.table[a].installed)
  {
    hide Consistent, Outcome, MapsAgree, WatchHeld, Settled, Registry, HandedOver;
    StoppedIsActive(s');
    if info.reason in {ProcessExited, ProcessSignaled} {
      ConsistentHasRegistry(s);
      OutcomeIsHandOver(s, s', policy, info);
      SurvivorHasNothingPending(s, s');
    } else {
      PendingCarriesOver(s, s', policy, info);
    }
  }

  lemma OutcomeIsHandOver(s: State, s': State, policy: FollowPolicy, info: StopInfo)
    requires Outcome(s, policy, s', info) && info.reason in {ProcessExited, ProcessSignaled}
    ensures HandedOver(s, s')
  {
  }

  lemma PendingCarriesOver(s: State, s': State, policy: FollowPolicy, info: StopInfo)
    requires Outcome(s, policy, s', info)
    requires info.reason !in {ExecStopped, BreakpointHit, ProcessExited, ProcessSignaled}
    ensures s'.active.pending == s.active.pending
  {
    hide OthersKept;
  }

  lemma NoHitWhileStepping(moves: Behaviour, s: State, trace: seq<Cpu>, entries: bool, why: Why, policy: FollowPolicy,
                           s': State, trace': seq<Cpu>, r: Result<StopInfo>)
    requires Told(moves, s, trace, true, entries, why, policy, s', trace', r) && r.Ok?
    ensures r.value.reason != BreakpointHit
  {
  }

  lemma SurvivorHasNothingPending(s: State, s': State)
    requires Registry(s) && HandedOver(s, s')
    ensures s'.active.pending.None?
  {
    hide Sound, Settled, IdsDisjoint;
    assert RetainedOk(s.retained[s'.active.process.pid], s'.active.process.pid, s.tasks);
  }

  lemma ExecLeavesNothingPending(s: State, s': State, policy: FollowPolicy, info: StopInfo)
    requires Outcome(s, policy, s', info) && info.reason == ExecStopped
    ensures s'.active.pending.None?
  {
  }

  /** What a stop report says about the undebugged program. The trace is a run of it
      that ends in the present state. Unless the image or the process was exchanged the
      run was only prolonged: no armed instruction was executed on the way, and a
      completed step was exactly one move, or none if the SIGTRAP was a sent one. If RIP
      has slipped, the run starts afresh, one byte beside where the old one had come. */
  ghost predicate Told(moves: Behaviour, s: State, trace: seq<Cpu>, stepping: bool, entries: bool, why: Why,
                       policy: FollowPolicy, s': State, trace': seq<Cpu>, r: Result<StopInfo>) {
    && s.active.process.pid in s.tasks
    && FaithfulTo(moves, trace', s')
    && (r.Err? || SameProgram(r.value, policy) ==>
          && s'.active.process.pid in s'.tasks
          && ControlKept(ActiveTask(s).debug, ActiveTask(s').debug)
          && (if SteppedOnInt3(s, stepping, why) then
                trace' == [ProgramOf(s')] && ProgramOf(s') == ProgramOf(s).(rip := ProgramOf(s).rip + 1)
              else if Misread(why, r) then
                trace' == [ProgramOf(s')] && Reached(moves, trace, ProgramOf(s').(rip := ProgramOf(s').rip + 1))
              else
                && |trace| > 0 && trace <= trace'
                && Unarmed(moves, trace'[|trace| - 1..], Saved(s.active.table).Keys, entries)
                && (stepping ==> |trace'| <= |trace| + 1)
                && (r.Ok? && r.value.reason == SingleStepped ==>
                      |trace'| == |trace| + if why == Foreign(true) then 0 else 1)))
    && (r.Ok? && Adopting(r.value, policy) ==>
          s'.active.process.pid in s'.tasks && ReachedMemory(moves, trace, ProgramOf(s').mem))
    && (r.Ok? && r.value.reason == BreakpointHit ==> !stepping)
    && (r.Ok? && r.value.reason == SingleStepped ==> stepping && !Adopting(r.value, policy))
    && (r.Ok? && r.value.reason == SingleStepped && RipArmed(s) && !entries && why != Foreign(true) ==> why.Int3?)
  }

  /** The run so far was prolonged by `tail`. */
  lemma ToldByTail(moves: Behaviour, s: State, trace: seq<Cpu>, stepping: bool, entries: bool, why: Why,
                   policy: FollowPolicy, s': State, tail: seq<Cpu>, r: Result<StopInfo>)
    requires s.active.process.pid in s.tasks && |trace| > 0 && !Slipped(s, stepping, why, r)
    requires FaithfulTo(moves, trace + tail, s')
    requires Unarmed(moves, (trace + tail)[|trace| - 1..], Saved(s.active.table).Keys, entries)
    requires s'.active.process.pid in s'.tasks && ControlKept(ActiveTask(s).debug, ActiveTask(s').debug)
    requires stepping ==> |tail| <= 1
    requires r.Ok? ==> !Adopting(r.value, policy)
    requires r.Ok? && r.value.reason == BreakpointHit ==> !stepping
    requires r.Ok? && r.value.reason == SingleStepped ==>
      && stepping && |tail| == (if why == Foreign(true) then 0 else 1)
      && (RipArmed(s) && !entries && why != Foreign(true) ==> why.Int3?)
    ensures Told(moves, s, trace, stepping, entries, why, policy, s', trace + tail, r)
  {
    hide FaithfulTo, Unarmed, RipArmed, Saved, Restored, Reached, ReachedMemory;
  }

  /** RIP has slipped at the end of the run along `tail`. */
  lemma ToldBySlip(moves: Behaviour, s: State, trace: seq<Cpu>, stepping: bool, entries: bool, why: Why,
                   policy: FollowPolicy, s': State, tail: seq<Cpu>, r: Result<StopInfo>)
    requires s.active.process.pid in s.tasks && s'.active.process.pid in s'.tasks
    requires ControlKept(ActiveTask(s).debug, ActiveTask(s').debug)
    requires if SteppedOnInt3(s, stepping, why) then
               ProgramOf(s') == ProgramOf(s).(rip := ProgramOf(s).rip + 1) && (r.Ok? ==> r.value.reason != BreakpointHit)
             else
               && Misread(why, r) && !stepping && IsRun(moves, trace + tail)
               && (trace + tail)[|trace + tail| - 1] == ProgramOf(s').(rip := ProgramOf(s').rip + 1)
    requires r.Ok? ==> !Adopting(r.value, policy)
    requires r.Ok? && r.value.reason == SingleStepped ==> stepping
    ensures Told(moves, s, trace, stepping, entries, why, policy, s', [ProgramOf(s')], r)
  {
    hide Unarmed, RipArmed, Saved, Restored, ProgramOf, ReachedMemory;
  }

  /** Another image or another process is looked at, or none. */
  lemma ToldAfresh(moves: Behaviour, s: State, trace: seq<Cpu>, stepping: bool, entries: bool, why: Why,
                   policy: FollowPolicy, s': State, trace': seq<Cpu>, info: StopInfo)
    requires s.active.process.pid in s.tasks && IsRun(moves, trace)
    requires !SameProgram(info, policy) && info.reason != SingleStepped && info.reason != BreakpointHit
    requires if s'.active.process.state == Stopped then s'.active.process.pid in s'.tasks && trace' == [ProgramOf(s')]
             else trace' == trace
    requires Adopting(info, policy) ==> s'.active.process.pid in s'.tasks && ReachedMemory(moves, trace, ProgramOf(s').mem)
    ensures Told(moves, s, trace, stepping, entries, why, policy, s', trace', Ok(info))
  {
    hide Unarmed, RipArmed, Saved, ProgramOf, ReachedMemory;
  }

  lemma EndedKeepsProcess(d: Domain, state: ProcessState)
    ensures Ended(d, state).process.state == state
  {
  }

  /** The stop is one of the same program in the same process. */
  predicate SameProgram(info: StopInfo, policy: FollowPolicy) {
    && info.reason !in {ExecStopped, ExitedStop, SignaledStop, ProcessExited, ProcessSignaled}
    && !(info.forked.Some? && policy == FollowChild)
  }

  lemma AnswerIsEnd(moves: Behaviour, s: State, tasks: map<nat, Task>, stepping: bool, delivered: int, event: Event,
                    path: seq<Cpu>, cause: Cause)
    requires s.active.process.pid in s.tasks && (event.ExitReport? || event.KillReport?)
    requires Answers(moves, s.tasks, s.active.process.pid, stepping, delivered, Reply(tasks, event), path, cause)
    ensures tasks == s.tasks - {s.active.process.pid}
  {
  }

  lemma AnswerIsExec(moves: Behaviour, s: State, tasks: map<nat, Task>, stepping: bool, delivered: int,
                     path: seq<Cpu>, cause: Cause)
    requires s.active.process.pid in s.tasks
    requires Answers(moves, s.tasks, s.active.process.pid, stepping, delivered, Reply(tasks, ExecStop), path, cause)
    ensures s.active.process.pid in tasks && tasks == s.tasks[s.active.process.pid := tasks[s.active.process.pid]]
  {
  }

  lemma EndKeepsRegistry(s: State, tasks: map<nat, Task>)
    requires Consistent(s) && tasks == s.tasks - {s.active.process.pid}
    ensures Registry(s.(active := s.active.(process := s.active.process.(state := Running)), tasks := tasks))
  {
    hide Registry, Sound, Settled;
    RetainedAreTasks(s);
    RegistryFrame(s, s.active.(process := s.active.process.(state := Running)), tasks);
  }

  lemma MoveKeepsRegistry(s: State, tasks: map<nat, Task>)
    requires Consistent(s) && s.active.process.pid in tasks
    requires tasks == s.tasks[s.active.process.pid := tasks[s.active.process.pid]]
    ensures Registry(s.(active := s.active.(process := s.active.process.(state := Running)), tasks := tasks))
  {
    hide Registry, Sound, Settled;
    RetainedAreTasks(s);
    RegistryFrame(s, s.active.(process := s.active.process.(state := Running)), tasks);
  }

  lemma EndOutcome(s: State, mid: State, s': State, policy: FollowPolicy, state: ProcessState, value: int)
    requires state == Exited || state == Signaled
    requires mid == s.(active := s.active.(process := s.active.process.(state := Running)),
                       tasks := s.tasks - {s.active.process.pid})
    requires s'.nextId == s.nextId && s'.tasks == mid.tasks
    requires s.retained == map[] ==>
      && s'.active == Ended(mid.active, state).(stop := Stop(if state == Exited then ExitedStop else SignaledStop,
                                                             value, s.active.process.pid))
      && s'.retained == map[]
    requires s.retained != map[] ==>
      && HandedOver(mid, s')
      && s'.active.stop == Stop(if state == Exited then ProcessExited else ProcessSignaled, value, s.active.process.pid)
    ensures Outcome(s, policy, s', s'.active.stop)
  {
    assert s.tasks - {s.active.process.pid} - {s.active.process.pid} == s.tasks - {s.active.process.pid};
  }

  lemma ExecOutcome(s: State, s': State, policy: FollowPolicy)
    requires s.active.process.state == Stopped && s.active.process.pid in s'.tasks
    requires s'.tasks == s.tasks[s.active.process.pid := s'.tasks[s.active.process.pid]]
    requires s' == s.(active := WithoutImage(s.active.(process := s.active.process.(state := Running))).(
                        process := s.active.process.(state := Stopped),
                        stop := Stop(ExecStopped, SIGTRAP, s.active.process.pid)),
                      tasks := s'.tasks)
    ensures Outcome(s, policy, s', s'.active.stop)
  {
  }

  lemma ForkedTasksHave(s: State, tasks: map<nat, Task>, child: nat)
    requires s.active.process.pid in s.tasks && ForkedTasks(s, tasks, child)
    ensures child in tasks && s.active.process.pid in tasks && child != s.active.process.pid
    ensures tasks[child].cpu.mem == tasks[s.active.process.pid].cpu.mem
  {
  }

  lemma NeverRefused(s: State)
    ensures !RefusesFork(s, FollowParent)
  {
  }

  /** Forks the debugger does not support under its policy. */
  predicate RefusesFork(s: State, policy: FollowPolicy) {
    match policy
    case FollowParent => false
    case FollowChild => s.active.process.origin != Launched
    case FollowBoth =>
      || s.active.process.origin != Launched
      || 1 + |s.retained| >= MAX_DOMAINS
      || s.active.table != map[]
      || s.active.pending.Some?
  }

  /** A resumption that ended in an error has left the session as it was, except for
      what the program itself did. */
  ghost predicate Refused(s: State, s': State) {
    && s'.active.process == s.active.process && s'.retained == s.retained
    && s'.active.ids == s.active.ids && s'.active.table.Keys == s.active.table.Keys
    && s'.active.snapshot == s.active.snapshot && s'.active.watchpoint == s.active.watchpoint
    && OthersKept(s.tasks, s'.tasks, {s.active.process.pid})
  }

  lemma RefusedTasks(s: State, tasks: map<nat, Task>, child: nat)
    requires s.active.process.pid in s.tasks && ForkedTasks(s, tasks, child)
    ensures OthersKept(s.tasks, tasks - {child}, {s.active.process.pid})
  {
  }

  lemma AnswerIsFork(moves: Behaviour, s: State, tasks: map<nat, Task>, stepping: bool, delivered: int, child: nat,
                     path: seq<Cpu>, cause: Cause)
    requires s.active.process.pid in s.tasks
    requires Answers(moves, s.tasks, s.active.process.pid, stepping, delivered, Reply(tasks, ForkStop(child)), path, cause)
    ensures Runs(moves, path, delivered != 0) && |path| > 0 && path[0] == ActiveTask(s).cpu
    ensures ForkedTasks(s, tasks, child)
    ensures tasks[s.active.process.pid].cpu == path[|path| - 1]
    ensures stepping ==> |Tail(path, Saved(s.active.table), false)| <= 1
  {
  }

  /** The tasks right after a fork: the child is a copy of its parent's memory. */
  predicate ForkedTasks(s: State, tasks: map<nat, Task>, child: nat)
    requires s.active.process.pid in s.tasks
  {
    var pid := s.active.process.pid;
    && child !in s.tasks && child != pid && pid in tasks && child in tasks
    && tasks == s.tasks[pid := tasks[pid]][child := tasks[child]]
    && DebugKept(ActiveTask(s).debug, tasks[pid].debug)
    && tasks[child].cpu.mem == tasks[pid].cpu.mem
  }

  lemma ForkStopKeepsConsistent(moves: Behaviour, s: State, tasks: map<nat, Task>, child: nat, path: seq<Cpu>,
                                trace: seq<Cpu>, entries: bool)
    requires Consistent(s) && s.active.process.state == Stopped && s.active.process.pid in s.tasks
    requires Discreet(moves, s.active.table.Keys) && FaithfulTo(moves, trace, s)
    requires Runs(moves, path, entries) && |path| > 0 && path[0] == ActiveTask(s).cpu
    requires ForkedTasks(s, tasks, child) && tasks[s.active.process.pid].cpu == path[|path| - 1]
    ensures Consistent(s.(tasks := tasks)) && child !in s.retained
    ensures ControlKept(ActiveTask(s).debug, tasks[s.active.process.pid].debug)
    ensures s.active.snapshot.Some? ==> s.active.snapshot.value.tid == s.active.process.pid
    ensures var tail := Tail(path, Saved(s.active.table), false);
            && FaithfulTo(moves, trace + tail, s.(tasks := tasks))
            && Unarmed(moves, (trace + tail)[|trace| - 1..], Saved(s.active.table).Keys, entries)
  {
    hide Sound, Discreet, Runs, Registry, IsRun, Tail, Unarmed, Lift, Saved;
    var pid := s.active.process.pid;
    StoppedIsActive(s);
    SnapshotIsOwn(s.active, ActiveTask(s));
    RetainedAreTasks(s);
    RunKeepsSound(moves, s.active, ActiveTask(s), tasks[pid], path, entries);
    RegistryFrame(s, s.active, tasks);
    StopKeepsFaith(moves, s.active, ActiveTask(s), s.active, tasks[pid], path, trace, entries);
  }

  lemma DroppingChildKeepsConsistent(moves: Behaviour, s: State, child: nat, trace: seq<Cpu>)
    requires Consistent(s) && s.active.process.state == Stopped
    requires child !in s.retained && child != s.active.process.pid
    ensures Consistent(s.(tasks := s.tasks - {child}))
    ensures FaithfulTo(moves, trace, s) ==> FaithfulTo(moves, trace, s.(tasks := s.tasks - {child}))
  {
    hide Sound, Settled, Registry, IsRun, Logical;
    RetainedAreTasks(s);
    RegistryFrame(s, s.active, s.tasks - {child});
  }

  lemma SameProgramKeepsFaith(moves: Behaviour, trace: seq<Cpu>, s: State, s': State)
    requires s.active.process.pid in s.tasks && s.active.process.state == Stopped
    requires s'.active.process.pid in s'.tasks
    requires ProgramOf(s') == ProgramOf(s)
    ensures FaithfulTo(moves, trace, s) ==> FaithfulTo(moves, trace, s')
  {
    hide ProgramOf, IsRun;
  }

  lemma ReleasingIsForking(s: State, mid: State, s': State, child: nat)
    requires s.active.process.pid in s.tasks && ForkedTasks(s, mid.tasks, child) && mid == s.(tasks := mid.tasks)
    requires s.active.snapshot.Some? ==> s.active.snapshot.value.tid == s.active.process.pid
    requires s' == mid.(active := s.active.(stop := ForkReport(s.active.process.pid, child, s.active.process.pid, false)),
                        tasks := mid.tasks[child := Released(s.active, mid.tasks[child])])
    ensures Outcome(s, FollowParent, s', s'.active.stop)
  {
    hide Restored, Saved, DebugKept;
  }

  lemma AdoptingIsForking(s: State, mid: State, s': State, child: nat)
    requires s.active.process.pid in s.tasks && ForkedTasks(s, mid.tasks, child) && mid == s.(tasks := mid.tasks)
    requires s.active.snapshot.Some? ==> s.active.snapshot.value.tid == s.active.process.pid
    requires var pid, task := s.active.process.pid, mid.tasks[child];
             s' == mid.(active := Adopted(s.active, child).(stop := ForkReport(pid, child, child, false)),
                        tasks := mid.tasks[pid := Released(s.active, mid.tasks[pid])][child := HandedDown(s.active, mid.tasks[pid], task)])
    ensures Outcome(s, FollowChild, s', s'.active.stop)
  {
    hide Restored, Saved, DebugKept, Inherited;
  }

  lemma RetainingIsForking(s: State, mid: State, s': State, child: nat)
    requires s.active.process.pid in s.tasks && ForkedTasks(s, mid.tasks, child) && mid == s.(tasks := mid.tasks)
    requires s.active.table == map[] && s.active.pending.None?
    requires var pid, task := s.active.process.pid, mid.tasks[child];
             s' == mid.(active := s.active.(stop := ForkReport(pid, child, pid, true)),
                        retained := mid.retained[child := FreshDomain(s.active, child)],
                        tasks := mid.tasks[child := HandedDown(s.active, mid.tasks[pid], task)])
    ensures Outcome(s, FollowBoth, s', s'.active.stop)
  {
    hide DebugKept, Inherited, FreshDomain;
  }

  predicate TrapReport(stop: StopInfo, stepping: bool) {
    && stop.reason in {WatchpointHit, BreakpointHit, SingleStepped, TrapStop}
    && stop.forked.None?
    && (stop.reason == SingleStepped ==> stepping)
    && (stop.reason == BreakpointHit ==> !stepping)
  }

  lemma AnswerIsTrap(moves: Behaviour, s: State, tasks: map<nat, Task>, stepping: bool, delivered: int,
                     path: seq<Cpu>, cause: Cause)
    requires s.active.process.pid in s.tasks
    requires Answers(moves, s.tasks, s.active.process.pid, stepping, delivered, Reply(tasks, SignalStop(SIGTRAP)), path,
                     cause)
    ensures Runs(moves, path, delivered != 0) && |path| > 0 && path[0] == ActiveTask(s).cpu && (stepping ==> |path| <= 2)
    ensures s.active.process.pid in tasks && tasks == s.tasks[s.active.process.pid := tasks[s.active.process.pid]]
    ensures Trapped(ActiveTask(s), tasks[s.active.process.pid], stepping, path, cause)
    ensures stepping ==> |Tail(path, Saved(s.active.table), cause.FetchedTrap?)| <= 1
  {
  }

  lemma TrapLeavesMemory(before: Task, after: Task, stepping: bool, path: seq<Cpu>, cause: Cause)
    requires |path| > 0 && Trapped(before, after, stepping, path, cause)
    ensures after.cpu.mem == path[|path| - 1].mem
    ensures ControlKept(before.debug, after.debug)
  {
  }

  /** A SIGTRAP stop, classified and repaired. */
  lemma TrapKeepsConsistent(moves: Behaviour, s: State, after: Task, policy: FollowPolicy, stepping: bool, entries: bool,
                            path: seq<Cpu>, cause: Cause)
    requires Consistent(s) && s.active.process.state == Stopped && s.active.process.pid in s.tasks
    requires Discreet(moves, s.active.table.Keys) && (!stepping ==> s.active.pending.None?)
    requires Runs(moves, path, entries) && |path| > 0 && path[0] == ActiveTask(s).cpu
    requires Trapped(ActiveTask(s), after, stepping, path, cause)
    ensures Sound(s.active, after) && Overlaid(after.cpu.mem, s.active.table)
    ensures var (d, t) := Classify(s.active, after, stepping);
            var s' := s.(active := d, tasks := s.tasks[s.active.process.pid := t]);
            && Consistent(s') && Outcome(s, policy, s', d.stop) && d.process == s.active.process
            && TrapReport(d.stop, stepping)
  {
    hide Consistent, Discreet, Runs, Trapped, Registry, MapsAgree, Overlaid, OutIffPending, WatchHeld, Settled,
         Forking, HandedOver, WithoutImage, Ended, WatchReported, Acknowledged, RepairedTask;
    var pid := s.active.process.pid;
    StoppedIsActive(s);
    ConsistentHasRegistry(s);
    TrapLeavesMemory(ActiveTask(s), after, stepping, path, cause);
    RunKeepsSound(moves, s.active, ActiveTask(s), after, path, entries);
    ClassifyKeepsSound(s.active, after, stepping);
    ClassifySettles(s.active, after, stepping);
    ClassifiedOutcome(s, after, policy, stepping);
    hide Sound, Classify;
    var (d, t) := Classify(s.active, after, stepping);
    MoveKeepsConsistent(s, d, s.tasks[pid := t]);
  }

  lemma ClassifiedOutcome(s: State, after: Task, policy: FollowPolicy, stepping: bool)
    requires s.active.process.pid in s.tasks
    ensures var (d, t) := Classify(s.active, after, stepping);
            var s' := s.(active := d, tasks := s.tasks[s.active.process.pid := t]);
            && Outcome(s, policy, s', d.stop)
            && TrapReport(d.stop, stepping)
  {
    hide Forking, HandedOver, WithoutImage, Ended, Acknowledged;
  }

  /** Single-stepping from an armed byte executes the INT3 instead of the program's
      instruction: RIP moves by one byte and nothing else happens. Only a delivered
      signal or a sent SIGTRAP comes before that. */
  lemma StepOnArmedByte(moves: Behaviour, d: Domain, before: Task, after: Task, path: seq<Cpu>, cause: Cause)
    requires Sound(d, before) && before.cpu.rip in Saved(d.table)
    requires Runs(moves, path, false) && path[0] == before.cpu && Trapped(before, after, true, path, cause)
    ensures cause.FetchedTrap? || cause.SentTrap?
    ensures var (d', t') := Classify(d, after, true);
            Logical(d', t') == if cause.SentTrap? then Logical(d, before) else Logical(d, before).(rip := before.cpu.rip + 1)
  {
    assert Mapped(before.cpu.mem, before.cpu.rip, WORD) && before.cpu.rip in before.cpu.mem;
    assert FetchesTrap(path[0]);
    assert |path| > 1 ==> Advance(moves, path[0], path[1], false);
  }

  lemma AnswerIsSignal(moves: Behaviour, s: State, tasks: map<nat, Task>, stepping: bool, delivered: int, signal: int,
                       path: seq<Cpu>, cause: Cause)
    requires s.active.process.pid in s.tasks && signal != SIGTRAP
    requires Answers(moves, s.tasks, s.active.process.pid, stepping, delivered, Reply(tasks, SignalStop(signal)), path,
                     cause)
    ensures Runs(moves, path, delivered != 0) && path[0] == ActiveTask(s).cpu
    ensures s.active.process.pid in tasks && tasks == s.tasks[s.active.process.pid := tasks[s.active.process.pid]]
    ensures tasks[s.active.process.pid].cpu == path[|path| - 1]
    ensures DebugKept(ActiveTask(s).debug, tasks[s.active.process.pid].debug)
    ensures stepping ==> |Tail(path, Saved(s.active.table), false)| <= 1
  {
  }

  /** A stop for a signal that is not SIGTRAP. */
  lemma SignalKeepsConsistent(moves: Behaviour, s: State, tasks: map<nat, Task>, policy: FollowPolicy,
                              signal: int, path: seq<Cpu>, entries: bool)
    requires Consistent(s) && s.active.process.state == Stopped && s.active.process.pid in s.tasks
    requires Discreet(moves, s.active.table.Keys)
    requires Runs(moves, path, entries) && path[0] == ActiveTask(s).cpu
    requires s.active.process.pid in tasks && tasks == s.tasks[s.active.process.pid := tasks[s.active.process.pid]]
    requires tasks[s.active.process.pid].cpu == path[|path| - 1]
    requires DebugKept(ActiveTask(s).debug, tasks[s.active.process.pid].debug)
    ensures var pid := s.active.process.pid;
            var d := s.active.(signals := s.active.signals[pid := signal], stop := Stop(SignalReceived, signal, pid));
            && Consistent(s.(active := d, tasks := tasks))
            && Outcome(s, policy, s.(active := d, tasks := tasks), d.stop)
  {
    hide Consistent, Sound, Discreet, Runs, Registry, Forking, HandedOver, WithoutImage, Ended;
    var pid := s.active.process.pid;
    var d := s.active.(signals := s.active.signals[pid := signal], stop := Stop(SignalReceived, signal, pid));
    StoppedIsActive(s);
    ConsistentHasRegistry(s);
    RunKeepsSound(moves, s.active, ActiveTask(s), tasks[pid], path, entries);
    SoundFrame(s.active, tasks[pid], d, tasks[pid]);
    MoveKeepsConsistent(s, d, tasks);
  }

  /** A stop that leaves RIP and memory as the run left them has taken the undebugged
      program exactly along the lifted path. */
  lemma StopKeepsFaith(moves: Behaviour, d: Domain, before: Task, d': Domain, after: Task, path: seq<Cpu>,
                       trace: seq<Cpu>, entries: bool)
    requires Sound(d, before) && Discreet(moves, d.table.Keys)
    requires Runs(moves, path, entries) && path[0] == before.cpu && after.cpu == path[|path| - 1] && d'.table == d.table
    requires IsRun(moves, trace) && trace[|trace| - 1] == Logical(d, before)
    ensures var tail := Tail(path, Saved(d.table), false);
            && IsRun(moves, trace + tail)
            && (trace + tail)[|trace + tail| - 1] == Logical(d', after)
            && Unarmed(moves, (trace + tail)[|trace| - 1..], Saved(d.table).Keys, entries)
  {
    TailContinuesRun(moves, d.table, path, false, trace, entries);
    hide Discreet, Runs, IsRun, Tail, Unarmed, Restored, Saved;
  }

  lemma SignalKeepsFaith(moves: Behaviour, s: State, tasks: map<nat, Task>, signal: int, path: seq<Cpu>,
                         trace: seq<Cpu>, entries: bool)
    requires Consistent(s) && s.active.process.state == Stopped && s.active.process.pid in s.tasks
    requires Discreet(moves, s.active.table.Keys) && FaithfulTo(moves, trace, s)
    requires Runs(moves, path, entries) && path[0] == ActiveTask(s).cpu
    requires s.active.process.pid in tasks && tasks[s.active.process.pid].cpu == path[|path| - 1]
    ensures var pid := s.active.process.pid;
            var d := s.active.(signals := s.active.signals[pid := signal], stop := Stop(SignalReceived, signal, pid));
            var tail := Tail(path, Saved(s.active.table), false);
            && FaithfulTo(moves, trace + tail, s.(active := d, tasks := tasks))
            && Unarmed(moves, (trace + tail)[|trace| - 1..], Saved(s.active.table).Keys, entries)
  {
    hide Consistent, Discreet, Runs, Sound, IsRun, Tail, Unarmed, Lift, Saved;
    var pid := s.active.process.pid;
    StoppedIsActive(s);
    StopKeepsFaith(moves, s.active, ActiveTask(s), s.active, tasks[pid], path, trace, entries);
  }

  /** The trace after a classified SIGTRAP. */
  ghost function TraceAfter(s: State, stepping: bool, why: Why, s': State, longer: seq<Cpu>): seq<Cpu>
    requires s.active.process.pid in s.tasks && s'.active.process.pid in s'.tasks
  {
    if Slipped(s, stepping, why, Ok(s'.active.stop)) then [ProgramOf(s')] else longer
  }

  /** What a SIGTRAP stop, classified, says about the program. */
  lemma TrapIsTold(moves: Behaviour, s: State, after: Task, policy: FollowPolicy, stepping: bool, entries: bool,
                   path: seq<Cpu>, cause: Cause, trace: seq<Cpu>)
    requires Consistent(s) && s.active.process.state == Stopped && s.active.process.pid in s.tasks
    requires Discreet(moves, s.active.table.Keys) && (!stepping ==> s.active.pending.None?) && FaithfulTo(moves, trace, s)
    requires Runs(moves, path, entries) && |path| > 0 && path[0] == ActiveTask(s).cpu && (stepping ==> |path| <= 2)
    requires Trapped(ActiveTask(s), after, stepping, path, cause)
    ensures var (d, t) := Classify(s.active, after, stepping);
            var s' := s.(active := d, tasks := s.tasks[s.active.process.pid := t]);
            var why, longer := WhyOf(s.active, cause), trace + Tail(path, Saved(s.active.table), cause.FetchedTrap?);
            && d.process == s.active.process
            && Told(moves, s, trace, stepping, entries, why, policy, s', TraceAfter(s, stepping, why, s', longer),
                    Ok(d.stop))
  {
    hide Consistent, Discreet, Runs, Sound, Settled, Trapped, IsRun, Tail, Unarmed, Lift, Saved, Classify, Told, Slipped;
    var (d, t) := Classify(s.active, after, stepping);
    var s' := s.(active := d, tasks := s.tasks[s.active.process.pid := t]);
    var why, tail := WhyOf(s.active, cause), Tail(path, Saved(s.active.table), cause.FetchedTrap?);
    StoppedIsActive(s);
    ClassifyKeepsProcess(s.active, after, stepping);
    TrapLeavesMemory(ActiveTask(s), after, stepping, path, cause);
    ClassifiedOutcome(s, after, policy, stepping);
    TrapKeepsFaith(moves, s.active, ActiveTask(s), after, stepping, entries, path, cause, trace);
    TailOfTrap(moves, s.active, ActiveTask(s), after, stepping, path, cause);
    LogicalRip(s.active, ActiveTask(s));
    LogicalRip(d, t);
    RunIsNotEmpty(moves, trace);
    TrapIsToldBy(moves, s, s', policy, stepping, entries, cause, trace, tail);
  }

  lemma FaithfulIsRun(moves: Behaviour, trace: seq<Cpu>, s: State)
    requires FaithfulTo(moves, trace, s)
    ensures IsRun(moves, trace) && |trace| > 0
  {
  }

  lemma FaithfulReaches(moves: Behaviour, trace: seq<Cpu>, tail: seq<Cpu>, s: State)
    requires FaithfulTo(moves, trace + tail, s) && s.active.process.state == Stopped && s.active.process.pid in s.tasks
    ensures ReachedMemory(moves, trace, ProgramOf(s).mem)
  {
    hide ProgramOf;
    var run := trace + tail;
    assert IsRun(moves, run) && trace <= run && run[|run| - 1].mem == ProgramOf(s).mem;
  }

  lemma RunSince(moves: Behaviour, trace: seq<Cpu>, longer: seq<Cpu>)
    requires IsRun(moves, trace) && IsRun(moves, longer) && trace <= longer
    ensures var run := longer[|trace| - 1..];
            IsRun(moves, run) && run[0] == trace[|trace| - 1] && run[|run| - 1] == longer[|longer| - 1]
  {
  }

  lemma RunIsNotEmpty(moves: Behaviour, trace: seq<Cpu>)
    requires IsRun(moves, trace)
    ensures |trace| > 0
  {
  }

  lemma TailOfTrap(moves: Behaviour, d: Domain, before: Task, after: Task, stepping: bool, path: seq<Cpu>, cause: Cause)
    requires |path| > 0 && Trapped(before, after, stepping, path, cause) && (stepping ==> |path| <= 2)
    ensures stepping ==> |Tail(path, Saved(d.table), cause.FetchedTrap?)| <= 1
  {
  }

  lemma TrapIsToldBy(moves: Behaviour, s: State, s': State, policy: FollowPolicy, stepping: bool, entries: bool,
                     cause: Cause, trace: seq<Cpu>, tail: seq<Cpu>)
    requires s.active.process.pid in s.tasks && s'.active.process == s.active.process && s'.active.process.pid in s'.tasks
    requires s.active.process.state == Stopped && |trace| > 0
    requires ControlKept(ActiveTask(s).debug, ActiveTask(s').debug) && TrapReport(s'.active.stop, stepping)
    requires stepping ==> |tail| <= 1
    requires IsRun(moves, trace + tail)
    requires Unarmed(moves, (trace + tail)[|trace| - 1..], Saved(s.active.table).Keys, entries)
    requires var stop, why, end := s'.active.stop, WhyOf(s.active, cause), (trace + tail)[|trace + tail| - 1];
             && (if stepping && cause.FetchedTrap? && RipArmed(s) then
                   ProgramOf(s') == ProgramOf(s).(rip := ProgramOf(s).rip + 1) && stop.reason != BreakpointHit
                 else if why.Foreign? && stop.reason == BreakpointHit then
                   end == ProgramOf(s').(rip := ProgramOf(s').rip + 1)
                 else
                   && end == ProgramOf(s')
                   && (stop.reason == SingleStepped ==> |tail| == if cause.SentTrap? then 0 else 1))
             && (stop.reason == SingleStepped && RipArmed(s) && !entries && !cause.SentTrap? ==> cause.FetchedTrap?)
    ensures var why := WhyOf(s.active, cause);
            Told(moves, s, trace, stepping, entries, why, policy, s', TraceAfter(s, stepping, why, s', trace + tail),
                 Ok(s'.active.stop))
  {
    hide IsRun, Unarmed, Saved, ProgramOf, RipArmed, Told;
    var why, r := WhyOf(s.active, cause), Ok(s'.active.stop);
    if Slipped(s, stepping, why, r) {
      ToldBySlip(moves, s, trace, stepping, entries, why, policy, s', tail, r);
    } else {
      ToldByTail(moves, s, trace, stepping, entries, why, policy, s', tail, r);
    }
  }

  // ----- continuing -----

  lemma OverOneInstruction(s: State, policy: FollowPolicy, stopped: State, info: StopInfo)
    requires Consistent(s) && s.active.process.state == Stopped && s.active.pending.Some?
    requires Outcome(s, policy, stopped, info) && info.reason == SingleStepped && Consistent(stopped)
    ensures s.active.pending.value.address in s.active.table && info.forked.None?
    ensures SteppedOver(stopped).active.process == s.active.process && SteppedOver(stopped).active.ids == s.active.ids
    ensures SteppedOver(stopped).active.table.Keys == s.active.table.Keys && SteppedOver(stopped).active.pending.None?
    ensures SteppedOver(stopped).retained == s.retained && SteppedOver(stopped).nextId == s.nextId
  {
    StoppedIsActive(s);
    PendingIsInTable(s.active, ActiveTask(s));
    hide Consistent, Sound, Settled, OthersKept;
  }

  lemma OverKeepsOthers(s: State, policy: FollowPolicy, stopped: State, info: StopInfo)
    requires Outcome(s, policy, stopped, info) && info.reason == SingleStepped
    ensures SteppedOver(stopped).active.snapshot == s.active.snapshot
    ensures SteppedOver(stopped).active.watchpoint == s.active.watchpoint
    ensures OthersKept(s.tasks, SteppedOver(stopped).tasks, {s.active.process.pid})
  {
  }

  /** Refused in the resumption that came after a displaced step. */
  lemma RefusedAfterStep(s: State, policy: FollowPolicy, stepped: State, step: StopInfo, start: State, s': State)
    requires Consistent(s) && s.active.process.state == Stopped && s.active.pending.Some? && Consistent(stepped)
    requires Outcome(s, policy, stepped, step) && step.reason == SingleStepped
    requires start == SteppedOver(stepped).(active := SteppedOver(stepped).active.(signals := start.active.signals))
    requires s'.active == start.active && s'.retained == start.retained
    requires OthersKept(start.tasks, s'.tasks, {start.active.process.pid})
    ensures Refused(s, s')
  {
    hide Consistent, Outcome, SteppedOver;
    OverOneInstruction(s, policy, stepped, step);
    OverKeepsOthers(s, policy, stepped, step);
  }

  lemma KeepsItself(tasks: map<nat, Task>, touched: set<nat>)
    ensures OthersKept(tasks, tasks, touched)
  {
  }

  ghost predicate AtPendingStep(s: State) {
    s.active.process.state == Stopped && s.active.process.pid in s.tasks && s.active.pending.Some? ==>
      ActiveTask(s).cpu.rip == s.active.pending.value.address && s.active.pending.value.tid == s.active.process.pid
  }

  /** A displaced step starts on a byte that is the program's own. */
  lemma PendingIsNotArmed(s: State)
    requires Consistent(s) && s.active.process.state == Stopped && AtPendingStep(s) && s.active.pending.Some?
    ensures s.active.process.pid in s.tasks && !RipArmed(s)
  {
    StoppedIsActive(s);
    hide Consistent, MapsAgree, Overlaid, WatchHeld, Settled;
  }

  lemma SignalsDoNotMatter(moves: Behaviour, s: State, s': State, trace: seq<Cpu>)
    requires Consistent(s) && s.active.process.state == Stopped && FaithfulTo(moves, trace, s)
    requires s' == s.(active := s.active.(signals := s'.active.signals))
    ensures Consistent(s') && s.active.process.pid in s.tasks && ActiveTask(s') == ActiveTask(s)
    ensures ProgramOf(s') == ProgramOf(s) && RipArmed(s') == RipArmed(s) && FaithfulTo(moves, trace, s')
    ensures Saved(s'.active.table) == Saved(s.active.table)
  {
    StoppedIsActive(s);
    SoundFrame(s.active, ActiveTask(s), s'.active, ActiveTask(s));
    hide Sound, RetainedOk, IdsDisjoint, IsRun, Restored, Saved;
    RegistryFrame(s, s'.active, s.tasks);
  }

  /** From what is told of a stop, the run that has led to it from where `base` ends, a
      part of the trace. */
  lemma ToldRanFrom(moves: Behaviour, base: seq<Cpu>, s: State, trace: seq<Cpu>, stepping: bool, entries: bool, why: Why,
                    policy: FollowPolicy, s': State, trace': seq<Cpu>, r: Result<StopInfo>)
    requires Told(moves, s, trace, stepping, entries, why, policy, s', trace', r) && !SteppedOnInt3(s, stepping, why)
    requires IsRun(moves, base) && base <= trace
    ensures (r.Err? || SameProgram(r.value, policy)) && s'.active.process.state == Stopped ==>
      RanBeside(moves, base[|base| - 1], ProgramOf(s'))
    ensures r.Ok? && Adopting(r.value, policy) ==> RanMemory(moves, base[|base| - 1], ProgramOf(s').mem)
  {
    hide ProgramOf, RipArmed, Unarmed, Saved;
    if (r.Err? || SameProgram(r.value, policy)) && s'.active.process.state == Stopped {
      ghost var longer := trace';
      if Misread(why, r) {
        longer :| IsRun(moves, longer) && trace <= longer
          && longer[|longer| - 1] == ProgramOf(s').(rip := ProgramOf(s').rip + 1);
      }
      RunSince(moves, base, longer);
      var run := longer[|base| - 1..];
      assert IsRun(moves, run) && run[0] == base[|base| - 1].(rip := run[0].rip);
    }
    if r.Ok? && Adopting(r.value, policy) {
      var longer: seq<Cpu> :| IsRun(moves, longer) && trace <= longer && longer[|longer| - 1].mem == ProgramOf(s').mem;
      RunSince(moves, base, longer);
      var run := longer[|base| - 1..];
      assert IsRun(moves, run) && run[0] == base[|base| - 1].(rip := run[0].rip);
    }
  }

  lemma ToldRan(moves: Behaviour, s: State, trace: seq<Cpu>, stepping: bool, entries: bool, why: Why, policy: FollowPolicy,
                s': State, trace': seq<Cpu>, r: Result<StopInfo>)
    requires Told(moves, s, trace, stepping, entries, why, policy, s', trace', r) && FaithfulTo(moves, trace, s)
    requires s.active.process.state == Stopped
    ensures (r.Err? || SameProgram(r.value, policy)) && s'.active.process.state == Stopped ==>
      RanBeside(moves, ProgramOf(s), ProgramOf(s'))
    ensures r.Ok? && Adopting(r.value, policy) ==> RanMemory(moves, ProgramOf(s), ProgramOf(s').mem)
  {
    hide ProgramOf, RipArmed, Unarmed, Saved;
    if !SteppedOnInt3(s, stepping, why) {
      ToldRanFrom(moves, trace, s, trace, stepping, entries, why, policy, s', trace', r);
    } else {
      if (r.Err? || SameProgram(r.value, policy)) && s'.active.process.state == Stopped {
        var run := [ProgramOf(s)];
        assert IsRun(moves, run) && run[0] == ProgramOf(s).(rip := run[0].rip);
      }
      if r.Ok? && Adopting(r.value, policy) {
        var longer: seq<Cpu> :| IsRun(moves, longer) && trace <= longer && longer[|longer| - 1].mem == ProgramOf(s').mem;
        RunSince(moves, trace, longer);
        var run := longer[|trace| - 1..];
        assert IsRun(moves, run) && run[0] == ProgramOf(s).(rip := run[0].rip);
      }
    }
  }

  lemma ContinuedByStep(moves: Behaviour, s: State, trace: seq<Cpu>, entries: bool, why: Why, policy: FollowPolicy,
                        s': State, trace': seq<Cpu>, r: Result<StopInfo>)
    requires Told(moves, s, trace, true, false, why, policy, s', trace', r) && FaithfulTo(moves, trace, s)
    requires s.active.process.state == Stopped && s.active.pending.Some?
    requires r.Err? || SameProgram(r.value, policy) ==> s'.active.process.state == Stopped
    ensures Continued(moves, s, trace, entries, why, policy, s', trace', r)
  {
    ToldRan(moves, s, trace, true, false, why, policy, s', trace', r);
    if (r.Err? || SameProgram(r.value, policy)) && !RipArmed(s) {
      assert |trace'[|trace|..]| <= 1;
    }
    hide FaithfulTo, RipArmed, ProgramOf, RanMemory, RanBeside, Reached;
  }

  /** Nothing was done. */
  lemma ContinuedByRefusal(moves: Behaviour, s: State, trace: seq<Cpu>, entries: bool, why: Why, policy: FollowPolicy,
                           error: Error)
    requires s.active.process.pid in s.tasks && !Misread(why, Err(error))
    ensures Continued(moves, s, trace, entries, why, policy, s, trace, Err(error))
  {
    var run := [ProgramOf(s)];
    assert IsRun(moves, run) && run[0] == ProgramOf(s).(rip := run[0].rip);
    hide ProgramOf, RipArmed;
  }

  /** After a completed displaced step the session can go on from where it is. */
  lemma StillGoing(moves: Behaviour, s: State, trace: seq<Cpu>, why: Why, policy: FollowPolicy,
                   s': State, trace': seq<Cpu>, r: Result<StopInfo>)
    requires Told(moves, s, trace, true, false, why, policy, s', trace', r) && r.Ok? && r.value.reason == SingleStepped
    requires s.active.process.state == Stopped && FaithfulTo(moves, trace, s)
    requires r.value.forked.None? && s.active.pending.Some? && s'.active.process.state == Stopped
    ensures s'.active.process.pid in s'.tasks && ControlKept(ActiveTask(s).debug, ActiveTask(s').debug)
    ensures if Unfinished(s) then ProgramOf(s') == ProgramOf(s).(rip := ProgramOf(s').rip)
            else trace <= trace' && |trace'| <= |trace| + 1 && |trace| > 0
  {
    hide Unarmed, RipArmed, ProgramOf;
    if Unfinished(s) && why == Foreign(true) {
      assert trace' == trace;
    }
  }

  lemma StoppedInStep(s: State, policy: FollowPolicy, stopped: State, info: StopInfo)
    requires s.active.pending.Some? && Outcome(s, policy, stopped, info) && Consistent(stopped)
    ensures AfterContinue(s, policy, s, stopped, SteppedOver(stopped), info)
  {
  }

  lemma StoppedInRun(s: State, policy: FollowPolicy, start: State, stopped: State, info: StopInfo)
    requires Outcome(start, policy, stopped, info) && start.active.pending.None?
    requires start.retained == s.retained && start.nextId == s.nextId
    requires start.active.process == s.active.process && start.active.ids == s.active.ids
    requires start.active.table.Keys == s.active.table.Keys && start.active.snapshot == s.active.snapshot
    requires OthersKept(s.tasks, start.tasks, {s.active.process.pid}) && Consistent(stopped)
    ensures AfterContinue(s, policy, start, stopped, stopped, info)
  {
  }

  /** One displaced step, and then on. */
  lemma StoppedAfterStep(s: State, policy: FollowPolicy, stepped: State, step: StopInfo, start: State, stopped: State,
                         info: StopInfo)
    requires Consistent(s) && s.active.process.state == Stopped && s.active.pending.Some? && Consistent(stepped)
    requires Outcome(s, policy, stepped, step) && step.reason == SingleStepped
    requires start == SteppedOver(stepped).(active := SteppedOver(stepped).active.(signals := start.active.signals))
    requires Outcome(start, policy, stopped, info) && Consistent(stopped)
    ensures AfterContinue(s, policy, start, stopped, stopped, info)
  {
    hide Consistent, Outcome, SteppedOver, OthersKept;
    OverOneInstruction(s, policy, stepped, step);
    OverKeepsOthers(s, policy, stepped, step);
    StoppedInRun(s, policy, start, stopped, info);
  }

  /** The session was resumed for good from `start`, with a `continue` issued in `s`. */
  ghost predicate Starts(moves: Behaviour, s: State, trace: seq<Cpu>, start: State, startTrace: seq<Cpu>) {
    && s.active.process.pid in s.tasks && start.active.process.pid in start.tasks
    && start.active.table.Keys == s.active.table.Keys
    && ControlKept(ActiveTask(s).debug, ActiveTask(start).debug)
    && (if Unfinished(s) then ProgramOf(start) == ProgramOf(s).(rip := ProgramOf(start).rip)
        else
          && IsRun(moves, trace) && trace[|trace| - 1] == ProgramOf(s)
          && trace <= startTrace && |startTrace| <= |trace| + 1)
  }

  lemma StartsItself(moves: Behaviour, s: State, trace: seq<Cpu>)
    requires s.active.process.pid in s.tasks && FaithfulTo(moves, trace, s) && s.active.process.state == Stopped
    ensures Starts(moves, s, trace, s, trace)
  {
    hide ProgramOf, RipArmed, IsRun;
  }

  lemma ContinuedByRun(moves: Behaviour, s: State, trace: seq<Cpu>, start: State, startTrace: seq<Cpu>, entries: bool,
                       why: Why,
                       policy: FollowPolicy, s': State, trace': seq<Cpu>, r: Result<StopInfo>)
    requires Told(moves, start, startTrace, false, entries, why, policy, s', trace', r)
    requires r.Ok? && r.value.reason == BreakpointHit ==> AboutToExecute(start, s', r.value)
    requires Consistent(start) && start.active.process.state == Stopped && start.active.pending.None?
    requires FaithfulTo(moves, startTrace, start) && Starts(moves, s, trace, start, startTrace)
    requires r.Err? || SameProgram(r.value, policy) ==> s'.active.process.state == Stopped
    ensures Continued(moves, s, trace, entries, why, policy, s', trace', r)
  {
    hide Consistent, SameProgram, Outcome, ProgramOf, RipArmed, RanBeside, RanMemory, IsRun, Unarmed, Reached, ReachedMemory;
    AllInPlace(start);
    if Unfinished(s) {
      ToldRan(moves, start, startTrace, false, entries, why, policy, s', trace', r);
      if (r.Err? || SameProgram(r.value, policy)) {
        RanFromBeside(moves, ProgramOf(s), ProgramOf(start), ProgramOf(s'));
      }
      if r.Ok? && Adopting(r.value, policy) {
        RanMemoryFromBeside(moves, ProgramOf(s), ProgramOf(start), ProgramOf(s').mem);
      }
    } else {
      ToldRanFrom(moves, trace, start, startTrace, false, entries, why, policy, s', trace', r);
      if r.Err? || SameProgram(r.value, policy) {
        if Misread(why, r) {
          ReachedEarlier(moves, trace, startTrace, ProgramOf(s').(rip := ProgramOf(s').rip + 1));
        } else {
          UnarmedFrom(moves, trace', |startTrace| - 1, |trace|, s.active.table.Keys, entries);
        }
      }
    }
  }

  lemma RanFromBeside(moves: Behaviour, c: Cpu, c': Cpu, d: Cpu)
    requires RanBeside(moves, c', d) && c' == c.(rip := c'.rip)
    ensures RanBeside(moves, c, d)
  {
    var run: seq<Cpu> :| IsRun(moves, run) && run[0] == c'.(rip := run[0].rip)
      && run[|run| - 1] == d.(rip := run[|run| - 1].rip);
    assert run[0] == c.(rip := run[0].rip);
  }

  lemma RanMemoryFromBeside(moves: Behaviour, c: Cpu, c': Cpu, mem: Memory)
    requires RanMemory(moves, c', mem) && c' == c.(rip := c'.rip)
    ensures RanMemory(moves, c, mem)
  {
    var run: seq<Cpu> :| IsRun(moves, run) && run[0] == c'.(rip := run[0].rip) && run[|run| - 1].mem == mem;
    assert run[0] == c.(rip := run[0].rip);
  }

  lemma ReachedEarlier(moves: Behaviour, trace: seq<Cpu>, longer: seq<Cpu>, c: Cpu)
    requires trace <= longer && Reached(moves, longer, c)
    ensures Reached(moves, trace, c)
  {
  }

  /** A run with nothing pending leaves nothing pending but a breakpoint just hit. */
  lemma PendingAfterRun(s: State, policy: FollowPolicy, s': State, info: StopInfo)
    requires Consistent(s) && s.active.process.state == Stopped && s.active.pending.None?
    requires Outcome(s, policy, s', info)
    ensures AtPendingStep(s')
  {
    hide Consistent, Registry, Logical, OthersKept;
    if info.reason in {ProcessExited, ProcessSignaled} {
      ConsistentHasRegistry(s);
      SurvivorHasNothingPending(s, s');
    } else if info.reason == BreakpointHit {
    } else if info.reason == ExecStopped {
    } else {
      PendingCarriesOver(s, s', policy, info);
    }
  }

  lemma AllInPlace(s: State)
    requires Consistent(s) && s.active.process.state == Stopped && s.active.pending.None?
    ensures Saved(s.active.table).Keys == s.active.table.Keys
  {
    StoppedIsActive(s);
    hide Consistent, MapsAgree, Overlaid, WatchHeld, Settled;
    forall a | a in s.active.table
      ensures a in Saved(s.active.table)
    {
    }
  }

  lemma UnarmedFrom(moves: Behaviour, states: seq<Cpu>, i: nat, j: nat, armed: set<int>, entries: bool)
    requires i <= j <= |states| && Unarmed(moves, states[i..], armed, entries)
    ensures Unarmed(moves, states[j..], armed, entries)
  {
    forall k | 0 <= k < |states[j..]| - 1 && states[j..][k].rip in armed
      ensures entries && moves.enter(states[j..][k], states[j..][k + 1])
    {
      assert states[i..][j - i + k] == states[j..][k] && states[i..][j - i + k + 1] == states[j..][k + 1];
    }
  }

  /** The program stands at the breakpoint that was hit. */
  ghost predicate AboutToExecute(s: State, s': State, info: StopInfo) {
    && s'.active.process.pid in s'.tasks
    && info.address.Some? && ProgramOf(s').rip == info.address.value && info.address.value in s.active.table
  }

  lemma HitIsAboutToExecute(s: State, policy: FollowPolicy, s': State, info: StopInfo)
    requires Outcome(s, policy, s', info)
    ensures info.reason == BreakpointHit ==> AboutToExecute(s, s', info)
  {
  }

  /** What is told from a state with other signals noted is told from this one. */
  lemma ToldFrom(moves: Behaviour, s: State, trace: seq<Cpu>, start: State, stepping: bool, entries: bool, why: Why,
                 policy: FollowPolicy, s': State, trace': seq<Cpu>, r: Result<StopInfo>)
    requires Told(moves, start, trace, stepping, entries, why, policy, s', trace', r)
    requires s.active.process.pid in s.tasks && start.active.process.pid in start.tasks
    requires ProgramOf(start) == ProgramOf(s) && ActiveTask(start) == ActiveTask(s) && RipArmed(start) == RipArmed(s)
    requires Saved(start.active.table) == Saved(s.active.table)
    ensures Told(moves, s, trace, stepping, entries, why, policy, s', trace', r)
    ensures Told(moves, s, trace, stepping, true, why, policy, s', trace', r)
  {
    hide FaithfulTo, RipArmed, ProgramOf, ReachedMemory, Reached;
  }

  lemma ToldWithEntries(moves: Behaviour, s: State, trace: seq<Cpu>, stepping: bool, entries: bool, why: Why,
                        policy: FollowPolicy, s': State, trace': seq<Cpu>, r: Result<StopInfo>)
    requires Told(moves, s, trace, stepping, entries, why, policy, s', trace', r)
    ensures Told(moves, s, trace, stepping, true, why, policy, s', trace', r)
  {
    hide FaithfulTo, RipArmed, ProgramOf, ReachedMemory, Reached;
  }

  lemma ToldIsFaithful(moves: Behaviour, s: State, trace: seq<Cpu>, stepping: bool, entries: bool, why: Why,
                       policy: FollowPolicy, s': State, trace': seq<Cpu>, r: Result<StopInfo>)
    requires Told(moves, s, trace, stepping, entries, why, policy, s', trace', r)
    ensures FaithfulTo(moves, trace', s')
  {
  }

  lemma SameProgramIsStopped(s: State, policy: FollowPolicy, s': State, info: StopInfo)
    requires Outcome(s, policy, s', info) && s.active.process.state == Stopped
    ensures SameProgram(info, policy) ==> s'.active.process.state == Stopped
  {
    if SameProgram(info, policy) {
      SameProgramOutcome(s, policy, s', info);
    }
  }

  lemma StartsFrom(moves: Behaviour, s: State, trace: seq<Cpu>, mid: State, start: State, startTrace: seq<Cpu>)
    requires Starts(moves, s, trace, mid, startTrace)
    requires start.active.process.pid in start.tasks && mid.active.process.pid in mid.tasks
    requires start.active.table == mid.active.table
    requires ActiveTask(start) == ActiveTask(mid) && ProgramOf(start) == ProgramOf(mid)
    ensures Starts(moves, s, trace, start, startTrace)
  {
    hide ProgramOf, RipArmed, IsRun;
  }

  lemma StartsAfterStep(moves: Behaviour, s: State, trace: seq<Cpu>, start: State, startTrace: seq<Cpu>)
    requires s.active.process.pid in s.tasks && s.active.process.state == Stopped && FaithfulTo(moves, trace, s)
    requires start.active.process.pid in start.tasks && start.active.table.Keys == s.active.table.Keys
    requires ControlKept(ActiveTask(s).debug, ActiveTask(start).debug)
    requires if Unfinished(s) then ProgramOf(start) == ProgramOf(s).(rip := ProgramOf(start).rip)
             else trace <= startTrace && |startTrace| <= |trace| + 1
    ensures Starts(moves, s, trace, start, startTrace)
  {
    hide ProgramOf, RipArmed, IsRun;
  }

  lemma SameProgramStays(s: State, policy: FollowPolicy, start: State, stopped: State, s': State, info: StopInfo)
    requires AfterContinue(s, policy, start, stopped, s', info) && SameProgram(info, policy)
    ensures s'.active.process == s.active.process && s'.active.table.Keys == s.active.table.Keys
    ensures s'.active.ids == s.active.ids
  {
    hide Outcome;
    SameProgramOutcome(start, policy, stopped, info);
  }

  lemma SameProgramOutcome(s: State, policy: FollowPolicy, s': State, info: StopInfo)
    requires Outcome(s, policy, s', info) && SameProgram(info, policy)
    ensures s'.active.process == s.active.process && s'.active.table.Keys == s.active.table.Keys
    ensures s'.active.ids == s.active.ids
  {
    hide Logical, OthersKept;
  }
}
