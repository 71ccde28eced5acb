/** The traced programs as they would be with no debugger attached, and what a session
    may do to them. Nothing here speaks of breakpoint tables or patched bytes: a session
    is shown to move along these steps. */
module Worlds {
  import opened Base
  import opened Tracee
  import opened Overlay
  import opened Session
  import opened Outcomes
  import opened Mutation
  import opened Commands
  import opened Resuming

  /** One undebugged program: its state, its debug registers, and whether the user
      watches it. While it is watched, the registers are those before the watchpoint. */
  datatype Undebugged = Undebugged(cpu: Cpu, debug: DebugRegisters, watched: bool)

  /** All live programs of a session, which one is looked at, and the fork policy. */
  datatype World = World(programs: map<nat, Undebugged>, pid: nat, policy: FollowPolicy)

  // ----- steps of a world -----

  ghost predicate RanTo(moves: Behaviour, c: Cpu, d: Cpu) {
    exists run: seq<Cpu> :: IsRun(moves, run) && run[0] == c && run[|run| - 1] == d
  }

  /** The program ran, and only that. If RIP has slipped, its run is one up to RIP. */
  ghost predicate Ran(moves: Behaviour, u: Undebugged, u': Undebugged, slipped: bool) {
    && (if slipped then RanBeside(moves, u.cpu, u'.cpu) else RanTo(moves, u.cpu, u'.cpu))
    && Kept(u, u')
  }

  /** The program is watched as before, and the user's debug registers are kept. */
  predicate Kept(u: Undebugged, u': Undebugged) {
    u'.watched == u.watched && ControlKept(u.debug, u'.debug) && (u.watched ==> u'.debug == u.debug)
  }

  /** What a resumption that ended in `r` does to the world. */
  ghost predicate Resumed(moves: Behaviour, w: World, r: Result<StopInfo>, slipped: bool, w': World) {
    && w.pid in w.programs && w'.policy == w.policy
    && if r.Err? || SameProgram(r.value, w.policy) then
         && w'.pid == w.pid && w.pid in w'.programs && Ran(moves, w.programs[w.pid], w'.programs[w.pid], slipped)
         && if r.Ok? && r.value.forked.Some? && w.policy == FollowBoth then
              // The child is kept too, with a copy of the memory.
              var child := r.value.forked.value.child;
              && child !in w.programs && child in w'.programs
              && w'.programs == w.programs[w.pid := w'.programs[w.pid]][child := w'.programs[child]]
              && w'.programs[child].cpu.mem == w'.programs[w.pid].cpu.mem
            else w'.programs == w.programs[w.pid := w'.programs[w.pid]]
       else if Adopting(r.value, w.policy) then
         // The child takes the parent's place, with the memory the parent had come to.
         && w'.pid !in w.programs && w'.pid in w'.programs
         && w'.programs == (w.programs - {w.pid})[w'.pid := w'.programs[w'.pid]]
         && RanMemory(moves, w.programs[w.pid].cpu, w'.programs[w'.pid].cpu.mem)
         && w'.programs[w'.pid].watched == w.programs[w.pid].watched
         && (w.programs[w.pid].watched ==> w'.programs[w'.pid].debug == w.programs[w.pid].debug)
       else if r.value.reason == ExecStopped then
         && w'.pid == w.pid && w.pid in w'.programs && !w'.programs[w.pid].watched
         && w'.programs == w.programs[w.pid := w'.programs[w.pid]]
       else
         && w'.programs == w.programs - {w.pid}
         && (if w'.programs == map[] then w'.pid == w.pid else w'.pid in w'.programs)
  }

  /** A store of the user's that was cut short: every byte is the old one or the one
      that was to be written. */
  predicate PartlyStored(mem: Memory, address: int, bytes: seq<Byte>, mem': Memory) {
    && mem'.Keys == mem.Keys
    && forall a :: a in mem ==> mem'[a] == mem[a] || (address <= a < address + |bytes| && mem'[a] == bytes[a - address])
  }

  // ----- the world of a session -----

  function Own(d: Domain, t: Task): Undebugged {
    Undebugged(Logical(d, t), if d.snapshot.Some? then d.snapshot.value.debug else t.debug, d.watchpoint.Some?)
  }

  function Live(s: State): set<nat> {
    (set p | p in s.retained && p in s.tasks) +
    (if s.active.process.state == Stopped && s.active.process.pid in s.tasks then {s.active.process.pid} else {})
  }

  function DomainOf(s: State, p: nat): Domain
    requires p in Live(s)
  {
    if p == s.active.process.pid then s.active else s.retained[p]
  }

  function ProgramsOf(s: State): map<nat, Undebugged>
    requires s.active.process.pid !in s.retained
  {
    map p | p in Live(s) :: Own(DomainOf(s, p), s.tasks[p])
  }

  function WorldOf(s: State, policy: FollowPolicy): World
    requires s.active.process.pid !in s.retained
  {
    World(ProgramsOf(s), s.active.process.pid, policy)
  }

  lemma LiveOnes(s: State)
    requires Consistent(s)
    ensures s.active.process.pid !in s.retained
    ensures Live(s) == s.retained.Keys + if s.active.process.state == Stopped then {s.active.process.pid} else {}
    ensures forall p :: p in s.retained ==> p in s.tasks
  {
    RetainedAreTasks(s);
    if s.active.process.state == Stopped {
      StoppedIsActive(s);
    }
  }

  /** Without a stopped process there is no live program. */
  lemma NoneLive(s: State)
    requires Consistent(s) && s.active.process.state != Stopped
    ensures s.active.process.pid !in s.retained && ProgramsOf(s) == map[]
  {
    LiveOnes(s);
    hide Registry, Own;
  }

  /** Only the active program has changed. */
  lemma ActiveChanged(s: State, s': State)
    requires Consistent(s) && s.active.process.state == Stopped && Consistent(s') && s'.active.process.state == Stopped
    requires s'.active.process.pid == s.active.process.pid && s'.retained == s.retained
    requires OthersKept(s.tasks, s'.tasks, {s.active.process.pid})
    ensures var pid := s.active.process.pid;
            && pid !in s.retained && pid in s.tasks && pid in s'.tasks
            && pid in ProgramsOf(s) && ProgramsOf(s)[pid] == Own(s.active, s.tasks[pid])
            && ProgramsOf(s') == ProgramsOf(s)[pid := Own(s'.active, s'.tasks[pid])]
  {
    hide Consistent, Own;
    LiveOnes(s);
    LiveOnes(s');
  }

  // ----- resumptions -----

  /** What a resumption is known to have done to the program that was resumed. */
  ghost predicate Followed(moves: Behaviour, s: State, policy: FollowPolicy, s': State, r: Result<StopInfo>, slipped: bool) {
    && (r.Err? || SameProgram(r.value, policy) ==>
          && s.active.process.pid in s.tasks && s'.active.process.pid in s'.tasks
          && ControlKept(ActiveTask(s).debug, ActiveTask(s').debug)
          && if slipped then RanBeside(moves, ProgramOf(s), ProgramOf(s')) else RanTo(moves, ProgramOf(s), ProgramOf(s')))
    && (r.Ok? && Adopting(r.value, policy) ==>
          && s.active.process.pid in s.tasks && s'.active.process.pid in s'.tasks
          && RanMemory(moves, ProgramOf(s), ProgramOf(s').mem))
  }

  lemma RanSince(moves: Behaviour, s: State, trace: seq<Cpu>, s': State, trace': seq<Cpu>)
    requires FaithfulTo(moves, trace, s) && s.active.process.state == Stopped && s.active.process.pid in s.tasks
    requires FaithfulTo(moves, trace', s') && s'.active.process.state == Stopped && s'.active.process.pid in s'.tasks
    requires trace <= trace'
    ensures RanTo(moves, ProgramOf(s), ProgramOf(s'))
  {
    hide ProgramOf;
    RunSince(moves, trace, trace');
    var run := trace'[|trace| - 1..];
    assert IsRun(moves, run) && run[0] == ProgramOf(s) && run[|run| - 1] == ProgramOf(s');
  }

  lemma FollowedByContinue(moves: Behaviour, s: State, trace: seq<Cpu>, entries: bool, why: Why, policy: FollowPolicy,
                           s': State, trace': seq<Cpu>, r: Result<StopInfo>)
    requires Continued(moves, s, trace, entries, why, policy, s', trace', r)
    requires FaithfulTo(moves, trace, s) && FaithfulTo(moves, trace', s') && s.active.process.state == Stopped
    requires s.active.process.pid in s.tasks
    requires r.Err? || SameProgram(r.value, policy) ==> s'.active.process.state == Stopped
    ensures Followed(moves, s, policy, s', r, Unfinished(s) || Misread(why, r))
  {
    if (r.Err? || SameProgram(r.value, policy)) && !(Unfinished(s) || Misread(why, r)) {
      RanSince(moves, s, trace, s', trace');
    }
    hide FaithfulTo, ProgramOf, RipArmed, RanTo, RanBeside, RanMemory;
  }

  lemma FollowedByStep(moves: Behaviour, s: State, trace: seq<Cpu>, entries: bool, why: Why, policy: FollowPolicy,
                       s': State, trace': seq<Cpu>, r: Result<StopInfo>)
    requires Told(moves, s, trace, true, entries, why, policy, s', trace', r)
    requires FaithfulTo(moves, trace, s) && s.active.process.state == Stopped
    requires r.Err? || SameProgram(r.value, policy) ==> s'.active.process.state == Stopped
    ensures Followed(moves, s, policy, s', r, SteppedOnInt3(s, true, why))
  {
    ToldRan(moves, s, trace, true, entries, why, policy, s', trace', r);
    if (r.Err? || SameProgram(r.value, policy)) && !SteppedOnInt3(s, true, why) {
      RanSince(moves, s, trace, s', trace');
    }
    hide FaithfulTo, ProgramOf, RipArmed, RanTo, RanBeside, RanMemory;
  }

  /** The same program's own entry in the world. */
  lemma OwnRan(moves: Behaviour, s: State, policy: FollowPolicy, s': State, r: Result<StopInfo>, slipped: bool)
    requires Consistent(s) && s.active.process.state == Stopped && Consistent(s') && s'.active.process.state == Stopped
    requires Followed(moves, s, policy, s', r, slipped) && (r.Err? || SameProgram(r.value, policy))
    requires s'.active.snapshot == s.active.snapshot
    ensures s.active.process.pid in s.tasks && s'.active.process.pid in s'.tasks
    ensures Ran(moves, Own(s.active, ActiveTask(s)), Own(s'.active, ActiveTask(s')), slipped)
  {
    StoppedIsActive(s);
    StoppedIsActive(s');
    SnapshotIsOwn(s.active, ActiveTask(s));
    SnapshotIsOwn(s'.active, ActiveTask(s'));
    hide Consistent, RanTo, RanBeside, RanMemory, Logical, Sound;
  }

  // What each kind of outcome leaves of the session, first right after the stop and then
  // after a displaced step has been finished.

  lemma FinishingKeeps(s: State)
    ensures OthersKept(s.tasks, SteppedOver(s).tasks, {s.active.process.pid})
    ensures SteppedOver(s).active.snapshot == s.active.snapshot && SteppedOver(s).retained == s.retained
    ensures SteppedOver(s).active.process == s.active.process && SteppedOver(s).tasks.Keys == s.tasks.Keys
    ensures SteppedOver(s).active.watchpoint == s.active.watchpoint && SteppedOver(s).active.stop == s.active.stop
  {
  }

  lemma SameProgramLeaves(s: State, policy: FollowPolicy, s': State, info: StopInfo)
    requires Outcome(s, policy, s', info) && SameProgram(info, policy)
    ensures s'.active.process == s.active.process && s'.active.snapshot == s.active.snapshot
    ensures OthersKept(s.tasks, s'.tasks, {s.active.process.pid})
    ensures !(info.forked.Some? && policy == FollowBoth) ==> s'.retained == s.retained
  {
    hide Logical;
  }

  lemma ForkBesideLeaves(s: State, policy: FollowPolicy, s': State, info: StopInfo)
    requires Outcome(s, policy, s', info) && SameProgram(info, policy) && info.forked.Some? && policy == FollowBoth
    ensures var child, pid := info.forked.value.child, s.active.process.pid;
            && child !in s.tasks && child != pid && child in s'.tasks && pid in s'.tasks
            && s.active.table == map[] && s'.active.table == map[] && s'.active.pending.None?
            && s'.retained == s.retained[child := FreshDomain(s.active, child)]
            && s'.tasks[child].cpu.mem == s'.tasks[pid].cpu.mem
  {
    hide Logical, OthersKept;
  }

  lemma AdoptionLeaves(s: State, policy: FollowPolicy, s': State, info: StopInfo)
    requires Outcome(s, policy, s', info) && Adopting(info, policy)
    ensures var child, pid := info.forked.value.child, s.active.process.pid;
            && child !in s.tasks && child != pid && s'.active.process == s.active.process.(pid := child, state := Stopped)
            && s'.retained == s.retained && OthersKept(s.tasks, s'.tasks, {pid})
            && (s'.active.snapshot.Some? <==> s.active.snapshot.Some?)
            && (s.active.snapshot.Some? ==> s'.active.snapshot.value.debug == s.active.snapshot.value.debug)
  {
    hide Logical;
  }

  lemma ExecLeaves(s: State, policy: FollowPolicy, s': State, info: StopInfo)
    requires Outcome(s, policy, s', info) && info.reason == ExecStopped
    ensures s'.active.process == s.active.process && s'.active.watchpoint.None? && s'.active.pending.None?
    ensures s'.retained == s.retained && OthersKept(s.tasks, s'.tasks, {s.active.process.pid})
  {
  }

  lemma EndLeaves(s: State, policy: FollowPolicy, s': State, info: StopInfo)
    requires Outcome(s, policy, s', info) && !SameProgram(info, policy) && !Adopting(info, policy)
      && info.reason != ExecStopped
    ensures if info.reason in {ProcessExited, ProcessSignaled} then HandedOver(s, s')
            else
              && s.retained == map[] == s'.retained && s'.active.process.state != Stopped
              && s'.active.process.pid == s.active.process.pid
  {
  }

  // ----- every resumption is a step of the world -----

  lemma SameProgramResumed(moves: Behaviour, s: State, policy: FollowPolicy, s': State, r: Result<StopInfo>, slipped: bool)
    requires Consistent(s) && s.active.process.state == Stopped && Consistent(s') && s'.active.process == s.active.process
    requires Followed(moves, s, policy, s', r, slipped) && (r.Err? || SameProgram(r.value, policy))
    requires s'.active.snapshot == s.active.snapshot && s'.retained == s.retained
    requires OthersKept(s.tasks, s'.tasks, {s.active.process.pid})
    requires r.Ok? ==> !(r.value.forked.Some? && policy == FollowBoth)
    ensures s.active.process.pid !in s.retained && s'.active.process.pid !in s'.retained
    ensures Resumed(moves, WorldOf(s, policy), r, slipped, WorldOf(s', policy))
  {
    hide Consistent, Ran, Own, Followed, OthersKept;
    ActiveChanged(s, s');
    OwnRan(moves, s, policy, s', r, slipped);
  }

  lemma ForkBesideResumed(moves: Behaviour, s: State, policy: FollowPolicy, s': State, info: StopInfo, slipped: bool)
    requires Consistent(s) && s.active.process.state == Stopped && Consistent(s') && s'.active.process == s.active.process
    requires Followed(moves, s, policy, s', Ok(info), slipped) && SameProgram(info, policy)
    requires info.forked.Some? && policy == FollowBoth && s'.active.snapshot == s.active.snapshot
    requires OthersKept(s.tasks, s'.tasks, {s.active.process.pid})
    requires var child, pid := info.forked.value.child, s.active.process.pid;
             && child !in s.tasks && child != pid && child in s'.tasks && pid in s'.tasks
             && s'.active.table == map[] && child in s'.retained && s'.retained == s.retained[child := s'.retained[child]]
             && s'.retained[child].table == map[]
             && s'.tasks[child].cpu.mem == s'.tasks[pid].cpu.mem
    ensures s.active.process.pid !in s.retained && s'.active.process.pid !in s'.retained
    ensures Resumed(moves, WorldOf(s, policy), Ok(info), slipped, WorldOf(s', policy))
  {
    hide Consistent, Ran, Followed, Own, OthersKept;
    OwnRan(moves, s, policy, s', Ok(info), slipped);
    BareMemory(s'.active, s'.tasks[s.active.process.pid]);
    BareMemory(s'.retained[info.forked.value.child], s'.tasks[info.forked.value.child]);
    OneMoreLive(s, s', info.forked.value.child);
  }

  lemma OneMoreLive(s: State, s': State, child: nat)
    requires Consistent(s) && s.active.process.state == Stopped && Consistent(s') && s'.active.process == s.active.process
    requires OthersKept(s.tasks, s'.tasks, {s.active.process.pid})
    requires child !in s.tasks && child != s.active.process.pid
    requires child in s'.retained && s'.retained == s.retained[child := s'.retained[child]]
    ensures s.active.process.pid !in s.retained && s'.active.process.pid !in s'.retained
    ensures var w, w', pid := ProgramsOf(s), ProgramsOf(s'), s.active.process.pid;
            && pid in s.tasks && pid in s'.tasks && child in s'.tasks
            && pid in w && w[pid] == Own(s.active, s.tasks[pid])
            && pid in w' && w'[pid] == Own(s'.active, s'.tasks[pid])
            && child !in w && child in w' && w'[child] == Own(s'.retained[child], s'.tasks[child])
            && w' == w[pid := w'[pid]][child := w'[child]]
  {
    hide Consistent, Own;
    LiveOnes(s);
    LiveOnes(s');
  }

  lemma BareMemory(d: Domain, t: Task)
    requires d.table == map[]
    ensures Own(d, t).cpu == t.cpu
  {
    assert Saved(d.table) == map[];
    RestoreNone(t.cpu);
  }

  lemma AdoptionResumed(moves: Behaviour, s: State, policy: FollowPolicy, s': State, info: StopInfo, slipped: bool)
    requires Consistent(s) && s.active.process.state == Stopped && Consistent(s') && s'.active.process.state == Stopped
    requires Followed(moves, s, policy, s', Ok(info), slipped) && Adopting(info, policy) && !SameProgram(info, policy)
    requires s'.active.process.pid !in s.tasks && s'.retained == s.retained
    requires OthersKept(s.tasks, s'.tasks, {s.active.process.pid})
    requires s'.active.snapshot.Some? <==> s.active.snapshot.Some?
    requires s.active.snapshot.Some? ==> s'.active.snapshot.value.debug == s.active.snapshot.value.debug
    ensures s.active.process.pid !in s.retained && s'.active.process.pid !in s'.retained
    ensures Resumed(moves, WorldOf(s, policy), Ok(info), slipped, WorldOf(s', policy))
  {
    hide Consistent, Own, OthersKept, RanMemory;
    AnotherLives(s, s');
    OwnHandedDown(s, s');
  }

  lemma OwnHandedDown(s: State, s': State)
    requires Consistent(s) && s.active.process.state == Stopped && Consistent(s') && s'.active.process.state == Stopped
    requires s'.active.snapshot.Some? <==> s.active.snapshot.Some?
    requires s.active.snapshot.Some? ==> s'.active.snapshot.value.debug == s.active.snapshot.value.debug
    ensures s.active.process.pid in s.tasks && s'.active.process.pid in s'.tasks
    ensures var u, u' := Own(s.active, ActiveTask(s)), Own(s'.active, ActiveTask(s'));
            && u'.watched == u.watched && (u.watched ==> u'.debug == u.debug)
            && u.cpu == ProgramOf(s) && u'.cpu == ProgramOf(s')
  {
    StoppedIsActive(s);
    StoppedIsActive(s');
    SnapshotIsOwn(s.active, ActiveTask(s));
    SnapshotIsOwn(s'.active, ActiveTask(s'));
    hide Consistent, Logical, Sound, Settled, Mapped;
  }

  lemma AnotherLives(s: State, s': State)
    requires Consistent(s) && s.active.process.state == Stopped && Consistent(s') && s'.active.process.state == Stopped
    requires s'.active.process.pid !in s.tasks && s'.retained == s.retained
    requires OthersKept(s.tasks, s'.tasks, {s.active.process.pid})
    ensures s.active.process.pid !in s.retained && s'.active.process.pid !in s'.retained
    ensures var w, w', pid, child := ProgramsOf(s), ProgramsOf(s'), s.active.process.pid, s'.active.process.pid;
            && pid in s.tasks && child in s'.tasks
            && pid in w && w[pid] == Own(s.active, s.tasks[pid])
            && child !in w && child in w' && w'[child] == Own(s'.active, s'.tasks[child])
            && w' == (w - {pid})[child := w'[child]]
  {
    hide Consistent, Own;
    LiveOnes(s);
    LiveOnes(s');
    var w, w', pid, child := ProgramsOf(s), ProgramsOf(s'), s.active.process.pid, s'.active.process.pid;
    assert w.Keys == s.retained.Keys + {pid} && w'.Keys == s.retained.Keys + {child};
    hide Live, OthersKept;
    ReplacedEntry(w, w', pid, child, s.retained.Keys);
  }

  lemma ReplacedEntry<T>(w: map<nat, T>, w': map<nat, T>, pid: nat, child: nat, others: set<nat>)
    requires w.Keys == others + {pid} && w'.Keys == others + {child} && pid !in others && child !in others
    requires forall p :: p in others ==> w'[p] == w[p]
    ensures w' == (w - {pid})[child := w'[child]]
  {
  }

  lemma ExecResumed(moves: Behaviour, s: State, policy: FollowPolicy, s': State, info: StopInfo, slipped: bool)
    requires Consistent(s) && s.active.process.state == Stopped && Consistent(s') && s'.active.process == s.active.process
    requires info.reason == ExecStopped && !Adopting(info, policy)
    requires s'.active.watchpoint.None? && s'.retained == s.retained && OthersKept(s.tasks, s'.tasks, {s.active.process.pid})
    ensures s.active.process.pid !in s.retained && s'.active.process.pid !in s'.retained
    ensures Resumed(moves, WorldOf(s, policy), Ok(info), slipped, WorldOf(s', policy))
  {
    hide Consistent, Logical, OthersKept;
    ActiveChanged(s, s');
  }

  lemma EndResumed(moves: Behaviour, s: State, policy: FollowPolicy, s': State, info: StopInfo, slipped: bool)
    requires Consistent(s) && s.active.process.state == Stopped && Consistent(s')
    requires !SameProgram(info, policy) && !Adopting(info, policy) && info.reason != ExecStopped
    requires s.retained == map[] == s'.retained && s'.active.process.state != Stopped
    requires s'.active.process.pid == s.active.process.pid
    ensures s.active.process.pid !in s.retained && s'.active.process.pid !in s'.retained
    ensures Resumed(moves, WorldOf(s, policy), Ok(info), slipped, WorldOf(s', policy))
  {
    hide Consistent, Own;
    LiveOnes(s);
    NoneLive(s');
    assert ProgramsOf(s) - {s.active.process.pid} == map[];
  }

  lemma HandOverResumed(moves: Behaviour, s: State, policy: FollowPolicy, s': State, info: StopInfo, slipped: bool)
    requires Consistent(s) && s.active.process.state == Stopped && Consistent(s') && s'.active.process.state == Stopped
    requires !SameProgram(info, policy) && !Adopting(info, policy) && info.reason != ExecStopped
    requires s'.active.process.pid in s.retained && s'.active == s.retained[s'.active.process.pid].(stop := info)
    requires s'.retained == s.retained - {s'.active.process.pid}
    requires forall p :: p in s.retained ==> p in s.tasks && p in s'.tasks && s'.tasks[p] == s.tasks[p]
    ensures s.active.process.pid !in s.retained && s'.active.process.pid !in s'.retained
    ensures Resumed(moves, WorldOf(s, policy), Ok(info), slipped, WorldOf(s', policy))
  {
    hide Consistent, Own;
    LiveOnes(s);
    LiveOnes(s');
    OwnWithoutStop(s.retained[s'.active.process.pid], info, s'.tasks[s'.active.process.pid]);
    var w, w' := ProgramsOf(s), ProgramsOf(s');
    forall p | p in w'
      ensures p in w && p != s.active.process.pid && w'[p] == w[p]
    {
    }
    assert w' == w - {s.active.process.pid};
    assert s'.active.process.pid in w';
  }

  lemma OwnWithoutStop(d: Domain, stop: StopInfo, t: Task)
    ensures Own(d.(stop := stop), t) == Own(d, t)
  {
  }

  /** How `s'` comes out of the stop, with the displaced step finished. */
  lemma AfterTheStop(s: State, policy: FollowPolicy, start: State, stopped: State, s': State, info: StopInfo)
    requires AfterContinue(s, policy, start, stopped, s', info)
    ensures Outcome(start, policy, stopped, info) && Consistent(stopped)
    ensures start.active.process == s.active.process && start.active.snapshot == s.active.snapshot
      && start.retained == s.retained
    ensures OthersKept(s.tasks, start.tasks, {s.active.process.pid})
    ensures s'.retained == stopped.retained && s'.active.process == stopped.active.process
    ensures s'.active.snapshot == stopped.active.snapshot && s'.active.watchpoint == stopped.active.watchpoint
    ensures OthersKept(stopped.tasks, s'.tasks, {stopped.active.process.pid}) && s'.tasks.Keys == stopped.tasks.Keys
    ensures stopped.active.pending.None? && stopped.active.process.state == Stopped ==> s' == stopped
  {
    FinishingKeeps(stopped);
    hide Outcome, Consistent;
  }

  lemma KeptThrice(a: map<nat, Task>, b: map<nat, Task>, c: map<nat, Task>, d: map<nat, Task>, pid: nat)
    requires OthersKept(a, b, {pid}) && OthersKept(b, c, {pid}) && OthersKept(c, d, {pid})
    ensures OthersKept(a, d, {pid})
  {
  }

  /** Whatever became of a resumption, to the undebugged programs it is a step of the
      world: the program that was resumed ran, its fork or its end is as reported, and
      nothing has happened to any other. */
  lemma ResumptionIsStep(moves: Behaviour, s: State, policy: FollowPolicy, start: State, stopped: State, s': State,
                         r: Result<StopInfo>, slipped: bool)
    requires Consistent(s) && s.active.process.state == Stopped && Consistent(s')
    requires Followed(moves, s, policy, s', r, slipped)
    requires if r.Ok? then AfterContinue(s, policy, start, stopped, s', r.value) else Refused(s, s')
    ensures s.active.process.pid !in s.retained && s'.active.process.pid !in s'.retained
    ensures Resumed(moves, WorldOf(s, policy), r, slipped, WorldOf(s', policy))
  {
    hide Consistent, Followed, Outcome, OthersKept, AfterContinue, SameProgram, Resumed;
    if r.Err? {
      SameProgramResumed(moves, s, policy, s', r, slipped);
      return;
    }
    var info := r.value;
    AfterTheStop(s, policy, start, stopped, s', info);
    if SameProgram(info, policy) {
      SameProgramLeaves(start, policy, stopped, info);
      KeptThrice(s.tasks, start.tasks, stopped.tasks, s'.tasks, s.active.process.pid);
      if info.forked.Some? && policy == FollowBoth {
        ForkBesideLeaves(start, policy, stopped, info);
        NewcomerIsNew(s, start, info.forked.value.child);
        ForkBesideResumed(moves, s, policy, s', info, slipped);
      } else {
        SameProgramResumed(moves, s, policy, s', r, slipped);
      }
    } else if Adopting(info, policy) {
      AdoptionLeaves(start, policy, stopped, info);
      NewcomerIsNew(s, start, info.forked.value.child);
      KeptAround(s.tasks, start.tasks, stopped.tasks, s'.tasks, s.active.process.pid, info.forked.value.child);
      AdoptionResumed(moves, s, policy, s', info, slipped);
    } else if info.reason == ExecStopped {
      ExecLeaves(start, policy, stopped, info);
      KeptThrice(s.tasks, start.tasks, stopped.tasks, s'.tasks, s.active.process.pid);
      ExecResumed(moves, s, policy, s', info, slipped);
    } else {
      EndLeaves(start, policy, stopped, info);
      if info.reason in {ProcessExited, ProcessSignaled} {
        SurvivorTakesOver(s, start, stopped);
        OutcomeReports(start, policy, stopped, info);
        HandOverResumed(moves, s, policy, s', info, slipped);
      } else {
        EndResumed(moves, s, policy, s', info, slipped);
      }
    }
  }

  lemma OutcomeReports(s: State, policy: FollowPolicy, s': State, info: StopInfo)
    requires Outcome(s, policy, s', info)
    ensures s'.active.stop == info
  {
  }

  lemma NewcomerIsNew(s: State, start: State, child: nat)
    requires child !in start.tasks && child != s.active.process.pid
    requires OthersKept(s.tasks, start.tasks, {s.active.process.pid})
    ensures child !in s.tasks
  {
  }

  lemma KeptAround(a: map<nat, Task>, b: map<nat, Task>, c: map<nat, Task>, d: map<nat, Task>, pid: nat, child: nat)
    requires OthersKept(a, b, {pid}) && OthersKept(b, c, {pid}) && OthersKept(c, d, {child}) && child !in a
    ensures OthersKept(a, d, {pid})
  {
  }

  lemma SurvivorTakesOver(s: State, start: State, stopped: State)
    requires Consistent(s) && HandedOver(start, stopped)
    requires start.active.process == s.active.process && start.retained == s.retained
    requires OthersKept(s.tasks, start.tasks, {s.active.process.pid})
    ensures stopped.active.process.state == Stopped && stopped.active.pending.None?
    ensures stopped.active.process.pid in s.retained
    ensures forall p :: p in s.retained ==> p in s.tasks && p in stopped.tasks && stopped.tasks[p] == s.tasks[p]
  {
    hide Consistent, Registry;
    ConsistentHasRegistry(s);
    RetainedAreTasks(s);
    SurvivorIsQuiet(s, stopped.active.process.pid);
  }

  lemma SurvivorIsQuiet(s: State, survivor: nat)
    requires Registry(s) && survivor in s.retained
    ensures s.retained[survivor].pending.None? && s.retained[survivor].process.state == Stopped
    ensures survivor != s.active.process.pid && survivor in s.tasks
  {
    hide Sound, Settled, IdsDisjoint;
    assert RetainedOk(s.retained[survivor], survivor, s.tasks);
  }

  // ----- commands on a stopped process -----

  /** A change of the active domain and its task only. */
  lemma ChangedWorld(s: State, policy: FollowPolicy, s': State)
    requires Consistent(s) && s.active.process.state == Stopped && Consistent(s') && s'.active.process == s.active.process
    requires s'.retained == s.retained && OthersKept(s.tasks, s'.tasks, {s.active.process.pid})
    ensures s.active.process.pid !in s.retained && s'.active.process.pid !in s'.retained
    ensures var w, w', pid := WorldOf(s, policy), WorldOf(s', policy), s.active.process.pid;
            && pid in s.tasks && pid in s'.tasks
            && w.pid == pid && pid in w.programs && w.programs[pid] == Own(s.active, s.tasks[pid])
            && w' == w.(programs := w.programs[pid := Own(s'.active, s'.tasks[pid])])
  {
    hide Consistent, Own, OthersKept;
    ActiveChanged(s, s');
  }

  /** A change that the program does not see, nor its debug registers. */
  lemma UnseenChange(s: State, policy: FollowPolicy, s': State)
    requires Consistent(s) && s.active.process.state == Stopped && Consistent(s') && s'.active.process == s.active.process
    requires s'.retained == s.retained && OthersKept(s.tasks, s'.tasks, {s.active.process.pid})
    requires s.active.process.pid in s.tasks && s'.active.process.pid in s'.tasks && ProgramOf(s') == ProgramOf(s)
    requires s'.active.snapshot == s.active.snapshot && s'.active.watchpoint == s.active.watchpoint
    requires ActiveTask(s').debug == ActiveTask(s).debug
    ensures s.active.process.pid !in s.retained && s'.active.process.pid !in s'.retained
    ensures WorldOf(s', policy) == WorldOf(s, policy)
  {
    hide Consistent, Logical, OthersKept;
    ChangedWorld(s, policy, s');
  }

  lemma RemovalUnseen(s: State, policy: FollowPolicy, id: nat)
    requires Consistent(s) && id in s.active.ids
    requires s.active.process.state == Stopped ==> s.active.process.pid in s.tasks
    ensures s.active.process.pid !in s.retained && Removed(s, id).active.process.pid !in Removed(s, id).retained
    ensures WorldOf(Removed(s, id), policy) == WorldOf(s, policy)
  {
    hide Consistent, Logical;
    RemovingKeepsConsistent(s, id);
    if s.active.process.state == Stopped {
      UnseenChange(s, policy, Removed(s, id));
    } else {
      NoneLive(s);
      NoneLive(Removed(s, id));
    }
  }

  /** The program with INT3 at these addresses. */
  function Patched(mem: Memory, addresses: set<int>): (patched: Memory)
    ensures patched.Keys == mem.Keys
  {
    map a | a in mem :: if a in addresses then INT3 else mem[a]
  }

  /** The world with INT3 at these addresses of the program looked at. */
  function PatchedWorld(w: World, addresses: set<int>): World {
    if w.pid in w.programs then
      var u := w.programs[w.pid];
      w.(programs := w.programs[w.pid := u.(cpu := u.cpu.(mem := Patched(u.cpu.mem, addresses)))])
    else w
  }

  lemma PatchedTwice(w: World, some: set<int>, more: set<int>)
    ensures PatchedWorld(PatchedWorld(w, some), more) == PatchedWorld(w, some + more)
    ensures PatchedWorld(w, {}) == w
  {
    if w.pid in w.programs {
      var mem := w.programs[w.pid].cpu.mem;
      assert Patched(Patched(mem, some), more) == Patched(mem, some + more);
      assert Patched(mem, {}) == mem;
      assert w.programs[w.pid := w.programs[w.pid]] == w.programs;
    }
  }

  /** Such a patch goes unseen exactly where the program has INT3 anyway. */
  lemma PatchUnseenIff(w: World, addresses: set<int>)
    requires w.pid in w.programs
    ensures PatchedWorld(w, addresses) == w <==>
      forall a :: a in addresses && a in w.programs[w.pid].cpu.mem ==> w.programs[w.pid].cpu.mem[a] == INT3
  {
    var mem := w.programs[w.pid].cpu.mem;
    if forall a :: a in addresses && a in mem ==> mem[a] == INT3 {
      assert Patched(mem, addresses) == mem;
      assert w.programs[w.pid := w.programs[w.pid]] == w.programs;
    } else {
      var a :| a in addresses && a in mem && mem[a] != INT3;
      assert Patched(mem, addresses)[a] != mem[a];
      assert PatchedWorld(w, addresses).programs[w.pid].cpu.mem == Patched(mem, addresses);
    }
  }

  /** The program looked at is the active one. */
  lemma ActiveProgram(s: State, policy: FollowPolicy)
    requires Consistent(s) && s.active.process.state == Stopped
    ensures s.active.process.pid !in s.retained && s.active.process.pid in s.tasks
    ensures var w := WorldOf(s, policy);
            w.pid == s.active.process.pid && w.pid in w.programs && w.programs[w.pid].cpu == ProgramOf(s)
  {
    hide Consistent, Logical;
    StoppedIsActive(s);
    LiveOnes(s);
  }

  /** A discarded breakpoint leaves its INT3 to the program if it was installed. */
  lemma DiscardSeen(s: State, policy: FollowPolicy, id: nat)
    requires Consistent(s) && s.active.process.state == Stopped && id in s.active.ids
    ensures s.active.process.pid !in s.retained && s.active.ids[id] in s.active.table
    ensures WorldOf(s.(active := ErasedDomain(s.active, id)), policy) ==
            PatchedWorld(WorldOf(s, policy), if s.active.table[s.active.ids[id]].installed then {s.active.ids[id]} else {})
  {
    StoppedIsActive(s);
    IdIsInTable(s.active, ActiveTask(s), id);
    DiscardedProgram(s.active, ActiveTask(s), id);
    DiscardingKeepsConsistent(s, id);
    hide Consistent, Sound, Settled, Logical, Patched;
    var s' := s.(active := ErasedDomain(s.active, id));
    ChangedWorld(s, policy, s');
  }

  lemma DiscardedProgram(d: Domain, t: Task, id: nat)
    requires Sound(d, t) && id in d.ids && d.ids[id] in d.table
    ensures Logical(ErasedDomain(d, id), t) ==
            Logical(d, t).(mem := Patched(Logical(d, t).mem, if d.table[d.ids[id]].installed then {d.ids[id]} else {}))
  {
    var a := d.ids[id];
    var before, after := Restored(t.cpu.mem, Saved(d.table)), Restored(t.cpu.mem, Saved(d.table - {a}));
    assert a in t.cpu.mem;
    assert after == Patched(before, if d.table[a].installed then {a} else {});
  }

  lemma WatchingSeen(s: State, policy: FollowPolicy, watch: Watchpoint, code: bv64)
    requires Consistent(s) && s.active.process.state == Stopped && s.active.process.pid in s.tasks
    requires s.active.watchpoint.None? && Consistent(Watching(s, watch, code))
    ensures s.active.process.pid !in s.retained
    ensures var w, pid := WorldOf(s, policy), s.active.process.pid;
            && pid in w.programs && !w.programs[pid].watched
            && WorldOf(Watching(s, watch, code), policy) == w.(programs := w.programs[pid := w.programs[pid].(watched := true)])
  {
    StoppedIsActive(s);
    SnapshotIsOwn(s.active, ActiveTask(s));
    hide Consistent, Sound, Settled, ArmedRegisters, Mapped;
    ChangedWorld(s, policy, Watching(s, watch, code));
  }

  lemma UnwatchingSeen(s: State, policy: FollowPolicy)
    requires Consistent(s) && s.active.process.state == Stopped && s.active.process.pid in s.tasks
    requires s.active.watchpoint.Some? && s.active.snapshot.Some?
    ensures s.active.process.pid !in s.retained
    ensures var w, pid := WorldOf(s, policy), s.active.process.pid;
            && pid in w.programs && w.programs[pid].watched
            && WorldOf(Unwatched(s), policy) == w.(programs := w.programs[pid := w.programs[pid].(watched := false)])
  {
    UnwatchingKeepsConsistent(s);
    hide Consistent;
    ChangedWorld(s, policy, Unwatched(s));
  }

  lemma StoreSeen(s: State, policy: FollowPolicy, address: int, bytes: seq<Byte>)
    requires Consistent(s) && s.active.process.state == Stopped && s.active.process.pid in s.tasks
    requires Consistent(Written(s, address, bytes))
    requires ProgramOf(Written(s, address, bytes)) == ProgramOf(s).(mem := Stored(ProgramOf(s).mem, address, bytes))
    ensures s.active.process.pid !in s.retained
    ensures var w, pid := WorldOf(s, policy), s.active.process.pid;
            && pid in w.programs
            && WorldOf(Written(s, address, bytes), policy) ==
               w.(programs := w.programs[pid := w.programs[pid].(cpu := w.programs[pid].cpu.(mem := Stored(w.programs[pid].cpu.mem, address, bytes)))])
  {
    hide Consistent, Logical, Poked, Rehidden, Stored;
    ChangedWorld(s, policy, Written(s, address, bytes));
  }

  lemma PartSeen(s: State, policy: FollowPolicy, address: int, bytes: seq<Byte>, n: nat)
    requires Consistent(s) && s.active.process.state == Stopped && s.active.process.pid in s.tasks && n <= |bytes|
    requires Consistent(PartlyWritten(s, address, bytes, n))
    ensures s.active.process.pid !in s.retained
    ensures var w, pid := WorldOf(s, policy), s.active.process.pid;
            var w' := WorldOf(PartlyWritten(s, address, bytes, n), policy);
            && pid in w.programs && pid in w'.programs
            && w' == w.(programs := w.programs[pid := w.programs[pid].(cpu := w.programs[pid].cpu.(mem := w'.programs[pid].cpu.mem))])
            && PartlyStored(w.programs[pid].cpu.mem, address, bytes, w'.programs[pid].cpu.mem)
  {
    hide Consistent, PartlyStored;
    ChangedWorld(s, policy, PartlyWritten(s, address, bytes, n));
    PartUnderneath(s.active, ActiveTask(s), address, bytes, n);
  }

  lemma PartUnderneath(d: Domain, t: Task, address: int, bytes: seq<Byte>, n: nat)
    requires n <= |bytes|
    ensures PartlyStored(Logical(d, t).mem, address, bytes,
                         Logical(d, t.(cpu := t.cpu.(mem := Poked(t.cpu.mem, d.table, address, bytes, n)))).mem)
  {
  }

  lemma SelectionUnseen(s: State, policy: FollowPolicy, p: nat)
    requires Consistent(s) && s.active.process.state == Stopped && p in s.retained && Consistent(Exchanged(s, p))
    requires s.retained[p].process == Process(p, Launched, Stopped)
    ensures s.active.process.pid !in s.retained && p !in Exchanged(s, p).retained
    ensures WorldOf(Exchanged(s, p), policy) == WorldOf(s, policy).(pid := p)
  {
    hide Consistent, Own;
    LiveOnes(s);
    LiveOnes(Exchanged(s, p));
    var w, w' := ProgramsOf(s), ProgramsOf(Exchanged(s, p));
    forall q | q in w
      ensures q in w' && w'[q] == w[q]
    {
    }
    assert w'.Keys == w.Keys;
  }

  lemma DetachmentSeen(s: State, policy: FollowPolicy)
    requires Consistent(s) && s.active.process.state == Stopped && s.active.process.pid in s.tasks && s.retained == map[]
    ensures s.active.process.pid !in s.retained && s.active.process.pid in DetachedState(s).tasks
    ensures var w, pid, t := WorldOf(s, policy), s.active.process.pid, DetachedState(s).tasks[s.active.process.pid];
            && pid in w.programs && t.cpu == w.programs[pid].cpu && t.debug == w.programs[pid].debug
            && WorldOf(DetachedState(s), policy) == w.(programs := w.programs - {pid})
  {
    DetachingIsClean(s);
    hide Consistent, Logical, Released;
    LiveOnes(s);
    NoneLive(DetachedState(s));
    assert ProgramsOf(s) - {s.active.process.pid} == map[];
  }
}
