/** Moving by source lines: `step`, `next` and `finish`, with their temporary
    breakpoints. */
module SourceMotion {
  import opened Base
  import opened Tracee
  import opened Overlay
  import opened Session
  import opened Outcomes
  import opened Resuming
  import opened Worlds
  import opened Debugging
  import opened Driver

  datatype Position = Position(modulePath: string, file: string, line: nat, column: nat)

  predicate SameLine(a: Position, b: Position) {
    a.modulePath == b.modulePath && a.file == b.file && a.line == b.line
  }

  datatype MotionReason = LineChanged | Interrupted | InstructionLimit

  datatype Motion = Motion(reason: MotionReason, stop: StopInfo, position: Option<Position>, instructions: nat)

  datatype Finish = Finish(returned: bool, stop: StopInfo, returnAddress: nat)

  /** What the executable files say about a stopped program: its source position, and
      the length of the call instruction it is about to execute, if it is one that is
      recognised. */
  datatype Debuginfo = Debuginfo(locate: Cpu -> Option<Position>, callLength: Cpu -> Option<nat>)

  /** Every address at which a temporary breakpoint may be put is one the program only
      fetches. */
  ghost predicate ReturnsWithin(info: Debuginfo, code: set<int>) {
    forall c: Cpu :: info.callLength(c).Some? ==> c.rip + info.callLength(c).value in code
  }

  /** The stops after which the debugger looks at another image or process. */
  predicate Replaced(stop: StopInfo) {
    stop.reason in {ExecStopped, ProcessExited, ProcessSignaled}
  }

  lemma IdsCarryOver(s: State, policy: FollowPolicy, start: State, stopped: State, s': State, info: StopInfo)
    requires AfterContinue(s, policy, start, stopped, s', info)
    ensures !Replaced(info) ==> s'.active.ids == s.active.ids
    ensures info.reason == ExecStopped ==> s'.active.ids == map[]
    ensures info.reason in {ProcessExited, ProcessSignaled} ==>
      s'.active.process.pid in s.retained && s'.active.ids == s.retained[s'.active.process.pid].ids
    ensures s'.nextId == s.nextId
  {
    hide Outcome;
    IdsAfterOutcome(start, policy, stopped, info);
  }

  lemma IdsAfterOutcome(s: State, policy: FollowPolicy, s': State, info: StopInfo)
    requires Outcome(s, policy, s', info)
    ensures !Replaced(info) ==> s'.active.ids == s.active.ids
    ensures info.reason == ExecStopped ==> s'.active.ids == map[]
    ensures info.reason in {ProcessExited, ProcessSignaled} ==>
      s'.active.process.pid in s.retained && s'.active.ids == s.retained[s'.active.process.pid].ids
    ensures s'.nextId == s.nextId
  {
    hide Logical, OthersKept;
  }

  lemma NextIdIsNew(s: State)
    requires Consistent(s)
    ensures s.nextId !in s.active.ids
    ensures forall p :: p in s.retained ==> s.nextId !in s.retained[p].ids
  {
    hide Sound, Settled;
  }

  lemma PutAndTaken(ids: map<nat, int>, id: nat, a: int)
    requires id !in ids
    ensures ids[id := a] - {id} == ids
  {
  }

  // ----- what the programs notice -----

  /** A resumption that ended in `r` took the undebugged programs from the one world to the
      other. RIP is off only if it was beside a pending step before, or a foreign SIGTRAP
      was taken for a hit, or a step began on an armed byte. */
  ghost predicate MovedBy(moves: Behaviour, policy: FollowPolicy, stepping: bool, s: State, r: Result<StopInfo>, s': State) {
    && s.active.process.pid !in s.retained && s'.active.process.pid !in s'.retained && s.active.process.pid in s.tasks
    && exists slipped ::
         && Resumed(moves, WorldOf(s, policy), r, slipped, WorldOf(s', policy))
         && (slipped ==> (stepping && RipArmed(s)) || !AtPendingStep(s) || (r.Ok? && r.value.reason == BreakpointHit))
  }

  /** One resumption after the other. */
  ghost predicate Moves(moves: Behaviour, policy: FollowPolicy, views: seq<State>, stops: seq<Result<StopInfo>>) {
    && |views| == |stops| + 1
    && forall k :: 0 <= k < |stops| ==> MovedBy(moves, policy, true, views[k], stops[k], views[k + 1])
  }

  lemma NoMoves(moves: Behaviour, policy: FollowPolicy, s: State)
    ensures Moves(moves, policy, [s], [])
  {
  }

  lemma MovesOn(moves: Behaviour, policy: FollowPolicy, views: seq<State>, stops: seq<Result<StopInfo>>, r: Result<StopInfo>,
                s: State)
    requires Moves(moves, policy, views, stops) && MovedBy(moves, policy, true, views[|stops|], r, s)
    ensures Moves(moves, policy, views + [s], stops + [r])
  {
    hide MovedBy;
    var views', stops' := views + [s], stops + [r];
    forall k | 0 <= k < |stops'|
      ensures MovedBy(moves, policy, true, views'[k], stops'[k], views'[k + 1])
    {
      assert k < |stops| ==> views'[k] == views[k] && views'[k + 1] == views[k + 1] && stops'[k] == stops[k];
    }
  }

  lemma ContinueMoves(moves: Behaviour, s: State, trace: seq<Cpu>, entries: bool, why: Why, policy: FollowPolicy, start: State,
                      stopped: State, s': State, trace': seq<Cpu>, r: Result<StopInfo>)
    requires Consistent(s) && s.active.process.state == Stopped && Consistent(s')
    requires FaithfulTo(moves, trace, s) && FaithfulTo(moves, trace', s')
    requires Continued(moves, s, trace, entries, why, policy, s', trace', r)
    requires if r.Ok? then AfterContinue(s, policy, start, stopped, s', r.value) else Refused(s, s')
    ensures MovedBy(moves, policy, false, s, r, s')
  {
    hide Consistent, FaithfulTo, Continued, AfterContinue, Followed, Resumed, WorldOf, AtPendingStep;
    StoppedIsActive(s);
    if r.Ok? {
      StillStopped(s, policy, start, stopped, s', r.value);
    }
    if AtPendingStep(s) {
      NothingUnfinished(s);
    }
    var slipped := Unfinished(s) || Misread(why, r);
    FollowedByContinue(moves, s, trace, entries, why, policy, s', trace', r);
    ResumptionIsStep(moves, s, policy, start, stopped, s', r, slipped);
  }

  lemma StepMoves(moves: Behaviour, s: State, trace: seq<Cpu>, entries: bool, why: Why, policy: FollowPolicy, start: State,
                  stopped: State, s': State, trace': seq<Cpu>, r: Result<StopInfo>)
    requires Consistent(s) && s.active.process.state == Stopped && Consistent(s')
    requires FaithfulTo(moves, trace, s)
    requires (r.Err? && s' == s) || Told(moves, s, trace, true, entries, why, policy, s', trace', r)
    requires if r.Ok? then AfterContinue(s, policy, start, stopped, s', r.value) else Refused(s, s')
    ensures MovedBy(moves, policy, true, s, r, s')
  {
    hide Consistent, FaithfulTo, Told, AfterContinue, Followed, Resumed, WorldOf, AtPendingStep, RipArmed;
    StoppedIsActive(s);
    if r.Ok? {
      StillStopped(s, policy, start, stopped, s', r.value);
    }
    var slipped := false;
    if r.Err? && s' == s {
      FollowedByNothing(moves, s, policy, r.error);
    } else {
      slipped := SteppedOnInt3(s, true, why);
      FollowedByStep(moves, s, trace, entries, why, policy, s', trace', r);
    }
    ResumptionIsStep(moves, s, policy, start, stopped, s', r, slipped);
  }

  /** What is unseen before and after a `continue` does not change where it leads. */
  lemma MovedBetween(moves: Behaviour, policy: FollowPolicy, s0: State, s: State, r: Result<StopInfo>, s': State, s'': State)
    requires MovedBy(moves, policy, false, s, r, s') && s0.active.process.pid in s0.tasks
    requires s0.active.process.pid !in s0.retained && WorldOf(s0, policy) == WorldOf(s, policy)
    requires s''.active.process.pid !in s''.retained && WorldOf(s'', policy) == WorldOf(s', policy)
    requires AtPendingStep(s0) ==> AtPendingStep(s)
    ensures MovedBy(moves, policy, false, s0, r, s'') && MovedBy(moves, policy, true, s0, r, s'')
  {
    hide Resumed, WorldOf, AtPendingStep, RipArmed;
    var slipped :| Resumed(moves, WorldOf(s, policy), r, slipped, WorldOf(s', policy)) &&
      (slipped ==> !AtPendingStep(s) || (r.Ok? && r.value.reason == BreakpointHit));
    assert Resumed(moves, WorldOf(s0, policy), r, slipped, WorldOf(s'', policy));
  }

  /** Nothing was resumed. */
  lemma StandsStill(moves: Behaviour, policy: FollowPolicy, s: State, error: Error)
    requires Consistent(s) && s.active.process.state == Stopped
    ensures MovedBy(moves, policy, false, s, Err(error), s) && MovedBy(moves, policy, true, s, Err(error), s)
  {
    hide Consistent, Followed, Resumed, WorldOf, AtPendingStep, RipArmed;
    StoppedIsActive(s);
    FollowedByNothing(moves, s, policy, error);
    KeepsItself(s.tasks, {s.active.process.pid});
    ResumptionIsStep(moves, s, policy, s, s, s, Err(error), false);
  }

  // ----- temporary breakpoints -----

  /** Runs on with a temporary breakpoint at `target`, unless there is a breakpoint
      already, and takes it out again. */
  method ContinueToTemporary(debugger: Debugger, target: nat, ghost code: set<int>)
    returns (r: Result<StopInfo>, userBreakpoint: bool, ghost told: Result<StopInfo>)
    requires debugger.Valid() && Discreet(debugger.kernel.moves, code) && Within(debugger.View(), code) && target in code
    modifies debugger, debugger.kernel
    ensures old(debugger.IsStopped()) ==>
      && MovedBy(debugger.kernel.moves, debugger.policy, false, old(debugger.View()), told, debugger.View())
      && MovedBy(debugger.kernel.moves, debugger.policy, true, old(debugger.View()), told, debugger.View())
    ensures r.Ok? ==> told == r && old(debugger.IsStopped())
    ensures debugger.Valid() && Within(debugger.View(), code) && debugger.policy == old(debugger.policy)
    ensures userBreakpoint == (target in old(debugger.active.table))
    ensures r.Ok? && !Replaced(r.value) ==> debugger.active.ids == old(debugger.active.ids)
    ensures r.Ok? && Replaced(r.value) ==> userBreakpoint
    ensures r.Ok? && r.value.reason == ExecStopped ==> debugger.active.ids == map[]
    ensures r.Ok? && r.value.reason in {ProcessExited, ProcessSignaled} ==>
      && debugger.Pid() in old(debugger.retained)
      && debugger.active.ids == old(debugger.retained)[debugger.Pid()].ids
    ensures r.Ok? && r.value.reason == BreakpointHit ==> debugger.IsStopped()
  {
    hide Consistent, Discreet, Outcome, AfterContinue, Continued, Logical, Removed, SameProgram, WorldOf, MovedBy, FaithfulTo,
         AtPendingStep;
    userBreakpoint := target in debugger.active.table;
    var temporary: Option<nat> := None;
    ghost var s0 := debugger.View();
    ConsistentHasRegistry(s0);
    if debugger.IsStopped() {
      StoppedIsActive(s0);
      StandsStill(debugger.kernel.moves, debugger.policy, s0, LogicError);
    }
    NextIdIsNew(s0);
    told := Err(LogicError);
    if !userBreakpoint {
      var added := debugger.AddBreakpoint(target);
      if added.Err? {
        return Err(added.error), userBreakpoint, told;
      }
      temporary := Some(added.value);
      PutAndTaken(s0.active.ids, added.value, target);
      KeptOthers(s0.tasks, s0.active.process.pid, debugger.kernel.tasks[debugger.Pid()]);
      UnseenChange(s0, debugger.policy, debugger.View());
    }
    ghost var s := debugger.View();
    r := RunWith(debugger, code);
    told := r;
    ghost var s' := debugger.View();
    ConsistentHasRegistry(s');
    if temporary.Some? {
      var found := debugger.RemoveBreakpoint(temporary.value);
      if found {
        RemovedStaysWithin(s', temporary.value, code);
        RemovalUnseen(s', debugger.policy, temporary.value);
      }
      if r.Ok? && !found {
        r := Err(LogicError);
      }
    }
    if s0.active.process.state == Stopped {
      MovedBetween(debugger.kernel.moves, debugger.policy, s0, s, told, s', debugger.View());
    }
  }

  /** A `continue`, and what it leaves of the table. */
  method RunWith(debugger: Debugger, ghost code: set<int>) returns (r: Result<StopInfo>)
    requires debugger.Valid() && Discreet(debugger.kernel.moves, code) && Within(debugger.View(), code)
    modifies debugger, debugger.kernel
    ensures debugger.Valid() && Within(debugger.View(), code) && debugger.policy == old(debugger.policy)
    ensures old(debugger.IsStopped()) ==>
      MovedBy(debugger.kernel.moves, debugger.policy, false, old(debugger.View()), r, debugger.View())
    ensures !old(debugger.IsStopped()) ==> r.Err?
    ensures r.Err? || !Replaced(r.value) ==> debugger.active.ids == old(debugger.active.ids)
    ensures r.Ok? && r.value.reason == ExecStopped ==> debugger.active.ids == map[]
    ensures r.Ok? && r.value.reason in {ProcessExited, ProcessSignaled} ==>
      && debugger.Pid() in old(debugger.retained)
      && debugger.active.ids == old(debugger.retained)[debugger.Pid()].ids
    ensures r.Ok? ==> debugger.nextBreakpointId == old(debugger.nextBreakpointId)
    ensures r.Ok? && r.value.reason == BreakpointHit ==> debugger.IsStopped()
  {
    hide Consistent, Discreet, Outcome, AfterContinue, Continued, Logical, SameProgram, MovedBy, FaithfulTo;
    DiscreetBelow(debugger.kernel.moves, debugger.active.table.Keys, code);
    ghost var s, trace := debugger.View(), debugger.trace;
    ghost var start, stopped;
    r, start, stopped := debugger.ContinueExecution(Suppress);
    if s.active.process.state == Stopped {
      ContinueMoves(debugger.kernel.moves, s, trace, false, debugger.why, debugger.policy, start, stopped, debugger.View(),
                    debugger.trace, r);
    }
    if r.Ok? {
      IdsCarryOver(s, debugger.policy, start, stopped, debugger.View(), r.value);
      ContinueStaysWithin(s, debugger.policy, start, stopped, debugger.View(), r.value, code);
      if r.value.reason == BreakpointHit {
        AfterContinueOutcome(s, debugger.policy, start, stopped, debugger.View(), r.value);
        OwnStopIsSameProgram(start, debugger.policy, stopped, r.value);
        SameProgramStays(s, debugger.policy, start, stopped, debugger.View(), r.value);
      }
    } else {
      RefusedStaysWithin(s, debugger.View(), code);
    }
  }

  predicate ReachedTarget(stop: StopInfo, target: nat) {
    stop.reason == BreakpointHit && stop.address == Some(target)
  }

  /** `finish`: a breakpoint of the user's at the return address is kept and counts as
      an interruption. */
  method RunToReturnAddress(debugger: Debugger, target: nat, ghost code: set<int>)
    returns (r: Result<Finish>, ghost told: Result<StopInfo>)
    requires debugger.Valid() && Discreet(debugger.kernel.moves, code) && Within(debugger.View(), code) && target in code
    modifies debugger, debugger.kernel
    ensures old(debugger.IsStopped()) ==>
      MovedBy(debugger.kernel.moves, debugger.policy, false, old(debugger.View()), told, debugger.View())
    ensures r.Ok? ==> told == Ok(r.value.stop)
    ensures debugger.Valid() && Within(debugger.View(), code)
    ensures r.Ok? ==>
      && (!Replaced(r.value.stop) ==> debugger.active.ids == old(debugger.active.ids))
      && (Replaced(r.value.stop) ==> target in old(debugger.active.table) && !r.value.returned)
      && (r.value.returned <==> ReachedTarget(r.value.stop, target) && target !in old(debugger.active.table))
  {
    hide Consistent, Discreet, Within, MovedBy;
    var stop, userBreakpoint;
    stop, userBreakpoint, told := ContinueToTemporary(debugger, target, code);
    if stop.Err? {
      return Err(stop.error), told;
    }
    return Ok(Finish(ReachedTarget(stop.value, target) && !userBreakpoint, stop.value, target)), told;
  }

  function PositionOf(info: Debuginfo, debugger: Debugger): Option<Position>
    reads debugger, debugger.kernel
  {
    if debugger.IsStopped() && debugger.Pid() in debugger.kernel.tasks
    then info.locate(debugger.kernel.tasks[debugger.Pid()].cpu) else None
  }

  /** The program stands at `here`, on another line than `from`. */
  predicate LineIsNew(info: Debuginfo, debugger: Debugger, from: Option<Position>, here: Option<Position>)
    reads debugger, debugger.kernel
  {
    here == PositionOf(info, debugger) && from.Some? && here.Some? && !SameLine(here.value, from.value)
  }

  /** What a single step leaves of the table, of the session and of the process. */
  method StepOnce(debugger: Debugger, ghost code: set<int>) returns (r: Result<StopInfo>)
    requires debugger.Valid() && Discreet(debugger.kernel.moves, code) && Within(debugger.View(), code)
    modifies debugger, debugger.kernel
    ensures debugger.Valid() && Within(debugger.View(), code) && debugger.policy == old(debugger.policy)
    ensures r.Err? || !Replaced(r.value) ==> debugger.active.ids == old(debugger.active.ids)
    ensures r.Ok? && r.value.reason == SingleStepped ==> debugger.IsStopped()
    ensures old(debugger.IsStopped()) ==>
      MovedBy(debugger.kernel.moves, debugger.policy, true, old(debugger.View()), r, debugger.View())
  {
    hide Consistent, Discreet, Outcome, AfterContinue, Told, Logical, SameProgram, MovedBy, FaithfulTo;
    DiscreetBelow(debugger.kernel.moves, debugger.active.table.Keys, code);
    ghost var s, trace := debugger.View(), debugger.trace;
    ghost var start, stopped;
    r, start, stopped := debugger.SingleStep(Suppress);
    if s.active.process.state == Stopped {
      StepMoves(debugger.kernel.moves, s, trace, false, debugger.why, debugger.policy, start, stopped, debugger.View(),
                debugger.trace, r);
    }
    if r.Ok? {
      IdsCarryOver(s, debugger.policy, start, stopped, debugger.View(), r.value);
      ContinueStaysWithin(s, debugger.policy, start, stopped, debugger.View(), r.value, code);
      if r.value.reason == SingleStepped {
        AfterContinueOutcome(s, debugger.policy, start, stopped, debugger.View(), r.value);
        OwnStopIsSameProgram(start, debugger.policy, stopped, r.value);
        SameProgramStays(s, debugger.policy, start, stopped, debugger.View(), r.value);
      }
    }
  }

  lemma AfterContinueOutcome(s: State, policy: FollowPolicy, start: State, stopped: State, s': State, info: StopInfo)
    requires AfterContinue(s, policy, start, stopped, s', info)
    ensures Outcome(start, policy, stopped, info)
  {
  }

  lemma OwnStopIsSameProgram(s: State, policy: FollowPolicy, s': State, info: StopInfo)
    requires Outcome(s, policy, s', info) && info.reason in {SingleStepped, BreakpointHit}
    ensures SameProgram(info, policy)
  {
  }

  /** `step`: one instruction after the other until the source line changes. The managed
      breakpoints are those it started with, unless the image or the process was
      replaced. */
  method StepSource(debugger: Debugger, info: Debuginfo, limit: nat, ghost code: set<int>)
    returns (r: Result<Motion>, ghost views: seq<State>, ghost stops: seq<Result<StopInfo>>)
    requires debugger.Valid() && Discreet(debugger.kernel.moves, code) && Within(debugger.View(), code)
    modifies debugger, debugger.kernel
    ensures debugger.Valid() && Within(debugger.View(), code)
    ensures Moves(debugger.kernel.moves, debugger.policy, views, stops) && views[0] == old(debugger.View())
    ensures views[|stops|] == debugger.View()
    ensures r.Ok? && !Replaced(r.value.stop) ==> debugger.active.ids == old(debugger.active.ids)
    ensures r.Ok? ==> 0 < r.value.instructions <= limit && |stops| == r.value.instructions
    ensures r.Ok? && r.value.reason == LineChanged ==>
      r.value.stop.reason == SingleStepped && LineIsNew(info, debugger, old(PositionOf(info, debugger)), r.value.position)
    ensures limit == 0 || !old(debugger.IsStopped()) || old(PositionOf(info, debugger)).None? ==>
      r.Err? && unchanged(debugger, debugger.kernel)
  {
    hide Consistent, Discreet, Within, SameProgram, Replaced, Moves, MovedBy;
    views, stops := [debugger.View()], [];
    NoMoves(debugger.kernel.moves, debugger.policy, debugger.View());
    if limit == 0 {
      return Err(InvalidArgument), views, stops;
    }
    if !debugger.IsStopped() {
      return Err(LogicError), views, stops;
    }
    var from := PositionOf(info, debugger);
    if from.None? {
      return Err(InvalidArgument), views, stops;
    }
    var instructions := 1;
    while instructions <= limit
      invariant 1 <= instructions <= limit + 1
      invariant debugger.Valid() && Within(debugger.View(), code) && debugger.IsStopped()
      invariant debugger.active.ids == old(debugger.active.ids) && debugger.policy == old(debugger.policy)
      invariant Moves(debugger.kernel.moves, debugger.policy, views, stops) && |views| == |stops| + 1 == instructions
      invariant views[0] == old(debugger.View()) && views[|stops|] == debugger.View()
      decreases limit + 1 - instructions
    {
      var stop := StepOnce(debugger, code);
      MovesOn(debugger.kernel.moves, debugger.policy, views, stops, stop, debugger.View());
      views, stops := views + [debugger.View()], stops + [stop];
      if stop.Err? {
        return Err(stop.error), views, stops;
      }
      var here := PositionOf(info, debugger);
      if stop.value.reason != SingleStepped {
        return Ok(Motion(Interrupted, stop.value, here, instructions)), views, stops;
      }
      StepIsNoReplacement(stop.value);
      if here.Some? && !SameLine(here.value, from.value) {
        return Ok(Motion(LineChanged, stop.value, here, instructions)), views, stops;
      }
      instructions := instructions + 1;
    }
    return Ok(Motion(InstructionLimit, debugger.active.stop, PositionOf(info, debugger), limit)), views, stops;
  }

  /** `next`: calls are run over with a temporary breakpoint at their return address,
      everything else is stepped, until the source line changes. However it ends, the
      managed breakpoints are those it started with, unless the image or the process was
      replaced; a breakpoint of the user's at a return address is never removed. */
  method NextSource(debugger: Debugger, info: Debuginfo, limit: nat, ghost code: set<int>)
    returns (r: Result<Motion>, ghost views: seq<State>, ghost stops: seq<Result<StopInfo>>)
    requires debugger.Valid() && Discreet(debugger.kernel.moves, code) && Within(debugger.View(), code)
    requires ReturnsWithin(info, code)
    modifies debugger, debugger.kernel
    ensures debugger.Valid() && Within(debugger.View(), code)
    ensures Moves(debugger.kernel.moves, debugger.policy, views, stops) && views[0] == old(debugger.View())
    ensures views[|stops|] == debugger.View()
    ensures r.Ok? && !Replaced(r.value.stop) ==> debugger.active.ids == old(debugger.active.ids)
    ensures r.Ok? ==> 0 < r.value.instructions <= limit && |stops| == r.value.instructions
    ensures r.Ok? && r.value.reason == LineChanged ==>
      LineIsNew(info, debugger, old(PositionOf(info, debugger)), r.value.position)
    ensures limit == 0 || !old(debugger.IsStopped()) ==> r.Err? && unchanged(debugger, debugger.kernel)
  {
    hide Consistent, Discreet, Within, SameProgram, Replaced, ReturnsWithin, Moves, MovedBy;
    views, stops := [debugger.View()], [];
    NoMoves(debugger.kernel.moves, debugger.policy, debugger.View());
    if limit == 0 {
      return Err(InvalidArgument), views, stops;
    }
    if !debugger.IsStopped() {
      return Err(LogicError), views, stops;
    }
    var from := PositionOf(info, debugger);
    if from.None? {
      return Err(InvalidArgument), views, stops;
    }
    var instructions := 1;
    while instructions <= limit
      invariant 1 <= instructions <= limit + 1
      invariant debugger.Valid() && Within(debugger.View(), code) && debugger.IsStopped()
      invariant debugger.active.ids == old(debugger.active.ids) && debugger.policy == old(debugger.policy)
      invariant Moves(debugger.kernel.moves, debugger.policy, views, stops) && |views| == |stops| + 1 == instructions
      invariant views[0] == old(debugger.View()) && views[|stops|] == debugger.View()
      decreases limit + 1 - instructions
    {
      StoppedIsActive(debugger.View());
      var cpu := debugger.kernel.tasks[debugger.Pid()].cpu;
      var length := info.callLength(cpu);
      var stop;
      if length.Some? {
        if cpu.rip > TWO64 - 1 - length.value {
          return Err(RuntimeError), views, stops;
        }
        var target := cpu.rip + length.value;
        ReturnIsWithin(info, code, cpu);
        var userBreakpoint;
        ghost var told;
        stop, userBreakpoint, told := ContinueToTemporary(debugger, target, code);
        MovesOn(debugger.kernel.moves, debugger.policy, views, stops, told, debugger.View());
        views, stops := views + [debugger.View()], stops + [told];
        if stop.Err? {
          return Err(stop.error), views, stops;
        }
        if !ReachedTarget(stop.value, target) || userBreakpoint {
          return Ok(Motion(Interrupted, stop.value, PositionOf(info, debugger), instructions)), views, stops;
        }
        HitIsNoReplacement(stop.value);
      } else {
        stop := StepOnce(debugger, code);
        MovesOn(debugger.kernel.moves, debugger.policy, views, stops, stop, debugger.View());
        views, stops := views + [debugger.View()], stops + [stop];
        if stop.Err? {
          return Err(stop.error), views, stops;
        }
        if stop.value.reason != SingleStepped {
          return Ok(Motion(Interrupted, stop.value, PositionOf(info, debugger), instructions)), views, stops;
        }
        StepIsNoReplacement(stop.value);
      }
      var here := PositionOf(info, debugger);
      if here.Some? && !SameLine(here.value, from.value) {
        return Ok(Motion(LineChanged, stop.value, here, instructions)), views, stops;
      }
      instructions := instructions + 1;
    }
    return Ok(Motion(InstructionLimit, debugger.active.stop, PositionOf(info, debugger), limit)), views, stops;
  }

  lemma ReturnIsWithin(info: Debuginfo, code: set<int>, c: Cpu)
    requires ReturnsWithin(info, code) && info.callLength(c).Some?
    ensures c.rip + info.callLength(c).value in code
  {
  }

  lemma HitIsNoReplacement(stop: StopInfo)
    requires stop.reason == BreakpointHit
    ensures !Replaced(stop)
  {
  }

  lemma StepIsNoReplacement(stop: StopInfo)
    requires stop.reason == SingleStepped
    ensures !Replaced(stop)
  {
  }
}
