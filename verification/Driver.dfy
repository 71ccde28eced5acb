/** Whole debugging sessions: any commands, in any order, against any behaviour of the
    traced processes. */
module Driver {
  import opened Base
  import opened Tracee
  import opened Overlay
  import opened Session
  import opened Outcomes
  import opened Mutation
  import opened Commands
  import opened Resuming
  import opened Worlds
  import opened Debugging

  datatype Command =
    | Break(address: int)
    | Delete(id: nat)
    | Continue(signals: SignalPolicy)
    | StepInstruction(signals: SignalPolicy)
    | Write(at: U64, bytes: seq<Byte>)
    | Watch(what: U64, length: nat)
    | Unwatch(watchpoint: nat)
    | Select(pid: nat)
    | Follow(policy: FollowPolicy)
    | DetachNow

  /** Every managed address of every process is one the program only fetches. */
  ghost predicate Within(s: State, code: set<int>) {
    && s.active.table.Keys <= code
    && forall p :: p in s.retained ==> s.retained[p].table.Keys <= code
  }

  lemma DiscreetBelow(moves: Behaviour, some: set<int>, all: set<int>)
    requires Discreet(moves, all) && some <= all
    ensures Discreet(moves, some)
  {
  }

  lemma OutcomeStaysWithin(s: State, policy: FollowPolicy, s': State, info: StopInfo, code: set<int>)
    requires Outcome(s, policy, s', info) && Within(s, code)
    ensures Within(s', code)
  {
    hide Logical, OthersKept;
  }

  lemma SteppedOverStaysWithin(s: State, code: set<int>)
    requires Within(s, code)
    ensures Within(SteppedOver(s), code)
  {
  }

  lemma ContinueStaysWithin(s: State, policy: FollowPolicy, start: State, stopped: State, s': State, info: StopInfo,
                            code: set<int>)
    requires AfterContinue(s, policy, start, stopped, s', info) && Within(s, code)
    ensures Within(s', code)
  {
    hide Outcome, SteppedOver;
    OutcomeStaysWithin(start, policy, stopped, info, code);
    SteppedOverStaysWithin(stopped, code);
  }

  // ----- sessions -----

  function Stopping(r: Result<StopInfo>): Result<Option<StopInfo>> {
    if r.Ok? then Ok(Some(r.value)) else Err(r.error)
  }

  /** What a command does to the undebugged programs, given its result. */
  ghost predicate CommandMeans(moves: Behaviour, w: World, command: Command, r: Result<Option<StopInfo>>, slipped: bool,
                               w': World, tasks: map<nat, Task>) {
    match command
    case Break(_) => w' == w
    case Delete(_) => w' == w
    case Follow(policy) => w' == if r.Ok? then w.(policy := policy) else w
    case Select(pid) => w' == if r.Ok? then w.(pid := pid) else w
    case Watch(_, _) =>
      if r.Ok? then
        && w.pid in w.programs && !w.programs[w.pid].watched
        && w' == w.(programs := w.programs[w.pid := w.programs[w.pid].(watched := true)])
      else w' == w
    case Unwatch(_) =>
      if r.Ok? then
        && w.pid in w.programs && w.programs[w.pid].watched
        && w' == w.(programs := w.programs[w.pid := w.programs[w.pid].(watched := false)])
      else w' == w
    case Write(at, bytes) =>
      if r.Ok? then
        && w.pid in w.programs
        && var u := w.programs[w.pid];
           w' == w.(programs := w.programs[w.pid := u.(cpu := u.cpu.(mem := Stored(u.cpu.mem, at, bytes)))])
      else
        || w' == w
        || (&& r == Err(PtraceError) && w.pid in w.programs && w.pid in w'.programs
            && var u, u' := w.programs[w.pid], w'.programs[w.pid];
               w' == w.(programs := w.programs[w.pid := u.(cpu := u.cpu.(mem := u'.cpu.mem))])
               && PartlyStored(u.cpu.mem, at, bytes, u'.cpu.mem))
    case DetachNow =>
      if r.Ok? then
        && w.pid in w.programs && w' == w.(programs := w.programs - {w.pid})
        // The process is left exactly as it would be without the debugger.
        && w.pid in tasks && tasks[w.pid].cpu == w.programs[w.pid].cpu && tasks[w.pid].debug == w.programs[w.pid].debug
      else w' == w
    case Continue(_) => MeansResumption(moves, w, r, slipped, w')
    case StepInstruction(_) => MeansResumption(moves, w, r, slipped, w')
  }

  ghost predicate MeansResumption(moves: Behaviour, w: World, r: Result<Option<StopInfo>>, slipped: bool, w': World) {
    if w.pid in w.programs then
      (r.Ok? ==> r.value.Some?) && Resumed(moves, w, if r.Ok? then Ok(r.value.value) else Err(r.error), slipped, w')
    else r.Err? && w' == w
  }

  ghost function WorldOfDebugger(debugger: Debugger): World
    requires debugger.Valid()
    reads debugger, debugger.kernel
  {
    ConsistentHasRegistry(debugger.View());
    WorldOf(debugger.View(), debugger.policy)
  }

  /** A resumption from here may leave RIP beside the program's own: a step from an armed
      byte, or a `continue` when a displaced step was begun and not finished. */
  predicate MaySlip(s: State, command: Command) {
    && s.active.process.pid in s.tasks
    && (if command.StepInstruction? then RipArmed(s) else command.Continue? && Unfinished(s))
  }

  predicate MayUse(command: Command, code: set<int>) {
    command.Break? ==> command.address in code
  }

  ghost predicate Ready(debugger: Debugger, code: set<int>)
    reads debugger, debugger.kernel
  {
    debugger.Valid() && Discreet(debugger.kernel.moves, code) && Within(debugger.View(), code)
  }

  /** Every session moves along the steps of the world. After any commands, against any
      behaviour of the traced processes, the undebugged programs are those the session
      began with, changed only by their own moves, by the user's stores, and by the forks,
      execs and ends that were reported; no other program is touched. The debugger's
      tables and patches have no part in it: the world is that of the session at every
      moment. And a process that was detached is left as the world last had it, with its
      memory, its registers, and its debug registers as they were before any watchpoint.
      RIP can be off by a slip only after a foreign SIGTRAP was misread, a step from an
      armed byte, or an unfinished displaced step. */
  method Play(debugger: Debugger, commands: seq<Command>, ghost code: set<int>)
    returns (results: seq<Result<Option<StopInfo>>>, ghost worlds: seq<World>, ghost views: seq<State>,
             ghost slips: seq<bool>)
    requires Ready(debugger, code)
    requires forall k :: 0 <= k < |commands| ==> MayUse(commands[k], code)
    modifies debugger, debugger.kernel
    ensures Ready(debugger, code)
    ensures |results| == |slips| == |commands| && |worlds| == |views| == |commands| + 1
    ensures worlds[0] == old(WorldOfDebugger(debugger)) && worlds[|commands|] == WorldOfDebugger(debugger)
    ensures views[0] == old(debugger.View()) && views[|commands|] == debugger.View()
    ensures forall k :: 0 <= k <= |commands| ==> IsWorldOf(worlds[k], views[k])
    ensures forall k :: 0 <= k < |commands| ==>
      StepOfWorld(debugger.kernel.moves, worlds[k], commands[k], results[k], slips[k], worlds[k + 1])
    ensures debugger.misreads == old(debugger.misreads) ==>
      forall k :: 0 <= k < |commands| && slips[k] ==> MaySlip(views[k], commands[k])
    ensures old(debugger.IsStopped()) && debugger.active.process.state == Detached ==>
      exists k :: 0 <= k < |commands| && commands[k].DetachNow? && results[k].Ok?
                  && LeftAs(debugger.Pid(), debugger.kernel.tasks, worlds[k])
  {
    hide Consistent, Discreet, Within, StepOfWorld, MaySlip, IsWorldOf, LeftAs;
    WorldIsOf(debugger);
    results, worlds, views, slips := [], [WorldOfDebugger(debugger)], [debugger.View()], [];
    ghost var detach := 0;
    var i := 0;
    while i < |commands|
      invariant i <= |commands| && Ready(debugger, code)
      invariant |results| == |slips| == i && |worlds| == |views| == i + 1
      invariant worlds[0] == old(WorldOfDebugger(debugger)) && worlds[i] == WorldOfDebugger(debugger)
      invariant views[0] == old(debugger.View()) && views[i] == debugger.View()
      invariant forall k :: 0 <= k <= i ==> IsWorldOf(worlds[k], views[k])
      invariant forall k :: 0 <= k < i ==>
        StepOfWorld(debugger.kernel.moves, worlds[k], commands[k], results[k], slips[k], worlds[k + 1])
      invariant debugger.misreads >= old(debugger.misreads)
      invariant debugger.misreads == old(debugger.misreads) ==>
        forall k :: 0 <= k < i && slips[k] ==> MaySlip(views[k], commands[k])
      invariant old(debugger.IsStopped()) && debugger.active.process.state == Detached ==>
        && 0 <= detach < i && commands[detach].DetachNow? && results[detach].Ok?
        && LeftAs(debugger.Pid(), debugger.kernel.tasks, worlds[detach])
    {
      ghost var slipped;
      var r;
      r, slipped := PlayOne(debugger, commands[i], code);
      WorldIsOf(debugger);
      if commands[i].DetachNow? && r.Ok? {
        detach := i;
      }
      results, worlds, views, slips :=
        results + [r], worlds + [WorldOfDebugger(debugger)], views + [debugger.View()], slips + [slipped];
      i := i + 1;
    }
  }

  ghost predicate IsWorldOf(w: World, s: State) {
    s.active.process.pid !in s.retained && w == WorldOf(s, w.policy)
  }

  lemma WorldIsOf(debugger: Debugger)
    requires debugger.Valid()
    ensures IsWorldOf(WorldOfDebugger(debugger), debugger.View())
  {
    hide Consistent;
    ConsistentHasRegistry(debugger.View());
  }

  ghost predicate StepOfWorld(moves: Behaviour, w: World, command: Command, r: Result<Option<StopInfo>>, slipped: bool,
                              w': World) {
    exists tasks :: CommandMeans(moves, w, command, r, slipped, w', tasks)
  }

  /** The process looked at is as the world had it. */
  predicate LeftAs(pid: nat, tasks: map<nat, Task>, w: World) {
    && pid == w.pid && pid in w.programs && pid in tasks
    && tasks[pid].cpu == w.programs[pid].cpu && tasks[pid].debug == w.programs[pid].debug
  }

  lemma DetachedIsLeft(moves: Behaviour, w: World, command: Command, r: Result<Option<StopInfo>>, slipped: bool,
                       debugger: Debugger)
    requires debugger.Valid() && command.DetachNow? && r.Ok? && WorldOfDebugger(debugger).pid == debugger.Pid()
    requires CommandMeans(moves, w, command, r, slipped, WorldOfDebugger(debugger), debugger.kernel.tasks)
    ensures LeftAs(debugger.Pid(), debugger.kernel.tasks, w)
  {
  }

  lemma MeansStep(moves: Behaviour, w: World, command: Command, r: Result<Option<StopInfo>>, slipped: bool, w': World,
                  tasks: map<nat, Task>)
    requires CommandMeans(moves, w, command, r, slipped, w', tasks)
    ensures StepOfWorld(moves, w, command, r, slipped, w')
  {
    hide CommandMeans;
  }

  method PlayOne(debugger: Debugger, command: Command, ghost code: set<int>)
    returns (r: Result<Option<StopInfo>>, ghost slipped: bool)
    requires Ready(debugger, code) && MayUse(command, code)
    modifies debugger, debugger.kernel
    ensures Ready(debugger, code)
    ensures StepOfWorld(debugger.kernel.moves, old(WorldOfDebugger(debugger)), command, r, slipped,
                        WorldOfDebugger(debugger))
    ensures command.DetachNow? && r.Ok? ==> LeftAs(debugger.Pid(), debugger.kernel.tasks, old(WorldOfDebugger(debugger)))
    ensures debugger.misreads >= old(debugger.misreads)
    ensures slipped ==>
      MaySlip(old(debugger.View()), command) || (command.Continue? && debugger.misreads > old(debugger.misreads))
    ensures !old(debugger.IsStopped()) ==>
      debugger.kernel.tasks == old(debugger.kernel.tasks) && debugger.active.process == old(debugger.active.process)
    ensures debugger.active.process.state == Detached && old(debugger.IsStopped()) ==> command.DetachNow? && r.Ok?
  {
    hide CommandMeans, StepOfWorld, LeftAs, Consistent, Discreet, MaySlip, Within;
    ghost var w := WorldOfDebugger(debugger);
    match command {
      case Break(address) => r, slipped := PlayBreak(debugger, address, code);
      case Delete(id) => r, slipped := PlayDelete(debugger, id, code);
      case Continue(signals) => r, slipped := PlayContinue(debugger, signals, code);
      case StepInstruction(signals) => r, slipped := PlayStep(debugger, signals, code);
      case Write(at, bytes) => r, slipped := PlayWrite(debugger, at, bytes, code);
      case Watch(what, length) => r, slipped := PlayWatch(debugger, what, length, code);
      case Unwatch(id) => r, slipped := PlayUnwatch(debugger, id, code);
      case Select(pid) => r, slipped := PlaySelect(debugger, pid, code);
      case Follow(policy) => r, slipped := PlayFollow(debugger, policy, code);
      case DetachNow =>
        r, slipped := PlayDetach(debugger, code);
        if r.Ok? {
          DetachedIsLeft(debugger.kernel.moves, w, command, r, slipped, debugger);
        }
    }
    MeansStep(debugger.kernel.moves, w, command, r, slipped, WorldOfDebugger(debugger), debugger.kernel.tasks);
  }

  method PlayBreak(debugger: Debugger, address: int, ghost code: set<int>)
    returns (r: Result<Option<StopInfo>>, ghost slipped: bool)
    requires Ready(debugger, code) && address in code
    modifies debugger, debugger.kernel
    ensures Ready(debugger, code) && !slipped && debugger.misreads == old(debugger.misreads)
    ensures CommandMeans(debugger.kernel.moves, old(WorldOfDebugger(debugger)), Break(address), r, slipped,
                         WorldOfDebugger(debugger), debugger.kernel.tasks)
    ensures !old(debugger.IsStopped()) ==>
      debugger.kernel.tasks == old(debugger.kernel.tasks) && debugger.active.process == old(debugger.active.process)
    ensures debugger.active.process == old(debugger.active.process)
  {
    hide Consistent, Logical, Mapped, Discreet, WorldOf, OthersKept;
    ghost var s := debugger.View();
    var added := debugger.AddBreakpoint(address);
    slipped := false;
    if added.Err? {
      return Err(added.error), false;
    }
    KeptOthers(s.tasks, s.active.process.pid, debugger.kernel.tasks[debugger.Pid()]);
    UnseenChange(s, debugger.policy, debugger.View());
    return Ok(None), false;
  }

  method PlayDelete(debugger: Debugger, id: nat, ghost code: set<int>)
    returns (r: Result<Option<StopInfo>>, ghost slipped: bool)
    requires Ready(debugger, code)
    modifies debugger, debugger.kernel
    ensures Ready(debugger, code) && !slipped && debugger.misreads == old(debugger.misreads)
    ensures CommandMeans(debugger.kernel.moves, old(WorldOfDebugger(debugger)), Delete(id), r, slipped,
                         WorldOfDebugger(debugger), debugger.kernel.tasks)
    ensures !old(debugger.IsStopped()) ==>
      debugger.kernel.tasks == old(debugger.kernel.tasks) && debugger.active.process == old(debugger.active.process)
    ensures debugger.active.process == old(debugger.active.process)
  {
    hide Consistent, Logical, Discreet, WorldOf, Removed;
    ghost var s := debugger.View();
    if debugger.IsStopped() {
      StoppedIsActive(s);
    }
    var found := debugger.RemoveBreakpoint(id);
    slipped := false;
    if !found {
      return Err(InvalidArgument), false;
    }
    RemovalUnseen(s, debugger.policy, id);
    RemovedStaysWithin(s, id, code);
    return Ok(None), false;
  }

  method PlayWrite(debugger: Debugger, at: U64, bytes: seq<Byte>, ghost code: set<int>)
    returns (r: Result<Option<StopInfo>>, ghost slipped: bool)
    requires Ready(debugger, code)
    modifies debugger, debugger.kernel
    ensures Ready(debugger, code) && !slipped && debugger.misreads == old(debugger.misreads)
    ensures CommandMeans(debugger.kernel.moves, old(WorldOfDebugger(debugger)), Write(at, bytes), r, slipped,
                         WorldOfDebugger(debugger), debugger.kernel.tasks)
    ensures !old(debugger.IsStopped()) ==>
      debugger.kernel.tasks == old(debugger.kernel.tasks) && debugger.active.process == old(debugger.active.process)
    ensures debugger.active.process == old(debugger.active.process)
  {
    hide Consistent, Logical, Discreet, WorldOf, Written, PartlyWritten, WriteAccepted, Stored, PartlyStored;
    ghost var s := debugger.View();
    ConsistentHasRegistry(s);
    var written := debugger.WriteMemory(at, bytes);
    slipped := false;
    if written.Ok? {
      WorldLooksAt(s, debugger.policy);
      StoreSeen(s, debugger.policy, at, bytes);
      WrittenStaysWithin(s, at, bytes, code);
      return Ok(None), false;
    }
    if written.error == PtraceError {
      ghost var n :| 0 <= n < |bytes| && debugger.View() == PartlyWritten(s, at, bytes, n);
      WorldLooksAt(s, debugger.policy);
      PartSeen(s, debugger.policy, at, bytes, n);
      PartStaysWithin(s, at, bytes, n, code);
    }
    return Err(written.error), false;
  }

  method PlayWatch(debugger: Debugger, what: U64, length: nat, ghost code: set<int>)
    returns (r: Result<Option<StopInfo>>, ghost slipped: bool)
    requires Ready(debugger, code)
    modifies debugger, debugger.kernel
    ensures Ready(debugger, code) && !slipped && debugger.misreads == old(debugger.misreads)
    ensures CommandMeans(debugger.kernel.moves, old(WorldOfDebugger(debugger)), Watch(what, length), r, slipped,
                         WorldOfDebugger(debugger), debugger.kernel.tasks)
    ensures !old(debugger.IsStopped()) ==>
      debugger.kernel.tasks == old(debugger.kernel.tasks) && debugger.active.process == old(debugger.active.process)
    ensures debugger.active.process == old(debugger.active.process)
  {
    hide Consistent, Logical, Discreet, WorldOf, Watching, WatchRefusal, Aligned, LengthEncoding;
    ghost var s := debugger.View();
    if debugger.IsStopped() {
      StoppedIsActive(s);
    }
    var watched := debugger.AddWriteWatchpoint(what, length);
    slipped := false;
    if watched.Err? {
      return Err(watched.error), false;
    }
    ghost var watch := Watchpoint(watched.value, what, length);
    WorldLooksAt(s, debugger.policy);
    WatchingSeen(s, debugger.policy, watch, LengthEncoding(length).value);
    WatchStaysWithin(s, watch, LengthEncoding(length).value, code);
    return Ok(None), false;
  }

  method PlayUnwatch(debugger: Debugger, id: nat, ghost code: set<int>)
    returns (r: Result<Option<StopInfo>>, ghost slipped: bool)
    requires Ready(debugger, code)
    modifies debugger, debugger.kernel
    ensures Ready(debugger, code) && !slipped && debugger.misreads == old(debugger.misreads)
    ensures CommandMeans(debugger.kernel.moves, old(WorldOfDebugger(debugger)), Unwatch(id), r, slipped,
                         WorldOfDebugger(debugger), debugger.kernel.tasks)
    ensures !old(debugger.IsStopped()) ==>
      debugger.kernel.tasks == old(debugger.kernel.tasks) && debugger.active.process == old(debugger.active.process)
    ensures debugger.active.process == old(debugger.active.process)
  {
    hide Consistent, Logical, Discreet, WorldOf, Unwatched;
    ghost var s := debugger.View();
    if debugger.IsStopped() {
      StoppedIsActive(s);
    }
    var removed := debugger.RemoveWatchpoint(id);
    slipped := false;
    if removed.Err? {
      return Err(removed.error), false;
    }
    if !removed.value {
      return Err(InvalidArgument), false;
    }
    WorldLooksAt(s, debugger.policy);
    UnwatchingSeen(s, debugger.policy);
    UnwatchStaysWithin(s, code);
    return Ok(None), false;
  }

  method PlaySelect(debugger: Debugger, pid: nat, ghost code: set<int>)
    returns (r: Result<Option<StopInfo>>, ghost slipped: bool)
    requires Ready(debugger, code)
    modifies debugger, debugger.kernel
    ensures Ready(debugger, code) && !slipped && debugger.misreads == old(debugger.misreads)
    ensures CommandMeans(debugger.kernel.moves, old(WorldOfDebugger(debugger)), Select(pid), r, slipped,
                         WorldOfDebugger(debugger), debugger.kernel.tasks)
    ensures !old(debugger.IsStopped()) ==>
      debugger.kernel.tasks == old(debugger.kernel.tasks) && debugger.active.process == old(debugger.active.process)
    ensures debugger.active.process.state == Detached ==> old(debugger.active.process.state) == Detached
  {
    hide Consistent, Logical, Discreet, WorldOf, Exchanged;
    ghost var s := debugger.View();
    ConsistentHasRegistry(s);
    var selected := debugger.SelectProcess(pid);
    slipped := false;
    if selected.Err? {
      return Err(selected.error), false;
    }
    if pid != s.active.process.pid {
      RetainedProcess(s, pid);
      SelectionUnseen(s, debugger.policy, pid);
      SelectStaysWithin(s, pid, code);
    } else {
      WorldLooksAt(s, debugger.policy);
    }
    return Ok(None), false;
  }

  method PlayFollow(debugger: Debugger, policy: FollowPolicy, ghost code: set<int>)
    returns (r: Result<Option<StopInfo>>, ghost slipped: bool)
    requires Ready(debugger, code)
    modifies debugger, debugger.kernel
    ensures Ready(debugger, code) && !slipped && debugger.misreads == old(debugger.misreads)
    ensures CommandMeans(debugger.kernel.moves, old(WorldOfDebugger(debugger)), Follow(policy), r, slipped,
                         WorldOfDebugger(debugger), debugger.kernel.tasks)
    ensures !old(debugger.IsStopped()) ==>
      debugger.kernel.tasks == old(debugger.kernel.tasks) && debugger.active.process == old(debugger.active.process)
    ensures debugger.active.process == old(debugger.active.process)
  {
    hide Consistent, Logical, Discreet;
    var followed := debugger.SetForkFollowPolicy(policy);
    slipped := false;
    if followed.Err? {
      return Err(followed.error), false;
    }
    return Ok(None), false;
  }

  method PlayDetach(debugger: Debugger, ghost code: set<int>)
    returns (r: Result<Option<StopInfo>>, ghost slipped: bool)
    requires Ready(debugger, code)
    modifies debugger, debugger.kernel
    ensures Ready(debugger, code) && !slipped && debugger.misreads == old(debugger.misreads)
    ensures CommandMeans(debugger.kernel.moves, old(WorldOfDebugger(debugger)), DetachNow, r, slipped,
                         WorldOfDebugger(debugger), debugger.kernel.tasks)
    ensures !old(debugger.IsStopped()) ==>
      debugger.kernel.tasks == old(debugger.kernel.tasks) && debugger.active.process == old(debugger.active.process)
    ensures r.Err? ==> debugger.active.process == old(debugger.active.process)
  {
    hide Consistent, Logical, Discreet, WorldOf, DetachedState;
    ghost var s := debugger.View();
    WorldLooksAt(s, debugger.policy);
    var detached := debugger.Detach();
    slipped := false;
    if detached.Err? {
      return Err(detached.error), false;
    }
    DetachmentSeen(s, debugger.policy);
    DetachStaysWithin(s, code);
    return Ok(None), false;
  }

  method PlayContinue(debugger: Debugger, signals: SignalPolicy, ghost code: set<int>)
    returns (r: Result<Option<StopInfo>>, ghost slipped: bool)
    requires Ready(debugger, code)
    modifies debugger, debugger.kernel
    ensures Ready(debugger, code)
    ensures CommandMeans(debugger.kernel.moves, old(WorldOfDebugger(debugger)), Continue(signals), r, slipped,
                         WorldOfDebugger(debugger), debugger.kernel.tasks)
    ensures debugger.misreads >= old(debugger.misreads)
    ensures slipped ==> MaySlip(old(debugger.View()), Continue(signals)) || debugger.misreads > old(debugger.misreads)
    ensures !old(debugger.IsStopped()) ==>
      debugger.kernel.tasks == old(debugger.kernel.tasks) && debugger.active.process == old(debugger.active.process)
    ensures debugger.active.process.state == Detached ==> old(debugger.active.process.state) == Detached
  {
    hide Consistent, Discreet, Outcome, AfterContinue, Continued, Told, FaithfulTo, Resumed, Followed, WorldOf, Refused,
         RipArmed;
    DiscreetBelow(debugger.kernel.moves, debugger.active.table.Keys, code);
    ghost var s, trace := debugger.View(), debugger.trace;
    ConsistentHasRegistry(s);
    var stop;
    ghost var start, stopped;
    stop, start, stopped := debugger.ContinueExecution(signals);
    r, slipped := Stopping(stop), false;
    if s.active.process.state != Stopped {
      NotLive(s, debugger.policy);
    } else {
      StoppedIsActive(s);
      WorldLooksAt(s, debugger.policy);
      if stop.Ok? {
        ContinueStaysWithin(s, debugger.policy, start, stopped, debugger.View(), stop.value, code);
        StillStopped(s, debugger.policy, start, stopped, debugger.View(), stop.value);
      } else {
        RefusedStaysWithin(s, debugger.View(), code);
      }
      slipped := Unfinished(s) || Misread(debugger.why, stop);
      FollowedByContinue(debugger.kernel.moves, s, trace, signals == Forward, debugger.why, debugger.policy, debugger.View(),
                         debugger.trace, stop);
      ResumptionIsStep(debugger.kernel.moves, s, debugger.policy, start, stopped, debugger.View(), stop, slipped);
    }
  }

  method PlayStep(debugger: Debugger, signals: SignalPolicy, ghost code: set<int>)
    returns (r: Result<Option<StopInfo>>, ghost slipped: bool)
    requires Ready(debugger, code)
    modifies debugger, debugger.kernel
    ensures Ready(debugger, code)
    ensures CommandMeans(debugger.kernel.moves, old(WorldOfDebugger(debugger)), StepInstruction(signals), r, slipped,
                         WorldOfDebugger(debugger), debugger.kernel.tasks)
    ensures debugger.misreads == old(debugger.misreads)
    ensures slipped ==> MaySlip(old(debugger.View()), StepInstruction(signals))
    ensures !old(debugger.IsStopped()) ==>
      debugger.kernel.tasks == old(debugger.kernel.tasks) && debugger.active.process == old(debugger.active.process)
    ensures debugger.active.process.state == Detached ==> old(debugger.active.process.state) == Detached
  {
    hide Consistent, Discreet, Outcome, AfterContinue, Continued, Told, FaithfulTo, Resumed, Followed, WorldOf, Refused,
         RipArmed;
    DiscreetBelow(debugger.kernel.moves, debugger.active.table.Keys, code);
    ghost var s, trace := debugger.View(), debugger.trace;
    ConsistentHasRegistry(s);
    var stop;
    ghost var start, stopped;
    stop, start, stopped := debugger.SingleStep(signals);
    r, slipped := Stopping(stop), false;
    if s.active.process.state != Stopped {
      NotLive(s, debugger.policy);
    } else {
      StoppedIsActive(s);
      WorldLooksAt(s, debugger.policy);
      if stop.Ok? {
        ContinueStaysWithin(s, debugger.policy, start, stopped, debugger.View(), stop.value, code);
        StillStopped(s, debugger.policy, start, stopped, debugger.View(), stop.value);
      } else {
        RefusedStaysWithin(s, debugger.View(), code);
      }
      if stop.Err? && debugger.View() == s && debugger.trace == trace {
        FollowedByNothing(debugger.kernel.moves, s, debugger.policy, stop.error);
      } else {
        slipped := SteppedOnInt3(s, true, debugger.why);
        FollowedByStep(debugger.kernel.moves, s, trace, signals == Forward, debugger.why, debugger.policy, debugger.View(),
                       debugger.trace, stop);
      }
      ResumptionIsStep(debugger.kernel.moves, s, debugger.policy, start, stopped, debugger.View(), stop, slipped);
    }
  }

  // What keeps a session on code, and other small facts about single commands.

  lemma KeptOthers(tasks: map<nat, Task>, pid: nat, t: Task)
    ensures OthersKept(tasks, tasks[pid := t], {pid})
  {
  }

  lemma WorldLooksAt(s: State, policy: FollowPolicy)
    requires Consistent(s)
    ensures s.active.process.pid !in s.retained && WorldOf(s, policy).pid == s.active.process.pid
    ensures s.active.process.state == Stopped ==> s.active.process.pid in WorldOf(s, policy).programs
  {
    hide Consistent, Own;
    LiveOnes(s);
  }

  lemma NotLive(s: State, policy: FollowPolicy)
    requires Consistent(s) && s.active.process.state != Stopped
    ensures s.active.process.pid !in s.retained && s.active.process.pid !in WorldOf(s, policy).programs
    ensures WorldOf(s, policy).pid == s.active.process.pid
  {
    hide Consistent;
    NoneLive(s);
  }

  lemma RetainedProcess(s: State, p: nat)
    requires Registry(s) && p in s.retained
    ensures s.retained[p].process == Process(p, Launched, Stopped)
  {
    hide Sound, Settled, IdsDisjoint;
    assert RetainedOk(s.retained[p], p, s.tasks);
  }

  lemma FollowedByNothing(moves: Behaviour, s: State, policy: FollowPolicy, error: Error)
    requires s.active.process.pid in s.tasks
    ensures Followed(moves, s, policy, s, Err(error), false)
  {
    hide ProgramOf;
    var run := [ProgramOf(s)];
    assert IsRun(moves, run) && run[0] == ProgramOf(s) && run[|run| - 1] == ProgramOf(s);
  }

  lemma StillStopped(s: State, policy: FollowPolicy, start: State, stopped: State, s': State, info: StopInfo)
    requires Consistent(s) && AfterContinue(s, policy, start, stopped, s', info) && s.active.process.state == Stopped
    ensures SameProgram(info, policy) ==> s'.active.process.state == Stopped
    ensures s'.active.process.state != Detached
  {
    hide Outcome, Consistent;
    AfterTheStop(s, policy, start, stopped, s', info);
    SameProgramIsStopped(start, policy, stopped, info);
    StateAfterOutcome(start, policy, stopped, info);
    if HandedOver(start, stopped) {
      SurvivorTakesOver(s, start, stopped);
    }
  }

  lemma StateAfterOutcome(s: State, policy: FollowPolicy, s': State, info: StopInfo)
    requires Outcome(s, policy, s', info) && s.active.process.state == Stopped
    ensures HandedOver(s, s') || s'.active.process.state in {Stopped, Exited, Signaled}
  {
    hide Logical, OthersKept, HandedOver;
  }

  lemma RemovedStaysWithin(s: State, id: nat, code: set<int>)
    requires Within(s, code) && id in s.active.ids
    requires s.active.process.state == Stopped ==> s.active.process.pid in s.tasks
    ensures Within(Removed(s, id), code) && Removed(s, id).active.ids == s.active.ids - {id}
    ensures Removed(s, id).active.process == s.active.process && Removed(s, id).retained == s.retained
    ensures s.active.process.state != Stopped ==> Removed(s, id).tasks == s.tasks
  {
  }

  lemma WrittenStaysWithin(s: State, address: int, bytes: seq<Byte>, code: set<int>)
    requires Within(s, code) && s.active.process.pid in s.tasks
    ensures Within(Written(s, address, bytes), code) && Written(s, address, bytes).active.process == s.active.process
  {
  }

  lemma PartStaysWithin(s: State, address: int, bytes: seq<Byte>, n: nat, code: set<int>)
    requires Within(s, code) && s.active.process.pid in s.tasks && n <= |bytes|
    ensures Within(PartlyWritten(s, address, bytes, n), code)
    ensures PartlyWritten(s, address, bytes, n).active.process == s.active.process
  {
  }

  lemma WatchStaysWithin(s: State, watch: Watchpoint, length: bv64, code: set<int>)
    requires Within(s, code) && s.active.process.pid in s.tasks
    ensures Within(Watching(s, watch, length), code) && Watching(s, watch, length).active.process == s.active.process
  {
    hide ArmedRegisters;
  }

  lemma UnwatchStaysWithin(s: State, code: set<int>)
    requires Within(s, code) && s.active.process.pid in s.tasks && s.active.snapshot.Some?
    ensures Within(Unwatched(s), code) && Unwatched(s).active.process == s.active.process
  {
  }

  lemma SelectStaysWithin(s: State, p: nat, code: set<int>)
    requires Within(s, code) && p in s.retained
    ensures Within(Exchanged(s, p), code) && Exchanged(s, p).active.process == s.retained[p].process
  {
  }

  lemma DetachStaysWithin(s: State, code: set<int>)
    requires Within(s, code) && s.active.process.pid in s.tasks
    ensures Within(DetachedState(s), code) && DetachedState(s).active.process.pid == s.active.process.pid
  {
  }

  lemma RefusedStaysWithin(s: State, s': State, code: set<int>)
    requires Within(s, code) && Refused(s, s')
    ensures Within(s', code) && s'.active.process == s.active.process
  {
  }

  // ----- forks and deaths, also in the middle of a displaced step -----

  /** Every breakpoint of the active process is in its memory. */
  ghost predicate AllInstalled(s: State) {
    s.active.pending.None? && forall a :: a in s.active.table ==> s.active.table[a].installed
  }

  lemma NothingPendingAllInstalled(s: State)
    requires Consistent(s) && s.active.process.state == Stopped && s.active.pending.None?
    ensures AllInstalled(s)
  {
    hide MapsAgree, Overlaid, WatchHeld, Settled, Registry;
  }

  /** The other of the two processes after a fork, as released. */
  ghost predicate ReleasedClean(s: State, other: nat, snapshot: Option<Snapshot>) {
    && other in s.tasks && s.active.process.pid in s.tasks && other != s.active.process.pid
    && s.tasks[other].cpu.mem == ProgramOf(s).mem
    && (snapshot.Some? ==> s.tasks[other].debug == snapshot.value.debug)
  }

  lemma ForkReleasesClean(s: State, policy: FollowPolicy, s': State, info: StopInfo)
    requires Outcome(s, policy, s', info) && info.reason == TrapStop && info.forked.Some? && policy != FollowBoth
    ensures var pid, child := s.active.process.pid, info.forked.value.child;
            && s'.active.process.pid == (if policy == FollowChild then child else pid)
            && s'.active.ids == s.active.ids && s'.active.table == s.active.table && s'.active.pending == s.active.pending
            && s'.active.process.state == (if policy == FollowChild then Stopped else s.active.process.state)
            && ReleasedClean(s', if policy == FollowChild then pid else child, s.active.snapshot)
  {
  }

  lemma ReinsertionKeepsReleased(s: State, other: nat, snapshot: Option<Snapshot>)
    requires Consistent(s) && ReleasedClean(s, other, snapshot)
    ensures ReleasedClean(SteppedOver(s), other, snapshot)
    ensures SteppedOver(s).active.ids == s.active.ids && SteppedOver(s).active.table.Keys == s.active.table.Keys
  {
    SteppedOverIsSound(s);
    hide Consistent, ProgramOf;
  }

  /** A fork keeps the overlay, even in the middle of a displaced step. Following the
      parent releases a child with the program's own memory; following the child leaves
      the parent so, and the child has every breakpoint, with its id and installed. The
      debug registers of the one released are as before any watchpoint. */
  lemma ForkKeepsOverlay(s: State, policy: FollowPolicy, start: State, stopped: State, s': State, info: StopInfo)
    requires Consistent(s) && s.active.process.state == Stopped && Consistent(s')
    requires AfterContinue(s, policy, start, stopped, s', info)
    requires info.reason == TrapStop && info.forked.Some? && policy != FollowBoth
    ensures var pid, child := s.active.process.pid, info.forked.value.child;
            && s'.active.process.pid == (if policy == FollowChild then child else pid)
            && s'.active.ids == s.active.ids && s'.active.table.Keys == s.active.table.Keys
            && s'.active.process.state == Stopped && AllInstalled(s')
            && ReleasedClean(s', if policy == FollowChild then pid else child, s.active.snapshot)
  {
    hide Consistent, Outcome, SteppedOver, AllInstalled, ReleasedClean;
    var other := if policy == FollowChild then s.active.process.pid else info.forked.value.child;
    ForkReleasesClean(start, policy, stopped, info);
    if start == s && s.active.pending.Some? {
      ReinsertionKeepsReleased(stopped, other, s.active.snapshot);
      SteppedOverIsSound(stopped);
    }
    NothingPendingAllInstalled(s');
  }

  /** When the active process dies, even in the middle of a displaced step, a survivor
      takes over with its tables and its memory as they were. */
  lemma DeathHandsOver(s: State, policy: FollowPolicy, start: State, stopped: State, s': State, info: StopInfo)
    requires Registry(s) && AfterContinue(s, policy, start, stopped, s', info)
    requires info.reason in {ProcessExited, ProcessSignaled}
    ensures var survivor := s'.active.process.pid;
            && survivor in s.retained && survivor in s.tasks && survivor in s'.tasks
            && s'.active == s.retained[survivor].(stop := info)
            && s'.retained == s.retained - {survivor}
            && s'.tasks[survivor] == s.tasks[survivor]
            && s.active.process.pid !in s'.tasks
  {
    hide RetainedOk, IdsDisjoint;
    OutcomeIsHandOver(start, stopped, policy, info);
    var survivor := stopped.active.process.pid;
    SurvivorIsQuiet(s, survivor);
  }

  // ----- series of continues -----

  /** Every state of `run` from `first` on that stands on a managed address is one in
      which the program was stopped, or one from which the handler of a forwarded signal
      was entered: no managed instruction is executed without a stop before it. */
  ghost predicate StopsAtEvery(moves: Behaviour, run: seq<Cpu>, first: nat, managed: set<int>, at: seq<nat>,
                               forwarded: bool) {
    forall i :: first <= i < |run| && run[i].rip in managed ==>
      i in at || (forwarded && i + 1 < |run| && moves.enter(run[i], run[i + 1]))
  }

  lemma OneMoreStop(moves: Behaviour, run: seq<Cpu>, longer: seq<Cpu>, first: nat, managed: set<int>, at: seq<nat>,
                    forwarded: bool, entries: bool)
    requires first <= |run| <= |longer| && |longer| > 0 && run <= longer
      && StopsAtEvery(moves, run, first, managed, at, forwarded)
    requires |run| > 0 ==> |run| - 1 in at || |run| - 1 < first
    requires Unarmed(moves, longer[|run|..], managed, entries)
    ensures StopsAtEvery(moves, longer, first, managed, at + [|longer| - 1], forwarded || entries)
  {
    var rest, more := longer[|run|..], at + [|longer| - 1];
    forall i | first <= i < |longer| && longer[i].rip in managed
      ensures i in more || ((forwarded || entries) && i + 1 < |longer| && moves.enter(longer[i], longer[i + 1]))
    {
      if i < |run| {
        assert longer[i] == run[i];
        if i + 1 < |run| {
          assert longer[i + 1] == run[i + 1];
        }
        assert i in at ==> i in more;
      } else if i < |longer| - 1 {
        assert rest[i - |run|] == longer[i] && rest[i - |run| + 1] == longer[i + 1];
      } else {
        assert more[|at|] == i;
      }
    }
  }

  /** One continue leads from the one state of the session to the other. */
  ghost predicate Linked(policy: FollowPolicy, s: State, info: StopInfo, s': State) {
    exists start, stopped :: AfterContinue(s, policy, start, stopped, s', info)
  }

  /** Stop `k` of a series: one continue led to it, and it is state `at[k]` of the run. */
  ghost predicate StopOf(policy: FollowPolicy, managed: set<int>, stops: seq<StopInfo>, run: seq<Cpu>, at: seq<nat>,
                         views: seq<State>, k: nat)
    requires k < |stops| == |at| && |views| == |stops| + 1
  {
    && SameProgram(stops[k], policy) && Linked(policy, views[k], stops[k], views[k + 1])
    && at[k] < |run| && views[k + 1].active.process.pid in views[k + 1].tasks
    && run[at[k]] == ProgramOf(views[k + 1])
    && (stops[k].reason == BreakpointHit ==>
          && stops[k].address.Some? && stops[k].address.value in managed
          && run[at[k]].rip == stops[k].address.value)
  }

  /** The stops of a series, where they are in the run, and the states of the session. */
  ghost predicate Series(policy: FollowPolicy, managed: set<int>, stops: seq<StopInfo>, run: seq<Cpu>,
                         at: seq<nat>, views: seq<State>) {
    && |at| == |stops| && |views| == |stops| + 1
    && (forall k :: 0 <= k < |stops| ==> StopOf(policy, managed, stops, run, at, views, k))
    && (forall j, k :: 0 <= j < k < |stops| ==> at[j] <= at[k])
  }

  lemma SeriesGoesOn(policy: FollowPolicy, managed: set<int>, stops: seq<StopInfo>, run: seq<Cpu>,
                     at: seq<nat>, views: seq<State>, stop: StopInfo, longer: seq<Cpu>, s': State)
    requires Series(policy, managed, stops, run, at, views)
    requires run <= longer && |longer| > 0 && SameProgram(stop, policy) && Linked(policy, views[|stops|], stop, s')
    requires s'.active.process.pid in s'.tasks && longer[|longer| - 1] == ProgramOf(s')
    requires stop.reason == BreakpointHit ==>
      stop.address.Some? && stop.address.value in managed && ProgramOf(s').rip == stop.address.value
    ensures Series(policy, managed, stops + [stop], longer, at + [|longer| - 1], views + [s'])
  {
    hide ProgramOf, SameProgram, Linked;
    var stops', at', views' := stops + [stop], at + [|longer| - 1], views + [s'];
    forall k | 0 <= k < |stops'|
      ensures at'[k] < |longer| && StopOf(policy, managed, stops', longer, at', views', k)
    {
      if k < |stops| {
        assert StopOf(policy, managed, stops, run, at, views, k);
        assert stops'[k] == stops[k] && at'[k] == at[k] && views'[k] == views[k] && views'[k + 1] == views[k + 1];
      }
    }
  }

  lemma EmptySeries(moves: Behaviour, policy: FollowPolicy, managed: set<int>, run: seq<Cpu>, s: State)
    ensures Series(policy, managed, [], run, [], [s])
    ensures StopsAtEvery(moves, run, |run|, managed, [], false)
  {
  }

  lemma NothingUnfinished(s: State)
    requires Consistent(s) && s.active.process.state == Stopped && AtPendingStep(s)
    ensures s.active.process.pid in s.tasks && !Unfinished(s)
  {
    StoppedIsActive(s);
    if s.active.pending.Some? {
      PendingIsNotArmed(s);
    }
  }

  /** Transparency of any series of `continue` commands, with any signals forwarded, as
      long as no foreign SIGTRAP is misread. Up to the last stop that is one of the same
      program, the session went along one run of the undebugged program, which was only
      ever prolonged: nothing is skipped and nothing executed twice. Stop `k` is state
      `at[k]` of the run, and the program stood there as the session had it; a breakpoint
      stop at `a` is a state about to execute `a`; and no managed instruction was executed
      without such a stop. The series ends early only at an error or at another program. */
  method ContinueMany(debugger: Debugger, policies: seq<SignalPolicy>)
    returns (stops: seq<StopInfo>, last: Result<StopInfo>, ghost run: seq<Cpu>, ghost at: seq<nat>, ghost views: seq<State>)
    requires debugger.Valid() && debugger.IsStopped() && debugger.AtPending()
    requires Discreet(debugger.kernel.moves, debugger.active.table.Keys)
    modifies debugger, debugger.kernel
    ensures debugger.Valid() && debugger.policy == old(debugger.policy) && |stops| <= |policies|
    ensures |stops| < |policies| ==> last.Err? || !SameProgram(last.value, debugger.policy)
    ensures debugger.misreads == old(debugger.misreads) ==>
      && IsRun(debugger.kernel.moves, run) && old(debugger.trace) <= run
      && Series(debugger.policy, old(debugger.active.table).Keys, stops, run, at, views)
      && views[0] == old(debugger.View())
      && |run| - 1 == (if stops == [] then |old(debugger.trace)| - 1 else at[|stops| - 1])
      && StopsAtEvery(debugger.kernel.moves, run, |old(debugger.trace)|, old(debugger.active.table).Keys, at,
                      Forward in policies[..|stops|])
      && (|stops| == |policies| ==> run == debugger.trace && views[|stops|] == debugger.View())
  {
    hide Consistent, Discreet, Outcome, AfterContinue, Unarmed, StopsAtEvery, AtPendingStep, SameProgram, FaithfulTo,
         Series, Linked,
         Continued, ProgramOf, IsRun, Unfinished, RipArmed;
    ghost var managed, moves, first := debugger.active.table.Keys, debugger.kernel.moves, |debugger.trace|;
    stops, last, run, at, views := [], Err(LogicError), debugger.trace, [], [debugger.View()];
    FaithfulIsRun(moves, run, debugger.View());
    EmptySeries(moves, debugger.policy, managed, run, debugger.View());
    while |stops| < |policies|
      invariant |stops| <= |policies| && debugger.Valid() && debugger.IsStopped() && debugger.AtPending()
      invariant debugger.policy == old(debugger.policy) && debugger.active.table.Keys == managed && Discreet(moves, managed)
      invariant debugger.misreads >= old(debugger.misreads)
      invariant debugger.misreads == old(debugger.misreads) ==>
        SoFar(debugger, moves, policies, managed, old(debugger.trace), old(debugger.View()), stops, run, at, views)
      decreases |policies| - |stops|
    {
      ghost var s, trace := debugger.View(), debugger.trace;
      ghost var start, stopped;
      last, start, stopped := debugger.ContinueExecution(policies[|stops|]);
      if last.Err? || !SameProgram(last.value, debugger.policy) {
        return;
      }
      SameProgramStays(s, debugger.policy, start, stopped, debugger.View(), last.value);
      if debugger.misreads == old(debugger.misreads) {
        LinkedBy(s, debugger.policy, start, stopped, debugger.View(), last.value);
        GoneOn(debugger, moves, policies, managed, old(debugger.trace), old(debugger.View()), stops, run, at, views, s,
               trace, last);
        run, at, views := debugger.trace, at + [|debugger.trace| - 1], views + [debugger.View()];
      }
      stops := stops + [last.value];
    }
  }

  lemma LinkedBy(s: State, policy: FollowPolicy, start: State, stopped: State, s': State, info: StopInfo)
    requires AfterContinue(s, policy, start, stopped, s', info)
    ensures Linked(policy, s, info, s')
  {
  }

  /** What the series has come to. */
  ghost predicate SoFar(debugger: Debugger, moves: Behaviour, policies: seq<SignalPolicy>, managed: set<int>,
                        trace: seq<Cpu>,
                        start: State, stops: seq<StopInfo>, run: seq<Cpu>, at: seq<nat>, views: seq<State>)
    reads debugger, debugger.kernel
  {
    && |stops| <= |policies| && IsRun(moves, run) && trace <= run && run == debugger.trace && |run| > 0
    && Series(debugger.policy, managed, stops, run, at, views) && |at| == |stops| && |views| == |stops| + 1
    && views[0] == start && views[|stops|] == debugger.View()
    && |run| - 1 == (if stops == [] then |trace| - 1 else at[|stops| - 1])
    && StopsAtEvery(moves, run, |trace|, managed, at, Forward in policies[..|stops|])
  }

  lemma GoneOn(debugger: Debugger, moves: Behaviour, policies: seq<SignalPolicy>, managed: set<int>, trace0: seq<Cpu>,
               start: State, stops: seq<StopInfo>, run: seq<Cpu>, at: seq<nat>, views: seq<State>, s: State, trace: seq<Cpu>,
               last: Result<StopInfo>)
    requires |stops| < |policies| && IsRun(moves, run) && trace0 <= run && run == trace && |run| > 0
    requires Series(debugger.policy, managed, stops, run, at, views) && |at| == |stops| && |views| == |stops| + 1
    requires views[0] == start && views[|stops|] == s
    requires |run| - 1 == if stops == [] then |trace0| - 1 else at[|stops| - 1]
    requires StopsAtEvery(moves, run, |trace0|, managed, at, Forward in policies[..|stops|])
    requires Consistent(s) && s.active.process.state == Stopped && AtPendingStep(s) && s.active.table.Keys == managed
    requires debugger.Valid() && debugger.IsStopped() && debugger.kernel.moves == moves
    requires last.Ok? && SameProgram(last.value, debugger.policy) && !Misread(debugger.why, last)
    requires Continued(moves, s, trace, policies[|stops|] == Forward, debugger.why, debugger.policy, debugger.View(),
                       debugger.trace, last)
    requires Linked(debugger.policy, s, last.value, debugger.View())
    ensures SoFar(debugger, moves, policies, managed, trace0, start, stops + [last.value], debugger.trace,
                  at + [|debugger.trace| - 1], views + [debugger.View()])
  {
    hide Consistent, StopsAtEvery, AtPendingStep, SameProgram, Series, Linked, ProgramOf, IsRun, Unfinished, RipArmed,
         Unarmed, RanBeside;
    NothingUnfinished(s);
    FaithfulIsRun(moves, debugger.trace, debugger.View());
    var n := |stops|;
    OneMoreStop(moves, run, debugger.trace, |trace0|, managed, at, Forward in policies[..n], policies[n] == Forward);
    assert policies[..n + 1] == policies[..n] + [policies[n]];
    SeriesGoesOn(debugger.policy, managed, stops, run, at, views, last.value, debugger.trace, debugger.View());
  }
}
