/** The tasks of one traced process and the state the process shows as a whole. */
module TaskTable {
  import opened Base
  import opened Session

  type TaskStates = map<nat, ProcessState>

  /** What waitpid says about one task. */
  datatype Report =
    | TaskExited(code: int)
    | TaskKilled(signal: int)
    | TaskStopped(cloned: Option<nat>)
    | BadClone      // a clone stop whose message is not a task id
    | Unsupported   // neither an end nor a stop

  ghost predicate OnlyStoppedOrRunning(tasks: TaskStates) {
    forall t :: t in tasks ==> tasks[t] in {Stopped, Running}
  }

  predicate SomeStopped(tasks: TaskStates) {
    exists t :: t in tasks && tasks[t] == Stopped
  }

  predicate AllStopped(tasks: TaskStates) {
    forall t :: t in tasks ==> tasks[t] == Stopped
  }

  /** A process is stopped as soon as one of its tasks is. */
  function Aggregate(tasks: TaskStates): ProcessState {
    if SomeStopped(tasks) then Stopped else Running
  }

  /** The task the debugger looks at next: the smallest stopped one, or the smallest. */
  ghost predicate IsChoice(tasks: TaskStates, t: int) {
    && t in tasks
    && (SomeStopped(tasks) ==> tasks[t] == Stopped)
    && forall u :: u in tasks && (SomeStopped(tasks) ==> tasks[u] == Stopped) ==> t <= u
  }

  /** Reports about unknown tasks are refused, unless the task has stopped and belongs to
      the process. */
  predicate Accepted(tasks: TaskStates, tid: nat, report: Report, belongs: bool) {
    tid in tasks || ((report.TaskStopped? || report.BadClone?) && belongs)
  }

  /** What a report makes of the task states. */
  function After(tasks: TaskStates, tid: nat, report: Report): TaskStates {
    match report
    case TaskExited(_) => tasks - {tid}
    case TaskKilled(_) => tasks - {tid}
    case BadClone => tasks[tid := Stopped]
    case Unsupported => tasks
    case TaskStopped(cloned) =>
      var stopped := tasks[tid := Stopped];
      if cloned.Some? && cloned.value !in stopped then stopped[cloned.value := Running] else stopped
  }

  class Tasks {
    var pid: int
    var current: int
    var state: ProcessState
    var origin: Origin
    var tasks: TaskStates
    var exitCode: Option<int>
    var termination: Option<int>

    /** A process with tasks shows their aggregate state and looks at one of them; a
        process without tasks has ended or was detached. */
    ghost predicate Valid()
      reads this
    {
      && OnlyStoppedOrRunning(tasks)
      && (tasks != map[] ==> state == Aggregate(tasks) && current in tasks)
      && (tasks == map[] ==> state in {Exited, Signaled, Detached} && current == -1)
    }

    constructor (pid: nat, origin: Origin)
      ensures Valid() && tasks == map[pid := Running] && this.pid == current == pid && this.origin == origin
    {
      this.pid, current, state, this.origin, tasks := pid, pid, Running, origin, map[pid := Running];
      exitCode, termination := None, None;
      new;
      assert pid in tasks;
    }

    method UpdateAggregateState()
      modifies this`state
      ensures state == if tasks == map[] then old(state) else Aggregate(tasks)
    {
      if tasks == map[] {
        return;
      }
      var todo := tasks.Keys;
      while todo != {}
        invariant todo <= tasks.Keys
        invariant forall t :: t in tasks && t !in todo ==> tasks[t] != Stopped
        invariant state == old(state)
        decreases |todo|
      {
        var t :| t in todo;
        if tasks[t] == Stopped {
          state := Stopped;
          return;
        }
        todo := todo - {t};
      }
      state := Running;
    }

    method SelectCurrentTask()
      requires tasks != map[]
      modifies this`current
      ensures IsChoice(tasks, current)
    {
      var todo := tasks.Keys;
      var stopped: Option<nat>, first: Option<nat> := None, None;
      while todo != {}
        invariant todo <= tasks.Keys
        invariant first.None? ==> todo == tasks.Keys
        invariant first.Some? ==> first.value in tasks && forall u :: u in tasks && u !in todo ==> first.value <= u
        invariant stopped.Some? ==> stopped.value in tasks && tasks[stopped.value] == Stopped
        invariant stopped.Some? ==> forall u :: u in tasks && u !in todo && tasks[u] == Stopped ==> stopped.value <= u
        invariant stopped.None? ==> forall u :: u in tasks && u !in todo ==> tasks[u] != Stopped
        decreases |todo|
      {
        var t :| t in todo;
        if first.None? || t < first.value {
          first := Some(t);
        }
        if tasks[t] == Stopped && (stopped.None? || t < stopped.value) {
          stopped := Some(t);
        }
        todo := todo - {t};
      }
      current := if stopped.Some? then stopped.value else if first.Some? then first.value else -1;
    }

    /** One report of waitpid. A stop of a task not seen before is accepted if the task
        belongs to the process, and everything else about unknown tasks is refused. A
        report that makes no sense is an error after the task has been noted. */
    method WaitFor(tid: nat, report: Report, belongs: bool) returns (r: Result<()>)
      requires Valid()
      modifies this
      ensures Valid() && pid == old(pid) && origin == old(origin)
      ensures r.Ok? <==> Accepted(old(tasks), tid, report, belongs) && !report.BadClone? && !report.Unsupported?
      ensures !Accepted(old(tasks), tid, report, belongs) ==> unchanged(this)
      ensures Accepted(old(tasks), tid, report, belongs) ==>
        && tasks == After(old(tasks), tid, report)
        && (report.TaskStopped? || report.BadClone? ==> current == tid && state == Stopped)
        && (report.Unsupported? ==> current == tid && state == old(state))
        && (report.TaskExited? || report.TaskKilled? ==> tasks != map[] ==> IsChoice(tasks, current))
        && (report.TaskExited? && tasks == map[] ==> state == Exited)
        && (report.TaskKilled? && tasks == map[] ==> state == Signaled)
        && (report.TaskExited? && tid == pid ==> exitCode == Some(report.code))
    {
      if tid !in tasks {
        if !((report.TaskStopped? || report.BadClone?) && belongs) {
          return Err(RuntimeError);
        }
        tasks := tasks[tid := Running];
      }
      current := tid;
      match report {
        case TaskExited(code) =>
          if tid == pid {
            exitCode := Some(code);
          }
          tasks := tasks - {tid};
          Forget(Exited);
        case TaskKilled(signal) =>
          if tid == pid {
            termination := Some(signal);
          }
          tasks := tasks - {tid};
          Forget(Signaled);
        case TaskStopped(cloned) =>
          NoteStop(tid);
          if cloned.Some? && cloned.value !in tasks {
            tasks := tasks[cloned.value := Running];
            assert tasks[tid] == Stopped;
          }
          assert tasks == After(old(tasks), tid, report);
        case BadClone =>
          NoteStop(tid);
          assert tasks == After(old(tasks), tid, report);
          return Err(RuntimeError);
        case Unsupported =>
          assert tid in old(tasks);
          return Err(RuntimeError);
      }
      return Ok(());
    }

    method NoteStop(tid: nat)
      requires OnlyStoppedOrRunning(tasks)
      modifies this`tasks, this`state
      ensures tasks == old(tasks)[tid := Stopped] && state == Stopped && OnlyStoppedOrRunning(tasks) && SomeStopped(tasks)
    {
      tasks := tasks[tid := Stopped];
      state := Stopped;
      assert tasks[tid] == Stopped;
    }

    /** After a task is gone: the end of the process, or another task to look at. */
    method Forget(terminal: ProcessState)
      requires OnlyStoppedOrRunning(tasks) && terminal in {Exited, Signaled, Detached}
      modifies this`current, this`state
      ensures Valid()
      ensures tasks == map[] ==> state == terminal
      ensures tasks != map[] ==> IsChoice(tasks, current)
    {
      if tasks == map[] {
        current := -1;
        state := terminal;
      } else {
        UpdateAggregateState();
        SelectCurrentTask();
      }
    }

    method MarkRunning(tid: nat)
      requires Valid()
      modifies this`tasks, this`state
      ensures Valid()
      ensures tasks == if tid in old(tasks) then old(tasks)[tid := Running] else old(tasks)
      ensures tid !in old(tasks) ==> state == old(state)
    {
      if tid !in tasks {
        return;
      }
      tasks := tasks[tid := Running];
      UpdateAggregateState();
    }

    /** Only when every task is stopped may another one be chosen. */
    method SelectTid(tid: nat) returns (r: Result<()>)
      requires Valid()
      modifies this`current
      ensures Valid() && current == if r.Ok? then tid else old(current)
      ensures r.Ok? <==> tid in tasks && AllStopped(tasks)
    {
      if state != Stopped {
        return Err(LogicError);
      }
      if !AllStopped(tasks) {
        return Err(LogicError);
      }
      if tid !in tasks {
        return Err(InvalidArgument);
      }
      current := tid;
      return Ok(());
    }

    /** The process is now the single stopped task `tid`: after exec, when the other
        threads are gone, and for a fork child that takes its parent's place. */
    method Become(tid: int) returns (r: Result<()>)
      requires Valid()
      modifies this
      ensures Valid() && origin == old(origin)
      ensures r.Ok? <==> tid > 0
      ensures r.Err? ==> unchanged(this)
      ensures r.Ok? ==> tasks == map[tid := Stopped] && pid == current == tid && state == Stopped && exitCode.None?
    {
      if tid <= 0 {
        return Err(InvalidArgument);
      }
      tasks := map[tid := Stopped];
      assert tasks[tid] == Stopped;
      pid, current, state, exitCode, termination := tid, tid, Stopped, None, None;
      return Ok(());
    }

    /** Lets every task go except those for which ptrace fails; the process is detached
        exactly when none is left. */
    method Detach(failing: set<nat>) returns (r: Result<()>)
      requires Valid()
      modifies this
      ensures Valid() && origin == old(origin)
      ensures r.Ok? <==>
        old(origin) == Attached && old(state) == Stopped && AllStopped(old(tasks)) && old(tasks).Keys * failing == {}
      ensures old(origin) != Attached || old(state) != Stopped || !AllStopped(old(tasks)) ==> unchanged(this)
      ensures old(origin) == Attached && old(state) == Stopped && AllStopped(old(tasks)) ==>
        && tasks == old(tasks) - (old(tasks).Keys - failing)
        && (state == Detached <==> tasks == map[]) && (state == Detached <==> r.Ok?)
        && (r.Ok? ==> pid == current == -1)
    {
      if origin != Attached {
        return Err(LogicError);
      }
      if state != Stopped {
        return Err(LogicError);
      }
      if !AllStopped(tasks) {
        return Err(LogicError);
      }
      ghost var before := tasks;
      LetGo(failing);
      Remaining(before, failing);
      Forget(Detached);
      if tasks == map[] {
        pid := -1;
        return Ok(());
      }
      return Err(PtraceError);
    }

    method LetGo(failing: set<nat>)
      modifies this`tasks
      ensures tasks == old(tasks) - (old(tasks).Keys - failing)
    {
      var todo := tasks.Keys;
      ghost var before := tasks;
      while todo != {}
        invariant todo <= before.Keys
        invariant tasks == before - ((before.Keys - todo) - failing)
        decreases |todo|
      {
        var t :| t in todo;
        todo := todo - {t};
        if t !in failing {
          tasks := tasks - {t};
        }
      }
    }
  }

  lemma Remaining(before: TaskStates, failing: set<nat>)
    requires OnlyStoppedOrRunning(before)
    ensures var rest := before - (before.Keys - failing);
            OnlyStoppedOrRunning(rest) && (rest == map[] <==> before.Keys * failing == {})
  {
    var rest := before - (before.Keys - failing);
    assert rest.Keys == before.Keys * failing;
    assert rest == map[] <==> rest.Keys == {};
  }

  /** What may happen to a process between two stops of the debugger. */
  datatype Happening =
    | Waited(tid: nat, report: Report, belongs: bool)
    | Resumed(tid: nat)
    | Chosen(tid: nat)
    | Execed(tid: nat)

  function AfterOne(tasks: TaskStates, h: Happening): TaskStates {
    match h
    case Waited(tid, report, belongs) => if Accepted(tasks, tid, report, belongs) then After(tasks, tid, report) else tasks
    case Resumed(tid) => if tid in tasks then tasks[tid := Running] else tasks
    case Chosen(_) => tasks
    case Execed(tid) => if tid > 0 then map[tid := Stopped] else tasks
  }

  /** The states any series of happenings leads to. */
  function AllAfter(tasks: TaskStates, happenings: seq<Happening>): TaskStates
    decreases |happenings|
  {
    if happenings == [] then tasks else AllAfter(AfterOne(tasks, happenings[0]), happenings[1..])
  }

  /** The happening shows that the task is there: it stopped, was cloned, or is the one
      that called exec. */
  predicate Appears(tasks: TaskStates, h: Happening, tid: nat) {
    match h
    case Waited(t, report, belongs) =>
      && Accepted(tasks, t, report, belongs) && (report.TaskStopped? || report.BadClone?)
      && (t == tid || (report.TaskStopped? && report.cloned == Some(tid)))
    case Execed(t) => t > 0 && t == tid
    case _ => false
  }

  /** The task is gone: it exited or was killed, or another one called exec. */
  predicate Ends(h: Happening, tid: nat) {
    match h
    case Waited(t, report, _) => t == tid && (report.TaskExited? || report.TaskKilled?)
    case Execed(t) => t > 0 && t != tid
    case _ => false
  }

  lemma {:induction false} AllAfterLast(tasks: TaskStates, happenings: seq<Happening>, h: Happening)
    ensures AllAfter(tasks, happenings + [h]) == AfterOne(AllAfter(tasks, happenings), h)
    decreases |happenings|
  {
    if happenings == [] {
      assert [h][1..] == [] && happenings + [h] == [h];
    } else {
      assert (happenings + [h])[1..] == happenings[1..] + [h];
      AllAfterLast(AfterOne(tasks, happenings[0]), happenings[1..], h);
    }
  }

  lemma OneHappening(tasks: TaskStates, h: Happening, tid: nat)
    ensures tid in AfterOne(tasks, h) <==> Appears(tasks, h, tid) || (tid in tasks && !Ends(h, tid))
  {
  }

  /** A task is tracked exactly if the last happening that says anything about it, its
      appearance or its end, was an appearance; or if it was there from the start and
      nothing was said. */
  lemma {:induction false} TrackedIffNotEnded(tasks: TaskStates, happenings: seq<Happening>, tid: nat, k: int)
    requires -1 <= k < |happenings|
    requires k >= 0 ==> Appears(AllAfter(tasks, happenings[..k]), happenings[k], tid) || Ends(happenings[k], tid)
    requires forall i :: k < i < |happenings| ==>
      !Appears(AllAfter(tasks, happenings[..i]), happenings[i], tid) && !Ends(happenings[i], tid)
    ensures tid in AllAfter(tasks, happenings) <==>
      if k >= 0 then Appears(AllAfter(tasks, happenings[..k]), happenings[k], tid) else tid in tasks
    decreases |happenings|
  {
    if happenings != [] {
      var n := |happenings| - 1;
      var init, last := happenings[..n], happenings[n];
      assert happenings == init + [last];
      AllAfterLast(tasks, init, last);
      OneHappening(AllAfter(tasks, init), last, tid);
      if k < n {
        assert forall i :: 0 <= i <= n ==> happenings[..i] == init[..i];
        TrackedIffNotEnded(tasks, init, tid, k);
      }
    }
  }

  /** Over every run the process shows the aggregate of exactly the tasks that have
      appeared and not ended, and looks at one of them. */
  method Live(process: Tasks, happenings: seq<Happening>)
    requires process.Valid()
    modifies process
    ensures process.Valid() && process.tasks == AllAfter(old(process.tasks), happenings)
  {
    assert happenings[0..] == happenings;
    var i := 0;
    while i < |happenings|
      invariant i <= |happenings| && process.Valid()
      invariant AllAfter(process.tasks, happenings[i..]) == AllAfter(old(process.tasks), happenings)
    {
      assert happenings[i..][1..] == happenings[i + 1..];
      match happenings[i] {
        case Waited(tid, report, belongs) => var _ := process.WaitFor(tid, report, belongs);
        case Resumed(tid) => process.MarkRunning(tid);
        case Chosen(tid) => var _ := process.SelectTid(tid);
        case Execed(tid) => var _ := process.Become(tid);
      }
      i := i + 1;
    }
  }

  /** With a single task, as the breakpoint machine assumes, the process is in the state
      of that task. */
  lemma SingleTaskIsTheProcess(process: Tasks, tid: nat)
    requires process.Valid() && process.tasks.Keys == {tid}
    ensures tid in process.tasks && process.state == process.tasks[tid] && process.current == tid
  {
    assert tid in process.tasks.Keys;
    assert process.tasks != map[];
  }
}
