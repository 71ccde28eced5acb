/** The kernel's side of ptrace: which tasks exist, and what a resumed task does
    before it next reports to the debugger. */
module Kernel {
  import opened Base
  import opened Tracee
  import opened Overlay

  const SIGTRAP: int := 5

  /** What waitpid reports for the task that was resumed. */
  datatype Event =
    | SignalStop(signal: int)
    | ForkStop(child: nat)
    | ExecStop
    | ExitReport(code: int)
    | KillReport(signal: int)

  datatype Reply = Reply(tasks: map<nat, Task>, event: Event)

  /** How a task reacts to being resumed: all tasks, which one, whether it is to make one
      step, the signal delivered, and the time. */
  type Respond = (map<nat, Task>, nat, bool, int, nat) -> Reply

  /** Why a task stopped with SIGTRAP. `SentTrap` is any reason that is not among the
      others: the signal was sent or queued, or raised by another debug register. */
  datatype Cause = FetchedTrap | SteppedOnce | WroteWatched | SentTrap

  predicate DebugKept(before: DebugRegisters, after: DebugRegisters) {
    && after.dr0 == before.dr0
    && after.dr7 == before.dr7
    && after.dr6 & 1 == before.dr6 & 1
  }

  /** A SIGTRAP stop at the end of `path`, and its cause. */
  predicate Trapped(before: Task, after: Task, stepping: bool, path: seq<Cpu>, cause: Cause)
    requires |path| > 0
  {
    var last := path[|path| - 1];
    match cause
    case FetchedTrap =>
      && FetchesTrap(last)
      && (stepping ==> |path| == 1)
      && after.cpu == last.(rip := last.rip + 1)
      && DebugKept(before.debug, after.debug)
    case SteppedOnce =>
      && stepping && |path| == 2
      && after.cpu == last
      && DebugKept(before.debug, after.debug)
    case WroteWatched =>
      && |path| > 1
      && before.debug.dr7 & 3 != 0
      && after.cpu == last
      && after.debug.dr0 == before.debug.dr0
      && after.debug.dr7 == before.debug.dr7
      && after.debug.dr6 & 1 == 1
    case SentTrap =>
      && (stepping ==> |path| == 1)
      && after.cpu == last
      && DebugKept(before.debug, after.debug)
  }

  /** What the kernel may answer when task `pid` is resumed: the task runs along
      `path` (at most one instruction when single-stepped, into a handler only if a
      signal is delivered) and then stops, forks, replaces its image, or ends. Only the
      resumed task and its fork child change, and a task cannot write its own debug
      registers. */
  ghost predicate Answers(moves: Behaviour, before: map<nat, Task>, pid: nat, stepping: bool, delivered: int,
                          reply: Reply, path: seq<Cpu>, cause: Cause)
    requires pid in before
  {
    && Runs(moves, path, delivered != 0)
    && path[0] == before[pid].cpu
    && (stepping ==> |path| <= 2)
    && var last := path[|path| - 1];
       var after := reply.tasks;
       match reply.event
       case SignalStop(signal) =>
         && pid in after && after == before[pid := after[pid]]
         && (if signal == SIGTRAP then Trapped(before[pid], after[pid], stepping, path, cause)
             else after[pid].cpu == last && DebugKept(before[pid].debug, after[pid].debug))
       case ForkStop(child) =>
         && child != 0 && child !in before
         && pid in after && child in after
         && after == before[pid := after[pid]][child := after[child]]
         && after[pid].cpu == last && DebugKept(before[pid].debug, after[pid].debug)
         && after[child].cpu.mem == last.mem && after[child].cpu.rip == last.rip
       case ExecStop =>
         pid in after && after == before[pid := after[pid]]
       case ExitReport(_) => after == before - {pid}
       case KillReport(_) => after == before - {pid}
  }

  ghost predicate Answerable(moves: Behaviour, before: map<nat, Task>, pid: nat, stepping: bool, delivered: int,
                             reply: Reply)
    requires pid in before
  {
    exists path, cause :: Answers(moves, before, pid, stepping, delivered, reply, path, cause)
  }

  class Machine {
    var tasks: map<nat, Task>
    var clock: nat

    /** How every task reacts to being resumed, at every time; nothing is known of
        it but `Lawful`. */
    const respond: Respond
    ghost const moves: Behaviour

    ghost predicate Lawful() {
      forall before: map<nat, Task>, pid: nat, stepping: bool, signal: int, time: nat
        {:trigger respond(before, pid, stepping, signal, time)} :: pid in before ==>
          Answerable(moves, before, pid, stepping, signal, respond(before, pid, stepping, signal, time))
    }

    constructor (tasks: map<nat, Task>, respond: Respond, ghost moves: Behaviour)
      ensures this.tasks == tasks && this.respond == respond && this.moves == moves && clock == 0
    {
      this.tasks, this.respond, this.moves, this.clock := tasks, respond, moves, 0;
    }

    /** PTRACE_CONT or PTRACE_SINGLESTEP, then waitpid. */
    method Resume(pid: nat, stepping: bool, signal: int)
      returns (event: Event, ghost path: seq<Cpu>, ghost cause: Cause)
      requires pid in tasks && Lawful()
      modifies this
      ensures Answers(moves, old(tasks), pid, stepping, signal, Reply(tasks, event), path, cause)
      ensures Reply(tasks, event) == respond(old(tasks), pid, stepping, signal, old(clock))
      ensures Lawful() && clock == old(clock) + 1
    {
      var reply := respond(tasks, pid, stepping, signal, clock);
      path, cause :| Answers(moves, tasks, pid, stepping, signal, reply, path, cause);
      tasks, event, clock := reply.tasks, reply.event, clock + 1;
    }

    method Poke(pid: nat, a: int, value: Byte)
      requires pid in tasks && Mapped(tasks[pid].cpu.mem, a, WORD)
      modifies this`tasks
      ensures tasks == old(tasks)[pid := old(tasks[pid]).(cpu := old(tasks[pid].cpu).(mem := old(tasks[pid].cpu.mem)[a := value]))]
    {
      WriteByteStoresOneByte(tasks[pid].cpu.mem, a, value);
      var cpu := tasks[pid].cpu;
      tasks := tasks[pid := tasks[pid].(cpu := cpu.(mem := WriteByte(cpu.mem, a, value)))];
    }

    method SetRip(pid: nat, rip: nat)
      requires pid in tasks
      modifies this`tasks
      ensures tasks == old(tasks)[pid := old(tasks[pid]).(cpu := old(tasks[pid].cpu).(rip := rip))]
    {
      tasks := tasks[pid := tasks[pid].(cpu := tasks[pid].cpu.(rip := rip))];
    }

    method SetDebugAddress(pid: nat, value: U64)
      requires pid in tasks
      modifies this`tasks
      ensures tasks == old(tasks)[pid := old(tasks[pid]).(debug := old(tasks[pid].debug).(dr0 := value))]
    {
      tasks := tasks[pid := tasks[pid].(debug := tasks[pid].debug.(dr0 := value))];
    }

    method SetDebugStatus(pid: nat, value: bv64)
      requires pid in tasks
      modifies this`tasks
      ensures tasks == old(tasks)[pid := old(tasks[pid]).(debug := old(tasks[pid].debug).(dr6 := value))]
    {
      tasks := tasks[pid := tasks[pid].(debug := tasks[pid].debug.(dr6 := value))];
    }

    method SetDebugControl(pid: nat, value: bv64)
      requires pid in tasks
      modifies this`tasks
      ensures tasks == old(tasks)[pid := old(tasks[pid]).(debug := old(tasks[pid].debug).(dr7 := value))]
    {
      tasks := tasks[pid := tasks[pid].(debug := tasks[pid].debug.(dr7 := value))];
    }

    /** Puts the saved bytes back into task `pid`. */
    method RestoreBytes(pid: nat, saved: map<int, Byte>)
      requires pid in tasks && forall a :: a in saved ==> Mapped(tasks[pid].cpu.mem, a, WORD)
      modifies this`tasks
      ensures tasks == old(tasks)[pid := old(tasks[pid]).(cpu := Lift(old(tasks[pid].cpu), saved))]
    {
      hide Mapped;
      var cpu := tasks[pid].cpu;
      var mem := PutBack(cpu.mem, saved);
      tasks := tasks[pid := tasks[pid].(cpu := cpu.(mem := mem))];
    }

    /** The task is killed or detached with SIGKILL. */
    method Kill(pid: nat)
      modifies this`tasks
      ensures tasks == old(tasks) - {pid}
    {
      tasks := tasks - {pid};
    }
  }
}
