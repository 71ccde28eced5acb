/** Breakpoints as a layer over the program's own bytes.

    A breakpoint table says where the debugger has put an INT3 and which byte it
    hides. Lifting those bytes back gives the logical machine: what the tracee
    would be with no debugger attached. */
module Overlay {
  import opened Base
  import opened Tracee

  datatype Breakpoint = Breakpoint(id: nat, address: int, original: Byte, installed: bool)

  type Table = map<int, Breakpoint>

  /** The hidden bytes: one for each installed breakpoint. */
  function Saved(table: Table): map<int, Byte> {
    map a | a in table && table[a].installed :: table[a].original
  }

  function Restored(mem: Memory, saved: map<int, Byte>): Memory {
    map a | a in mem :: if a in saved then saved[a] else mem[a]
  }

  function Lift(c: Cpu, saved: map<int, Byte>): Cpu {
    c.(mem := Restored(c.mem, saved))
  }

  predicate Covered(mem: Memory, saved: map<int, Byte>) {
    forall a :: a in saved ==> a in mem && mem[a] == INT3
  }

  /** Concrete memory is logical memory with INT3 exactly at the installed
      breakpoints, and a breakpoint that is not installed has its own byte back. */
  predicate Overlaid(mem: Memory, table: Table) {
    forall a :: a in table ==>
      Mapped(mem, a, WORD) && mem[a] == if table[a].installed then INT3 else table[a].original
  }

  predicate FetchesTrap(c: Cpu) {
    c.rip in c.mem && c.mem[c.rip] == INT3
  }

  /** How the traced programs behave, on the states they go through: what an
      instruction does, and how a delivered signal enters its handler. Both are
      relations, because system calls and handlers are not functions of the registers. */
  datatype Behaviour = Behaviour(execute: (Cpu, Cpu) -> bool, enter: (Cpu, Cpu) -> bool)

  ghost predicate Move(moves: Behaviour, c: Cpu, d: Cpu) {
    moves.execute(c, d) || moves.enter(c, d)
  }

  /** A move of the traced machine: an INT3 is not executed but traps, and handlers are
      entered only if a signal was delivered. */
  ghost predicate Advance(moves: Behaviour, c: Cpu, d: Cpu, entries: bool) {
    (!FetchesTrap(c) && moves.execute(c, d)) || (entries && moves.enter(c, d))
  }

  /** Execution without a trap on the way. */
  ghost predicate Runs(moves: Behaviour, path: seq<Cpu>, entries: bool) {
    && |path| > 0
    && forall i :: 0 <= i < |path| - 1 ==> Advance(moves, path[i], path[i + 1], entries)
  }

  /** A run of the undebugged program. */
  ghost predicate IsRun(moves: Behaviour, trace: seq<Cpu>) {
    && |trace| > 0
    && forall i :: 0 <= i < |trace| - 1 ==> Move(moves, trace[i], trace[i + 1])
  }

  lemma OneState(moves: Behaviour, c: Cpu)
    ensures IsRun(moves, [c])
  {
  }

  function LiftPath(path: seq<Cpu>, saved: map<int, Byte>): (lifted: seq<Cpu>)
    ensures |lifted| == |path|
    ensures forall i :: 0 <= i < |path| ==> lifted[i] == Lift(path[i], saved)
  {
    seq(|path|, i requires 0 <= i < |path| => Lift(path[i], saved))
  }

  /** The programs touch the bytes at `managed` addresses only by fetching an
      instruction that starts there, and do not unmap the words there. So an
      instruction fetched elsewhere, and the entry into a handler, do the same whether
      those bytes are covered or not. Executing a program's own INT3 only advances
      RIP. This speaks of the states the programs go through; it is not a property of
      the instruction set. */
  ghost predicate Discreet(moves: Behaviour, managed: set<int>) {
    && (forall saved: map<int, Byte>, c: Cpu, d: Cpu {:trigger Covered(c.mem, saved), moves.execute(c, d)} ::
          saved.Keys <= managed && Covered(c.mem, saved) && c.rip !in saved && moves.execute(c, d)
          ==> moves.execute(Lift(c, saved), Lift(d, saved)))
    && (forall saved: map<int, Byte>, c: Cpu, d: Cpu {:trigger Covered(c.mem, saved), moves.enter(c, d)} ::
          saved.Keys <= managed && Covered(c.mem, saved) && moves.enter(c, d)
          ==> moves.enter(Lift(c, saved), Lift(d, saved)))
    && (forall c: Cpu, d: Cpu, a: int {:trigger Move(moves, c, d), a in managed} ::
          Move(moves, c, d) && a in managed && Mapped(c.mem, a, WORD)
          ==> Mapped(d.mem, a, WORD) && d.mem[a] == c.mem[a])
    && (forall c: Cpu {:trigger FetchesTrap(c)} :: FetchesTrap(c) ==> moves.execute(c, c.(rip := c.rip + 1)))
  }

  /** One move of a covered machine is a move of the undebugged program, and it is not
      one of a covered instruction. */
  lemma LiftedMove(moves: Behaviour, table: Table, c: Cpu, d: Cpu, entries: bool)
    requires Discreet(moves, table.Keys) && Overlaid(c.mem, table) && Advance(moves, c, d, entries)
    ensures Overlaid(d.mem, table) && Move(moves, Lift(c, Saved(table)), Lift(d, Saved(table)))
    ensures c.rip in Saved(table) ==> entries && moves.enter(Lift(c, Saved(table)), Lift(d, Saved(table)))
  {
    var saved := Saved(table);
    assert Covered(c.mem, saved);
    assert Move(moves, c, d);
    if c.rip in saved {
      assert FetchesTrap(c);
    }
    forall a | a in table
      ensures Mapped(d.mem, a, WORD) && d.mem[a] == c.mem[a]
    {
    }
  }

  /** Along a run from a covered state, the overlay stays in place, no covered
      instruction is executed, and lifting gives a run of the undebugged program. */
  lemma {:induction false} LiftedRun(moves: Behaviour, table: Table, path: seq<Cpu>, entries: bool)
    requires Discreet(moves, table.Keys)
    requires Runs(moves, path, entries)
    requires Overlaid(path[0].mem, table)
    ensures Overlaid(path[|path| - 1].mem, table)
    ensures IsRun(moves, LiftPath(path, Saved(table)))
    ensures Unarmed(moves, LiftPath(path, Saved(table)), Saved(table).Keys, entries)
    decreases |path|
  {
    hide Discreet, Move, Advance;
    if |path| > 1 {
      var n := |path| - 1;
      var init := path[..n];
      LiftedRun(moves, table, init, entries);
      assert init[n - 1] == path[n - 1];
      LiftedMove(moves, table, path[n - 1], path[n], entries);
      var lifted, before := LiftPath(path, Saved(table)), LiftPath(init, Saved(table));
      forall i | 0 <= i < n
        ensures Move(moves, lifted[i], lifted[i + 1])
        ensures lifted[i].rip in Saved(table) ==> entries && moves.enter(lifted[i], lifted[i + 1])
      {
        if i < n - 1 {
          assert before[i] == lifted[i] && before[i + 1] == lifted[i + 1];
        }
      }
    }
  }

  lemma RestoreNone(c: Cpu)
    ensures Lift(c, map[]) == c
  {
    assert Restored(c.mem, map[]) == c.mem;
  }

  lemma NonEmpty(s: set<int>)
    requires s != {}
    ensures exists a :: a in s
  {
    assert (forall a :: a !in s) ==> s == {};
  }

  /** Writing the saved bytes back one after the other, each through its word. */
  method PutBack(mem: Memory, saved: map<int, Byte>) returns (after: Memory)
    requires forall a :: a in saved ==> Mapped(mem, a, WORD)
    ensures after == Restored(mem, saved)
  {
    after := mem;
    var todo := saved.Keys;
    while todo != {}
      invariant todo <= saved.Keys
      invariant after.Keys == mem.Keys
      invariant forall k :: k in mem ==> after[k] == if k in saved && k !in todo then saved[k] else mem[k]
      decreases |todo|
    {
      NonEmpty(todo);
      var a :| a in todo;
      assert Mapped(mem, a, WORD) && a in mem;
      WriteByteStoresOneByte(after, a, saved[a]);
      after := WriteByte(after, a, saved[a]);
      todo := todo - {a};
    }
    assert forall k :: k in after ==> after[k] == Restored(mem, saved)[k];
    assert after.Keys == Restored(mem, saved).Keys;
  }

  // ----- changes of the overlay that the logical machine does not see -----

  lemma ArmingIsInvisible(c: Cpu, table: Table, a: int, id: nat)
    requires a !in table && Mapped(c.mem, a, WORD)
    ensures Lift(c.(mem := c.mem[a := INT3]), Saved(table[a := Breakpoint(id, a, c.mem[a], true)]))
         == Lift(c, Saved(table))
  {
    var after := Restored(c.mem[a := INT3], Saved(table[a := Breakpoint(id, a, c.mem[a], true)]));
    assert a in c.mem;
    assert after == Restored(c.mem, Saved(table));
  }

  lemma LiftingOneIsInvisible(c: Cpu, table: Table, a: int)
    requires a in table && table[a].installed && Mapped(c.mem, a, WORD)
    ensures Lift(c.(mem := c.mem[a := table[a].original]), Saved(table[a := table[a].(installed := false)]))
         == Lift(c, Saved(table))
  {
    var after := Restored(c.mem[a := table[a].original], Saved(table[a := table[a].(installed := false)]));
    assert a in c.mem;
    assert after == Restored(c.mem, Saved(table));
  }

  lemma ReinsertingIsInvisible(c: Cpu, table: Table, a: int)
    requires a in table && !table[a].installed && Mapped(c.mem, a, WORD) && c.mem[a] == table[a].original
    ensures Lift(c.(mem := c.mem[a := INT3]), Saved(table[a := table[a].(installed := true)]))
         == Lift(c, Saved(table))
  {
    var after := Restored(c.mem[a := INT3], Saved(table[a := table[a].(installed := true)]));
    assert a in c.mem;
    assert after == Restored(c.mem, Saved(table));
  }

  lemma RemovingIsInvisible(c: Cpu, table: Table, a: int)
    requires a in table && Mapped(c.mem, a, WORD)
    requires !table[a].installed ==> c.mem[a] == table[a].original
    ensures Lift(c.(mem := if table[a].installed then c.mem[a := table[a].original] else c.mem), Saved(table - {a}))
         == Lift(c, Saved(table))
  {
    var mem := if table[a].installed then c.mem[a := table[a].original] else c.mem;
    assert a in c.mem;
    assert Restored(mem, Saved(table - {a})) == Restored(c.mem, Saved(table));
  }

  // ----- what the undebugged program does meanwhile -----

  /** The logical states after the first one. If the machine then fetched an INT3
      that is not the debugger's, the program has executed its own trap. */
  function Tail(path: seq<Cpu>, saved: map<int, Byte>, trapped: bool): seq<Cpu>
    requires |path| > 0
  {
    var last := path[|path| - 1];
    LiftPath(path, saved)[1..] +
      if trapped && last.rip !in saved then [Lift(last, saved).(rip := last.rip + 1)] else []
  }

  /** No armed instruction is executed: from a state that stands on one the program
      went only, if at all, into the handler of a delivered signal. */
  ghost predicate Unarmed(moves: Behaviour, states: seq<Cpu>, armed: set<int>, entries: bool) {
    forall i :: 0 <= i < |states| - 1 && states[i].rip in armed ==> entries && moves.enter(states[i], states[i + 1])
  }

  lemma TailContinuesRun(moves: Behaviour, table: Table, path: seq<Cpu>, trapped: bool, trace: seq<Cpu>, entries: bool)
    requires Discreet(moves, table.Keys)
    requires Runs(moves, path, entries) && Overlaid(path[0].mem, table)
    requires trapped ==> FetchesTrap(path[|path| - 1])
    requires IsRun(moves, trace) && trace[|trace| - 1] == Lift(path[0], Saved(table))
    ensures var saved := Saved(table);
            var longer := trace + Tail(path, saved, trapped);
            var last := path[|path| - 1];
            && IsRun(moves, longer)
            && longer[|longer| - 1] == (if trapped && last.rip !in saved then Lift(last, saved).(rip := last.rip + 1)
                                        else Lift(last, saved))
            && Unarmed(moves, longer[|trace| - 1..], saved.Keys, entries)
            && Overlaid(last.mem, table)
  {
    var saved, n, last := Saved(table), |path|, path[|path| - 1];
    LiftedRun(moves, table, path, entries);
    var lifted, tail := LiftPath(path, saved), Tail(path, saved, trapped);
    var longer := trace + tail;
    if trapped && last.rip !in saved {
      assert FetchesTrap(Lift(last, saved));
      assert Move(moves, Lift(last, saved), Lift(last, saved).(rip := last.rip + 1));
    }
    hide Discreet, Move, Runs;
    assert forall i :: 0 <= i < n - 1 ==> tail[i] == lifted[i + 1];
    var since := longer[|trace| - 1..];
    assert forall i :: 0 <= i < n ==> since[i] == lifted[i];
    forall i | 0 <= i < |longer| - 1
      ensures Move(moves, longer[i], longer[i + 1])
    {
      if |trace| - 1 <= i < |trace| + n - 2 {
        var k := i - (|trace| - 1);
        assert longer[i] == lifted[k] && longer[i + 1] == lifted[k + 1];
      }
    }
    forall i | 0 <= i < |since| - 1 && since[i].rip in saved
      ensures entries && moves.enter(since[i], since[i + 1])
    {
      if i < n - 1 {
        assert since[i] == lifted[i] && since[i + 1] == lifted[i + 1];
      }
    }
  }
}
