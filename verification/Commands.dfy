/** What the user's commands on a stopped process do to a session. */
module Commands {
  import opened Base
  import opened Tracee
  import opened Overlay
  import opened Session
  import opened Outcomes
  import opened Mutation

  // ----- memory -----

  function Written(s: State, address: int, bytes: seq<Byte>): State
    requires s.active.process.pid in s.tasks
  {
    var t := ActiveTask(s);
    Changed(s, s.active.(table := Rehidden(s.active.table, address, bytes)),
            t.(cpu := t.cpu.(mem := Poked(t.cpu.mem, s.active.table, address, bytes, |bytes|))))
  }

  /** What a failing poke leaves: some of the bytes outside the breakpoints. */
  function PartlyWritten(s: State, address: int, bytes: seq<Byte>, n: nat): State
    requires s.active.process.pid in s.tasks && n <= |bytes|
  {
    var t := ActiveTask(s);
    Changed(s, s.active, t.(cpu := t.cpu.(mem := Poked(t.cpu.mem, s.active.table, address, bytes, n))))
  }

  /** The writes that are not rejected before anything is touched. */
  ghost predicate WriteAccepted(s: State, address: int, bytes: seq<Byte>) {
    && s.active.process.state == Stopped
    && 0 < |bytes| <= MAX_WRITE && address + |bytes| <= TWO64
    && (s.active.pending.Some? ==> !RangeContains(address, |bytes|, s.active.pending.value.address))
    && forall a :: a in s.active.table && !s.active.table[a].installed ==> !RangeContains(address, |bytes|, a)
  }

  lemma RehidingKeepsMaps(table: Table, ids: map<nat, int>, pending: Option<Pending>, address: int, bytes: seq<Byte>)
    requires MapsAgree(table, ids) && OutIffPending(table, pending)
    ensures MapsAgree(Rehidden(table, address, bytes), ids) && OutIffPending(Rehidden(table, address, bytes), pending)
  {
  }

  /** A write refines a store into the logical memory, on exactly the given range. */
  lemma WritingKeepsConsistent(s: State, address: int, bytes: seq<Byte>)
    requires Consistent(s) && s.active.process.state == Stopped && s.active.process.pid in s.tasks
    requires forall a :: a in s.active.table && !s.active.table[a].installed ==> !RangeContains(address, |bytes|, a)
    ensures Consistent(Written(s, address, bytes))
    ensures ProgramOf(Written(s, address, bytes)) == ProgramOf(s).(mem := Stored(ProgramOf(s).mem, address, bytes))
  {
    StoppedIsActive(s);
    ConsistentHasRegistry(s);
    hide Consistent, Registry, MapsAgree, OutIffPending, Overlaid, WatchHeld, Settled, Lift, Poked, Rehidden, Saved;
    var d, t := s.active, ActiveTask(s);
    PokingIsStoring(t.cpu, d.table, address, bytes);
    RehidingKeepsMaps(d.table, d.ids, d.pending, address, bytes);
    var d' := d.(table := Rehidden(d.table, address, bytes));
    var t' := t.(cpu := t.cpu.(mem := Poked(t.cpu.mem, d.table, address, bytes, |bytes|)));
    WatchFrame(d, d', t, t');
    hide Sound;
    MoveKeepsConsistent(s, d', s.tasks[d.process.pid := t']);
  }

  lemma WatchFrame(d: Domain, d': Domain, t: Task, t': Task)
    requires WatchHeld(d, t.debug) && Settled(d, t)
    requires d'.watchpoint == d.watchpoint && d'.snapshot == d.snapshot && d'.process.pid == d.process.pid
    requires t'.debug == t.debug
    ensures WatchHeld(d', t'.debug) && Settled(d', t')
  {
  }

  lemma PartialWriteKeepsConsistent(s: State, address: int, bytes: seq<Byte>, n: nat)
    requires Consistent(s) && s.active.process.state == Stopped && s.active.process.pid in s.tasks && n <= |bytes|
    requires forall a :: a in s.active.table && !s.active.table[a].installed ==> !RangeContains(address, |bytes|, a)
    ensures Consistent(PartlyWritten(s, address, bytes, n))
  {
    StoppedIsActive(s);
    ConsistentHasRegistry(s);
    var d, t := s.active, ActiveTask(s);
    var t' := t.(cpu := t.cpu.(mem := Poked(t.cpu.mem, d.table, address, bytes, n)));
    PokingKeepsOverlay(t.cpu.mem, d.table, address, bytes, n);
    hide Consistent, Registry, MapsAgree, OutIffPending, Overlaid, Poked;
    WatchFrame(d, d, t, t');
    MoveKeepsConsistent(s, d, s.tasks[d.process.pid := t']);
  }

  lemma PokingKeepsOverlay(mem: Memory, table: Table, address: int, bytes: seq<Byte>, n: nat)
    requires Overlaid(mem, table) && n <= |bytes|
    requires forall a :: a in table && !table[a].installed ==> !RangeContains(address, |bytes|, a)
    ensures Overlaid(Poked(mem, table, address, bytes, n), table)
  {
    var after := Poked(mem, table, address, bytes, n);
    forall a | a in table
      ensures Mapped(after, a, WORD) && after[a] == if table[a].installed then INT3 else table[a].original
    {
      assert Mapped(mem, a, WORD) && a in mem;
    }
  }

  // ----- watchpoints -----

  /** Why a watchpoint cannot be set, in the order in which it is checked. */
  function WatchRefusal(d: Domain, dr7: bv64, address: U64, length: nat): (refusal: Option<Error>)
    ensures refusal.None? <==>
      d.watchpoint.None? && LengthEncoding(length).Ok? && Aligned(address, length) && dr7 & DR7_ENABLE0 == 0
  {
    if d.watchpoint.Some? then Some(InvalidArgument)
    else if LengthEncoding(length).Err? then Some(LengthEncoding(length).error)
    else if !Aligned(address, length) then Some(InvalidArgument)
    else if dr7 & DR7_ENABLE0 != 0 then Some(RuntimeError)
    else None
  }

  function ArmedRegisters(debug: DebugRegisters, address: U64, code: bv64): DebugRegisters {
    DebugRegisters(address, debug.dr6 & !DR6_SLOT0, ConfiguredControl(debug.dr7, code))
  }

  lemma ArmedKeepsOtherSlots(debug: DebugRegisters, address: U64, length: nat)
    requires LengthEncoding(length).Ok?
    ensures DisabledControl(ArmedRegisters(debug, address, LengthEncoding(length).value).dr7) == DisabledControl(debug.dr7)
  {
    ArmingKeepsOtherSlots(debug.dr7, length);
  }

  function Watching(s: State, w: Watchpoint, code: bv64): State
    requires s.active.process.pid in s.tasks
  {
    var t := ActiveTask(s);
    Changed(s, s.active.(watchpoint := Some(w), snapshot := Some(Snapshot(s.active.process.pid, t.debug))),
            t.(debug := ArmedRegisters(t.debug, w.address, code)))
  }

  lemma WatchingKeepsConsistent(s: State, w: Watchpoint)
    requires Consistent(s) && s.active.process.state == Stopped && s.active.process.pid in s.tasks
    requires LengthEncoding(w.length).Ok? && ActiveTask(s).debug.dr7 & DR7_ENABLE0 == 0
    ensures Consistent(Watching(s, w, LengthEncoding(w.length).value))
    ensures ProgramOf(Watching(s, w, LengthEncoding(w.length).value)) == ProgramOf(s)
  {
    hide Consistent, Registry, MapsAgree, OutIffPending, Overlaid, ConfiguredControl, LengthEncoding, Restored, Saved;
    StoppedIsActive(s);
    ConsistentHasRegistry(s);
    ClearedBit(ActiveTask(s).debug.dr6);
    var s' := Watching(s, w, LengthEncoding(w.length).value);
    MoveKeepsConsistent(s, s'.active, s'.tasks);
  }

  function Unwatched(s: State): State
    requires s.active.process.pid in s.tasks && s.active.snapshot.Some?
  {
    Changed(s, s.active.(watchpoint := None, snapshot := None), ActiveTask(s).(debug := s.active.snapshot.value.debug))
  }

  lemma UnwatchingKeepsConsistent(s: State)
    requires Consistent(s) && s.active.process.state == Stopped && s.active.process.pid in s.tasks
    requires s.active.snapshot.Some?
    ensures Consistent(Unwatched(s)) && ProgramOf(Unwatched(s)) == ProgramOf(s)
    ensures ActiveTask(Unwatched(s)).debug.dr7 & DR7_ENABLE0 == 0
  {
    hide Consistent, Registry, MapsAgree, OutIffPending, Overlaid, ConfiguredControl, LengthEncoding, Restored, Saved;
    StoppedIsActive(s);
    ConsistentHasRegistry(s);
    MoveKeepsConsistent(s, Unwatched(s).active, Unwatched(s).tasks);
  }

  // ----- processes -----

  function Exchanged(s: State, p: nat): State
    requires p in s.retained
  {
    s.(active := s.retained[p], retained := (s.retained - {p})[s.active.process.pid := s.active])
  }

  lemma ExchangingKeepsIds(s: State, p: nat)
    requires IdsDisjoint(s) && p in s.retained && s.active.process.pid !in s.retained
    ensures IdsDisjoint(Exchanged(s, p))
  {
    var retained := Exchanged(s, p).retained;
    assert forall d: Domain, e: Domain :: Apart(d, e) ==> Apart(e, d);
    hide GivenOut, Apart;
    forall q | q in retained
      ensures GivenOut(retained[q], s.nextId) && Apart(retained[q], s.retained[p])
    {
      assert q != s.active.process.pid ==> q in s.retained && q != p;
    }
    forall q, r | q in retained && r in retained && q != r
      ensures Apart(retained[q], retained[r])
    {
      assert q != s.active.process.pid ==> q in s.retained;
      assert r != s.active.process.pid ==> r in s.retained;
    }
  }

  lemma SameCount<T>(m: map<nat, T>, p: nat, k: nat, v: T)
    requires p in m && k !in m
    ensures |(m - {p})[k := v]| == |m|
  {
    OneLess(m, p);
    OneMore(m - {p}, k, v);
  }

  /** Selecting another stopped process: the old one is retained as it is, with all
      its breakpoints installed. */
  lemma ExchangingKeepsConsistent(s: State, p: nat)
    requires Consistent(s) && s.active.process.state == Stopped && s.active.pending.None? && p in s.retained
    ensures Consistent(Exchanged(s, p)) && Exchanged(s, p).active.process == Process(p, Launched, Stopped)
    ensures p in s.tasks
  {
    hide Sound, Settled, IdsDisjoint;
    var s' := Exchanged(s, p);
    assert RetainedOk(s.retained[p], p, s.tasks);
    ExchangingKeepsIds(s, p);
    SameCount(s.retained, p, s.active.process.pid, s.active);
    forall q | q in s'.retained
      ensures RetainedOk(s'.retained[q], q, s'.tasks)
    {
      if q != s.active.process.pid {
        assert RetainedOk(s.retained[q], q, s.tasks);
      }
    }
  }

  // ----- detaching -----

  /** After a detach nothing of the debugger is left in the process. */
  function DetachedState(s: State): State
    requires s.active.process.pid in s.tasks
  {
    State(Domain(s.active.process.(state := Detached), s.active.stop, map[], map[], map[], None, None, None),
          s.retained, s.nextId, s.tasks[s.active.process.pid := Released(s.active, ActiveTask(s))])
  }

  lemma DetachingIsClean(s: State)
    requires Consistent(s) && s.active.process.state == Stopped && s.active.process.pid in s.tasks && s.retained == map[]
    ensures Consistent(DetachedState(s))
    ensures var t := DetachedState(s).tasks[s.active.process.pid];
            && t.cpu == ProgramOf(s)
            && t.debug == (if s.active.snapshot.Some? then s.active.snapshot.value.debug else ActiveTask(s).debug)
  {
    StoppedIsActive(s);
    SnapshotIsOwn(s.active, ActiveTask(s));
    ConsistentHasRegistry(s);
    hide Consistent, Sound, Settled, Lift, Saved, RetainedOk;
    EndKeepsConsistent(s.(tasks := DetachedState(s).tasks), DetachedState(s).active);
  }
}
