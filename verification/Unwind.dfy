/** Walking arbitrary stacks: by call-frame information and by frame pointers. */
module Unwind {
  import opened Base
  import CallFrame
  import EhFrame

  /** What is known of one frame while unwinding. */
  datatype Cursor = Cursor(ip: U64, sp: U64, fp: Option<U64>, rbx: Option<U64>)

  /** How the caller's frame is found; an exception is an `Err`. */
  type Caller = Cursor -> Result<Option<Cursor>>

  datatype StopReason = EndOfChain | FrameLimit | NoFrameInfo | InvalidFrameState

  // ----- without a limit -----

  /** A caller is followed only to a different address and up the stack. */
  function Next(caller: Caller, c: Cursor): (n: Option<Cursor>)
    ensures n.Some? ==> n.value.sp > c.sp
  {
    var r := caller(c);
    if r.Err? || r.value.None? || r.value.value.ip == c.ip || r.value.value.sp <= c.sp then None else r.value
  }

  /** The whole chain. Stack pointers increase and are below 2^64, so it ends. */
  function Trace(caller: Caller, c: Cursor): (t: seq<Cursor>)
    ensures |t| > 0 && t[0] == c
    decreases TWO64 - c.sp
  {
    if Next(caller, c).None? then [c] else [c] + Trace(caller, Next(caller, c).value)
  }

  function Last<T>(s: seq<T>): T
    requires |s| > 0
  {
    s[|s| - 1]
  }

  /** Why the chain ends at its last frame. */
  function Ending(caller: Caller, trace: seq<Cursor>): StopReason
    requires |trace| > 0
  {
    var r := caller(Last(trace));
    if r.Err? || r.value.Some? then InvalidFrameState
    else if |trace| == 1 then NoFrameInfo else EndOfChain
  }

  ghost predicate Ascending(t: seq<Cursor>) {
    forall i, j :: 0 <= i < j < |t| ==> t[i].sp < t[j].sp
  }

  /** On any stack, however corrupt, the stack pointers strictly increase and every
      frame is its predecessor's caller; the chain has at most 2^64 - sp frames. */
  lemma {:induction false} TraceIsSafe(caller: Caller, c: Cursor)
    ensures Ascending(Trace(caller, c)) && |Trace(caller, c)| <= TWO64 - c.sp
    ensures forall i :: 0 <= i < |Trace(caller, c)| - 1 ==>
      Next(caller, Trace(caller, c)[i]) == Some(Trace(caller, c)[i + 1])
    ensures Next(caller, Last(Trace(caller, c))).None?
    decreases TWO64 - c.sp
  {
    if Next(caller, c).Some? {
      var n := Next(caller, c).value;
      var rest := Trace(caller, n);
      TraceIsSafe(caller, n);
      var t := Trace(caller, c);
      assert t == [c] + rest && Last(t) == Last(rest);
      forall i, j | 0 <= i < j < |t|
        ensures t[i].sp < t[j].sp
      {
        if i == 0 && j > 1 {
          assert rest[0].sp < rest[j - 1].sp;
        }
      }
      forall i | 0 <= i < |t| - 1
        ensures Next(caller, t[i]) == Some(t[i + 1])
      {
        if i > 0 {
          assert t[i] == rest[i - 1] && t[i + 1] == rest[i];
        }
      }
    }
  }

  // ----- by call-frame information -----

  /** A loaded module: its frame section if it has one, where the section was linked, the
      difference to where it was loaded, and the words of the process. */
  datatype Image = Image(section: Option<seq<Byte>>, base: U64, bias: U64, words: EhFrame.Words)

  const DWARF_RBX: U64 := 3
  const DWARF_RBP: U64 := 6
  const DWARF_RSP: U64 := 7
  const DWARF_RIP: U64 := 16

  /** The registers a frame still knows, by DWARF number. */
  function CursorRegister(c: Cursor, reg: U64): (r: Result<U64>) {
    if reg == DWARF_RBX then if c.rbx.None? then Err(RuntimeError) else Ok(c.rbx.value)
    else if reg == DWARF_RBP then if c.fp.None? then Err(RuntimeError) else Ok(c.fp.value)
    else if reg == DWARF_RSP then Ok(c.sp)
    else if reg == DWARF_RIP then Ok(c.ip)
    else Err(RuntimeError)
  }

  function RegistersOf(c: Cursor): EhFrame.Registers {
    (reg: U64) => CursorRegister(c, reg)
  }

  /** The caller of a frame by the rules of the module. */
  function CallerFrame(image: Image, c: Cursor): (r: Result<Option<Cursor>>) {
    if image.section.None? then Ok(None) else
    if c.ip < image.bias then Err(RuntimeError) else
    var evaluated := EhFrame.Evaluate(image.section.value, image.base, c.ip - image.bias, image.words, RegistersOf(c));
    if evaluated.Err? then Err(evaluated.error) else
    if evaluated.value.None? then Ok(None) else
    var frame := evaluated.value.value;
    var fp := EhFrame.RecoverRegister(image.words, frame, DWARF_RBP, c.fp);
    if fp.Err? then Err(fp.error) else
    var rbx := EhFrame.RecoverRegister(image.words, frame, DWARF_RBX, c.rbx);
    if rbx.Err? then Err(rbx.error) else
    Ok(Some(Cursor(frame.returnAddress, frame.cfa, fp.value, rbx.value)))
  }

  function ImageCaller(image: Image): Caller {
    (c: Cursor) => CallerFrame(image, c)
  }

  /** What a register held before the call: nothing is known of it without a rule or where
      the rule says so; otherwise it is unchanged, or saved relative to the frame address. */
  predicate Restores(words: EhFrame.Words, state: CallFrame.CfiState, cfa: U64, reg: U64, inner: Option<U64>,
                     outer: Option<U64>) {
    if reg !in state.rules then outer == None
    else match state.rules[reg]
      case Undefined => outer == None
      case SameValue => outer == inner
      case OffsetRule(offset) => outer.Some? && 0 <= cfa + offset < TWO64 && words(cfa + offset) == outer
  }

  /** `outer` called `inner`, by the rules of the first FDE that covers `inner`: the
      caller's stack pointer is the callee's canonical frame address, its instruction
      pointer the word in the return slot, and RBP and RBX are restored by their rules. */
  predicate CalledFrom(image: Image, inner: Cursor, outer: Cursor) {
    && image.section.Some? && image.bias <= inner.ip
    && var found := EhFrame.Scan(image.section.value, image.base, inner.ip - image.bias, 0, map[]);
       && found.Ok? && found.value.Some?
       && var rules := EhFrame.RulesAt(image.section.value, found.value.value, inner.ip - image.bias);
          && rules.Ok?
          && EhFrame.ReadOff(EhFrame.Evaluated(rules.value, outer.sp, outer.ip), found.value.value.cie.returnRegister,
                             image.words, RegistersOf(inner))
          && Restores(image.words, rules.value, outer.sp, DWARF_RBP, inner.fp, outer.fp)
          && Restores(image.words, rules.value, outer.sp, DWARF_RBX, inner.rbx, outer.rbx)
  }

  lemma RecoversIff(words: EhFrame.Words, frame: EhFrame.Evaluated, reg: U64, inner: Option<U64>, outer: Option<U64>)
    ensures EhFrame.RecoverRegister(words, frame, reg, inner) == Ok(outer) <==>
            Restores(words, frame.state, frame.cfa, reg, inner, outer)
  {
  }

  /** The unwinder's caller is the frame that called, and it finds it whenever there is one. */
  lemma CallerIff(image: Image, inner: Cursor, outer: Cursor)
    ensures CallerFrame(image, inner) == Ok(Some(outer)) <==> CalledFrom(image, inner, outer)
  {
    hide EhFrame.Scan, EhFrame.RulesAt, EhFrame.Evaluate, EhFrame.ReadOff, EhFrame.RecoverRegister, Restores;
    if image.section.Some? && image.bias <= inner.ip {
      var section, target := image.section.value, inner.ip - image.bias;
      var found := EhFrame.Scan(section, image.base, target, 0, map[]);
      if found.Ok? && found.value.Some? && EhFrame.RulesAt(section, found.value.value, target).Ok? {
        var rules := EhFrame.RulesAt(section, found.value.value, target).value;
        var frame := EhFrame.Evaluated(rules, outer.sp, outer.ip);
        EhFrame.EvaluateIff(section, image.base, target, image.words, RegistersOf(inner), frame);
        RecoversIff(image.words, frame, DWARF_RBP, inner.fp, outer.fp);
        RecoversIff(image.words, frame, DWARF_RBX, inner.rbx, outer.rbx);
      }
      EvaluatedComesOfRules(section, image.base, target, image.words, RegistersOf(inner));
    }
  }

  lemma EvaluatedComesOfRules(section: seq<Byte>, base: U64, target: U64, words: EhFrame.Words, registers: EhFrame.Registers)
    ensures var r := EhFrame.Evaluate(section, base, target, words, registers);
            r.Ok? && r.value.Some? ==>
              var found := EhFrame.Scan(section, base, target, 0, map[]);
              && found.Ok? && found.value.Some?
              && EhFrame.RulesAt(section, found.value.value, target) == Ok(r.value.value.state)
  {
    hide EhFrame.Scan, EhFrame.RulesAt, EhFrame.Evaluate, EhFrame.ReadOff;
    var r := EhFrame.Evaluate(section, base, target, words, registers);
    if r.Ok? && r.value.Some? {
      EhFrame.EvaluateIff(section, base, target, words, registers, r.value.value);
    }
  }

  /** Along a whole backtrace every frame was called from the next one, so each stack
      pointer after the first is the frame address of the frame before it. */
  lemma TraceIsCalls(image: Image, c: Cursor)
    ensures var t := Trace(ImageCaller(image), c);
            forall i :: 0 <= i < |t| - 1 ==> CalledFrom(image, t[i], t[i + 1])
  {
    hide CalledFrom, CallerFrame, Trace;
    var t := Trace(ImageCaller(image), c);
    TraceIsSafe(ImageCaller(image), c);
    forall i | 0 <= i < |t| - 1
      ensures CalledFrom(image, t[i], t[i + 1])
    {
      assert Next(ImageCaller(image), t[i]) == Some(t[i + 1]);
      CallerIff(image, t[i], t[i + 1]);
    }
  }

  // ----- with a limit -----

  function Limited<T>(trace: seq<T>, limit: nat): seq<T> {
    if |trace| <= limit then trace else trace[..limit]
  }

  /** A smaller limit yields a prefix of what a larger limit yields. */
  lemma SmallerLimitIsPrefix<T>(trace: seq<T>, smaller: nat, larger: nat)
    requires smaller <= larger
    ensures Limited(trace, smaller) <= Limited(trace, larger)
    ensures Limited(trace, smaller) == Limited(Limited(trace, larger), smaller)
  {
  }

  datatype StackFrame = StackFrame(ip: U64, sp: U64, fp: Option<U64>)

  function FrameOf(c: Cursor): StackFrame {
    StackFrame(c.ip, c.sp, c.fp)
  }

  function Frames(trace: seq<Cursor>): (f: seq<StackFrame>)
    ensures |f| == |trace|
    ensures forall i :: 0 <= i < |f| ==> f[i] == FrameOf(trace[i])
  {
    seq(|trace|, i requires 0 <= i < |trace| => FrameOf(trace[i]))
  }

  lemma FramesAppend(trace: seq<Cursor>, c: Cursor)
    ensures Frames(trace + [c]) == Frames(trace) + [FrameOf(c)]
  {
  }

  /** What is done and what is still to come of the chain from `start`. */
  ghost predicate Following(caller: Caller, start: Cursor, done: seq<Cursor>, current: Cursor) {
    && |done| > 0 && Last(done) == current
    && Trace(caller, start) == done[..|done| - 1] + Trace(caller, current)
  }

  lemma FollowingStarts(caller: Caller, start: Cursor)
    ensures Following(caller, start, [start], start)
  {
    assert [start][..0] == [];
  }

  lemma FollowingOn(caller: Caller, start: Cursor, done: seq<Cursor>, current: Cursor)
    requires Following(caller, start, done, current)
    ensures if Next(caller, current).Some? then
              Following(caller, start, done + [Next(caller, current).value], Next(caller, current).value)
            else Trace(caller, start) == done
    ensures |done| <= |Trace(caller, start)| && done == Limited(Trace(caller, start), |done|)
  {
    if Next(caller, current).Some? {
      var n := Next(caller, current).value;
      assert (done + [n])[..|done|] == done;
      assert done == done[..|done| - 1] + [current];
      assert done[..|done| - 1] + ([current] + Trace(caller, n)) == done + Trace(caller, n);
    } else {
      assert done == done[..|done| - 1] + [current];
    }
  }

  /** The backtrace by call-frame information: the chain cut at the limit. It is said to
      be cut exactly when it has the maximum length. */
  method UnwindCallFrames(caller: Caller, start: Cursor, limit: nat)
    returns (r: Result<(seq<StackFrame>, StopReason)>)
    ensures r.Err? <==> limit == 0
    ensures r.Ok? ==>
      && r.value.0 == Frames(Limited(Trace(caller, start), limit))
      && (r.value.1 == FrameLimit <==> |r.value.0| == limit)
      && (r.value.1 != FrameLimit ==> r.value.1 == Ending(caller, Trace(caller, start)))
  {
    if limit == 0 {
      return Err(InvalidArgument);
    }
    var current, frames := start, [FrameOf(start)];
    ghost var done := [start];
    FollowingStarts(caller, start);
    if limit == 1 {
      FollowingOn(caller, start, done, current);
      return Ok((frames, FrameLimit));
    }
    while |frames| < limit
      invariant |frames| <= limit && frames == Frames(done) && Following(caller, start, done, current)
      decreases limit - |frames|
    {
      FollowingOn(caller, start, done, current);
      var next := caller(current);
      if next.Err? {
        return Ok((frames, InvalidFrameState));
      }
      if next.value.None? {
        return Ok((frames, if |frames| == 1 then NoFrameInfo else EndOfChain));
      }
      if next.value.value.ip == current.ip || next.value.value.sp <= current.sp {
        return Ok((frames, InvalidFrameState));
      }
      FramesAppend(done, next.value.value);
      frames := frames + [FrameOf(next.value.value)];
      current, done := next.value.value, done + [next.value.value];
    }
    FollowingOn(caller, start, done, current);
    return Ok((frames, FrameLimit));
  }

  // ----- inspection frames -----

  /** Which addresses belong to a module, and how a frame in a module is unwound. */
  datatype Modules = Modules(owns: U64 -> bool, unwind: Caller)

  /** No frame information outside of every module. */
  function LiveCaller(m: Modules): Caller {
    (c: Cursor) => if !m.owns(c.ip) then Ok(None) else m.unwind(c)
  }

  datatype Inspection = Inspection(index: nat, frame: StackFrame)

  predicate Numbered(result: seq<Inspection>, frames: seq<StackFrame>) {
    && |result| == |frames|
    && forall i :: 0 <= i < |result| ==> result[i] == Inspection(i, frames[i])
  }

  lemma NumberedStart(c: Cursor)
    ensures Numbered([Inspection(0, FrameOf(c))], Frames([c]))
  {
  }

  lemma NumberedAppend(result: seq<Inspection>, done: seq<Cursor>, c: Cursor)
    requires Numbered(result, Frames(done))
    ensures Numbered(result + [Inspection(|result|, FrameOf(c))], Frames(done + [c]))
  {
    FramesAppend(done, c);
  }

  /** Inspection frames are the frames of the backtrace with the same limit, numbered;
      only a last frame outside of every module is left out. */
  method BuildInspectionFrames(m: Modules, start: Cursor, limit: nat) returns (r: Result<seq<Inspection>>)
    ensures r.Ok? <==> limit > 0 && m.owns(start.ip)
    ensures r.Ok? ==>
      var trace := Limited(Trace(LiveCaller(m), start), limit);
      && 0 < |r.value| <= |trace| <= |r.value| + 1
      && Numbered(r.value, Frames(trace[..|r.value|]))
      && (forall i :: 0 <= i < |r.value| ==> m.owns(trace[i].ip))
      && (|r.value| < |trace| ==> !m.owns(Last(trace).ip))
  {
    hide Following, Trace, Numbered;
    if limit == 0 {
      return Err(InvalidArgument);
    }
    if !m.owns(start.ip) {
      return Err(RuntimeError);
    }
    var result, current := [Inspection(0, FrameOf(start))], start;
    ghost var done := [start];
    ghost var caller := LiveCaller(m);
    NumberedStart(start);
    FollowingStarts(caller, start);
    while |result| < limit
      invariant 0 < |result| == |done| <= limit && Numbered(result, Frames(done)) && Following(caller, start, done, current)
      invariant forall i :: 0 <= i < |done| ==> m.owns(done[i].ip)
      decreases limit - |result|
    {
      FollowingOn(caller, start, done, current);
      var next := if !m.owns(current.ip) then Ok(None) else m.unwind(current);
      if next.Err? || next.value.None? || next.value.value.ip == current.ip || next.value.value.sp <= current.sp {
        assert Limited(Trace(caller, start), limit) == done && done[..|result|] == done;
        return Ok(result);
      }
      var n := next.value.value;
      if !m.owns(n.ip) {
        EndsOutside(m, start, done + [n], n);
        assert (done + [n])[..|result|] == done;
        return Ok(result);
      }
      NumberedAppend(result, done, n);
      result := result + [Inspection(|result|, FrameOf(n))];
      current, done := n, done + [n];
    }
    FollowingOn(caller, start, done, current);
    assert Limited(Trace(caller, start), limit)[..|result|] == done;
    return Ok(result);
  }

  lemma EndsOutside(m: Modules, start: Cursor, done: seq<Cursor>, current: Cursor)
    requires Following(LiveCaller(m), start, done, current) && !m.owns(current.ip)
    ensures Trace(LiveCaller(m), start) == done
  {
    FollowingOn(LiveCaller(m), start, done, current);
  }

  /** In a core snapshot a caller outside of every module is an error, not an end. */
  function SnapshotCall(m: Modules, c: Cursor): Result<Option<Cursor>> {
    if !m.owns(c.ip) then Err(RuntimeError)
    else
      var r := m.unwind(c);
      if r.Ok? && r.value.Some? && !m.owns(r.value.value.ip) then Err(RuntimeError) else r
  }

  function SnapshotCaller(m: Modules): Caller {
    (c: Cursor) => SnapshotCall(m, c)
  }

  lemma SnapshotCalls(m: Modules, c: Cursor)
    ensures SnapshotCaller(m)(c) == SnapshotCall(m, c)
  {
  }

  /** The unwinding of a snapshot frame ends the chain here or leads on. */
  lemma SnapshotStep(m: Modules, start: Cursor, done: seq<Cursor>, current: Cursor)
    requires Following(SnapshotCaller(m), start, done, current) && m.owns(current.ip)
    ensures var next := m.unwind(current);
            if next.Err? || next.value.None? || next.value.value.ip == current.ip || next.value.value.sp <= current.sp
               || !m.owns(next.value.value.ip)
            then
              && Trace(SnapshotCaller(m), start) == done && |done| > 0
              && Ending(SnapshotCaller(m), done) ==
                 if next.Err? || next.value.Some? then InvalidFrameState
                 else if |done| == 1 then NoFrameInfo else EndOfChain
            else Following(SnapshotCaller(m), start, done + [next.value.value], next.value.value)
  {
    hide Trace;
    SnapshotCalls(m, current);
    FollowingOn(SnapshotCaller(m), start, done, current);
  }

  /** The frames are the chain cut at the limit, each in a module. */
  ghost predicate IsSnapshotTrace(m: Modules, start: Cursor, limit: nat, frames: seq<Inspection>, reason: StopReason) {
    var trace := Trace(SnapshotCaller(m), start);
    && Numbered(frames, Frames(Limited(trace, limit)))
    && (reason == FrameLimit <==> |frames| == limit)
    && (reason != FrameLimit ==> reason == Ending(SnapshotCaller(m), trace))
    && (forall i :: 0 <= i < |frames| ==> m.owns(trace[i].ip))
  }

  /** What a snapshot loop has done. */
  ghost predicate SnapshotSoFar(m: Modules, start: Cursor, done: seq<Cursor>, current: Cursor, result: seq<Inspection>) {
    && 0 < |result| == |done| && Numbered(result, Frames(done)) && Following(SnapshotCaller(m), start, done, current)
    && current == Last(done) && forall i :: 0 <= i < |done| ==> m.owns(done[i].ip)
  }

  lemma SnapshotGoesOn(m: Modules, start: Cursor, limit: nat, done: seq<Cursor>, current: Cursor, result: seq<Inspection>)
    requires SnapshotSoFar(m, start, done, current, result) && |result| < limit
    ensures var next := m.unwind(current);
            if next.Err? || next.value.None? || next.value.value.ip == current.ip || next.value.value.sp <= current.sp
               || !m.owns(next.value.value.ip)
            then
              IsSnapshotTrace(m, start, limit, result,
                              if next.Err? || next.value.Some? then InvalidFrameState
                              else if |result| == 1 then NoFrameInfo else EndOfChain)
            else
              var n := next.value.value;
              SnapshotSoFar(m, start, done + [n], n, result + [Inspection(|result|, FrameOf(n))])
  {
    hide Trace, Numbered, Following, SnapshotCaller;
    SnapshotStep(m, start, done, current);
    var next := m.unwind(current);
    if next.Ok? && next.value.Some? {
      NumberedAppend(result, done, next.value.value);
    }
  }

  lemma SnapshotIsCut(m: Modules, start: Cursor, limit: nat, done: seq<Cursor>, current: Cursor, result: seq<Inspection>)
    requires SnapshotSoFar(m, start, done, current, result) && |result| == limit
    ensures IsSnapshotTrace(m, start, limit, result, FrameLimit)
  {
    hide Trace, Numbered, Following, SnapshotCaller;
    FollowingOn(SnapshotCaller(m), start, done, current);
  }

  /** Snapshot frames are the chain cut at the limit; every frame is in a module. */
  method BuildSnapshotFrames(m: Modules, start: Cursor, limit: nat) returns (r: Result<(seq<Inspection>, StopReason)>)
    ensures r.Ok? <==> limit > 0 && m.owns(start.ip)
    ensures r.Ok? ==> IsSnapshotTrace(m, start, limit, r.value.0, r.value.1)
  {
    if limit == 0 {
      return Err(InvalidArgument);
    }
    if !m.owns(start.ip) {
      return Err(RuntimeError);
    }
    var result, current := [Inspection(0, FrameOf(start))], start;
    ghost var done := [start];
    NumberedStart(start);
    FollowingStarts(SnapshotCaller(m), start);
    assert SnapshotSoFar(m, start, done, current, result);
    hide SnapshotSoFar, IsSnapshotTrace;
    while |result| < limit
      invariant |result| <= limit && SnapshotSoFar(m, start, done, current, result)
      decreases limit - |result|
    {
      SnapshotGoesOn(m, start, limit, done, current, result);
      var next := m.unwind(current);
      if next.Err? {
        return Ok((result, InvalidFrameState));
      }
      if next.value.None? {
        return Ok((result, if |result| == 1 then NoFrameInfo else EndOfChain));
      }
      var n := next.value.value;
      if n.ip == current.ip || n.sp <= current.sp || !m.owns(n.ip) {
        return Ok((result, InvalidFrameState));
      }
      result := result + [Inspection(|result|, FrameOf(n))];
      current, done := n, done + [n];
    }
    SnapshotIsCut(m, start, limit, done, current, result);
    return Ok((result, FrameLimit));
  }

  // ----- frame pointers -----

  datatype Saved = Saved(next: U64, returnAddress: U64)

  /** The saved frame pointer and the return address found at a frame pointer. */
  type Stack = U64 -> Option<Saved>

  datatype PointerFrame = PointerFrame(ip: U64, fp: U64)

  datatype PointerStop = ChainEnd | LimitReached | InvalidFramePointer | MemoryReadError

  /** The frames above frame pointer `fp`, without a limit. */
  function Chain(stack: Stack, span: nat, fp: U64): (t: seq<PointerFrame>)
    decreases TWO64 - fp
  {
    if fp == 0 || fp % 8 != 0 || stack(fp).None? then []
    else
      var saved := stack(fp).value;
      if saved.returnAddress == 0 then []
      else if saved.next == 0 then [PointerFrame(saved.returnAddress, 0)]
      else if saved.next <= fp || saved.next - fp > span then []
      else [PointerFrame(saved.returnAddress, saved.next)] + Chain(stack, span, saved.next)
  }

  /** Why the chain above `fp` ends. */
  function ChainStop(stack: Stack, span: nat, fp: U64): PointerStop
    decreases TWO64 - fp
  {
    if fp == 0 then ChainEnd
    else if fp % 8 != 0 then InvalidFramePointer
    else if stack(fp).None? then MemoryReadError
    else
      var saved := stack(fp).value;
      if saved.returnAddress == 0 || saved.next == 0 then ChainEnd
      else if saved.next <= fp || saved.next - fp > span then InvalidFramePointer
      else ChainStop(stack, span, saved.next)
  }

  /** Frame pointers strictly increase by at most the span, except that the outermost
      may be zero; no return address is zero. */
  lemma {:induction false} ChainIsSafe(stack: Stack, span: nat, fp: U64)
    ensures var t := [PointerFrame(0, fp)] + Chain(stack, span, fp);
            && |t| <= TWO64 - fp + 1
            && forall i :: 1 <= i < |t| ==>
                 && t[i].ip != 0
                 && (t[i].fp == 0 ==> i == |t| - 1)
                 && (t[i].fp != 0 ==> t[i - 1].fp < t[i].fp <= t[i - 1].fp + span)
    decreases TWO64 - fp
  {
    var chain := Chain(stack, span, fp);
    if |chain| > 0 && chain[0].fp != 0 {
      var next := chain[0].fp;
      ChainIsSafe(stack, span, next);
      var t, u := [PointerFrame(0, fp)] + chain, [PointerFrame(0, next)] + Chain(stack, span, next);
      forall i | 1 <= i < |t|
        ensures t[i].ip != 0 && (t[i].fp == 0 ==> i == |t| - 1)
                && (t[i].fp != 0 ==> t[i - 1].fp < t[i].fp <= t[i - 1].fp + span)
      {
        if i > 1 {
          assert t[i] == u[i - 1] && t[i - 1].fp == u[i - 2].fp;
        }
      }
    }
  }

  /** The backtrace by frame pointers. Here a trace of maximum length is not always said
      to be cut: it is, exactly when its last frame pointer could be followed. */
  method UnwindFramePointers(stack: Stack, ip: U64, fp: U64, limit: nat, span: nat)
    returns (r: Result<(seq<PointerFrame>, PointerStop)>)
    ensures r.Err? <==> limit == 0 || span == 0
    ensures r.Ok? ==>
      var trace := [PointerFrame(ip, fp)] + Chain(stack, span, fp);
      && r.value.0 == Limited(trace, limit)
      && (r.value.1 == LimitReached <==> |r.value.0| == limit && (limit == 1 || Last(r.value.0).fp != 0))
      && (r.value.1 != LimitReached ==> r.value.0 == trace && r.value.1 == ChainStop(stack, span, fp))
  {
    if limit == 0 || span == 0 {
      return Err(InvalidArgument);
    }
    var frames, current := [PointerFrame(ip, fp)], fp;
    if limit == 1 {
      return Ok((frames, LimitReached));
    }
    while current != 0
      invariant 0 < |frames| < limit && frames[|frames| - 1].fp == current
      invariant [PointerFrame(ip, fp)] + Chain(stack, span, fp) == frames + Chain(stack, span, current)
      invariant ChainStop(stack, span, fp) == ChainStop(stack, span, current)
      decreases TWO64 - current
    {
      if current % 8 != 0 {
        return Ok((frames, InvalidFramePointer));
      }
      if stack(current).None? {
        return Ok((frames, MemoryReadError));
      }
      var saved := stack(current).value;
      if saved.returnAddress == 0 {
        return Ok((frames, ChainEnd));
      }
      if saved.next == 0 {
        return Ok((frames + [PointerFrame(saved.returnAddress, 0)], ChainEnd));
      }
      if saved.next <= current || saved.next - current > span {
        return Ok((frames, InvalidFramePointer));
      }
      ghost var rest := Chain(stack, span, saved.next);
      assert frames + ([PointerFrame(saved.returnAddress, saved.next)] + rest) ==
             frames + [PointerFrame(saved.returnAddress, saved.next)] + rest;
      frames := frames + [PointerFrame(saved.returnAddress, saved.next)];
      if |frames| >= limit {
        return Ok((frames, LimitReached));
      }
      current := saved.next;
    }
    return Ok((frames, ChainEnd));
  }

  /** A trace of maximum length that is reported as the end of the chain: two frames,
      the outer one with frame pointer zero. */
  lemma FullLengthWithoutLimitReached()
    ensures var stack: Stack := a => Some(Saved(0, 0x40_0000));
            && |Limited([PointerFrame(0x40_1000, 0x7000)] + Chain(stack, 0x1000, 0x7000), 2)| == 2
            && ChainStop(stack, 0x1000, 0x7000) == ChainEnd
            && Last([PointerFrame(0x40_1000, 0x7000)] + Chain(stack, 0x1000, 0x7000)).fp == 0
  {
  }

  // ----- the return address of `finish` -----

  const MAX_FRAME_SPAN: nat := 0x100_0000

  /** The frame record at the frame pointer, validated. */
  function FinishReturnAddress(stack: Stack, fp: U64): (r: Result<U64>) {
    if fp == 0 || fp % 8 != 0 || fp > TWO64 - 1 - 16 || stack(fp).None? then Err(InvalidArgument)
    else
      var saved := stack(fp).value;
      if saved.returnAddress == 0 then Err(InvalidArgument)
      else if saved.next != 0 && (saved.next % 8 != 0 || saved.next <= fp || saved.next - fp > MAX_FRAME_SPAN)
      then Err(InvalidArgument)
      else Ok(saved.returnAddress)
  }

  /** `finish` runs to the address a backtrace with the same span shows as its second
      frame. It accepts exactly the frames the backtrace gets past, except those whose
      own record touches the end of memory or whose caller's frame pointer is not
      aligned, which stop the backtrace only one frame later. */
  lemma FinishRunsToSecondFrame(stack: Stack, fp: U64)
    ensures FinishReturnAddress(stack, fp).Ok? <==>
      && fp <= TWO64 - 1 - 16 && |Chain(stack, MAX_FRAME_SPAN, fp)| > 0
      && Chain(stack, MAX_FRAME_SPAN, fp)[0].fp % 8 == 0
    ensures FinishReturnAddress(stack, fp).Ok? ==>
      Chain(stack, MAX_FRAME_SPAN, fp)[0].ip == FinishReturnAddress(stack, fp).value
  {
  }
}
