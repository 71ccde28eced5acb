/** Call-frame instructions and the rows they describe (sections 6.4.1 to 6.4.3 of
    DWARF version 4), executed only as far as the wanted location. */
module CallFrame {
  import opened Base
  import opened Leb128
  import opened Fields

  // ----- checked 64-bit arithmetic -----

  /** Division as C++ does it, towards zero. */
  function Quotient(a: int, b: int): int
    requires b > 0
  {
    if a >= 0 then a / b else -((-a) / b)
  }

  function ScaledOffset(alignment: I64, factor: U64): (r: Result<I64>) {
    if factor > TWO63 - 1 then Err(RuntimeError)
    else if alignment < 0 && factor != 0 && alignment < Quotient(-TWO63, factor) then Err(RuntimeError)
    else if alignment > 0 && factor != 0 && alignment > Quotient(TWO63 - 1, factor) then Err(RuntimeError)
    else
      ProductFits(alignment, factor);
      Ok(alignment * factor)
  }

  lemma QuotientBounds(a: int, b: int)
    requires b > 0
    ensures a >= 0 ==> Quotient(a, b) * b <= a < (Quotient(a, b) + 1) * b
    ensures a < 0 ==> (Quotient(a, b) - 1) * b < a <= Quotient(a, b) * b
  {
    if a < 0 {
      var q := (-a) / b;
      assert -a == q * b + (-a) % b;
      assert Quotient(a, b) * b == -(q * b);
    }
  }

  lemma Monotone(x: int, y: int, f: nat)
    requires x <= y
    ensures x * f <= y * f
  {
  }

  lemma ProductFits(alignment: I64, factor: U64)
    requires factor < TWO63
    ensures -TWO63 <= alignment * factor < TWO63 <==>
      && (alignment < 0 && factor != 0 ==> alignment >= Quotient(-TWO63, factor))
      && (alignment > 0 && factor != 0 ==> alignment <= Quotient(TWO63 - 1, factor))
  {
    if factor != 0 {
      if alignment < 0 {
        var q := Quotient(-TWO63, factor);
        QuotientBounds(-TWO63, factor);
        if alignment >= q {
          Monotone(q, alignment, factor);
        } else {
          Monotone(alignment, q - 1, factor);
        }
        Monotone(alignment, 0, factor);
      } else {
        var q := Quotient(TWO63 - 1, factor);
        QuotientBounds(TWO63 - 1, factor);
        if alignment <= q {
          Monotone(alignment, q, factor);
        } else {
          Monotone(q + 1, alignment, factor);
        }
        Monotone(0, alignment, factor);
      }
    }
  }

  /** The product is delivered exactly when it fits and the factor is a non-negative
      signed number. */
  lemma ScaledOffsetIff(alignment: I64, factor: U64)
    ensures ScaledOffset(alignment, factor).Ok? <==> factor < TWO63 && -TWO63 <= alignment * factor < TWO63
    ensures ScaledOffset(alignment, factor).Ok? ==> ScaledOffset(alignment, factor).value == alignment * factor
  {
    if factor < TWO63 {
      ProductFits(alignment, factor);
    }
  }

  /** So a product that fits is refused in exactly these cases. */
  lemma ScaledOffsetRefusesInRange(alignment: I64, factor: U64)
    ensures ScaledOffset(alignment, factor).Err? && -TWO63 <= alignment * factor < TWO63 <==>
      factor >= TWO63 && (alignment == 0 || (alignment == -1 && factor == TWO63))
  {
    ScaledOffsetIff(alignment, factor);
    if factor >= TWO63 {
      if alignment <= -2 {
        Monotone(alignment, -2, factor);
      } else if alignment >= 1 {
        Monotone(1, alignment, factor);
      }
    }
  }

  function AddSigned(base: U64, offset: I64): (r: Result<U64>)
    ensures r.Ok? <==> 0 <= base + offset < TWO64
    ensures r.Ok? ==> r.value == base + offset
  {
    if offset >= 0 then
      if offset > TWO64 - 1 - base then Err(RuntimeError) else Ok(base + offset)
    else
      var value := -(offset + 1) + 1;
      if value > base then Err(RuntimeError) else Ok(base - value)
  }

  function Advanced(location: U64, units: U64, codeAlignment: U64): (r: Result<U64>) {
    if codeAlignment == 0 || units > (TWO64 - 1) / codeAlignment then Err(RuntimeError)
    else
      var delta := units * codeAlignment;
      if delta > TWO64 - 1 - location then Err(RuntimeError)
      else
        ProductIsNatural(units, codeAlignment);
        Ok(location + delta)
  }

  lemma ProductIsNatural(a: nat, b: nat)
    ensures a * b >= 0
  {
  }

  /** A location is advanced exactly when the sum stays below 2^64 and the code
      alignment is not zero. */
  lemma AdvancedIff(location: U64, units: U64, codeAlignment: U64)
    ensures Advanced(location, units, codeAlignment).Ok? <==>
      codeAlignment != 0 && location + units * codeAlignment < TWO64
    ensures Advanced(location, units, codeAlignment).Ok? ==>
      location <= Advanced(location, units, codeAlignment).value == location + units * codeAlignment
  {
    ProductIsNatural(units, codeAlignment);
    if codeAlignment != 0 {
      var q := (TWO64 - 1) / codeAlignment;
      if units > q {
        Monotone(q + 1, units, codeAlignment);
        assert (q + 1) * codeAlignment > TWO64 - 1;
      }
    }
  }

  // ----- instructions -----

  datatype Instruction =
    | Nop
    | AdvanceLoc(units: U64)
    | Offset(reg: U64, factor: U64)
    | Restore(reg: U64)
    | SetUndefined(reg: U64)
    | SetSameValue(reg: U64)
    | RememberState
    | RestoreState
    | DefCfa(reg: U64, offset: U64)
    | DefCfaRegister(reg: U64)
    | DefCfaOffset(offset: U64)

  function OneUleb(bytes: seq<Byte>, at: nat, end: nat, make: U64 -> Instruction): (r: Result<Read<Instruction>>)
    ensures r.Ok? ==> at < r.value.next <= end && r.value.next <= |bytes|
  {
    var a := Uleb(bytes, at, end);
    if a.Err? then Err(a.error) else
    UlebSucceedsIff(bytes, at, end, a.value.value, a.value.next);
    Ok(Read(make(a.value.value), a.value.next))
  }

  function TwoUlebs(bytes: seq<Byte>, at: nat, end: nat, make: (U64, U64) -> Instruction): (r: Result<Read<Instruction>>)
    ensures r.Ok? ==> at < r.value.next <= end && r.value.next <= |bytes|
  {
    var a := Uleb(bytes, at, end);
    if a.Err? then Err(a.error) else
    UlebSucceedsIff(bytes, at, end, a.value.value, a.value.next);
    var b := Uleb(bytes, a.value.next, end);
    if b.Err? then Err(b.error) else
    UlebSucceedsIff(bytes, a.value.next, end, b.value.value, b.value.next);
    Ok(Read(make(a.value.value, b.value.value), b.value.next))
  }

  function OneScalar(bytes: seq<Byte>, at: nat, end: nat, width: nat): (r: Result<Read<Instruction>>)
    requires width <= 4
    ensures r.Ok? ==> at <= r.value.next <= end && r.value.next <= |bytes|
  {
    var a := Scalar(bytes, at, end, width);
    if a.Err? then Err(a.error) else
    assert Pow256(width) <= Pow256(4) by { PowersOf256(width); }
    assert Pow256(4) == 0x1_0000_0000;
    Ok(Read(AdvanceLoc(a.value.value), a.value.next))
  }

  lemma PowersOf256(width: nat)
    requires width <= 4
    ensures Pow256(width) <= Pow256(4)
  {
  }

  /** The instruction at `at`; it consumes at least its opcode. */
  function Decode(bytes: seq<Byte>, at: nat, end: nat): (r: Result<Read<Instruction>>)
    ensures r.Ok? ==> at < r.value.next <= end && r.value.next <= |bytes|
  {
    if at >= end || at >= |bytes| then Err(RuntimeError)
    else
      var opcode, operand := bytes[at], at + 1;
      if 0x40 <= opcode < 0x80 then Ok(Read(AdvanceLoc(opcode % 0x40), operand))
      else if 0x80 <= opcode < 0xC0 then OneUleb(bytes, operand, end, (factor: U64) => Offset(opcode % 0x40, factor))
      else if 0xC0 <= opcode then Ok(Read(Restore(opcode % 0x40), operand))
      else match opcode
        case 0x00 => Ok(Read(Nop, operand))
        case 0x02 => OneScalar(bytes, operand, end, 1)
        case 0x03 => OneScalar(bytes, operand, end, 2)
        case 0x04 => OneScalar(bytes, operand, end, 4)
        case 0x05 => TwoUlebs(bytes, operand, end, (reg: U64, factor: U64) => Offset(reg, factor))
        case 0x06 => OneUleb(bytes, operand, end, (reg: U64) => Restore(reg))
        case 0x07 => OneUleb(bytes, operand, end, (reg: U64) => SetUndefined(reg))
        case 0x08 => OneUleb(bytes, operand, end, (reg: U64) => SetSameValue(reg))
        case 0x0A => Ok(Read(RememberState, operand))
        case 0x0B => Ok(Read(RestoreState, operand))
        case 0x0C => TwoUlebs(bytes, operand, end, (reg: U64, offset: U64) => DefCfa(reg, offset))
        case 0x0D => OneUleb(bytes, operand, end, (reg: U64) => DefCfaRegister(reg))
        case 0x0E => OneUleb(bytes, operand, end, (offset: U64) => DefCfaOffset(offset))
        case 0x2E => OneUleb(bytes, operand, end, (size: U64) => Nop)
        case _ => Err(RuntimeError)
  }

  /** A whole program, if it decodes completely. */
  function DecodeAll(bytes: seq<Byte>, at: nat, end: nat): (r: Result<seq<Instruction>>)
    decreases end - at
  {
    if at >= end then Ok([])
    else
      var first := Decode(bytes, at, end);
      if first.Err? then Err(first.error) else
      var rest := DecodeAll(bytes, first.value.next, end);
      if rest.Err? then Err(rest.error) else Ok([first.value.value] + rest.value)
  }

  // ----- rules and rows -----

  datatype Rule = Undefined | SameValue | OffsetRule(offset: I64)

  datatype CfiState = CfiState(cfaDefined: bool, cfaRegister: U64, cfaOffset: I64, rules: map<U64, Rule>)

  datatype Alignment = Alignment(code: U64, data: I64)

  datatype Machine = Machine(state: CfiState, stack: seq<CfiState>, location: U64)

  /** One row of the expanded table: the rules from its location on. */
  datatype Row = Row(location: U64, state: CfiState)

  function Restored(state: CfiState, initial: CfiState, reg: U64): CfiState {
    if reg in initial.rules then state.(rules := state.rules[reg := initial.rules[reg]])
    else state.(rules := state.rules - {reg})
  }

  /** The effect of one instruction; `initial` is absent in a CIE. */
  function Apply(al: Alignment, initial: Option<CfiState>, m: Machine, i: Instruction): (r: Result<Machine>) {
    var s := m.state;
    match i
    case Nop => Ok(m)
    case AdvanceLoc(units) =>
      var next := Advanced(m.location, units, al.code);
      if next.Err? then Err(next.error) else Ok(m.(location := next.value))
    case Offset(reg, factor) =>
      var offset := ScaledOffset(al.data, factor);
      if offset.Err? then Err(offset.error) else Ok(m.(state := s.(rules := s.rules[reg := OffsetRule(offset.value)])))
    case Restore(reg) =>
      if initial.None? then Err(RuntimeError) else Ok(m.(state := Restored(s, initial.value, reg)))
    case SetUndefined(reg) => Ok(m.(state := s.(rules := s.rules[reg := Undefined])))
    case SetSameValue(reg) => Ok(m.(state := s.(rules := s.rules[reg := SameValue])))
    case RememberState => Ok(m.(stack := m.stack + [s]))
    case RestoreState =>
      if |m.stack| == 0 then Err(RuntimeError)
      else Ok(m.(state := m.stack[|m.stack| - 1], stack := m.stack[..|m.stack| - 1]))
    case DefCfa(reg, offset) =>
      if offset > TWO63 - 1 then Err(RuntimeError)
      else Ok(m.(state := s.(cfaDefined := true, cfaRegister := reg, cfaOffset := offset)))
    case DefCfaRegister(reg) =>
      if !s.cfaDefined then Err(RuntimeError) else Ok(m.(state := s.(cfaRegister := reg)))
    case DefCfaOffset(offset) =>
      if !s.cfaDefined || offset > TWO63 - 1 then Err(RuntimeError) else Ok(m.(state := s.(cfaOffset := offset)))
  }

  /** The table a program describes: a row ends where the location is advanced. */
  function Expand(al: Alignment, initial: Option<CfiState>, m: Machine, program: seq<Instruction>): (r: Result<seq<Row>>)
    decreases |program|
  {
    if program == [] then Ok([Row(m.location, m.state)])
    else
      var next := Apply(al, initial, m, program[0]);
      if next.Err? then Err(next.error) else
      var rest := Expand(al, initial, next.value, program[1..]);
      if rest.Err? then Err(rest.error)
      else if program[0].AdvanceLoc? then Ok([Row(m.location, m.state)] + rest.value)
      else rest
  }

  /** The last row at or below the target. */
  function LastAtOrBelow(rows: seq<Row>, target: U64): (r: Option<Row>) {
    if rows == [] then None
    else if rows[|rows| - 1].location <= target then Some(rows[|rows| - 1])
    else LastAtOrBelow(rows[..|rows| - 1], target)
  }

  /** The rows ascend from the location the program starts at. */
  lemma {:induction false} RowsAscend(al: Alignment, initial: Option<CfiState>, m: Machine, program: seq<Instruction>)
    requires Expand(al, initial, m, program).Ok?
    ensures var rows := Expand(al, initial, m, program).value;
            && |rows| > 0 && rows[0].location == m.location
            && forall i, j :: 0 <= i <= j < |rows| ==> rows[i].location <= rows[j].location
    decreases |program|
  {
    if program != [] {
      var next := Apply(al, initial, m, program[0]).value;
      RowsAscend(al, initial, next, program[1..]);
      if program[0].AdvanceLoc? {
        AdvancedIff(m.location, program[0].units, al.code);
        var rows, rest := Expand(al, initial, m, program).value, Expand(al, initial, next, program[1..]).value;
        assert rows == [Row(m.location, m.state)] + rest;
        forall i, j | 0 <= i <= j < |rows|
          ensures rows[i].location <= rows[j].location
        {
          if i == 0 && j > 0 {
            assert rest[0].location <= rest[j - 1].location;
          }
        }
      }
    }
  }

  lemma {:induction false} LastOfMore(first: Row, rest: seq<Row>, target: U64)
    ensures LastAtOrBelow([first] + rest, target) ==
            if LastAtOrBelow(rest, target).Some? then LastAtOrBelow(rest, target)
            else if first.location <= target then Some(first) else None
  {
    var rows := [first] + rest;
    if rest != [] {
      if rest[|rest| - 1].location > target {
        assert rows[..|rows| - 1] == [first] + rest[..|rest| - 1];
        LastOfMore(first, rest[..|rest| - 1], target);
      }
    } else {
      assert rows[..0] == [];
    }
  }

  lemma {:induction false} NoneBelow(rows: seq<Row>, target: U64)
    requires forall i :: 0 <= i < |rows| ==> rows[i].location > target
    ensures LastAtOrBelow(rows, target).None?
  {
    if rows != [] {
      NoneBelow(rows[..|rows| - 1], target);
    }
  }

  // ----- the interpreter -----

  /** The interpreter over decoded instructions: it stops before the first advance past
      the target. */
  function Run(al: Alignment, initial: Option<CfiState>, m: Machine, bytes: seq<Byte>, at: nat, end: nat, target: U64)
    : (r: Result<CfiState>)
    decreases end - at
  {
    if at >= end then Ok(m.state)
    else
      var first := Decode(bytes, at, end);
      if first.Err? then Err(first.error) else
      var next := Apply(al, initial, m, first.value.value);
      if next.Err? then Err(next.error)
      else if first.value.value.AdvanceLoc? && next.value.location > target then Ok(m.state)
      else Run(al, initial, next.value, bytes, first.value.next, end, target)
  }

  /** For every program that decodes and expands completely, and every target, the early
      exit gives the last row at or below the target, whatever is remembered and
      restored on the way. */
  lemma {:induction false} RunSelectsRow(al: Alignment, initial: Option<CfiState>, m: Machine, bytes: seq<Byte>, at: nat,
                                         end: nat, target: U64)
    requires DecodeAll(bytes, at, end).Ok? && m.location <= target
    requires Expand(al, initial, m, DecodeAll(bytes, at, end).value).Ok?
    ensures var row := LastAtOrBelow(Expand(al, initial, m, DecodeAll(bytes, at, end).value).value, target);
            row.Some? && Run(al, initial, m, bytes, at, end, target) == Ok(row.value.state)
    decreases end - at
  {
    var program := DecodeAll(bytes, at, end).value;
    var rows := Expand(al, initial, m, program).value;
    if at >= end {
      assert rows == [Row(m.location, m.state)];
    } else {
      var first := Decode(bytes, at, end).value;
      var later := DecodeAll(bytes, first.next, end).value;
      assert program[0] == first.value && program[1..] == later;
      var next := Apply(al, initial, m, first.value).value;
      var rest := Expand(al, initial, next, later).value;
      if first.value.AdvanceLoc? {
        LastOfMore(Row(m.location, m.state), rest, target);
        if next.location > target {
          RowsAscend(al, initial, next, later);
          NoneBelow(rest, target);
        } else {
          RunSelectsRow(al, initial, next, bytes, first.next, end, target);
        }
      } else {
        LocationStays(al, initial, m, first.value);
        RunSelectsRow(al, initial, next, bytes, first.next, end, target);
      }
    }
  }

  lemma LocationStays(al: Alignment, initial: Option<CfiState>, m: Machine, i: Instruction)
    requires !i.AdvanceLoc? && Apply(al, initial, m, i).Ok?
    ensures Apply(al, initial, m, i).value.location == m.location
  {
  }

  /** The interpreter itself. */
  method Execute(bytes: seq<Byte>, begin: nat, end: nat, al: Alignment, state: CfiState, initial: Option<CfiState>,
                 location: U64, target: U64) returns (r: Result<CfiState>)
    ensures r == Run(al, initial, Machine(state, [], location), bytes, begin, end, target)
    ensures location <= target && DecodeAll(bytes, begin, end).Ok? &&
            Expand(al, initial, Machine(state, [], location), DecodeAll(bytes, begin, end).value).Ok? ==>
      var rows := Expand(al, initial, Machine(state, [], location), DecodeAll(bytes, begin, end).value).value;
      LastAtOrBelow(rows, target).Some? && r == Ok(LastAtOrBelow(rows, target).value.state)
  {
    hide Decode, Apply;
    if location <= target && DecodeAll(bytes, begin, end).Ok? &&
       Expand(al, initial, Machine(state, [], location), DecodeAll(bytes, begin, end).value).Ok? {
      RunSelectsRow(al, initial, Machine(state, [], location), bytes, begin, end, target);
    }
    var m := Machine(state, [], location);
    var cursor := begin;
    while cursor < end
      invariant Run(al, initial, Machine(state, [], location), bytes, begin, end, target) ==
                Run(al, initial, m, bytes, cursor, end, target)
      decreases end - cursor
    {
      var instruction := Decode(bytes, cursor, end);
      if instruction.Err? {
        return Err(instruction.error);
      }
      var next := Apply(al, initial, m, instruction.value.value);
      if next.Err? {
        return Err(next.error);
      }
      if instruction.value.value.AdvanceLoc? && next.value.location > target {
        return Ok(m.state);
      }
      m, cursor := next.value, instruction.value.next;
    }
    return Ok(m.state);
  }

  // ----- nesting -----

  function ApplyAll(al: Alignment, initial: Option<CfiState>, m: Machine, program: seq<Instruction>): (r: Result<Machine>)
    decreases |program|
  {
    if program == [] then Ok(m)
    else
      var next := Apply(al, initial, m, program[0]);
      if next.Err? then Err(next.error) else ApplyAll(al, initial, next.value, program[1..])
  }

  function Nesting(i: Instruction): int {
    if i.RememberState? then 1 else if i.RestoreState? then -1 else 0
  }

  /** From `depth` open blocks the program closes only blocks of its own, down to
      none. */
  predicate Nested(program: seq<Instruction>, depth: nat) {
    if program == [] then depth == 0
    else depth + Nesting(program[0]) >= 0 && Nested(program[1..], depth + Nesting(program[0]))
  }

  /** Whatever a properly nested block does, what was remembered before it is still
      there. */
  lemma {:induction false} NestedKeepsStack(al: Alignment, initial: Option<CfiState>, m: Machine, program: seq<Instruction>,
                                            depth: nat)
    requires Nested(program, depth) && depth <= |m.stack| && ApplyAll(al, initial, m, program).Ok?
    ensures ApplyAll(al, initial, m, program).value.stack == m.stack[..|m.stack| - depth]
    decreases |program|
  {
    if program == [] {
      assert m.stack[..|m.stack|] == m.stack;
    } else {
      var next := Apply(al, initial, m, program[0]).value;
      NestedKeepsStack(al, initial, next, program[1..], depth + Nesting(program[0]));
    }
  }

  lemma {:induction false} ApplyConcat(al: Alignment, initial: Option<CfiState>, m: Machine, p: seq<Instruction>,
                                       q: seq<Instruction>)
    ensures ApplyAll(al, initial, m, p + q) ==
            if ApplyAll(al, initial, m, p).Ok? then ApplyAll(al, initial, ApplyAll(al, initial, m, p).value, q)
            else Err(ApplyAll(al, initial, m, p).error)
    decreases |p|
  {
    if p == [] {
      assert p + q == q;
    } else {
      assert (p + q)[1..] == p[1..] + q;
      var next := Apply(al, initial, m, p[0]);
      if next.Ok? {
        ApplyConcat(al, initial, next.value, p[1..], q);
      }
    }
  }

  /** remember_state, any properly nested block, restore_state: the rules and the stack
      are as before the block. */
  lemma RememberRestore(al: Alignment, initial: Option<CfiState>, m: Machine, block: seq<Instruction>)
    requires Nested(block, 0)
    requires ApplyAll(al, initial, m, [RememberState] + block + [RestoreState]).Ok?
    ensures var after := ApplyAll(al, initial, m, [RememberState] + block + [RestoreState]).value;
            after.state == m.state && after.stack == m.stack
  {
    var pushed := m.(stack := m.stack + [m.state]);
    assert [RememberState] + block + [RestoreState] == [RememberState] + (block + [RestoreState]);
    assert ([RememberState] + (block + [RestoreState]))[1..] == block + [RestoreState];
    ApplyConcat(al, initial, pushed, block, [RestoreState]);
    NestedKeepsStack(al, initial, pushed, block, 0);
    var inside := ApplyAll(al, initial, pushed, block).value;
    assert inside.stack == pushed.stack;
    assert [RestoreState][1..] == [];
  }

  // ----- what a register's rule is -----

  predicate Mentions(i: Instruction, reg: U64) {
    (i.Offset? || i.Restore? || i.SetUndefined? || i.SetSameValue?) && i.reg == reg
  }

  function RuleOf(state: CfiState, reg: U64): Option<Rule> {
    if reg in state.rules then Some(state.rules[reg]) else None
  }

  /** `rule` is the rule that instruction `i` gives to its register. */
  predicate Gives(al: Alignment, initial: Option<CfiState>, i: Instruction, rule: Option<Rule>) {
    match i
    case Offset(_, factor) => rule.Some? && rule.value.OffsetRule? && rule.value.offset == al.data * factor
    case Restore(reg) => initial.Some? && rule == RuleOf(initial.value, reg)
    case SetUndefined(_) => rule == Some(Undefined)
    case SetSameValue(_) => rule == Some(SameValue)
    case _ => false
  }

  predicate Flat(program: seq<Instruction>) {
    forall i :: 0 <= i < |program| ==> !program[i].RememberState? && !program[i].RestoreState?
  }

  lemma {:induction false} UnmentionedKeepsRule(al: Alignment, initial: Option<CfiState>, m: Machine,
                                                program: seq<Instruction>, reg: U64)
    requires Flat(program) && ApplyAll(al, initial, m, program).Ok?
    requires forall i :: 0 <= i < |program| ==> !Mentions(program[i], reg)
    ensures RuleOf(ApplyAll(al, initial, m, program).value.state, reg) == RuleOf(m.state, reg)
    decreases |program|
  {
    if program != [] {
      var next := Apply(al, initial, m, program[0]).value;
      assert RuleOf(next.state, reg) == RuleOf(m.state, reg);
      UnmentionedKeepsRule(al, initial, next, program[1..], reg);
    }
  }

  /** Between remember and restore, the rule of a register is what the last instruction
      that mentions it says. */
  lemma {:induction false} LastMentionDecides(al: Alignment, initial: Option<CfiState>, m: Machine,
                                              program: seq<Instruction>,
                                              reg: U64, k: nat)
    requires Flat(program) && ApplyAll(al, initial, m, program).Ok?
    requires k < |program| && Mentions(program[k], reg)
    requires forall i :: k < i < |program| ==> !Mentions(program[i], reg)
    ensures Gives(al, initial, program[k], RuleOf(ApplyAll(al, initial, m, program).value.state, reg))
    decreases |program|
  {
    var next := Apply(al, initial, m, program[0]).value;
    if k == 0 {
      if program[0].Offset? {
        ScaledOffsetIff(al.data, program[0].factor);
      }
      UnmentionedKeepsRule(al, initial, next, program[1..], reg);
    } else {
      LastMentionDecides(al, initial, next, program[1..], reg, k - 1);
    }
  }

  /** The same for the frame address: the register is what the last instruction that
      defines it says, and so is the offset. */
  predicate NamesCfaRegister(i: Instruction) {
    i.DefCfa? || i.DefCfaRegister?
  }

  predicate NamesCfaOffset(i: Instruction) {
    i.DefCfa? || i.DefCfaOffset?
  }

  lemma {:induction false} LastCfaDecides(al: Alignment, initial: Option<CfiState>, m: Machine, program: seq<Instruction>,
                                          r: int, o: int)
    requires Flat(program) && ApplyAll(al, initial, m, program).Ok? && -1 <= r < |program| && -1 <= o < |program|
    requires r >= 0 ==> NamesCfaRegister(program[r])
    requires o >= 0 ==> NamesCfaOffset(program[o])
    requires forall i :: r < i < |program| ==> !NamesCfaRegister(program[i])
    requires forall i :: o < i < |program| ==> !NamesCfaOffset(program[i])
    ensures var after := ApplyAll(al, initial, m, program).value.state;
            && after.cfaRegister == (if r >= 0 then program[r].reg else m.state.cfaRegister)
            && after.cfaOffset == (if o >= 0 then program[o].offset else m.state.cfaOffset)
    decreases |program|
  {
    if program != [] {
      var next := Apply(al, initial, m, program[0]).value;
      LastCfaDecides(al, initial, next, program[1..], if r > 0 then r - 1 else -1, if o > 0 then o - 1 else -1);
    }
  }

  // ----- encoding -----

  /** An advance is encoded in four bytes. */
  predicate Encodable(i: Instruction) {
    i.AdvanceLoc? ==> i.units < Pow256(4)
  }

  /** The encoding of each instruction in section 7.23 of DWARF version 4. */
  function Encode(i: Instruction): (e: seq<Byte>)
    ensures |e| > 0
  {
    match i
    case Nop => [0x00]
    case AdvanceLoc(units) => [0x04] + LittleBytes(units, 4)
    case Offset(reg, factor) => [0x05] + EncodeUleb(reg) + EncodeUleb(factor)
    case Restore(reg) => [0x06] + EncodeUleb(reg)
    case SetUndefined(reg) => [0x07] + EncodeUleb(reg)
    case SetSameValue(reg) => [0x08] + EncodeUleb(reg)
    case RememberState => [0x0A]
    case RestoreState => [0x0B]
    case DefCfa(reg, offset) => [0x0C] + EncodeUleb(reg) + EncodeUleb(offset)
    case DefCfaRegister(reg) => [0x0D] + EncodeUleb(reg)
    case DefCfaOffset(offset) => [0x0E] + EncodeUleb(offset)
  }

  lemma Reassociated(a: seq<Byte>, b: seq<Byte>, c: seq<Byte>, d: seq<Byte>, e: seq<Byte>)
    ensures a + (b + c + d) + e == a + b + c + (d + e) == a + b + c + d + e
  {
  }

  lemma OneOperand(before: seq<Byte>, opcode: Byte, x: U64, after: seq<Byte>, end: nat)
    requires end >= |before| + 1 + |EncodeUleb(x)|
    ensures var bytes := before + ([opcode] + EncodeUleb(x)) + after;
            && |bytes| > |before| && bytes[|before|] == opcode
            && Uleb(bytes, |before| + 1, end) == Ok(Read(x, |before| + 1 + |EncodeUleb(x)|))
  {
    hide Uleb, EncodeUleb;
    UlebRoundTrip(before + [opcode], x, after, end);
    assert before + ([opcode] + EncodeUleb(x)) + after == before + [opcode] + EncodeUleb(x) + after;
  }

  lemma TwoOperands(before: seq<Byte>, opcode: Byte, x: U64, y: U64, after: seq<Byte>, end: nat)
    requires end >= |before| + 1 + |EncodeUleb(x)| + |EncodeUleb(y)|
    ensures var bytes := before + ([opcode] + EncodeUleb(x) + EncodeUleb(y)) + after;
            var middle := |before| + 1 + |EncodeUleb(x)|;
            && |bytes| > |before| && bytes[|before|] == opcode
            && Uleb(bytes, |before| + 1, end) == Ok(Read(x, middle))
            && Uleb(bytes, middle, end) == Ok(Read(y, middle + |EncodeUleb(y)|))
  {
    hide Uleb, EncodeUleb;
    UlebRoundTrip(before + [opcode], x, EncodeUleb(y) + after, end);
    UlebRoundTrip(before + [opcode] + EncodeUleb(x), y, after, end);
    Reassociated(before, [opcode], EncodeUleb(x), EncodeUleb(y), after);
  }

  /** Every instruction is decoded back from its encoding between any bytes. */
  lemma DecodeRoundTrip(before: seq<Byte>, i: Instruction, after: seq<Byte>, end: nat)
    requires Encodable(i) && end >= |before| + |Encode(i)|
    ensures Decode(before + Encode(i) + after, |before|, end) == Ok(Read(i, |before| + |Encode(i)|))
  {
    hide Uleb, EncodeUleb, Scalar, LittleBytes;
    var bytes := before + Encode(i) + after;
    match i
    case Nop => assert bytes[|before|] == 0x00;
    case RememberState => assert bytes[|before|] == 0x0A;
    case RestoreState => assert bytes[|before|] == 0x0B;
    case AdvanceLoc(units) =>
      ScalarRoundTrip(before + [0x04], units, 4, after, end);
      assert bytes == before + [0x04] + LittleBytes(units, 4) + after;
    case Offset(reg, factor) => TwoOperands(before, 0x05, reg, factor, after, end);
    case Restore(reg) => OneOperand(before, 0x06, reg, after, end);
    case SetUndefined(reg) => OneOperand(before, 0x07, reg, after, end);
    case SetSameValue(reg) => OneOperand(before, 0x08, reg, after, end);
    case DefCfa(reg, offset) => TwoOperands(before, 0x0C, reg, offset, after, end);
    case DefCfaRegister(reg) => OneOperand(before, 0x0D, reg, after, end);
    case DefCfaOffset(offset) => OneOperand(before, 0x0E, offset, after, end);
  }

  /** The compact forms, with the operand in the opcode. */
  lemma CompactForms(before: seq<Byte>, operand: nat, factor: U64, after: seq<Byte>, end: nat)
    requires operand < 0x40 && end >= |before| + 1 + |EncodeUleb(factor)|
    ensures Decode(before + [0x40 + operand] + after, |before|, end) == Ok(Read(AdvanceLoc(operand), |before| + 1))
    ensures Decode(before + [0xC0 + operand] + after, |before|, end) == Ok(Read(Restore(operand), |before| + 1))
    ensures Decode(before + ([0x80 + operand] + EncodeUleb(factor)) + after, |before|, end) ==
            Ok(Read(Offset(operand, factor), |before| + 1 + |EncodeUleb(factor)|))
  {
    hide Uleb, EncodeUleb;
    OneOperand(before, 0x80 + operand, factor, after, end);
  }

  function EncodeAll(program: seq<Instruction>): seq<Byte> {
    if program == [] then [] else Encode(program[0]) + EncodeAll(program[1..])
  }

  /** Every program is decoded back from its encoding. */
  lemma {:induction false} ProgramRoundTrip(before: seq<Byte>, program: seq<Instruction>, after: seq<Byte>)
    requires forall k :: 0 <= k < |program| ==> Encodable(program[k])
    ensures DecodeAll(before + EncodeAll(program) + after, |before|, |before| + |EncodeAll(program)|) == Ok(program)
    decreases |program|
  {
    hide Decode, Encode;
    if program != [] {
      var first, rest := Encode(program[0]), EncodeAll(program[1..]);
      var bytes, end := before + EncodeAll(program) + after, |before| + |EncodeAll(program)|;
      DecodeRoundTrip(before, program[0], rest + after, end);
      assert bytes == before + first + (rest + after);
      ProgramRoundTrip(before + first, program[1..], after);
      assert bytes == before + first + rest + after;
      assert program == [program[0]] + program[1..];
    }
  }
}
