/** The line-number program of one unit (section 6.2.5 of DWARF versions 4 and 5): a
    machine over bytes whose rows are compiled, as they appear, to half-open address
    ranges. */
module LineProgram {
  import opened Base
  import opened Leb128
  import opened Fields

  datatype FileEntry = FileEntry(name: seq<Byte>, directory: U64)

  datatype SourceLocation = SourceLocation(file: string, line: nat, column: U64)

  /** What the header says; `path` resolves a file entry against the directories. */
  datatype Header = Header(dwarf5: bool, minimumLength: nat, lineBase: int, lineRange: nat, opcodeBase: nat,
                           operandCounts: seq<Byte>, path: FileEntry -> string)

  predicate GoodHeader(h: Header) {
    && 0 < h.minimumLength < 256 && 0 < h.lineRange < 256 && 0 < h.opcodeBase < 256
    && -128 <= h.lineBase < 128 && |h.operandCounts| == h.opcodeBase - 1
  }

  /** The address, file, line and column registers. */
  datatype Registers = Registers(address: U64, file: U64, line: int, column: U64)

  const INITIAL := Registers(0, 1, 1, 0)

  datatype LineMachine = LineMachine(regs: Registers, files: seq<FileEntry>)

  datatype Instruction =
    | Skip
    | Copy
    | EndSequence
    | SetAddress(address: U64)
    | DefineFile(entry: FileEntry)
    | AdvancePc(operand: U64)
    | AdvanceLine(delta: I64)
    | SetFile(file: U64)
    | SetColumn(column: U64)
    | ConstAddPc
    | FixedAdvancePc(amount: nat)
    | Special(adjusted: nat)

  // ----- decoding -----

  function FileEntryAt(bytes: seq<Byte>, at: nat, limit: nat): (r: Result<FileEntry>)
    requires limit <= |bytes|
  {
    var name := CString(bytes, at, limit);
    if name.Err? then Err(name.error) else
    var directory := Uleb(bytes, name.value.next, limit);
    if directory.Err? then Err(directory.error) else
    var modified := Uleb(bytes, directory.value.next, limit);
    if modified.Err? then Err(modified.error) else
    var length := Uleb(bytes, modified.value.next, limit);
    if length.Err? then Err(length.error) else Ok(FileEntry(name.value.value, directory.value.value))
  }

  /** An extended instruction: its length says where the next one starts. */
  function DecodeExtended(h: Header, bytes: seq<Byte>, at: nat, end: nat): (r: Result<Read<Instruction>>)
    requires end <= |bytes|
    ensures r.Ok? ==> at < r.value.next <= end
  {
    var length := Uleb(bytes, at, end);
    if length.Err? then Err(length.error) else
    UlebSucceedsIff(bytes, at, end, length.value.value, length.value.next);
    var start := length.value.next;
    if length.value.value == 0 || length.value.value > end - start then Err(RuntimeError) else
    var next := start + length.value.value;
    var opcode, operand := bytes[start], start + 1;
    if opcode == 1 then Ok(Read(EndSequence, next))
    else if opcode == 2 then
      if next - operand != 8 then Err(RuntimeError) else
      var address := Scalar(bytes, operand, next, 8);
      if address.Err? then Err(address.error) else
      assert Pow256(8) == TWO64;
      Ok(Read(SetAddress(address.value.value), next))
    else if opcode == 3 then
      if h.dwarf5 then Err(RuntimeError) else
      var entry := FileEntryAt(bytes, operand, next);
      if entry.Err? then Err(entry.error) else Ok(Read(DefineFile(entry.value), next))
    else if opcode == 4 then
      var discriminator := Uleb(bytes, operand, next);
      if discriminator.Err? then Err(discriminator.error) else Ok(Read(Skip, next))
    else Ok(Read(Skip, next))
  }

  function SkipUlebs(bytes: seq<Byte>, at: nat, end: nat, count: nat): (r: Result<nat>)
    requires at <= end
    ensures r.Ok? ==> at <= r.value <= end
    decreases count
  {
    if count == 0 then Ok(at)
    else
      var one := Uleb(bytes, at, end);
      if one.Err? then Err(one.error) else
      UlebSucceedsIff(bytes, at, end, one.value.value, one.value.next);
      SkipUlebs(bytes, one.value.next, end, count - 1)
  }

  function DecodeUleb(bytes: seq<Byte>, at: nat, end: nat, make: U64 -> Instruction): (r: Result<Read<Instruction>>)
    ensures r.Ok? ==> at < r.value.next <= end
  {
    var a := Uleb(bytes, at, end);
    if a.Err? then Err(a.error) else
    UlebSucceedsIff(bytes, at, end, a.value.value, a.value.next);
    Ok(Read(make(a.value.value), a.value.next))
  }

  function DecodeStandard(h: Header, bytes: seq<Byte>, opcode: Byte, at: nat, end: nat): (r: Result<Read<Instruction>>)
    requires GoodHeader(h) && 0 < opcode < h.opcodeBase && at <= end <= |bytes|
    ensures r.Ok? ==> at <= r.value.next <= end
  {
    match opcode
    case 1 => Ok(Read(Copy, at))
    case 2 => DecodeUleb(bytes, at, end, (n: U64) => AdvancePc(n))
    case 3 =>
      var delta := StrictSleb(bytes, at, end);
      if delta.Err? then Err(delta.error) else
      StrictSlebSucceedsIff(bytes, at, end, delta.value.value, delta.value.next);
      Ok(Read(AdvanceLine(delta.value.value), delta.value.next))
    case 4 => DecodeUleb(bytes, at, end, (n: U64) => SetFile(n))
    case 5 => DecodeUleb(bytes, at, end, (n: U64) => SetColumn(n))
    case 6 => Ok(Read(Skip, at))
    case 7 => Ok(Read(Skip, at))
    case 8 => Ok(Read(ConstAddPc, at))
    case 9 =>
      var amount := Scalar(bytes, at, end, 2);
      if amount.Err? then Err(amount.error) else Ok(Read(FixedAdvancePc(amount.value.value), amount.value.next))
    case 10 => Ok(Read(Skip, at))
    case 11 => Ok(Read(Skip, at))
    case 12 => DecodeUleb(bytes, at, end, (n: U64) => Skip)
    case _ =>
      var next := SkipUlebs(bytes, at, end, h.operandCounts[opcode - 1]);
      if next.Err? then Err(next.error) else Ok(Read(Skip, next.value))
  }

  function Decode(h: Header, bytes: seq<Byte>, at: nat, end: nat): (r: Result<Read<Instruction>>)
    requires GoodHeader(h) && at < end <= |bytes|
    ensures r.Ok? ==> at < r.value.next <= end
  {
    var opcode := bytes[at];
    if opcode == 0 then DecodeExtended(h, bytes, at + 1, end)
    else if opcode < h.opcodeBase then DecodeStandard(h, bytes, opcode, at + 1, end)
    else Ok(Read(Special(opcode - h.opcodeBase), at + 1))
  }

  function DecodeAll(h: Header, bytes: seq<Byte>, at: nat, end: nat): (r: Result<seq<Instruction>>)
    requires GoodHeader(h) && end <= |bytes|
    decreases end - at
  {
    if at >= end then Ok([])
    else
      var first := Decode(h, bytes, at, end);
      if first.Err? then Err(first.error) else
      var rest := DecodeAll(h, bytes, first.value.next, end);
      if rest.Err? then Err(rest.error) else Ok([first.value.value] + rest.value)
  }

  // ----- the row matrix -----

  /** A row of the matrix: the program's locations from `address` on, or the end. */
  datatype LineRow = LineRow(address: U64, location: Option<SourceLocation>, end: bool)

  function FileOffset(index: U64, count: nat, dwarf5: bool): (r: Option<nat>)
    ensures r.Some? ==> r.value < count && r.value == if dwarf5 then index else index - 1
    ensures r.None? <==> if dwarf5 then index >= count else !(1 <= index <= count)
  {
    if dwarf5 then
      if index >= count then None else Some(index)
    else if index == 0 || index > count then None else Some(index - 1)
  }

  function LocationOf(h: Header, m: LineMachine): Option<SourceLocation> {
    if m.regs.line <= 0 then None
    else
      var offset := FileOffset(m.regs.file, |m.files|, h.dwarf5);
      if offset.None? then None
      else Some(SourceLocation(h.path(m.files[offset.value]), m.regs.line, m.regs.column))
  }

  /** Addresses wrap around at 2^64. */
  function Moved(m: LineMachine, units: nat, h: Header): LineMachine {
    m.(regs := m.regs.(address := Wrap64(m.regs.address + units * h.minimumLength)))
  }

  function SpecialEffect(h: Header, m: LineMachine, adjusted: nat): LineMachine
    requires GoodHeader(h)
  {
    var moved := Moved(m, adjusted / h.lineRange, h);
    moved.(regs := moved.regs.(line := moved.regs.line + h.lineBase + adjusted % h.lineRange))
  }

  function Effect(h: Header, m: LineMachine, i: Instruction): LineMachine
    requires GoodHeader(h)
  {
    match i
    case Skip => m
    case Copy => m
    case EndSequence => m.(regs := INITIAL)
    case SetAddress(a) => m.(regs := m.regs.(address := a))
    case DefineFile(entry) => m.(files := m.files + [entry])
    case AdvancePc(n) => Moved(m, n, h)
    case AdvanceLine(d) => m.(regs := m.regs.(line := m.regs.line + d))
    case SetFile(f) => m.(regs := m.regs.(file := f))
    case SetColumn(c) => m.(regs := m.regs.(column := c))
    case ConstAddPc => Moved(m, (255 - h.opcodeBase) / h.lineRange, h)
    case FixedAdvancePc(n) => m.(regs := m.regs.(address := Wrap64(m.regs.address + n)))
    case Special(adjusted) => SpecialEffect(h, m, adjusted)
  }

  /** The row an instruction appends, if it does. */
  function RowOf(h: Header, m: LineMachine, i: Instruction): Option<LineRow>
    requires GoodHeader(h)
  {
    match i
    case Copy => Some(LineRow(m.regs.address, LocationOf(h, m), false))
    case Special(adjusted) =>
      var after := SpecialEffect(h, m, adjusted);
      Some(LineRow(after.regs.address, LocationOf(h, after), false))
    case EndSequence => Some(LineRow(m.regs.address, None, true))
    case _ => None
  }

  function Matrix(h: Header, m: LineMachine, program: seq<Instruction>): seq<LineRow>
    requires GoodHeader(h)
    decreases |program|
  {
    if program == [] then []
    else
      var row := RowOf(h, m, program[0]);
      (if row.Some? then [row.value] else []) + Matrix(h, Effect(h, m, program[0]), program[1..])
  }

  // ----- ranges -----

  datatype Range = Range(begin: U64, end: U64, location: SourceLocation, unit: nat)

  predicate Contains(range: Range, a: int) {
    range.begin <= a < range.end
  }

  /** A row closes the range of the row before it. */
  function Closed(previous: Option<LineRow>, row: LineRow, unit: nat): seq<Range> {
    if previous.Some? && row.address > previous.value.address && previous.value.location.Some?
    then [Range(previous.value.address, row.address, previous.value.location.value, unit)] else []
  }

  function Compile(previous: Option<LineRow>, rows: seq<LineRow>, unit: nat): seq<Range>
    decreases |rows|
  {
    if rows == [] then []
    else Closed(previous, rows[0], unit) + Compile(if rows[0].end then None else Some(rows[0]), rows[1..], unit)
  }

  /** The ranges of one unit are its matrix compiled, if the program decodes. */
  method RunUnit(h: Header, bytes: seq<Byte>, begin: nat, end: nat, files: seq<FileEntry>, unit: nat)
    returns (r: Result<seq<Range>>)
    requires GoodHeader(h) && end <= |bytes|
    ensures var program := DecodeAll(h, bytes, begin, end);
            r == if program.Err? then Err(program.error)
                 else Ok(Compile(None, Matrix(h, LineMachine(INITIAL, files), program.value), unit))
  {
    hide Decode, Effect, RowOf;
    var m, cursor := LineMachine(INITIAL, files), begin;
    var previous: Option<LineRow>, ranges := None, [];
    ghost var all := DecodeAll(h, bytes, begin, end);
    while cursor < end
      invariant var rest := DecodeAll(h, bytes, cursor, end);
                if rest.Err? then all == Err(rest.error)
                else all.Ok? && Compile(None, Matrix(h, LineMachine(INITIAL, files), all.value), unit) ==
                                ranges + Compile(previous, Matrix(h, m, rest.value), unit)
      decreases end - cursor
    {
      ghost var rest := DecodeAll(h, bytes, cursor, end);
      var instruction := Decode(h, bytes, cursor, end);
      if instruction.Err? {
        return Err(instruction.error);
      }
      var i := instruction.value.value;
      var row := RowOf(h, m, i);
      if rest.Ok? {
        OneInstruction(h, m, rest.value, previous, ranges, unit);
      }
      if row.Some? {
        ranges := ranges + Closed(previous, row.value, unit);
        previous := if row.value.end then None else row;
      }
      m, cursor := Effect(h, m, i), instruction.value.next;
    }
    assert Compile(previous, Matrix(h, m, []), unit) == [] && ranges + [] == ranges;
    return Ok(ranges);
  }

  lemma OneInstruction(h: Header, m: LineMachine, program: seq<Instruction>, previous: Option<LineRow>,
                       ranges: seq<Range>, unit: nat)
    requires GoodHeader(h) && program != []
    ensures var row, next := RowOf(h, m, program[0]), Effect(h, m, program[0]);
            ranges + Compile(previous, Matrix(h, m, program), unit) ==
            if row.Some? then
              ranges + Closed(previous, row.value, unit)
                + Compile(if row.value.end then None else row, Matrix(h, next, program[1..]), unit)
            else ranges + Compile(previous, Matrix(h, next, program[1..]), unit)
  {
    hide RowOf, Effect, Closed;
    var row, next := RowOf(h, m, program[0]), Effect(h, m, program[0]);
    var later := Matrix(h, next, program[1..]);
    if row.Some? {
      assert ([row.value] + later)[1..] == later;
    } else {
      assert [] + later == later;
    }
  }

  // ----- what the ranges of a sequence mean -----

  /** Rows up to and including an end row. */
  predicate IsSequence(rows: seq<LineRow>) {
    && |rows| > 0 && rows[|rows| - 1].end
    && forall i :: 0 <= i < |rows| - 1 ==> !rows[i].end
  }

  predicate Nondecreasing(rows: seq<LineRow>) {
    forall i, j :: 0 <= i <= j < |rows| ==> rows[i].address <= rows[j].address
  }

  /** Ranges in order, none empty and no two sharing an address. */
  predicate Separate(ranges: seq<Range>) {
    && (forall i :: 0 <= i < |ranges| ==> ranges[i].begin < ranges[i].end)
    && (forall i, j :: 0 <= i < j < |ranges| ==> ranges[i].end <= ranges[j].begin)
  }

  /** The location the ranges give to an address. */
  function At(ranges: seq<Range>, a: int): Option<SourceLocation> {
    if ranges == [] then None
    else if Contains(ranges[0], a) then Some(ranges[0].location)
    else At(ranges[1..], a)
  }

  /** The last row but the end row at or before an address. */
  predicate IsLastAtOrBefore(rows: seq<LineRow>, a: int, k: int) {
    && 0 <= k < |rows| - 1 && rows[k].address <= a
    && forall i :: k < i < |rows| - 1 ==> rows[i].address > a
  }

  /** `rows` continue a sequence that has come to `previous`. */
  predicate Continues(previous: LineRow, rows: seq<LineRow>) {
    && IsSequence(rows) && Nondecreasing(rows) && !previous.end
    && previous.address <= rows[0].address
  }

  lemma ContinuesOn(previous: LineRow, rows: seq<LineRow>)
    requires Continues(previous, rows)
    ensures !rows[0].end ==> |rows| > 1 && Continues(rows[0], rows[1..])
    ensures rows[0].end ==> |rows| == 1
    ensures forall i :: 0 <= i < |rows| ==> previous.address <= rows[i].address
  {
  }

  lemma {:induction false} CompiledSeparate(previous: LineRow, rows: seq<LineRow>, unit: nat)
    requires Continues(previous, rows)
    ensures var ranges := Compile(Some(previous), rows, unit);
            Separate(ranges) && forall r :: r in ranges ==> previous.address <= r.begin && r.unit == unit
    decreases |rows|
  {
    hide IsSequence, Nondecreasing, Continues;
    ContinuesOn(previous, rows);
    if !rows[0].end {
      CompiledSeparate(rows[0], rows[1..], unit);
      Prepended(Closed(Some(previous), rows[0], unit), Compile(Some(rows[0]), rows[1..], unit));
    } else {
      assert Compile(None, rows[1..], unit) == [];
    }
  }

  lemma Prepended(first: seq<Range>, rest: seq<Range>)
    requires Separate(rest) && |first| <= 1
    requires |first| == 1 ==> first[0].begin < first[0].end && forall r :: r in rest ==> first[0].end <= r.begin
    ensures Separate(first + rest)
    ensures forall a ::
      At(first + rest, a) == if |first| == 1 && Contains(first[0], a) then Some(first[0].location) else At(rest, a)
  {
    if |first| == 1 {
      assert (first + rest)[1..] == rest;
    } else {
      assert first + rest == rest;
    }
  }

  /** The meaning of the rows for one address. */
  function MeaningFrom(previous: LineRow, rows: seq<LineRow>, a: int): Option<SourceLocation>
    requires IsSequence(rows)
    decreases |rows|
  {
    if a < previous.address then None
    else if a < rows[0].address then previous.location
    else if rows[0].end then None
    else MeaningFrom(rows[0], rows[1..], a)
  }

  lemma {:induction false} CompiledMeaning(previous: LineRow, rows: seq<LineRow>, unit: nat, a: int)
    requires Continues(previous, rows)
    ensures At(Compile(Some(previous), rows, unit), a) == MeaningFrom(previous, rows, a)
    decreases |rows|
  {
    hide Nondecreasing, Separate;
    ContinuesOn(previous, rows);
    var first := Closed(Some(previous), rows[0], unit);
    if !rows[0].end {
      var rest := Compile(Some(rows[0]), rows[1..], unit);
      CompiledMeaning(rows[0], rows[1..], unit, a);
      CompiledSeparate(rows[0], rows[1..], unit);
      Prepended(first, rest);
    } else {
      assert Compile(None, rows[1..], unit) == [] && first + [] == first;
      assert first != [] ==> first[1..] == [];
    }
  }

  /** The last row at or before an address of a sequence that has come to `previous`. */
  lemma LastAfter(previous: LineRow, rows: seq<LineRow>, a: int, k: int)
    requires |rows| > 0 && IsLastAtOrBefore([previous] + rows, a, k)
    ensures k == 0 ==> previous.address <= a && (|rows| > 1 ==> a < rows[0].address)
    ensures k > 0 ==> IsLastAtOrBefore(rows, a, k - 1)
  {
    var all := [previous] + rows;
    if k == 0 && |rows| > 1 {
      assert all[1] == rows[0];
    }
    if k > 0 {
      assert all[k] == rows[k - 1];
      forall i | k - 1 < i < |rows| - 1
        ensures rows[i].address > a
      {
        assert all[i + 1] == rows[i];
      }
    }
  }

  lemma {:induction false} MeaningIsLastRow(previous: LineRow, rows: seq<LineRow>, a: int, k: int)
    requires Continues(previous, rows) && a < rows[|rows| - 1].address && IsLastAtOrBefore([previous] + rows, a, k)
    ensures MeaningFrom(previous, rows, a) == ([previous] + rows)[k].location
    decreases |rows|
  {
    ContinuesOn(previous, rows);
    LastAfter(previous, rows, a, k);
    if k > 0 {
      assert IsLastAtOrBefore(rows, a, k - 1) && previous.address <= rows[0].address <= rows[k - 1].address;
      hide IsLastAtOrBefore, Continues, IsSequence, Nondecreasing;
      assert [rows[0]] + rows[1..] == rows;
      MeaningIsLastRow(rows[0], rows[1..], a, k - 1);
    }
  }

  lemma {:induction false} MeaningOutside(previous: LineRow, rows: seq<LineRow>, a: int)
    requires Continues(previous, rows) && (a < previous.address || a >= rows[|rows| - 1].address)
    ensures MeaningFrom(previous, rows, a).None?
    decreases |rows|
  {
    ContinuesOn(previous, rows);
    if a >= previous.address {
      assert rows[0].address <= rows[|rows| - 1].address;
      if !rows[0].end {
        MeaningOutside(rows[0], rows[1..], a);
      }
    }
  }

  /** A sequence of more than its end row is compiled from its first row on. */
  lemma FirstRow(rows: seq<LineRow>, unit: nat)
    requires IsSequence(rows) && Nondecreasing(rows) && |rows| > 1
    ensures Compile(None, rows, unit) == Compile(Some(rows[0]), rows[1..], unit)
    ensures Continues(rows[0], rows[1..])
  {
  }

  lemma SequenceSeparate(rows: seq<LineRow>, unit: nat)
    requires IsSequence(rows) && Nondecreasing(rows)
    ensures Separate(Compile(None, rows, unit))
    ensures forall r :: r in Compile(None, rows, unit) ==> rows[0].address <= r.begin && r.unit == unit
  {
    if |rows| == 1 {
      assert Compile(None, rows, unit) == [];
    } else {
      FirstRow(rows, unit);
      hide *;
      CompiledSeparate(rows[0], rows[1..], unit);
    }
  }

  lemma SequenceInside(rows: seq<LineRow>, unit: nat, a: int, k: int)
    requires IsSequence(rows) && Nondecreasing(rows)
    requires IsLastAtOrBefore(rows, a, k) && a < rows[|rows| - 1].address
    ensures At(Compile(None, rows, unit), a) == rows[k].location
  {
    FirstRow(rows, unit);
    assert 0 <= k < |rows|;
    hide *;
    assert [rows[0]] + rows[1..] == rows;
    CompiledMeaning(rows[0], rows[1..], unit, a);
    MeaningIsLastRow(rows[0], rows[1..], a, k);
  }

  lemma SequenceOutside(rows: seq<LineRow>, unit: nat, a: int)
    requires IsSequence(rows) && Nondecreasing(rows)
    requires a < rows[0].address || a >= rows[|rows| - 1].address
    ensures At(Compile(None, rows, unit), a).None?
  {
    if |rows| == 1 {
      assert Compile(None, rows, unit) == [];
    } else {
      FirstRow(rows, unit);
      hide *;
      CompiledMeaning(rows[0], rows[1..], unit, a);
      MeaningOutside(rows[0], rows[1..], a);
    }
  }

  /** For every sequence with nondecreasing addresses: the ranges are non-empty, ordered
      and pairwise disjoint; an address from the first row to the end row has the location
      of the last row at or before it, or none if that row has none; and no other address
      has a location. */
  lemma SequenceMeaning(rows: seq<LineRow>, unit: nat, a: int)
    requires IsSequence(rows) && Nondecreasing(rows)
    ensures Separate(Compile(None, rows, unit))
    ensures forall r :: r in Compile(None, rows, unit) ==> rows[0].address <= r.begin && r.unit == unit
    ensures forall k :: IsLastAtOrBefore(rows, a, k) && a < rows[|rows| - 1].address ==>
      At(Compile(None, rows, unit), a) == rows[k].location
    ensures a < rows[0].address || a >= rows[|rows| - 1].address ==> At(Compile(None, rows, unit), a).None?
  {
    assert |rows| > 0;
    hide Separate, At, Compile, Nondecreasing, IsSequence;
    SequenceSeparate(rows, unit);
    forall k | IsLastAtOrBefore(rows, a, k) && a < rows[|rows| - 1].address
      ensures At(Compile(None, rows, unit), a) == rows[k].location
    {
      SequenceInside(rows, unit, a, k);
    }
    if a < rows[0].address || a >= rows[|rows| - 1].address {
      SequenceOutside(rows, unit, a);
    }
  }

  /** Sequences do not see each other: a unit is compiled sequence by sequence. */
  lemma {:induction false} SequenceBySequence(previous: Option<LineRow>, rows: seq<LineRow>, rest: seq<LineRow>, unit: nat)
    requires IsSequence(rows)
    ensures Compile(previous, rows + rest, unit) == Compile(previous, rows, unit) + Compile(None, rest, unit)
    decreases |rows|
  {
    assert (rows + rest)[1..] == rows[1..] + rest;
    if |rows| > 1 {
      SequenceBySequence(Some(rows[0]), rows[1..], rest, unit);
    } else {
      assert rows[1..] + rest == rest;
    }
  }

  // ----- what single instructions mean -----

  /** A special opcode is chosen for a line advance and an address advance, and does
      both; its formula is that of section 6.2.5.1 of DWARF version 4. */
  lemma SpecialOpcodeMeans(h: Header, m: LineMachine, lineAdvance: int, units: nat)
    requires GoodHeader(h) && h.lineBase <= lineAdvance < h.lineBase + h.lineRange
    ensures var adjusted := lineAdvance - h.lineBase + h.lineRange * units;
            SpecialEffect(h, m, adjusted) ==
            m.(regs := m.regs.(address := Wrap64(m.regs.address + units * h.minimumLength),
                               line := m.regs.line + lineAdvance))
  {
    var low := lineAdvance - h.lineBase;
    QuotientAndRest(low, h.lineRange, units);
  }

  lemma QuotientAndRest(low: nat, d: nat, q: nat)
    requires low < d
    ensures (low + d * q) / d == q && (low + d * q) % d == low
  {
    var n := low + d * q;
    assert n == d * (n / d) + n % d;
    if n / d < q {
      Larger(n / d + 1, q, d);
    } else if n / d > q {
      Larger(q + 1, n / d, d);
    }
  }

  lemma Larger(x: nat, y: nat, d: nat)
    requires x <= y
    ensures d * x <= d * y
  {
  }

  /** DW_LNS_const_add_pc moves the address as special opcode 255 would. */
  lemma ConstAddPcMovesAsSpecial(h: Header, m: LineMachine)
    requires GoodHeader(h)
    ensures Effect(h, m, ConstAddPc).regs ==
            m.regs.(address := SpecialEffect(h, m, 255 - h.opcodeBase).regs.address)
    ensures Effect(h, m, ConstAddPc).files == m.files
  {
  }

  // ----- encoding -----

  function FilePayload(entry: FileEntry): seq<Byte> {
    [3] + ((entry.name + [0]) + (EncodeUleb(entry.directory) + [0] + [0]))
  }

  /** The twelve standard opcodes are defined, and the operand fits its form. */
  predicate Encodable(h: Header, i: Instruction) {
    && GoodHeader(h) && h.opcodeBase > 12
    && match i
       case FixedAdvancePc(amount) => amount < Pow256(2)
       case Special(adjusted) => h.opcodeBase + adjusted < 256
       case DefineFile(entry) => !h.dwarf5 && 0 !in entry.name && |FilePayload(entry)| < TWO64
       case _ => true
  }

  function Encode(h: Header, i: Instruction): (e: seq<Byte>)
    requires Encodable(h, i)
    ensures |e| > 0
  {
    match i
    case Skip => [6]
    case Copy => [1]
    case EndSequence => [0, 1, 1]
    case SetAddress(a) => [0, 9, 2] + LittleBytes(a, 8)
    case DefineFile(entry) => [0] + EncodeUleb(|FilePayload(entry)|) + FilePayload(entry)
    case AdvancePc(n) => [2] + EncodeUleb(n)
    case AdvanceLine(d) => [3] + EncodeSleb(d)
    case SetFile(f) => [4] + EncodeUleb(f)
    case SetColumn(c) => [5] + EncodeUleb(c)
    case ConstAddPc => [8]
    case FixedAdvancePc(amount) => [9] + LittleBytes(amount, 2)
    case Special(adjusted) => [h.opcodeBase + adjusted]
  }

  lemma UlebAfter(before: seq<Byte>, first: seq<Byte>, x: U64, after: seq<Byte>, end: nat)
    requires end >= |before| + |first| + |EncodeUleb(x)|
    ensures Uleb(before + (first + EncodeUleb(x)) + after, |before| + |first|, end) ==
            Ok(Read(x, |before| + |first| + |EncodeUleb(x)|))
  {
    hide Uleb, EncodeUleb;
    UlebRoundTrip(before + first, x, after, end);
    assert before + (first + EncodeUleb(x)) + after == before + first + EncodeUleb(x) + after;
  }

  lemma ScalarAfter(before: seq<Byte>, first: seq<Byte>, v: nat, n: nat, after: seq<Byte>, end: nat)
    requires v < Pow256(n) && end >= |before| + |first| + n
    ensures Scalar(before + (first + LittleBytes(v, n)) + after, |before| + |first|, end, n) ==
            Ok(Read(v, |before| + |first| + n))
  {
    hide Scalar, LittleBytes;
    ScalarRoundTrip(before + first, v, n, after, end);
    assert before + (first + LittleBytes(v, n)) + after == before + first + LittleBytes(v, n) + after;
  }

  lemma SlebAfter(before: seq<Byte>, first: seq<Byte>, x: I64, after: seq<Byte>, end: nat)
    requires end >= |before| + |first| + |EncodeSleb(x)|
    ensures StrictSleb(before + (first + EncodeSleb(x)) + after, |before| + |first|, end) ==
            Ok(Read(x, |before| + |first| + |EncodeSleb(x)|))
  {
    hide StrictSleb, Sleb, EncodeSleb;
    SlebRoundTrip(before + first, x, after, end);
    assert before + (first + EncodeSleb(x)) + after == before + first + EncodeSleb(x) + after;
  }

  lemma ShortLength(before: seq<Byte>, n: nat, after: seq<Byte>, end: nat)
    requires n < 128 && end > |before|
    ensures Uleb(before + [n] + after, |before|, end) == Ok(Read(n, |before| + 1))
  {
    assert EncodeUleb(n) == [n];
    UlebRoundTrip(before, n, after, end);
  }

  lemma SetAddressRoundTrip(h: Header, before: seq<Byte>, a: U64, after: seq<Byte>, end: nat)
    requires GoodHeader(h) && |before| + 11 <= end <= |before + ([0, 9, 2] + LittleBytes(a, 8)) + after|
    ensures DecodeExtended(h, before + ([0, 9, 2] + LittleBytes(a, 8)) + after, |before| + 1, end) ==
            Ok(Read(SetAddress(a), |before| + 11))
  {
    hide Uleb, Scalar, LittleBytes;
    var bytes := before + ([0, 9, 2] + LittleBytes(a, 8)) + after;
    ShortLength(before + [0], 9, [2] + LittleBytes(a, 8) + after, end);
    assert bytes == before + [0] + [9] + ([2] + LittleBytes(a, 8) + after);
    assert bytes[|before| + 2] == 2;
    assert Pow256(8) == TWO64;
    ScalarAfter(before, [0, 9, 2], a, 8, after, |before| + 11);
  }

  lemma EndSequenceRoundTrip(h: Header, before: seq<Byte>, after: seq<Byte>, end: nat)
    requires GoodHeader(h) && |before| + 3 <= end <= |before + [0, 1, 1] + after|
    ensures DecodeExtended(h, before + [0, 1, 1] + after, |before| + 1, end) == Ok(Read(EndSequence, |before| + 3))
  {
    hide Uleb;
    var bytes := before + [0, 1, 1] + after;
    ShortLength(before + [0], 1, [1] + after, end);
    assert bytes == before + [0] + [1] + ([1] + after);
    assert bytes[|before| + 2] == 1;
  }

  lemma FileEntryRoundTrip(before: seq<Byte>, entry: FileEntry, after: seq<Byte>)
    requires 0 !in entry.name
    ensures var bytes := before + FilePayload(entry) + after;
            FileEntryAt(bytes, |before| + 1, |before| + |FilePayload(entry)|) == Ok(entry)
  {
    hide Uleb, CString, EncodeUleb;
    var name, directory := entry.name + [0], EncodeUleb(entry.directory);
    var bytes, limit := before + FilePayload(entry) + after, |before| + |FilePayload(entry)|;
    var front := before + [3];
    CStringRoundTrip(front, entry.name, directory + [0] + [0] + after, limit);
    assert bytes == front + name + (directory + [0] + [0] + after);
    UlebRoundTrip(front + name, entry.directory, [0] + [0] + after, limit);
    assert bytes == front + name + directory + ([0] + [0] + after);
    ShortLength(front + name + directory, 0, [0] + after, limit);
    assert bytes == front + name + directory + [0] + ([0] + after);
    ShortLength(front + name + directory + [0], 0, after, limit);
    assert bytes == front + name + directory + [0] + [0] + after;
  }

  lemma PayloadTag(entry: FileEntry)
    ensures |FilePayload(entry)| > 0 && FilePayload(entry)[0] == 3
  {
  }

  lemma DefinesFile(h: Header, bytes: seq<Byte>, at: nat, end: nat, start: nat, length: U64, entry: FileEntry)
    requires end <= |bytes| && Uleb(bytes, at, end) == Ok(Read(length, start)) && !h.dwarf5
    requires 0 < length && start + length <= end && bytes[start] == 3
    requires FileEntryAt(bytes, start + 1, start + length) == Ok(entry)
    ensures DecodeExtended(h, bytes, at, end) == Ok(Read(DefineFile(entry), start + length))
  {
    hide Uleb, FileEntryAt;
  }

  lemma DefineFileRoundTrip(h: Header, before: seq<Byte>, entry: FileEntry, after: seq<Byte>, end: nat)
    requires Encodable(h, DefineFile(entry))
    requires |before| + |Encode(h, DefineFile(entry))| <= end <= |before + Encode(h, DefineFile(entry)) + after|
    ensures DecodeExtended(h, before + Encode(h, DefineFile(entry)) + after, |before| + 1, end) ==
            Ok(Read(DefineFile(entry), |before| + |Encode(h, DefineFile(entry))|))
  {
    hide Uleb, EncodeUleb, FileEntryAt, FilePayload, GoodHeader, DecodeExtended;
    var payload := FilePayload(entry);
    var length := EncodeUleb(|payload|);
    var bytes := before + Encode(h, DefineFile(entry)) + after;
    PayloadTag(entry);
    UlebRoundTrip(before + [0], |payload|, payload + after, end);
    assert bytes == before + [0] + length + (payload + after);
    var front := before + [0] + length;
    assert bytes == front + payload + after;
    assert bytes[|front|] == payload[0] == 3;
    FileEntryRoundTrip(front, entry, after);
    DefinesFile(h, bytes, |before| + 1, end, |front|, |payload|, entry);
  }

  /** Every instruction is decoded back from its encoding between any bytes. */
  lemma DecodeRoundTrip(h: Header, before: seq<Byte>, i: Instruction, after: seq<Byte>, end: nat)
    requires Encodable(h, i)
    requires |before| + |Encode(h, i)| <= end <= |before + Encode(h, i) + after|
    ensures Decode(h, before + Encode(h, i) + after, |before|, end) == Ok(Read(i, |before| + |Encode(h, i)|))
  {
    hide Uleb, EncodeUleb, StrictSleb, EncodeSleb, Scalar, LittleBytes, DecodeExtended, FilePayload;
    var bytes := before + Encode(h, i) + after;
    assert bytes[|before|] == Encode(h, i)[0];
    match i
    case Skip =>
    case Copy =>
    case ConstAddPc =>
    case Special(_) =>
    case EndSequence => EndSequenceRoundTrip(h, before, after, end);
    case SetAddress(a) => SetAddressRoundTrip(h, before, a, after, end);
    case DefineFile(entry) => DefineFileRoundTrip(h, before, entry, after, end);
    case AdvancePc(n) => UlebAfter(before, [2], n, after, end);
    case AdvanceLine(d) => SlebAfter(before, [3], d, after, end);
    case SetFile(f) => UlebAfter(before, [4], f, after, end);
    case SetColumn(c) => UlebAfter(before, [5], c, after, end);
    case FixedAdvancePc(amount) => ScalarAfter(before, [9], amount, 2, after, end);
  }

  function EncodeAll(h: Header, program: seq<Instruction>): seq<Byte>
    requires forall k :: 0 <= k < |program| ==> Encodable(h, program[k])
    decreases |program|
  {
    if program == [] then [] else Encode(h, program[0]) + EncodeAll(h, program[1..])
  }

  /** Every program is decoded back from its encoding. */
  lemma {:induction false} ProgramRoundTrip(h: Header, before: seq<Byte>, program: seq<Instruction>, after: seq<Byte>)
    requires GoodHeader(h) && forall k :: 0 <= k < |program| ==> Encodable(h, program[k])
    ensures DecodeAll(h, before + EncodeAll(h, program) + after, |before|, |before| + |EncodeAll(h, program)|) == Ok(program)
    decreases |program|
  {
    hide Decode, Encode, Encodable;
    if program != [] {
      var first, rest := Encode(h, program[0]), EncodeAll(h, program[1..]);
      var bytes, end := before + EncodeAll(h, program) + after, |before| + |EncodeAll(h, program)|;
      assert bytes == before + first + (rest + after);
      DecodeRoundTrip(h, before, program[0], rest + after, end);
      ProgramRoundTrip(h, before + first, program[1..], after);
      assert bytes == before + first + rest + after;
      assert program == [program[0]] + program[1..];
    }
  }
}
