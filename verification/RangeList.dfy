/** The range list of an inlined scope (section 2.17.3 of DWARF version 4): pairs of
    offsets from a base address that an entry of its own may change. */
module RangeList {
  import opened Base
  import opened Leb128
  import opened Fields

  const MAX_ENTRIES: nat := 64

  datatype Span = Span(begin: U64, end: U64)

  predicate Includes(span: Span, pc: int) {
    span.begin <= pc < span.end
  }

  /** One entry: the end of the list, a new base, or a span of addresses. */
  datatype Entry = EndOfList | NewBase(base: U64) | Addresses(span: Span)

  function EntryAt(ranges: seq<Byte>, at: nat, base: U64): (r: Result<Entry>)
    ensures r.Ok? ==> at + 16 <= |ranges|
  {
    var begin := Scalar(ranges, at, |ranges|, 8);
    if begin.Err? then Err(begin.error) else
    var end := Scalar(ranges, at + 8, |ranges|, 8);
    if end.Err? then Err(end.error) else
    assert Pow256(8) == TWO64;
    if begin.value.value == 0 && end.value.value == 0 then Ok(EndOfList)
    else if begin.value.value == TWO64 - 1 then Ok(NewBase(end.value.value))
    else if end.value.value < begin.value.value then Err(RuntimeError)
    else if base + begin.value.value >= TWO64 || base + end.value.value >= TWO64 then Err(RuntimeError)
    else Ok(Addresses(Span(base + begin.value.value, base + end.value.value)))
  }

  /** The whole list as absolute spans, if it is well-formed up to its end. */
  function Spans(ranges: seq<Byte>, at: nat, base: U64, entries: nat): (r: Result<seq<Span>>)
    decreases entries
  {
    if entries == 0 then Err(RuntimeError)
    else
      var entry := EntryAt(ranges, at, base);
      if entry.Err? then Err(entry.error)
      else match entry.value
        case EndOfList => Ok([])
        case NewBase(other) => Spans(ranges, at + 16, other, entries - 1)
        case Addresses(span) =>
          var rest := Spans(ranges, at + 16, base, entries - 1);
          if rest.Err? then Err(rest.error) else Ok([span] + rest.value)
  }

  /** The scan that stops at the first span that contains the address. */
  function Scan(ranges: seq<Byte>, at: nat, base: U64, entries: nat, pc: U64): (r: Result<bool>)
    decreases entries
  {
    if entries == 0 then Err(RuntimeError)
    else
      var entry := EntryAt(ranges, at, base);
      if entry.Err? then Err(entry.error)
      else match entry.value
        case EndOfList => Ok(false)
        case NewBase(other) => Scan(ranges, at + 16, other, entries - 1, pc)
        case Addresses(span) => if Includes(span, pc) then Ok(true) else Scan(ranges, at + 16, base, entries - 1, pc)
  }

  /** On every well-formed list the scan decides whether some span contains the address;
      a negative answer is given for well-formed lists only. */
  lemma {:induction false} ScanIsMembership(ranges: seq<Byte>, at: nat, base: U64, entries: nat, pc: U64)
    ensures Spans(ranges, at, base, entries).Ok? ==>
      Scan(ranges, at, base, entries, pc) == Ok(exists s :: s in Spans(ranges, at, base, entries).value && Includes(s, pc))
    ensures Scan(ranges, at, base, entries, pc) == Ok(false) ==> Spans(ranges, at, base, entries).Ok?
    decreases entries
  {
    hide EntryAt;
    if entries > 0 {
      var entry := EntryAt(ranges, at, base);
      if entry.Ok? && entry.value.NewBase? {
        ScanIsMembership(ranges, at + 16, entry.value.base, entries - 1, pc);
      }
      if entry.Ok? && entry.value.Addresses? {
        ScanIsMembership(ranges, at + 16, base, entries - 1, pc);
        if Spans(ranges, at, base, entries).Ok? {
          var all, rest := Spans(ranges, at, base, entries).value, Spans(ranges, at + 16, base, entries - 1).value;
          assert all == [entry.value.span] + rest;
          assert forall s :: s in all <==> s == entry.value.span || s in rest;
        }
      }
    }
  }

  /** The bounded reader. */
  method ContainsPc(ranges: seq<Byte>, offset: U64, initialBase: U64, pc: U64) returns (r: Result<bool>)
    ensures ranges == [] || offset > |ranges| ==> r.Err?
    ensures ranges != [] && offset <= |ranges| ==> r == Scan(ranges, offset, initialBase, MAX_ENTRIES, pc)
    ensures ranges != [] && Spans(ranges, offset, initialBase, MAX_ENTRIES).Ok? && offset <= |ranges| ==>
      r == Ok(exists s :: s in Spans(ranges, offset, initialBase, MAX_ENTRIES).value && Includes(s, pc))
  {
    hide EntryAt, Spans;
    if ranges == [] || offset > |ranges| {
      return Err(RuntimeError);
    }
    ScanIsMembership(ranges, offset, initialBase, MAX_ENTRIES, pc);
    var cursor: nat, base, entry := offset, initialBase, 0;
    while entry < MAX_ENTRIES
      invariant entry <= MAX_ENTRIES
      invariant Scan(ranges, offset, initialBase, MAX_ENTRIES, pc) == Scan(ranges, cursor, base, MAX_ENTRIES - entry, pc)
    {
      var read := EntryAt(ranges, cursor, base);
      if read.Err? {
        return Err(read.error);
      }
      if read.value.EndOfList? {
        return Ok(false);
      }
      if read.value.NewBase? {
        base := read.value.base;
      } else if Includes(read.value.span, pc) {
        return Ok(true);
      }
      cursor, entry := cursor + 16, entry + 1;
    }
    return Err(RuntimeError);
  }
}
