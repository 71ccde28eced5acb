/** Writing tracee memory underneath the breakpoints. */
module Mutation {
  import opened Base
  import opened Tracee
  import opened Overlay
  import opened Session

  const MAX_WRITE: nat := 4096

  predicate RangeContains(address: int, length: nat, target: int) {
    length != 0 && target >= address && target - address < length
  }

  predicate IsInstalled(table: Table, a: int) {
    a in table && table[a].installed
  }

  /** The plain store: the bytes at their addresses, all other bytes as they were. */
  function Stored(mem: Memory, address: int, bytes: seq<Byte>): Memory {
    map k | k in mem :: if RangeContains(address, |bytes|, k) then bytes[k - address] else mem[k]
  }

  /** The first `n` of the bytes, except where an INT3 is installed. */
  function Poked(mem: Memory, table: Table, address: int, bytes: seq<Byte>, n: nat): Memory
    requires n <= |bytes|
  {
    map k | k in mem ::
      if RangeContains(address, n, k) && !IsInstalled(table, k) then bytes[k - address] else mem[k]
  }

  /** The installed breakpoints in range hide the new bytes instead. */
  function Rehidden(table: Table, address: int, bytes: seq<Byte>): Table {
    map a | a in table ::
      if RangeContains(address, |bytes|, a) && table[a].installed then table[a].(original := bytes[a - address])
      else table[a]
  }

  /** Poking around the breakpoints and hiding the rest under them is a plain store
      into the logical memory, and no INT3 is touched. */
  lemma PokingIsStoring(c: Cpu, table: Table, address: int, bytes: seq<Byte>)
    requires Overlaid(c.mem, table)
    requires forall a :: a in table && !table[a].installed ==> !RangeContains(address, |bytes|, a)
    ensures var after := c.(mem := Poked(c.mem, table, address, bytes, |bytes|));
            && Lift(after, Saved(Rehidden(table, address, bytes)))
               == Lift(c, Saved(table)).(mem := Stored(Lift(c, Saved(table)).mem, address, bytes))
            && Overlaid(after.mem, Rehidden(table, address, bytes))
  {
    var after, table' := Poked(c.mem, table, address, bytes, |bytes|), Rehidden(table, address, bytes);
    var logical := Restored(c.mem, Saved(table));
    forall a | a in table
      ensures Mapped(after, a, WORD) && after[a] == if table'[a].installed then INT3 else table'[a].original
    {
      assert Mapped(c.mem, a, WORD) && a in c.mem;
    }
    assert Restored(after, Saved(table')).Keys == Stored(logical, address, bytes).Keys;
    forall k | k in c.mem
      ensures Restored(after, Saved(table'))[k] == Stored(logical, address, bytes)[k]
    {
    }
    assert Restored(after, Saved(table')) == Stored(logical, address, bytes);
  }

  /** Stores byte after byte, each through its word, around the installed breakpoints;
      stops at the first byte whose word is not mapped. */
  method PokeAround(mem: Memory, table: Table, address: int, bytes: seq<Byte>) returns (after: Memory, done: nat)
    ensures done <= |bytes| && after == Poked(mem, table, address, bytes, done)
    ensures forall k :: address <= k < address + done ==> IsInstalled(table, k) || Mapped(mem, k, WORD)
    ensures done < |bytes| ==> !IsInstalled(table, address + done) && !Mapped(mem, address + done, WORD)
  {
    hide Mapped;
    after, done := mem, 0;
    assert Poked(mem, table, address, bytes, 0) == mem;
    while done < |bytes|
      invariant done <= |bytes| && after == Poked(mem, table, address, bytes, done)
      invariant forall k :: address <= k < address + done ==> IsInstalled(table, k) || Mapped(mem, k, WORD)
    {
      var current := address + done;
      if IsInstalled(table, current) {
        PokedOneMore(mem, table, address, bytes, done);
        done := done + 1;
        continue;
      }
      SameWords(mem, table, address, bytes, done, current);
      if !Mapped(after, current, WORD) {
        return;
      }
      WriteByteStoresOneByte(after, current, bytes[done]);
      MappedStart(mem, current);
      PokedOneMore(mem, table, address, bytes, done);
      after := WriteByte(after, current, bytes[done]);
      done := done + 1;
    }
  }

  lemma MappedStart(mem: Memory, a: int)
    requires Mapped(mem, a, WORD)
    ensures a in mem
  {
  }

  lemma SameWords(mem: Memory, table: Table, address: int, bytes: seq<Byte>, n: nat, a: int)
    requires n <= |bytes|
    ensures Mapped(Poked(mem, table, address, bytes, n), a, WORD) == Mapped(mem, a, WORD)
  {
    assert Poked(mem, table, address, bytes, n).Keys == mem.Keys;
    assert forall k :: k in mem <==> k in Poked(mem, table, address, bytes, n);
  }

  lemma PokedOneMore(mem: Memory, table: Table, address: int, bytes: seq<Byte>, n: nat)
    requires n < |bytes|
    ensures var before, current := Poked(mem, table, address, bytes, n), address + n;
            Poked(mem, table, address, bytes, n + 1)
              == if IsInstalled(table, current) || current !in mem then before else before[current := bytes[n]]
  {
    var before, current := Poked(mem, table, address, bytes, n), address + n;
    var after := if IsInstalled(table, current) || current !in mem then before else before[current := bytes[n]];
    assert after.Keys == mem.Keys;
    assert forall k :: k in mem ==> after[k] == Poked(mem, table, address, bytes, n + 1)[k];
    assert after == Poked(mem, table, address, bytes, n + 1);
  }

  /** Is any byte of the range one whose breakpoint is out? */
  method FindUninstalled(table: Table, address: int, length: nat) returns (found: bool)
    ensures found <==> exists a :: a in table && !table[a].installed && RangeContains(address, length, a)
  {
    var offset := 0;
    while offset < length
      invariant offset <= length
      invariant forall a :: a in table && !table[a].installed ==> !RangeContains(address, offset, a)
    {
      var current := address + offset;
      if current in table && !table[current].installed {
        assert RangeContains(address, length, current);
        return true;
      }
      offset := offset + 1;
    }
    return false;
  }

  /** Gives every installed breakpoint in range its new hidden byte. */
  method Rehide(table: Table, address: int, bytes: seq<Byte>) returns (after: Table)
    ensures after == Rehidden(table, address, bytes)
  {
    after := table;
    var offset := 0;
    while offset < |bytes|
      invariant offset <= |bytes| && after.Keys == table.Keys
      invariant forall a :: a in table ==>
        after[a] == (if RangeContains(address, offset, a) && table[a].installed
                     then table[a].(original := bytes[a - address]) else table[a])
    {
      var current := address + offset;
      if current in table && table[current].installed {
        after := after[current := after[current].(original := bytes[offset])];
      }
      offset := offset + 1;
    }
    assert forall a :: a in table ==> after[a] == Rehidden(table, address, bytes)[a];
    assert after == Rehidden(table, address, bytes);
  }
}
