/** The tracee as ptrace shows it: byte memory reached through word peeks and
    pokes, general registers, and the x86 debug registers. */
module Tracee {
  import opened Base

  const INT3: Byte := 0xCC
  const WORD: nat := 8

  /** The domain is what the tracee has mapped. */
  type Memory = map<int, Byte>

  /** `rest` stands for every general register other than RIP. */
  datatype Cpu = Cpu(mem: Memory, rip: nat, rest: int)

  datatype DebugRegisters = DebugRegisters(dr0: U64, dr6: bv64, dr7: bv64)

  datatype Task = Task(cpu: Cpu, debug: DebugRegisters)

  /** A peek or a poke touches `n` bytes and fails unless all are mapped. */
  predicate Mapped(mem: Memory, a: int, n: nat) {
    forall k :: a <= k < a + n ==> k in mem
  }

  /** The `n` bytes from `a` on, read as one little-endian number. */
  function WordAt(mem: Memory, a: int, n: nat): nat
    requires Mapped(mem, a, n)
    decreases n
  {
    if n == 0 then 0 else mem[a] + 256 * WordAt(mem, a + 1, n - 1)
  }

  /** The low `n` bytes of `w` stored from `a` on, least significant first. */
  function StoreWord(mem: Memory, a: int, w: nat, n: nat): Memory
    decreases n
  {
    if n == 0 then mem else StoreWord(mem[a := w % 256], a + 1, w / 256, n - 1)
  }

  /** Byte `i` of a little-endian number. */
  function ByteOf(w: nat, i: nat): Byte {
    if i == 0 then w % 256 else ByteOf(w / 256, i - 1)
  }

  /** PTRACE_PEEKDATA. */
  function PeekWord(mem: Memory, a: int): nat
    requires Mapped(mem, a, WORD)
  {
    WordAt(mem, a, WORD)
  }

  /** PTRACE_POKEDATA. */
  function PokeWord(mem: Memory, a: int, w: nat): Memory {
    StoreWord(mem, a, w, WORD)
  }

  function ReadByte(mem: Memory, a: int): Byte
    requires Mapped(mem, a, WORD)
  {
    PeekWord(mem, a) % 256
  }

  /** A byte is stored by reading the word that starts with it, replacing the
      low eight bits and writing the word back. */
  function WriteByte(mem: Memory, a: int, value: Byte): Memory
    requires Mapped(mem, a, WORD)
  {
    var current := PeekWord(mem, a);
    PokeWord(mem, a, current - current % 256 + value)
  }

  lemma SplitWord(low: Byte, rest: nat)
    ensures (low + 256 * rest) % 256 == low
    ensures (low + 256 * rest) / 256 == rest
  {
  }

  lemma LowByte(mem: Memory, a: int, n: nat)
    requires n > 0 && Mapped(mem, a, n)
    ensures WordAt(mem, a, n) % 256 == mem[a]
  {
    SplitWord(mem[a], WordAt(mem, a + 1, n - 1));
  }

  lemma ReadByteIsTheByte(mem: Memory, a: int)
    requires Mapped(mem, a, WORD)
    ensures ReadByte(mem, a) == mem[a]
  {
    LowByte(mem, a, WORD);
  }

  /** Storing a word back where it was read changes nothing. */
  lemma {:induction false} StoreBack(mem: Memory, a: int, n: nat)
    requires Mapped(mem, a, n)
    ensures StoreWord(mem, a, WordAt(mem, a, n), n) == mem
    decreases n
  {
    if n != 0 {
      SplitWord(mem[a], WordAt(mem, a + 1, n - 1));
      assert mem[a := mem[a]] == mem;
      StoreBack(mem, a + 1, n - 1);
    }
  }

  lemma {:induction false} WordAtFrame(mem: Memory, k: int, value: Byte, a: int, n: nat)
    requires k < a && Mapped(mem, a, n)
    ensures WordAt(mem[k := value], a, n) == WordAt(mem, a, n)
    decreases n
  {
    if n != 0 {
      WordAtFrame(mem, k, value, a + 1, n - 1);
    }
  }

  lemma ReplacedWord(mem: Memory, a: int, value: Byte, n: nat)
    requires n > 0 && Mapped(mem, a, n)
    ensures var current := WordAt(mem, a, n);
            StoreWord(mem, a, current - current % 256 + value, n) == mem[a := value]
  {
    var rest := WordAt(mem, a + 1, n - 1);
    SplitWord(mem[a], rest);
    SplitWord(value, rest);
    WordAtFrame(mem, a, value, a + 1, n - 1);
    StoreBack(mem[a := value], a + 1, n - 1);
  }

  /** The word read-modify-write stores exactly one byte. */
  lemma WriteByteStoresOneByte(mem: Memory, a: int, value: Byte)
    requires Mapped(mem, a, WORD)
    ensures WriteByte(mem, a, value) == mem[a := value]
  {
    ReplacedWord(mem, a, value, WORD);
  }

  lemma {:induction false} WordBytes(mem: Memory, a: int, n: nat, i: nat)
    requires i < n && Mapped(mem, a, n)
    ensures ByteOf(WordAt(mem, a, n), i) == mem[a + i]
    decreases i
  {
    SplitWord(mem[a], WordAt(mem, a + 1, n - 1));
    if i != 0 {
      WordBytes(mem, a + 1, n - 1, i - 1);
    }
  }

  /** Reading a block word by word, the last word cut to what is still wanted,
      yields exactly the bytes of the block; it fails exactly when one of the
      words, the last one included, is not wholly mapped. */
  method ReadMemory(mem: Memory, address: int, length: nat) returns (r: Result<seq<Byte>>)
    ensures r.Ok? <==> Mapped(mem, address, (length + 7) / 8 * 8)
    ensures r.Ok? ==> |r.value| == length
    ensures r.Ok? ==> forall i :: 0 <= i < length ==> address + i in mem && r.value[i] == mem[address + i]
  {
    var bytes: seq<Byte> := [];
    var offset := 0;
    while offset < length
      invariant offset % 8 == 0 && offset < length + 8
      invariant |bytes| == if offset < length then offset else length
      invariant Mapped(mem, address, offset)
      invariant forall i :: 0 <= i < |bytes| ==> address + i in mem && bytes[i] == mem[address + i]
    {
      if !Mapped(mem, address + offset, WORD) {
        return Err(PtraceError);
      }
      var word := PeekWord(mem, address + offset);
      var chunk := if length - offset < WORD then length - offset else WORD;
      var k := 0;
      while k < chunk
        invariant 0 <= k <= chunk
        invariant |bytes| == offset + k
        invariant forall i :: 0 <= i < |bytes| ==> address + i in mem && bytes[i] == mem[address + i]
      {
        WordBytes(mem, address + offset, WORD, k);
        bytes := bytes + [ByteOf(word, k)];
        k := k + 1;
      }
      offset := offset + WORD;
    }
    return Ok(bytes);
  }
}
