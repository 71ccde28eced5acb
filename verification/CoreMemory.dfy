/** Memory of a core snapshot: bytes captured in the core, or else bytes of the one file
    that was mapped there, and never a mixture. */
module CoreMemory {
  import opened Base

  datatype Segment = Segment(address: U64, fileOffset: U64, fileSize: U64, memorySize: U64)

  datatype FileMapping = FileMapping(start: U64, end: U64, fileOffset: U64, path: string)

  datatype Core = Core(bytes: seq<Byte>, segments: seq<Segment>, mappings: seq<FileMapping>)

  function CheckedAdd(left: U64, right: U64): (r: Result<U64>)
    ensures r.Ok? <==> left + right < TWO64
    ensures r.Ok? ==> r.value == left + right
  {
    if right > TWO64 - 1 - left then Err(RuntimeError) else Ok(left + right)
  }

  // ----- what loading establishes -----

  predicate GoodSegment(core: Core, s: Segment) {
    s.fileSize <= s.memorySize && s.address + s.memorySize < TWO64 && s.fileOffset + s.fileSize <= |core.bytes|
  }

  predicate Loaded(core: Core) {
    forall s :: s in core.segments ==> GoodSegment(core, s)
  }

  predicate InSegment(s: Segment, a: int) {
    s.address <= a < s.address + s.memorySize
  }

  predicate NoOverlap(segments: seq<Segment>) {
    forall i, j :: 0 <= i < j < |segments| ==>
      segments[i].address + segments[i].memorySize <= segments[j].address
      || segments[j].address + segments[j].memorySize <= segments[i].address
  }

  predicate MappingsSorted(mappings: seq<FileMapping>) {
    forall i, j :: 0 <= i < j < |mappings| ==> mappings[i].start <= mappings[j].start
  }

  // ----- reading the core -----

  /** Segment `k` has captured all of the range. */
  predicate Holds(core: Core, k: int, a: int, n: nat) {
    && 0 <= k < |core.segments|
    && core.segments[k].address <= a && a + n <= core.segments[k].address + core.segments[k].fileSize
  }

  function BytesOf(core: Core, k: int, a: int, n: nat): seq<Byte>
    requires Loaded(core) && Holds(core, k, a, n)
  {
    assert core.segments[k] in core.segments;
    var at := core.segments[k].fileOffset + (a - core.segments[k].address);
    core.bytes[at..at + n]
  }

  /** The reader: the first segment the range starts in decides. */
  method ReadMemory(core: Core, address: U64, length: nat) returns (r: Result<seq<Byte>>)
    requires Loaded(core)
    ensures length == 0 ==> r == Ok([])
    ensures r.Ok? && length > 0 ==>
      exists k :: Holds(core, k, address, length) && r.value == BytesOf(core, k, address, length)
    ensures r == ReadFrom(core, 0, address, length)
  {
    if length == 0 {
      return Ok([]);
    }
    if length >= TWO64 {
      LongRead(core, 0, address, length);
      return Err(RuntimeError);
    }
    var end := CheckedAdd(address, length);
    if end.Err? {
      LongRead(core, 0, address, length);
      return Err(end.error);
    }
    var i := 0;
    while i < |core.segments|
      invariant i <= |core.segments|
      invariant ReadFrom(core, 0, address, length) == ReadFrom(core, i, address, length)
    {
      var s := core.segments[i];
      assert s in core.segments;
      var memoryEnd := CheckedAdd(s.address, s.memorySize);
      if memoryEnd.Err? {
        assert false;
      }
      if address < s.address || address >= memoryEnd.value {
        i := i + 1;
        continue;
      }
      if end.value > memoryEnd.value {
        return Err(RuntimeError);
      }
      var capturedEnd := CheckedAdd(s.address, s.fileSize);
      if capturedEnd.Err? {
        assert false;
      }
      if end.value > capturedEnd.value {
        return Err(RuntimeError);
      }
      var at := s.fileOffset + (address - s.address);
      assert Holds(core, i, address, length);
      return Ok(core.bytes[at..at + length]);
    }
    return Err(RuntimeError);
  }

  /** What the segments from number `i` on have to say. */
  function ReadFrom(core: Core, i: nat, a: U64, n: nat): (r: Result<seq<Byte>>)
    requires Loaded(core) && i <= |core.segments|
    decreases |core.segments| - i
  {
    if n == 0 then Ok([])
    else if i == |core.segments| then Err(RuntimeError)
    else if !InSegment(core.segments[i], a) then ReadFrom(core, i + 1, a, n)
    else if Holds(core, i, a, n) then Ok(BytesOf(core, i, a, n))
    else Err(RuntimeError)
  }

  lemma {:induction false} LongRead(core: Core, i: nat, a: U64, n: nat)
    requires Loaded(core) && i <= |core.segments| && a + n >= TWO64 && n > 0
    ensures ReadFrom(core, i, a, n) == Err(RuntimeError)
    decreases |core.segments| - i
  {
    if i < |core.segments| {
      assert core.segments[i] in core.segments;
      LongRead(core, i + 1, a, n);
    }
  }

  /** What a core says about a range. */
  function Read(core: Core, a: U64, n: nat): Result<seq<Byte>>
    requires Loaded(core)
  {
    ReadFrom(core, 0, a, n)
  }

  lemma {:induction false} HolderIsFound(core: Core, i: nat, k: nat, a: U64, n: nat)
    requires Loaded(core) && NoOverlap(core.segments) && n > 0 && i <= k && Holds(core, k, a, n)
    ensures ReadFrom(core, i, a, n) == Ok(BytesOf(core, k, a, n))
    decreases k - i
  {
    assert core.segments[k] in core.segments;
    if i < k {
      assert !InSegment(core.segments[i], a);
      HolderIsFound(core, i + 1, k, a, n);
    }
  }

  lemma {:induction false} ReadHasHolder(core: Core, i: nat, a: U64, n: nat)
    requires Loaded(core) && i <= |core.segments| && n > 0 && ReadFrom(core, i, a, n).Ok?
    ensures exists k :: Holds(core, k, a, n) && ReadFrom(core, i, a, n).value == BytesOf(core, k, a, n)
    decreases |core.segments| - i
  {
    if !InSegment(core.segments[i], a) {
      ReadHasHolder(core, i + 1, a, n);
    }
  }

  /** On segments that do not overlap, a range is read exactly when one segment has
      captured it. */
  lemma ReadIff(core: Core, a: U64, n: nat, bytes: seq<Byte>)
    requires Loaded(core) && NoOverlap(core.segments) && n > 0
    ensures Read(core, a, n) == Ok(bytes) <==> exists k :: Holds(core, k, a, n) && BytesOf(core, k, a, n) == bytes
  {
    if Read(core, a, n) == Ok(bytes) {
      ReadHasHolder(core, 0, a, n);
    }
    if k :| Holds(core, k, a, n) && BytesOf(core, k, a, n) == bytes {
      HolderIsFound(core, 0, k, a, n);
    }
  }

  /** The range lies in segment `k`, captured or not. */
  predicate LiesIn(core: Core, k: int, a: int, n: nat) {
    0 <= k < |core.segments| && InSegment(core.segments[k], a) && InSegment(core.segments[k], a + n - 1)
  }

  predicate Captured(core: Core, a: int)
    requires Loaded(core) && 0 <= a < TWO64
  {
    Read(core, a, 1).Ok?
  }

  /** On segments that do not overlap, a bulk read is its single-byte reads joined: it
      succeeds exactly when every byte is captured and the range does not leave its
      segment, and then with exactly those bytes. */
  lemma BulkIsJoined(core: Core, a: U64, n: nat)
    requires Loaded(core) && NoOverlap(core.segments) && n > 0 && a + n <= TWO64
    ensures Read(core, a, n).Ok? <==>
      (forall x :: a <= x < a + n ==> Captured(core, x)) && exists k :: LiesIn(core, k, a, n)
    ensures Read(core, a, n).Ok? ==>
      && |Read(core, a, n).value| == n
      && forall x :: a <= x < a + n ==> Read(core, x, 1) == Ok([Read(core, a, n).value[x - a]])
  {
    if Read(core, a, n).Ok? {
      ReadHasHolder(core, 0, a, n);
      var k :| Holds(core, k, a, n) && Read(core, a, n).value == BytesOf(core, k, a, n);
      HolderHasEach(core, k, a, n);
    } else if (forall x :: a <= x < a + n ==> Captured(core, x)) && exists k :: LiesIn(core, k, a, n) {
      var k :| LiesIn(core, k, a, n);
      assert Captured(core, a + n - 1);
      LastByteHeldBy(core, a + n - 1, k);
      HolderIsFound(core, 0, k, a, n);
    }
  }

  lemma HolderHasEach(core: Core, k: nat, a: U64, n: nat)
    requires Loaded(core) && NoOverlap(core.segments) && n > 0 && Holds(core, k, a, n)
    ensures LiesIn(core, k, a, n) && a + n <= TWO64 && |BytesOf(core, k, a, n)| == n
    ensures forall x :: a <= x < a + n ==> Read(core, x, 1) == Ok([BytesOf(core, k, a, n)[x - a]])
  {
    assert core.segments[k] in core.segments;
    forall x | a <= x < a + n
      ensures Read(core, x, 1) == Ok([BytesOf(core, k, a, n)[x - a]])
    {
      assert Holds(core, k, x, 1);
      HolderIsFound(core, 0, k, x, 1);
      assert BytesOf(core, k, x, 1) == [BytesOf(core, k, a, n)[x - a]];
    }
  }

  lemma LastByteHeldBy(core: Core, last: U64, k: nat)
    requires Loaded(core) && NoOverlap(core.segments) && k < |core.segments|
    requires InSegment(core.segments[k], last) && Read(core, last, 1).Ok?
    ensures Holds(core, k, last, 1)
  {
    ReadHasHolder(core, 0, last, 1);
    var j :| Holds(core, j, last, 1);
    assert core.segments[j] in core.segments && InSegment(core.segments[j], last);
  }

  // ----- file mappings -----

  predicate InMapping(m: FileMapping, a: int) {
    m.start <= a < m.end
  }

  /** On sorted mappings leaving the loop early loses nothing. */
  method MappingForAddress(mappings: seq<FileMapping>, a: U64) returns (r: Option<FileMapping>)
    requires MappingsSorted(mappings)
    ensures r == Owner(mappings, a)
  {
    var i := 0;
    while i < |mappings|
      invariant i <= |mappings|
      invariant Owner(mappings, a) == Owner(mappings[i..], a)
    {
      assert mappings[i..][1..] == mappings[i + 1..];
      if mappings[i].start > a {
        NoLaterOwner(mappings[i..], a);
        break;
      }
      if InMapping(mappings[i], a) {
        return Some(mappings[i]);
      }
      i := i + 1;
    }
    return None;
  }

  /** The first mapping that owns an address. */
  function Owner(mappings: seq<FileMapping>, a: int): (r: Option<FileMapping>)
    ensures r.Some? ==> r.value in mappings && InMapping(r.value, a)
    ensures r.None? ==> forall m :: m in mappings ==> !InMapping(m, a)
  {
    if mappings == [] then None
    else if InMapping(mappings[0], a) then Some(mappings[0]) else Owner(mappings[1..], a)
  }

  lemma NoLaterOwner(mappings: seq<FileMapping>, a: int)
    requires MappingsSorted(mappings) && mappings != [] && mappings[0].start > a
    ensures Owner(mappings, a).None?
  {
    forall m | m in mappings
      ensures !InMapping(m, a)
    {
      var i :| 0 <= i < |mappings| && mappings[i] == m;
      assert i > 0 ==> mappings[0].start <= mappings[i].start;
    }
  }

  // ----- where a snapshot's bytes come from -----

  datatype Provenance = FromCore | FromFile(path: string, fileOffset: U64)

  datatype SnapshotRead = SnapshotRead(bytes: seq<Byte>, provenance: Provenance)

  /** The contents of the file a mapped path resolves to, if it can be opened. */
  type Files = string -> Option<seq<Byte>>

  const MAX_READ: nat := 4096

  predicate InRange(a: U64, n: nat) {
    0 < n <= MAX_READ && a + n < TWO64
  }

  predicate AllCaptured(core: Core, a: U64, n: nat)
    requires Loaded(core) && InRange(a, n)
  {
    forall x :: a <= x < a + n ==> Captured(core, x)
  }

  predicate NoneCaptured(core: Core, a: U64, n: nat)
    requires Loaded(core) && InRange(a, n)
  {
    forall x :: a <= x < a + n ==> !Captured(core, x)
  }

  /** One mapping with an absolute path owns the whole range, and its file has it. */
  predicate FileHas(core: Core, files: Files, a: U64, n: nat) {
    var owner := Owner(core.mappings, a);
    && owner.Some? && a + n <= owner.value.end
    && owner.value.path != "" && owner.value.path[0] == '/'
    && owner.value.fileOffset + (a - owner.value.start) < TWO64
    && files(owner.value.path).Some?
    && owner.value.fileOffset + (a - owner.value.start) + n <= |files(owner.value.path).value|
  }

  function FromOwner(core: Core, files: Files, a: U64, n: nat): SnapshotRead
    requires FileHas(core, files, a, n)
  {
    var owner := Owner(core.mappings, a).value;
    var at := owner.fileOffset + (a - owner.start);
    SnapshotRead(files(owner.path).value[at..at + n], FromFile(owner.path, at))
  }

  /** The provenance rule: from the core exactly when every byte is captured, from a file
      exactly when none is and one mapping's file has the whole range, and otherwise
      refused. */
  method ReadSnapshotMemory(core: Core, files: Files, a: U64, n: nat) returns (r: Result<SnapshotRead>)
    requires Loaded(core) && MappingsSorted(core.mappings)
    ensures r.Ok? && r.value.provenance.FromCore? <==> InRange(a, n) && AllCaptured(core, a, n)
    ensures r.Ok? && r.value.provenance.FromFile? <==>
      InRange(a, n) && NoneCaptured(core, a, n) && FileHas(core, files, a, n)
    ensures r.Ok? && r.value.provenance.FromCore? ==>
      && |r.value.bytes| == n
      && forall x :: a <= x < a + n ==> Read(core, x, 1) == Ok([r.value.bytes[x - a]])
    ensures r.Ok? && r.value.provenance.FromFile? ==> r.value == FromOwner(core, files, a, n)
    ensures r == Err(InvalidArgument) <==> !InRange(a, n)
  {
    if n == 0 || n > MAX_READ || n > TWO64 - 1 - a {
      return Err(InvalidArgument);
    }
    var bytes: seq<Byte>, anyCaptured, anyOmitted := [], false, false;
    var index := 0;
    while index < n
      invariant index <= n && |bytes| == index
      invariant anyCaptured <==> exists x :: a <= x < a + index && Captured(core, x)
      invariant anyOmitted <==> exists x :: a <= x < a + index && !Captured(core, x)
      invariant forall x :: a <= x < a + index && Captured(core, x) ==> Read(core, x, 1) == Ok([bytes[x - a]])
    {
      var byte := ReadMemory(core, a + index, 1);
      SingleByte(core, a + index);
      if byte.Ok? {
        bytes := bytes + [byte.value[0]];
        anyCaptured := true;
      } else {
        bytes := bytes + [0];
        anyOmitted := true;
      }
      assert Captured(core, a + index) <==> byte.Ok?;
      index := index + 1;
    }
    if !anyOmitted {
      assert Captured(core, a);
      return Ok(SnapshotRead(bytes, FromCore));
    }
    if anyCaptured {
      return Err(RuntimeError);
    }
    var owner := MappingForAddress(core.mappings, a);
    if owner.None? || a + n > owner.value.end {
      return Err(RuntimeError);
    }
    if owner.value.path == "" || owner.value.path[0] != '/' {
      return Err(RuntimeError);
    }
    var delta := a - owner.value.start;
    if delta > TWO64 - 1 - owner.value.fileOffset {
      return Err(RuntimeError);
    }
    var at := owner.value.fileOffset + delta;
    var file := files(owner.value.path);
    if file.None? || at > |file.value| || n > |file.value| - at {
      return Err(RuntimeError);
    }
    return Ok(SnapshotRead(file.value[at..at + n], FromFile(owner.value.path, at)));
  }

  lemma SingleByte(core: Core, a: U64)
    requires Loaded(core)
    ensures Read(core, a, 1).Ok? ==> |Read(core, a, 1).value| == 1
    ensures Read(core, a, 1).Ok? ==> Read(core, a, 1) == Ok([Read(core, a, 1).value[0]])
  {
    if Read(core, a, 1).Ok? {
      ReadHasHolder(core, 0, a, 1);
      var k :| Holds(core, k, a, 1) && Read(core, a, 1).value == BytesOf(core, k, a, 1);
      assert core.segments[k] in core.segments;
      var bytes := BytesOf(core, k, a, 1);
      assert |bytes| == 1 && bytes == [bytes[0]];
    }
  }
}
