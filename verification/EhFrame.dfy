/** The two readers of `.eh_frame` (section 10.6 of LSB Core 5.0): the evaluator, which
    needs the whole entry, and the index that only asks whether a frame is a signal
    frame. Byte sections are given; every access is within them. */
module EhFrame {
  import opened Base
  import opened Leb128
  import opened Fields
  import opened CallFrame

  const PCREL_SDATA4: Byte := 0x1B
  const PCREL_SDATA8: Byte := 0x1C
  const INDIRECT_SDATA4: Byte := 0x9B
  const INDIRECT_SDATA8: Byte := 0x9C

  datatype Cie = Cie(al: Alignment, returnRegister: nat, encoding: Byte, begin: nat, end: nat)

  datatype CieMetadata = CieMetadata(encoding: Byte, signalFrame: bool)

  /** Where an FDE lies, the addresses it covers, and where its instructions are. */
  datatype Fde = Fde(entry: nat, cie: Cie, start: U64, range: nat, begin: nat, end: nat)

  predicate IsPcrel(encoding: Byte) {
    encoding == PCREL_SDATA4 || encoding == PCREL_SDATA8
  }

  predicate IsIndirect(encoding: Byte) {
    encoding == INDIRECT_SDATA4 || encoding == INDIRECT_SDATA8
  }

  function Signed32(x: nat): int
    requires x < 0x1_0000_0000
  {
    if x < 0x8000_0000 then x else x - 0x1_0000_0000
  }

  function SignedPointer(bytes: seq<Byte>, at: nat, limit: nat, encoding: Byte): (r: Result<Read<I64>>)
    ensures r.Ok? ==> at < r.value.next <= limit && r.value.next <= |bytes|
  {
    if encoding == PCREL_SDATA4 || encoding == INDIRECT_SDATA4 then
      var x := Scalar(bytes, at, limit, 4);
      if x.Err? then Err(x.error) else
      assert Pow256(4) == 0x1_0000_0000;
      Ok(Read(Signed32(x.value.value), x.value.next))
    else if encoding == PCREL_SDATA8 || encoding == INDIRECT_SDATA8 then
      var x := Scalar(bytes, at, limit, 8);
      if x.Err? then Err(x.error) else
      assert Pow256(8) == TWO64;
      Ok(Read(Signed64(x.value.value), x.value.next))
    else Err(RuntimeError)
  }

  // ----- common information entries -----

  /** The fields before the augmentation data. */
  datatype CieHead = CieHead(augmentation: seq<Byte>, al: Alignment, returnRegister: nat, data: nat, dataEnd: nat)

  function ParseHead(bytes: seq<Byte>, at: nat, end: nat): (r: Result<CieHead>)
    requires end <= |bytes|
    ensures r.Ok? ==> at < r.value.data <= r.value.dataEnd <= end && |r.value.augmentation| > 0
  {
    var version := Scalar(bytes, at, end, 1);
    if version.Err? then Err(version.error) else
    if version.value.value != 1 then Err(RuntimeError) else
    var augmentation := CString(bytes, version.value.next, end);
    if augmentation.Err? then Err(augmentation.error) else
    if augmentation.value.value == [] || augmentation.value.value[0] != 'z' as int then Err(RuntimeError) else
    var code := Uleb(bytes, augmentation.value.next, end);
    if code.Err? then Err(code.error) else
    UlebSucceedsIff(bytes, augmentation.value.next, end, code.value.value, code.value.next);
    var data := Sleb(bytes, code.value.next, end);
    if data.Err? then Err(data.error) else
    FindEndIff(bytes, code.value.next, end, MAX_BYTES, data.value.next);
    var register := Scalar(bytes, data.value.next, end, 1);
    if register.Err? then Err(register.error) else
    var size := Uleb(bytes, register.value.next, end);
    if size.Err? then Err(size.error) else
    UlebSucceedsIff(bytes, register.value.next, end, size.value.value, size.value.next);
    if size.value.value > end - size.value.next then Err(RuntimeError) else
    Ok(CieHead(augmentation.value.value, Alignment(code.value.value, data.value.value), register.value.value,
               size.value.next, size.value.next + size.value.value))
  }

  /** The personality pointer, of which nothing is kept. */
  function Personality(bytes: seq<Byte>, at: nat, limit: nat): (r: Result<nat>)
    ensures r.Ok? ==> at < r.value <= limit
  {
    var encoding := Scalar(bytes, at, limit, 1);
    if encoding.Err? then Err(encoding.error) else
    assert Pow256(1) == 256;
    if !IsIndirect(encoding.value.value) then Err(RuntimeError) else
    var pointer := SignedPointer(bytes, encoding.value.next, limit, encoding.value.value);
    if pointer.Err? then Err(pointer.error) else Ok(pointer.value.next)
  }

  function PcrelEncoding(bytes: seq<Byte>, at: nat, limit: nat): (r: Result<Read<Byte>>)
    ensures r.Ok? ==> r.value.next == at + 1 <= limit
  {
    var encoding := Scalar(bytes, at, limit, 1);
    if encoding.Err? then Err(encoding.error) else
    assert Pow256(1) == 256;
    if !IsPcrel(encoding.value.value) then Err(RuntimeError) else Ok(Read(encoding.value.value, encoding.value.next))
  }

  /** The evaluator's descriptors: personality, LSDA encoding, FDE encoding. */
  function Augmentation(bytes: seq<Byte>, letters: seq<Byte>, at: nat, limit: nat, encoding: Option<Byte>)
    : (r: Result<Read<Option<Byte>>>)
    decreases |letters|
  {
    if letters == [] then Ok(Read(encoding, at))
    else if letters[0] == 'P' as int then
      var next := Personality(bytes, at, limit);
      if next.Err? then Err(next.error) else Augmentation(bytes, letters[1..], next.value, limit, encoding)
    else if letters[0] == 'L' as int then
      var lsda := PcrelEncoding(bytes, at, limit);
      if lsda.Err? then Err(lsda.error) else Augmentation(bytes, letters[1..], lsda.value.next, limit, encoding)
    else if letters[0] == 'R' as int then
      var own := PcrelEncoding(bytes, at, limit);
      if own.Err? then Err(own.error) else Augmentation(bytes, letters[1..], own.value.next, limit, Some(own.value.value))
    else Err(RuntimeError)
  }

  function ParseCie(bytes: seq<Byte>, at: nat, end: nat): (r: Result<Cie>)
    requires end <= |bytes|
    ensures r.Ok? ==> r.value.end == end && r.value.begin <= end
  {
    var head := ParseHead(bytes, at, end);
    if head.Err? then Err(head.error) else
    var h := head.value;
    var tail := Augmentation(bytes, h.augmentation[1..], h.data, h.dataEnd, None);
    if tail.Err? then Err(tail.error) else
    if tail.value.value.None? || tail.value.next != h.dataEnd then Err(RuntimeError) else
    Ok(Cie(h.al, h.returnRegister, tail.value.value.value, h.dataEnd, end))
  }

  /** The index knows one descriptor more, the signal-frame mark. */
  datatype Marks = Marks(encoding: Option<Byte>, signalFrame: bool)

  function SignalAugmentation(bytes: seq<Byte>, letters: seq<Byte>, at: nat, limit: nat, marks: Marks)
    : (r: Result<Read<Marks>>)
    decreases |letters|
  {
    if letters == [] then Ok(Read(marks, at))
    else if letters[0] == 'P' as int then
      var next := Personality(bytes, at, limit);
      if next.Err? then Err(next.error) else SignalAugmentation(bytes, letters[1..], next.value, limit, marks)
    else if letters[0] == 'L' as int then
      var lsda := PcrelEncoding(bytes, at, limit);
      if lsda.Err? then Err(lsda.error) else SignalAugmentation(bytes, letters[1..], lsda.value.next, limit, marks)
    else if letters[0] == 'R' as int then
      var own := PcrelEncoding(bytes, at, limit);
      if own.Err? then Err(own.error)
      else SignalAugmentation(bytes, letters[1..], own.value.next, limit, marks.(encoding := Some(own.value.value)))
    else if letters[0] == 'S' as int then
      SignalAugmentation(bytes, letters[1..], at, limit, marks.(signalFrame := true))
    else Err(RuntimeError)
  }

  function ParseCieMetadata(bytes: seq<Byte>, at: nat, end: nat): (r: Result<CieMetadata>)
    requires end <= |bytes|
  {
    var head := ParseHead(bytes, at, end);
    if head.Err? then Err(head.error) else
    var h := head.value;
    var tail := SignalAugmentation(bytes, h.augmentation[1..], h.data, h.dataEnd, Marks(None, false));
    if tail.Err? then Err(tail.error) else
    if tail.value.value.encoding.None? || tail.value.next != h.dataEnd then Err(RuntimeError) else
    Ok(CieMetadata(tail.value.value.encoding.value, tail.value.value.signalFrame))
  }

  /** The two loops over the augmentation, as the source runs them. */
  method ReadAugmentation(bytes: seq<Byte>, letters: seq<Byte>, at: nat, limit: nat) returns (r: Result<Read<Option<Byte>>>)
    ensures r == Augmentation(bytes, letters, at, limit, None)
  {
    var encoding, cursor, index := None, at, 0;
    assert letters[0..] == letters;
    while index < |letters|
      invariant index <= |letters|
      invariant Augmentation(bytes, letters, at, limit, None) ==
                Augmentation(bytes, letters[index..], cursor, limit, encoding)
    {
      assert letters[index..][1..] == letters[index + 1..];
      if letters[index] == 'P' as int {
        var next := Personality(bytes, cursor, limit);
        if next.Err? {
          return Err(next.error);
        }
        cursor := next.value;
      } else if letters[index] == 'L' as int {
        var lsda := PcrelEncoding(bytes, cursor, limit);
        if lsda.Err? {
          return Err(lsda.error);
        }
        cursor := lsda.value.next;
      } else if letters[index] == 'R' as int {
        var own := PcrelEncoding(bytes, cursor, limit);
        if own.Err? {
          return Err(own.error);
        }
        encoding, cursor := Some(own.value.value), own.value.next;
      } else {
        return Err(RuntimeError);
      }
      index := index + 1;
    }
    return Ok(Read(encoding, cursor));
  }

  method ReadSignalAugmentation(bytes: seq<Byte>, letters: seq<Byte>, at: nat, limit: nat) returns (r: Result<Read<Marks>>)
    ensures r == SignalAugmentation(bytes, letters, at, limit, Marks(None, false))
  {
    var marks, cursor, index := Marks(None, false), at, 0;
    assert letters[0..] == letters;
    while index < |letters|
      invariant index <= |letters|
      invariant SignalAugmentation(bytes, letters, at, limit, Marks(None, false)) ==
                SignalAugmentation(bytes, letters[index..], cursor, limit, marks)
    {
      assert letters[index..][1..] == letters[index + 1..];
      if letters[index] == 'P' as int {
        var next := Personality(bytes, cursor, limit);
        if next.Err? {
          return Err(next.error);
        }
        cursor := next.value;
      } else if letters[index] == 'L' as int {
        var lsda := PcrelEncoding(bytes, cursor, limit);
        if lsda.Err? {
          return Err(lsda.error);
        }
        cursor := lsda.value.next;
      } else if letters[index] == 'R' as int {
        var own := PcrelEncoding(bytes, cursor, limit);
        if own.Err? {
          return Err(own.error);
        }
        marks, cursor := marks.(encoding := Some(own.value.value)), own.value.next;
      } else if letters[index] == 'S' as int {
        marks := marks.(signalFrame := true);
      } else {
        return Err(RuntimeError);
      }
      index := index + 1;
    }
    return Ok(Read(marks, cursor));
  }

  lemma {:induction false} AugmentationsAgree(bytes: seq<Byte>, letters: seq<Byte>, at: nat, limit: nat,
                                              encoding: Option<Byte>,
                                              signalFrame: bool)
    requires Augmentation(bytes, letters, at, limit, encoding).Ok?
    ensures var read := Augmentation(bytes, letters, at, limit, encoding).value;
            SignalAugmentation(bytes, letters, at, limit, Marks(encoding, signalFrame)) ==
            Ok(Read(Marks(read.value, signalFrame), read.next))
    decreases |letters|
  {
    if letters != [] {
      if letters[0] == 'P' as int {
        AugmentationsAgree(bytes, letters[1..], Personality(bytes, at, limit).value, limit, encoding, signalFrame);
      } else {
        var own := PcrelEncoding(bytes, at, limit).value;
        AugmentationsAgree(bytes, letters[1..], own.next, limit,
                           if letters[0] == 'R' as int then Some(own.value) else encoding, signalFrame);
      }
    }
  }

  /** The evaluator refuses every entry with the signal-frame mark: the index accepts
      exactly those besides, and what the evaluator accepts is no signal frame. */
  lemma CiesAgree(bytes: seq<Byte>, at: nat, end: nat)
    requires end <= |bytes|
    ensures ParseCie(bytes, at, end).Ok? ==>
      ParseCieMetadata(bytes, at, end) == Ok(CieMetadata(ParseCie(bytes, at, end).value.encoding, false))
    ensures ParseCieMetadata(bytes, at, end).Ok? && !ParseCieMetadata(bytes, at, end).value.signalFrame ==>
      ParseCie(bytes, at, end).Ok?
  {
    var head := ParseHead(bytes, at, end);
    if head.Ok? {
      var h := head.value;
      if Augmentation(bytes, h.augmentation[1..], h.data, h.dataEnd, None).Ok? {
        AugmentationsAgree(bytes, h.augmentation[1..], h.data, h.dataEnd, None, false);
      }
      if SignalAugmentation(bytes, h.augmentation[1..], h.data, h.dataEnd, Marks(None, false)).Ok? {
        UnmarkedAgree(bytes, h.augmentation[1..], h.data, h.dataEnd, Marks(None, false));
      }
    }
  }

  lemma {:induction false} UnmarkedAgree(bytes: seq<Byte>, letters: seq<Byte>, at: nat, limit: nat, marks: Marks)
    requires SignalAugmentation(bytes, letters, at, limit, marks).Ok?
    ensures marks.signalFrame ==> SignalAugmentation(bytes, letters, at, limit, marks).value.value.signalFrame
    ensures var read := SignalAugmentation(bytes, letters, at, limit, marks).value;
            !read.value.signalFrame ==>
              Augmentation(bytes, letters, at, limit, marks.encoding) == Ok(Read(read.value.encoding, read.next))
    decreases |letters|
  {
    if letters != [] {
      if letters[0] == 'P' as int {
        UnmarkedAgree(bytes, letters[1..], Personality(bytes, at, limit).value, limit, marks);
      } else if letters[0] == 'S' as int {
        UnmarkedAgree(bytes, letters[1..], at, limit, marks.(signalFrame := true));
      } else {
        var own := PcrelEncoding(bytes, at, limit).value;
        UnmarkedAgree(bytes, letters[1..], own.next, limit,
                      if letters[0] == 'R' as int then marks.(encoding := Some(own.value)) else marks);
      }
    }
  }

  // ----- entries -----

  /** The frame of an entry: its length and its CIE pointer. Zero length ends the
      section. */
  datatype Entry = Terminator | Entry(content: nat, end: nat, pointer: nat)

  function EntryAt(section: seq<Byte>, entry: nat): (r: Result<Entry>)
    requires entry < |section|
    ensures r.Ok? && r.value.Entry? ==> r.value.content == entry + 4 && entry + 8 <= r.value.end <= |section|
  {
    var length := Scalar(section, entry, |section|, 4);
    if length.Err? then Err(length.error) else
    if length.value.value == 0 then Ok(Terminator) else
    if length.value.value == 0xFFFF_FFFF then Err(RuntimeError) else
    var content := entry + 4;
    if length.value.value > |section| - content then Err(RuntimeError) else
    var end := content + length.value.value;
    var pointer := Scalar(section, content, end, 4);
    if pointer.Err? then Err(pointer.error) else Ok(Entry(content, end, pointer.value.value))
  }

  /** The addresses an FDE covers, and the position behind them. */
  datatype Coverage = Coverage(start: U64, range: nat, next: nat)

  function CoverageAt(section: seq<Byte>, base: U64, at: nat, end: nat, encoding: Byte): (r: Result<Coverage>)
    ensures r.Ok? ==> at < r.value.next <= end && r.value.start + r.value.range < TWO64
  {
    var relative := SignedPointer(section, at, end, encoding);
    if relative.Err? then Err(relative.error) else
    var start := AddSigned(Wrap64(base + at), relative.value.value);
    if start.Err? then Err(start.error) else
    var range := SignedPointer(section, relative.value.next, end, encoding);
    if range.Err? then Err(range.error) else
    if range.value.value < 0 || range.value.value > TWO64 - 1 - start.value then Err(RuntimeError) else
    Ok(Coverage(start.value, range.value.value, range.value.next))
  }

  predicate Covers(start: nat, range: nat, target: nat) {
    start <= target < start + range
  }

  /** The evaluator reads the augmentation of every FDE it passes. */
  function FdeAt(section: seq<Byte>, base: U64, entry: nat, e: Entry, cie: Cie): (r: Result<Fde>)
    requires e.Entry? && e.end <= |section|
    ensures r.Ok? ==> r.value.entry == entry && r.value.cie == cie && r.value.begin <= r.value.end == e.end
  {
    var coverage := CoverageAt(section, base, e.content + 4, e.end, cie.encoding);
    if coverage.Err? then Err(coverage.error) else
    var size := Uleb(section, coverage.value.next, e.end);
    if size.Err? then Err(size.error) else
    UlebSucceedsIff(section, coverage.value.next, e.end, size.value.value, size.value.next);
    if size.value.value > e.end - size.value.next then Err(RuntimeError) else
    Ok(Fde(entry, cie, coverage.value.start, coverage.value.range, size.value.next + size.value.value, e.end))
  }

  function CieOf<T>(cies: map<nat, T>, e: Entry): (r: Result<T>)
    requires e.Entry?
  {
    if e.pointer > e.content then Err(RuntimeError)
    else if e.content - e.pointer !in cies then Err(RuntimeError)
    else Ok(cies[e.content - e.pointer])
  }

  /** Every FDE of the section, in order. */
  function AllFdes(section: seq<Byte>, base: U64, entry: nat, cies: map<nat, Cie>): (r: Result<seq<Fde>>)
    decreases |section| - entry
  {
    if entry >= |section| then Ok([])
    else
      var head := EntryAt(section, entry);
      if head.Err? then Err(head.error) else
      if head.value.Terminator? then Ok([]) else
      var e := head.value;
      if e.pointer == 0 then
        var cie := ParseCie(section, e.content + 4, e.end);
        if cie.Err? then Err(cie.error) else AllFdes(section, base, e.end, cies[entry := cie.value])
      else
        var cie := CieOf(cies, e);
        if cie.Err? then Err(cie.error) else
        var fde := FdeAt(section, base, entry, e, cie.value);
        if fde.Err? then Err(fde.error) else
        var rest := AllFdes(section, base, e.end, cies);
        if rest.Err? then Err(rest.error) else Ok([fde.value] + rest.value)
  }

  function FirstCovering(fdes: seq<Fde>, target: U64): (r: Option<Fde>)
    ensures r.Some? ==> r.value in fdes && Covers(r.value.start, r.value.range, target)
    ensures r.None? ==> forall f :: f in fdes ==> !Covers(f.start, f.range, target)
  {
    if fdes == [] then None
    else if Covers(fdes[0].start, fdes[0].range, target) then Some(fdes[0])
    else FirstCovering(fdes[1..], target)
  }

  /** The evaluator's scan, which ends at the first FDE that covers the target. */
  function Scan(section: seq<Byte>, base: U64, target: U64, entry: nat, cies: map<nat, Cie>): (r: Result<Option<Fde>>)
    decreases |section| - entry
  {
    if entry >= |section| then Ok(None)
    else
      var head := EntryAt(section, entry);
      if head.Err? then Err(head.error) else
      if head.value.Terminator? then Ok(None) else
      var e := head.value;
      if e.pointer == 0 then
        var cie := ParseCie(section, e.content + 4, e.end);
        if cie.Err? then Err(cie.error) else Scan(section, base, target, e.end, cies[entry := cie.value])
      else
        var cie := CieOf(cies, e);
        if cie.Err? then Err(cie.error) else
        var fde := FdeAt(section, base, entry, e, cie.value);
        if fde.Err? then Err(fde.error) else
        if Covers(fde.value.start, fde.value.range, target) then Ok(Some(fde.value))
        else Scan(section, base, target, e.end, cies)
  }

  /** On a section that is well-formed throughout, the scan selects the first FDE that
      covers the target. */
  lemma {:induction false} ScanIsFirstCovering(section: seq<Byte>, base: U64, target: U64, entry: nat, cies: map<nat, Cie>)
    requires AllFdes(section, base, entry, cies).Ok?
    ensures Scan(section, base, target, entry, cies) == Ok(FirstCovering(AllFdes(section, base, entry, cies).value, target))
    decreases |section| - entry
  {
    if entry < |section| && EntryAt(section, entry).value.Entry? {
      var e := EntryAt(section, entry).value;
      if e.pointer == 0 {
        ScanIsFirstCovering(section, base, target, e.end, cies[entry := ParseCie(section, e.content + 4, e.end).value]);
      } else {
        ScanIsFirstCovering(section, base, target, e.end, cies);
        var fde := FdeAt(section, base, entry, e, CieOf(cies, e).value).value;
        var all := AllFdes(section, base, entry, cies).value;
        assert all[0] == fde && all[1..] == AllFdes(section, base, e.end, cies).value;
      }
    }
  }

  /** The FDE the index stops at, and its answer. */
  datatype Sighting = Sighting(entry: nat, signalFrame: bool)

  function SignalScan(section: seq<Byte>, base: U64, target: U64, entry: nat, cies: map<nat, CieMetadata>)
    : (r: Result<Option<Sighting>>)
    decreases |section| - entry
  {
    if entry >= |section| then Ok(None)
    else
      var head := EntryAt(section, entry);
      if head.Err? then Err(head.error) else
      if head.value.Terminator? then Ok(None) else
      var e := head.value;
      if e.pointer == 0 then
        var cie := ParseCieMetadata(section, e.content + 4, e.end);
        if cie.Err? then Err(cie.error) else SignalScan(section, base, target, e.end, cies[entry := cie.value])
      else
        var cie := CieOf(cies, e);
        if cie.Err? then Err(cie.error) else
        var coverage := CoverageAt(section, base, e.content + 4, e.end, cie.value.encoding);
        if coverage.Err? then Err(coverage.error) else
        if Covers(coverage.value.start, coverage.value.range, target) then Ok(Some(Sighting(entry, cie.value.signalFrame)))
        else SignalScan(section, base, target, e.end, cies)
  }

  /** The two have read the same entries so far, none of them of a signal frame. */
  ghost predicate SameCies(cies: map<nat, Cie>, metadata: map<nat, CieMetadata>) {
    && cies.Keys == metadata.Keys
    && forall k :: k in cies ==> metadata[k] == CieMetadata(cies[k].encoding, false)
  }

  /** Whenever the evaluator reaches the first covering FDE, or the end, without error,
      so does the index: at the same FDE, with the answer that it is no signal frame. */
  lemma {:induction false} ScansAgree(section: seq<Byte>, base: U64, target: U64, entry: nat, cies: map<nat, Cie>,
                                      metadata: map<nat, CieMetadata>)
    requires SameCies(cies, metadata) && Scan(section, base, target, entry, cies).Ok?
    ensures var found := Scan(section, base, target, entry, cies).value;
            SignalScan(section, base, target, entry, metadata) ==
            Ok(if found.Some? then Some(Sighting(found.value.entry, false)) else None)
    decreases |section| - entry
  {
    hide ParseCie, ParseCieMetadata, CoverageAt;
    if entry < |section| && EntryAt(section, entry).value.Entry? {
      var e := EntryAt(section, entry).value;
      if e.pointer == 0 {
        CiesAgree(section, e.content + 4, e.end);
        var cie := ParseCie(section, e.content + 4, e.end).value;
        ScansAgree(section, base, target, e.end, cies[entry := cie], metadata[entry := CieMetadata(cie.encoding, false)]);
      } else if !Covers(FdeAt(section, base, entry, e, CieOf(cies, e).value).value.start,
                        FdeAt(section, base, entry, e, CieOf(cies, e).value).value.range, target) {
        ScansAgree(section, base, target, e.end, cies, metadata);
      }
    }
  }

  method FindFde(section: seq<Byte>, base: U64, target: U64) returns (r: Result<Option<Fde>>)
    ensures r == Scan(section, base, target, 0, map[])
    ensures AllFdes(section, base, 0, map[]).Ok? ==>
      r == Ok(FirstCovering(AllFdes(section, base, 0, map[]).value, target))
  {
    hide ParseCie, FdeAt, EntryAt;
    if AllFdes(section, base, 0, map[]).Ok? {
      ScanIsFirstCovering(section, base, target, 0, map[]);
    }
    var cies: map<nat, Cie>, entry := map[], 0;
    while entry < |section|
      invariant Scan(section, base, target, 0, map[]) == Scan(section, base, target, entry, cies)
      decreases |section| - entry
    {
      var head := EntryAt(section, entry);
      if head.Err? {
        return Err(head.error);
      }
      if head.value.Terminator? {
        break;
      }
      var e := head.value;
      if e.pointer == 0 {
        var cie := ParseCie(section, e.content + 4, e.end);
        if cie.Err? {
          return Err(cie.error);
        }
        cies, entry := cies[entry := cie.value], e.end;
        continue;
      }
      var cie := CieOf(cies, e);
      if cie.Err? {
        return Err(cie.error);
      }
      var fde := FdeAt(section, base, entry, e, cie.value);
      if fde.Err? {
        return Err(fde.error);
      }
      if Covers(fde.value.start, fde.value.range, target) {
        return Ok(Some(fde.value));
      }
      entry := e.end;
    }
    return Ok(None);
  }

  /** The index agrees with the evaluator wherever that one succeeds. */
  method IsSignalFrame(section: seq<Byte>, base: U64, target: U64) returns (r: Result<bool>)
    ensures var seen := SignalScan(section, base, target, 0, map[]);
            r == if seen.Err? then Err(seen.error) else Ok(seen.value.Some? && seen.value.value.signalFrame)
    ensures Scan(section, base, target, 0, map[]).Ok? ==> r == Ok(false)
  {
    hide Scan, ParseCieMetadata, CoverageAt, EntryAt, Covers;
    if Scan(section, base, target, 0, map[]).Ok? {
      ScansAgree(section, base, target, 0, map[], map[]);
    }
    var cies: map<nat, CieMetadata>, entry := map[], 0;
    while entry < |section|
      invariant SignalScan(section, base, target, 0, map[]) == SignalScan(section, base, target, entry, cies)
      decreases |section| - entry
    {
      var head := EntryAt(section, entry);
      if head.Err? {
        return Err(head.error);
      }
      if head.value.Terminator? {
        break;
      }
      var e := head.value;
      if e.pointer == 0 {
        var cie := ParseCieMetadata(section, e.content + 4, e.end);
        if cie.Err? {
          return Err(cie.error);
        }
        cies, entry := cies[entry := cie.value], e.end;
        continue;
      }
      var cie := CieOf(cies, e);
      if cie.Err? {
        return Err(cie.error);
      }
      var coverage := CoverageAt(section, base, e.content + 4, e.end, cie.value.encoding);
      if coverage.Err? {
        return Err(coverage.error);
      }
      if Covers(coverage.value.start, coverage.value.range, target) {
        return Ok(cie.value.signalFrame);
      }
      entry := e.end;
    }
    return Ok(false);
  }

  // ----- the evaluated frame -----

  datatype Evaluated = Evaluated(state: CfiState, cfa: U64, returnAddress: U64)

  /** Words of the tracee's stack, and registers by DWARF number. */
  type Words = U64 -> Option<U64>
  type Registers = U64 -> Result<U64>

  const NO_RULES := CfiState(false, 0, 0, map[])

  function Slot(words: Words, address: U64): Result<U64> {
    if words(address).None? then Err(RuntimeError) else Ok(words(address).value)
  }

  /** The rules an FDE starts with: those its CIE leaves behind. */
  function CieRules(section: seq<Byte>, fde: Fde): Result<CfiState> {
    Run(fde.cie.al, None, Machine(NO_RULES, [], fde.start), section, fde.cie.begin, fde.cie.end, TWO64 - 1)
  }

  /** `state` is the last row at or below the target, in the table that starts with the
      rules of the CIE. */
  predicate IsRowOf(section: seq<Byte>, fde: Fde, target: U64, state: CfiState) {
    && CieRules(section, fde).Ok?
    && DecodeAll(section, fde.begin, fde.end).Ok?
    && var rules := CieRules(section, fde).value;
       var rows := Expand(fde.cie.al, Some(rules), Machine(rules, [], fde.start),
                          DecodeAll(section, fde.begin, fde.end).value);
       rows.Ok? && LastAtOrBelow(rows.value, target).Some? && state == LastAtOrBelow(rows.value, target).value.state
  }

  /** The instructions of the FDE decode and expand completely. */
  predicate Expands(section: seq<Byte>, fde: Fde) {
    && CieRules(section, fde).Ok?
    && DecodeAll(section, fde.begin, fde.end).Ok?
    && var rules := CieRules(section, fde).value;
       Expand(fde.cie.al, Some(rules), Machine(rules, [], fde.start), DecodeAll(section, fde.begin, fde.end).value).Ok?
  }

  /** The frame and return addresses are those its rules say, as exact sums. */
  predicate ReadOff(frame: Evaluated, column: nat, words: Words, registers: Registers) {
    && frame.state.cfaDefined && registers(frame.state.cfaRegister).Ok?
    && frame.cfa == registers(frame.state.cfaRegister).value + frame.state.cfaOffset
    && column in frame.state.rules && frame.state.rules[column].OffsetRule?
    && 0 <= frame.cfa + frame.state.rules[column].offset < TWO64
    && words(frame.cfa + frame.state.rules[column].offset) == Some(frame.returnAddress)
    && frame.returnAddress != 0
  }

  /** The rules in force at the target: those of the CIE, changed by the FDE. */
  function RulesAt(section: seq<Byte>, fde: Fde, target: U64): Result<CfiState> {
    var rules := CieRules(section, fde);
    if rules.Err? then rules
    else Run(fde.cie.al, Some(rules.value), Machine(rules.value, [], fde.start), section, fde.begin, fde.end, target)
  }

  /** The frame the rules describe. */
  function FrameBy(state: CfiState, column: nat, words: Words, registers: Registers): (r: Result<Evaluated>) {
    if !state.cfaDefined then Err(RuntimeError) else
    var register := registers(state.cfaRegister);
    if register.Err? then Err(register.error) else
    var cfa := AddSigned(register.value, state.cfaOffset);
    if cfa.Err? then Err(cfa.error) else
    if column !in state.rules || !state.rules[column].OffsetRule? then Err(RuntimeError) else
    var slot := AddSigned(cfa.value, state.rules[column].offset);
    if slot.Err? then Err(slot.error) else
    var word := Slot(words, slot.value);
    if word.Err? then Err(word.error) else
    if word.value == 0 then Err(RuntimeError) else Ok(Evaluated(state, cfa.value, word.value))
  }

  /** Rules describe a frame exactly when its two addresses can be read off. */
  lemma FrameIff(state: CfiState, column: nat, words: Words, registers: Registers, frame: Evaluated)
    ensures FrameBy(state, column, words, registers) == Ok(frame) <==>
            frame.state == state && ReadOff(frame, column, words, registers)
  {
    if state.cfaDefined && registers(state.cfaRegister).Ok? {
      var cfa := AddSigned(registers(state.cfaRegister).value, state.cfaOffset);
      if cfa.Ok? && column in state.rules && state.rules[column].OffsetRule? {
        var slot := AddSigned(cfa.value, state.rules[column].offset);
        assert slot.Ok? ==> slot.value == cfa.value + state.rules[column].offset;
      }
    }
  }

  /** The frame at the target by the first FDE that covers it. */
  function Evaluate(section: seq<Byte>, base: U64, target: U64, words: Words, registers: Registers)
    : (r: Result<Option<Evaluated>>)
  {
    var found := Scan(section, base, target, 0, map[]);
    if found.Err? then Err(found.error) else
    if found.value.None? then Ok(None) else
    var state := RulesAt(section, found.value.value, target);
    if state.Err? then Err(state.error) else
    var frame := FrameBy(state.value, found.value.value.cie.returnRegister, words, registers);
    if frame.Err? then Err(frame.error) else Ok(Some(frame.value))
  }

  /** A frame is found exactly when some FDE covers the target, its rules can be worked
      out and the frame can be read off them; an address no FDE covers has none. */
  lemma EvaluateIff(section: seq<Byte>, base: U64, target: U64, words: Words, registers: Registers, frame: Evaluated)
    ensures var found := Scan(section, base, target, 0, map[]);
            var r := Evaluate(section, base, target, words, registers);
            && (r == Ok(None) <==> found == Ok(None))
            && (r == Ok(Some(frame)) <==>
                && found.Ok? && found.value.Some? && RulesAt(section, found.value.value, target) == Ok(frame.state)
                && ReadOff(frame, found.value.value.cie.returnRegister, words, registers))
  {
    hide Scan, RulesAt, ReadOff, FrameBy;
    var found := Scan(section, base, target, 0, map[]);
    if found.Ok? && found.value.Some? && RulesAt(section, found.value.value, target).Ok? {
      FrameIff(RulesAt(section, found.value.value, target).value, found.value.value.cie.returnRegister, words,
               registers, frame);
    }
  }

  /** Where the FDE expands completely, the rules in force are the last row at or below
      the target. */
  lemma RulesAreRow(section: seq<Byte>, fde: Fde, target: U64)
    requires Covers(fde.start, fde.range, target) && Expands(section, fde)
    ensures RulesAt(section, fde, target).Ok? && IsRowOf(section, fde, target, RulesAt(section, fde, target).value)
  {
    hide Run, DecodeAll, Expand, LastAtOrBelow;
    var rules := CieRules(section, fde).value;
    RunSelectsRow(fde.cie.al, Some(rules), Machine(rules, [], fde.start), section, fde.begin, fde.end, target);
  }

  /** The canonical frame address and the return address, from the covering FDE. */
  method EvaluateFrame(section: seq<Byte>, base: U64, target: U64, words: Words, registers: Registers)
    returns (r: Result<Option<Evaluated>>)
    ensures r == Evaluate(section, base, target, words, registers)
    ensures r.Ok? ==>
      && Scan(section, base, target, 0, map[]).Ok?
      && (r.value.None? <==> Scan(section, base, target, 0, map[]).value.None?)
      && (r.value.Some? ==>
            var fde := Scan(section, base, target, 0, map[]).value.value;
            && ReadOff(r.value.value, fde.cie.returnRegister, words, registers)
            && (Expands(section, fde) ==> IsRowOf(section, fde, target, r.value.value.state)))
  {
    hide Scan, Run, IsRowOf, Expands, ReadOff;
    var found := FindFde(section, base, target);
    if found.Err? {
      return Err(found.error);
    }
    if found.value.None? {
      return Ok(None);
    }
    var fde := found.value.value;
    ScanCovers(section, base, target, 0, map[]);
    var cieState := Execute(section, fde.cie.begin, fde.cie.end, fde.cie.al, NO_RULES, None, fde.start, TWO64 - 1);
    if cieState.Err? {
      return Err(cieState.error);
    }
    var state := Execute(section, fde.begin, fde.end, fde.cie.al, cieState.value, Some(cieState.value), fde.start, target);
    if state.Err? {
      return Err(state.error);
    }
    var frame := FrameBy(state.value, fde.cie.returnRegister, words, registers);
    if frame.Err? {
      return Err(frame.error);
    }
    FrameIff(state.value, fde.cie.returnRegister, words, registers, frame.value);
    if Expands(section, fde) {
      RulesAreRow(section, fde, target);
    }
    return Ok(Some(frame.value));
  }

  lemma {:induction false} ScanCovers(section: seq<Byte>, base: U64, target: U64, entry: nat, cies: map<nat, Cie>)
    ensures var r := Scan(section, base, target, entry, cies);
            r.Ok? && r.value.Some? ==> Covers(r.value.value.start, r.value.value.range, target)
    decreases |section| - entry
  {
    hide ParseCie, FdeAt;
    if entry < |section| && EntryAt(section, entry).Ok? && EntryAt(section, entry).value.Entry? {
      var e := EntryAt(section, entry).value;
      if e.pointer == 0 {
        if ParseCie(section, e.content + 4, e.end).Ok? {
          ScanCovers(section, base, target, e.end, cies[entry := ParseCie(section, e.content + 4, e.end).value]);
        }
      } else {
        ScanCovers(section, base, target, e.end, cies);
      }
    }
  }

  /** What a register held in the caller, by its rule. */
  function RecoverRegister(words: Words, frame: Evaluated, reg: U64, current: Option<U64>): (r: Result<Option<U64>>)
    ensures r.Ok? && r.value.Some? ==>
      && reg in frame.state.rules
      && match frame.state.rules[reg]
         case Undefined => false
         case SameValue => r.value == current
         case OffsetRule(offset) => 0 <= frame.cfa + offset < TWO64 && words(frame.cfa + offset) == r.value
  {
    if reg !in frame.state.rules then Ok(None)
    else match frame.state.rules[reg]
      case Undefined => Ok(None)
      case SameValue => Ok(current)
      case OffsetRule(offset) =>
        var slot := AddSigned(frame.cfa, offset);
        if slot.Err? then Err(slot.error) else
        var word := Slot(words, slot.value);
        if word.Err? then Err(word.error) else Ok(Some(word.value))
  }

  // ----- encoding -----

  /** A CIE of version 1 with augmentation "zR", behind its length and id. */
  function CieFront(al: Alignment): seq<Byte> {
    [1] + ([0x7A, 0x52] + [0]) + EncodeUleb(al.code) + EncodeSleb(al.data)
  }

  function EncodeCie(al: Alignment, register: Byte, encoding: Byte, instructions: seq<Byte>): seq<Byte> {
    CieFront(al) + CieBack(register, encoding, instructions)
  }

  function CieBack(register: Byte, encoding: Byte, instructions: seq<Byte>): (e: seq<Byte>)
    ensures |e| == 3 + |instructions| && e[0] == register && e[1] == 1 && e[2] == encoding && e[3..] == instructions
  {
    [register, 1, encoding] + instructions
  }

  lemma Regrouped(a: seq<Byte>, b: seq<Byte>, c: seq<Byte>, d: seq<Byte>)
    ensures a + (b + c) + d == a + b + (c + d)
  {
  }

  lemma FrontRoundTrip(before: seq<Byte>, al: Alignment, after: seq<Byte>, end: nat)
    requires |before| + |CieFront(al)| <= end <= |before + CieFront(al) + after|
    ensures var bytes := before + CieFront(al) + after;
            var codeAt := |before| + 4;
            var dataAt := codeAt + |EncodeUleb(al.code)|;
            && Scalar(bytes, |before|, end, 1) == Ok(Read(1, |before| + 1))
            && CString(bytes, |before| + 1, end) == Ok(Read([0x7A, 0x52], codeAt))
            && Uleb(bytes, codeAt, end) == Ok(Read(al.code, dataAt))
            && Sleb(bytes, dataAt, end) == Ok(Read(al.data, |before| + |CieFront(al)|))
  {
    hide Uleb, Sleb, StrictSleb, EncodeUleb, EncodeSleb, CString, Scalar;
    var bytes, code, data := before + CieFront(al) + after, EncodeUleb(al.code), EncodeSleb(al.data);
    OneByte(bytes, |before|, end);
    CStringRoundTrip(before + [1], [0x7A, 0x52], code + data + after, end);
    assert bytes == before + [1] + ([0x7A, 0x52] + [0]) + (code + data + after);
    var front := before + [1] + ([0x7A, 0x52] + [0]);
    UlebRoundTrip(front, al.code, data + after, end);
    assert bytes == front + code + (data + after);
    SlebRoundTrip(front + code, al.data, after, end);
    assert bytes == front + code + data + after;
  }

  lemma OneByte(bytes: seq<Byte>, at: nat, limit: nat)
    requires at < limit && at < |bytes|
    ensures Scalar(bytes, at, limit, 1) == Ok(Read(bytes[at], at + 1))
  {
    assert bytes[at..at + 1] == [bytes[at]] && Little([bytes[at]][1..]) == 0;
  }

  lemma OneByteUleb(bytes: seq<Byte>, at: nat, limit: nat)
    requires at < limit && at < |bytes| && bytes[at] < 128
    ensures Uleb(bytes, at, limit) == Ok(Read(bytes[at], at + 1))
  {
    assert bytes[at..at + 1] == [bytes[at]] && UlebValue([bytes[at]][1..]) == 0;
  }

  /** Every such CIE is parsed back, and its instructions are found where they are. */
  lemma CieRoundTrip(before: seq<Byte>, al: Alignment, register: Byte, encoding: Byte, instructions: seq<Byte>,
                     after: seq<Byte>)
    requires IsPcrel(encoding)
    ensures var body := EncodeCie(al, register, encoding, instructions);
            var end := |before| + |body|;
            ParseCie(before + body + after, |before|, end) ==
            Ok(Cie(al, register, encoding, end - |instructions|, end))
  {
    hide Uleb, Sleb, StrictSleb, EncodeUleb, EncodeSleb, CString, Scalar, CieFront, CieBack, ParseCie;
    var front, back := CieFront(al), CieBack(register, encoding, instructions);
    var bytes, end := before + (front + back) + after, |before| + |front + back|;
    Regrouped(before, front, back, after);
    BackBytes(before + front, back, after);
    FrontRoundTrip(before, al, back + after, end);
    ParsedFields(bytes, |before|, end, al, |before| + 4 + |EncodeUleb(al.code)|, |before| + |front|);
  }

  /** The fields one after the other, up to the augmentation data. */
  lemma ParsedFields(bytes: seq<Byte>, start: nat, end: nat, al: Alignment, dataAt: nat, at: nat)
    requires end <= |bytes| && at + 3 <= end && bytes[at + 1] == 1 && IsPcrel(bytes[at + 2])
    requires Scalar(bytes, start, end, 1) == Ok(Read(1, start + 1))
    requires CString(bytes, start + 1, end) == Ok(Read([0x7A, 0x52], start + 4))
    requires Uleb(bytes, start + 4, end) == Ok(Read(al.code, dataAt))
    requires Sleb(bytes, dataAt, end) == Ok(Read(al.data, at))
    ensures ParseCie(bytes, start, end) == Ok(Cie(al, bytes[at], bytes[at + 2], at + 3, end))
  {
    ParsedHead(bytes, start, end, al, dataAt, at);
    OneByte(bytes, at + 2, at + 3);
    hide ParseHead, Scalar, Personality, Uleb, Sleb, CString;
    assert [0x7A, 0x52][1..] == [0x52];
    assert PcrelEncoding(bytes, at + 2, at + 3) == Ok(Read(bytes[at + 2], at + 3));
    assert Augmentation(bytes, [0x52], at + 2, at + 3, None) == Ok(Read(Some(bytes[at + 2]), at + 3)) by {
      assert [0x52][1..] == [];
    }
  }

  lemma ParsedHead(bytes: seq<Byte>, start: nat, end: nat, al: Alignment, dataAt: nat, at: nat)
    requires end <= |bytes| && at + 3 <= end && bytes[at + 1] == 1
    requires Scalar(bytes, start, end, 1) == Ok(Read(1, start + 1))
    requires CString(bytes, start + 1, end) == Ok(Read([0x7A, 0x52], start + 4))
    requires Uleb(bytes, start + 4, end) == Ok(Read(al.code, dataAt))
    requires Sleb(bytes, dataAt, end) == Ok(Read(al.data, at))
    ensures ParseHead(bytes, start, end) == Ok(CieHead([0x7A, 0x52], al, bytes[at], at + 2, at + 3))
  {
    hide Uleb, Sleb, CString, Scalar;
    OneByte(bytes, at, end);
    OneByteUleb(bytes, at + 1, end);
  }

  lemma BackBytes(front: seq<Byte>, back: seq<Byte>, after: seq<Byte>)
    requires |back| >= 3
    ensures var bytes := front + (back + after);
            && |bytes| == |front| + |back| + |after|
            && bytes[|front|] == back[0] && bytes[|front| + 1] == back[1] && bytes[|front| + 2] == back[2]
  {
  }

  /** The addresses an FDE covers are found back from their encoding relative to the
      position of the field. */
  lemma CoverageRoundTrip(before: seq<Byte>, base: U64, start: U64, range: nat, after: seq<Byte>, end: nat)
    requires end >= |before| + 16 && range < TWO63 && start + range < TWO64
    requires -TWO63 <= start - Wrap64(base + |before|) < TWO63
    ensures var relative := Wrap64(start - Wrap64(base + |before|));
            CoverageAt(before + (LittleBytes(relative, 8) + LittleBytes(range, 8)) + after, base, |before|, end,
                       PCREL_SDATA8) ==
            Ok(Coverage(start, range, |before| + 16))
  {
    hide Scalar, LittleBytes;
    var relative := Wrap64(start - Wrap64(base + |before|));
    var low, high := LittleBytes(relative, 8), LittleBytes(range, 8);
    assert Pow256(8) == TWO64;
    ScalarRoundTrip(before, relative, 8, high + after, end);
    ScalarRoundTrip(before + low, range, 8, after, end);
    Regrouped(before, low, high, after);
    assert before + (low + high) + after == before + low + high + after;
    SignedBack(start - Wrap64(base + |before|));
  }

  lemma SignedBack(x: I64)
    ensures Signed64(Wrap64(x)) == x
  {
  }
}
