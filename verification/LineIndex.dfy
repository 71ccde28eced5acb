/** Looking up addresses in the ranges of all units, sorted by where they begin and
    searched by bisection. */
module LineIndex {
  import opened Base
  import opened LineProgram

  datatype FileTable = FileTable(dwarf5: bool, files: seq<string>)

  datatype LineTable = LineTable(fileTables: seq<FileTable>, ranges: seq<Range>)

  predicate Before(r: Range, q: Range) {
    if r.begin != q.begin then r.begin < q.begin else r.end <= q.end
  }

  predicate Ordered(ranges: seq<Range>) {
    forall i, j :: 0 <= i < j < |ranges| ==> Before(ranges[i], ranges[j])
  }

  /** `sorted` is what sorting may leave of `ranges`. */
  ghost predicate SortOf(sorted: seq<Range>, ranges: seq<Range>) {
    Ordered(sorted) && multiset(sorted) == multiset(ranges)
  }

  lemma SortKeepsRanges(sorted: seq<Range>, ranges: seq<Range>)
    requires SortOf(sorted, ranges)
    ensures forall r :: r in sorted <==> r in ranges
  {
    forall r
      ensures r in sorted <==> r in ranges
    {
      assert r in sorted <==> r in multiset(sorted);
      assert r in ranges <==> r in multiset(ranges);
    }
  }

  /** No range is empty and no two different ranges share an address. */
  ghost predicate Disjoint(ranges: seq<Range>) {
    && (forall r :: r in ranges ==> r.begin < r.end)
    && (forall r, q :: r in ranges && q in ranges && r != q ==> r.end <= q.begin || q.end <= r.begin)
  }

  // ----- bisection -----

  /** `k` ranges begin at or before the address. */
  predicate IsUpperBound(ranges: seq<Range>, a: int, k: nat) {
    && k <= |ranges|
    && (forall i :: 0 <= i < k ==> ranges[i].begin <= a)
    && (forall i :: k <= i < |ranges| ==> a < ranges[i].begin)
  }

  method UpperBound(ranges: seq<Range>, a: U64) returns (k: nat)
    requires Ordered(ranges)
    ensures IsUpperBound(ranges, a, k)
  {
    var first: nat, count: nat := 0, |ranges|;
    while count > 0
      invariant first + count <= |ranges|
      invariant forall i :: 0 <= i < first ==> ranges[i].begin <= a
      invariant forall i :: first + count <= i < |ranges| ==> a < ranges[i].begin
      decreases count
    {
      var step := count / 2;
      var middle := first + step;
      if a < ranges[middle].begin {
        assert forall i :: middle < i < |ranges| ==> Before(ranges[middle], ranges[i]);
        count := step;
      } else {
        assert forall i :: 0 <= i < middle ==> Before(ranges[i], ranges[middle]);
        first, count := middle + 1, count - (step + 1);
      }
    }
    return first;
  }

  /** The range a search looks at: the last that begins at or before the address. */
  function LastStarting(ranges: seq<Range>, a: int): (r: Option<Range>)
    ensures r.Some? ==> r.value in ranges && r.value.begin <= a
  {
    if ranges == [] then None
    else if ranges[|ranges| - 1].begin <= a then Some(ranges[|ranges| - 1])
    else LastStarting(ranges[..|ranges| - 1], a)
  }

  /** The range a search selects. */
  function Chosen(ranges: seq<Range>, a: int): (r: Option<Range>)
    ensures r.Some? ==> r.value in ranges && Contains(r.value, a)
  {
    var last := LastStarting(ranges, a);
    if last.Some? && Contains(last.value, a) then last else None
  }

  lemma {:induction false} BoundIsLast(ranges: seq<Range>, a: int, k: nat)
    requires IsUpperBound(ranges, a, k)
    ensures LastStarting(ranges, a) == if k == 0 then None else Some(ranges[k - 1])
  {
    if ranges != [] && k < |ranges| {
      var shorter := ranges[..|ranges| - 1];
      assert IsUpperBound(shorter, a, k);
      BoundIsLast(shorter, a, k);
    }
  }

  /** Any location found comes from a range that contains the address; on disjoint ranges
      the bisection is a linear scan. */
  method FindVirtualAddress(ranges: seq<Range>, a: U64) returns (r: Option<SourceLocation>)
    requires Ordered(ranges)
    ensures r == if Chosen(ranges, a).Some? then Some(Chosen(ranges, a).value.location) else None
    ensures Disjoint(ranges) ==> r == At(ranges, a)
  {
    if Disjoint(ranges) {
      ChosenIsScan(ranges, a);
    }
    var candidate := UpperBound(ranges, a);
    BoundIsLast(ranges, a, candidate);
    if candidate == 0 {
      return None;
    }
    var range := ranges[candidate - 1];
    if a < range.begin || a >= range.end {
      return None;
    }
    return Some(range.location);
  }

  lemma {:induction false} LastStartsLatest(ranges: seq<Range>, a: int, r: Range)
    requires Ordered(ranges) && r in ranges && r.begin <= a
    ensures LastStarting(ranges, a).Some? && LastStarting(ranges, a).value.begin >= r.begin
  {
    var last := ranges[|ranges| - 1];
    if last.begin <= a {
      var i :| 0 <= i < |ranges| && ranges[i] == r;
      assert i < |ranges| - 1 ==> Before(ranges[i], last);
    } else {
      LastStartsLatest(ranges[..|ranges| - 1], a, r);
    }
  }

  /** On disjoint ranges whichever contains the address is chosen. */
  lemma ContainingIsChosen(ranges: seq<Range>, a: int, r: Range)
    requires Ordered(ranges) && Disjoint(ranges) && r in ranges && Contains(r, a)
    ensures Chosen(ranges, a) == Some(r)
  {
    LastStartsLatest(ranges, a, r);
    var last := LastStarting(ranges, a).value;
    assert last in ranges && last.begin < last.end;
  }

  lemma {:induction false} ScanFinds(ranges: seq<Range>, a: int)
    ensures At(ranges, a).Some? ==> exists r :: r in ranges && Contains(r, a) && At(ranges, a) == Some(r.location)
    ensures At(ranges, a).None? ==> forall r :: r in ranges ==> !Contains(r, a)
  {
    if ranges != [] {
      if Contains(ranges[0], a) {
        assert ranges[0] in ranges;
      } else {
        ScanFinds(ranges[1..], a);
      }
    }
  }

  lemma ChosenIsScan(ranges: seq<Range>, a: int)
    requires Ordered(ranges) && Disjoint(ranges)
    ensures At(ranges, a) == if Chosen(ranges, a).Some? then Some(Chosen(ranges, a).value.location) else None
  {
    ScanFinds(ranges, a);
    if At(ranges, a).Some? {
      var r :| r in ranges && Contains(r, a) && At(ranges, a) == Some(r.location);
      ContainingIsChosen(ranges, a, r);
    }
  }

  // ----- owners -----

  /** Every range that contains the address is of this unit, and there is one. */
  ghost predicate Owns(ranges: seq<Range>, a: int, unit: nat) {
    && (exists r :: r in ranges && Contains(r, a))
    && (forall r :: r in ranges && Contains(r, a) ==> r.unit == unit)
  }

  ghost predicate Contested(ranges: seq<Range>, a: int) {
    exists r, q :: r in ranges && q in ranges && Contains(r, a) && Contains(q, a) && r.unit != q.unit
  }

  method FindOwner(ranges: seq<Range>, a: U64) returns (r: Result<Option<nat>>)
    ensures r.Err? <==> Contested(ranges, a)
    ensures r == Ok(None) <==> forall q :: q in ranges ==> !Contains(q, a)
    ensures forall u: nat :: r == Ok(Some(u)) <==> Owns(ranges, a, u)
  {
    var owner: Option<nat> := None;
    ghost var seen: Option<Range> := None;
    var i := 0;
    while i < |ranges|
      invariant i <= |ranges|
      invariant owner.None? ==> forall q :: q in ranges[..i] ==> !Contains(q, a)
      invariant owner.Some? ==> seen.Some? && seen.value in ranges && Contains(seen.value, a)
                                && seen.value.unit == owner.value
      invariant owner.Some? ==> forall q :: q in ranges[..i] && Contains(q, a) ==> q.unit == owner.value
    {
      assert ranges[..i + 1] == ranges[..i] + [ranges[i]];
      if Contains(ranges[i], a) {
        if owner.None? {
          owner := Some(ranges[i].unit);
          seen := Some(ranges[i]);
        } else if owner.value != ranges[i].unit {
          assert seen.value in ranges && ranges[i] in ranges;
          return Err(RuntimeError);
        }
      }
      i := i + 1;
    }
    assert ranges[..i] == ranges;
    return Ok(owner);
  }

  function FileAt(t: FileTable, index: U64): Option<string> {
    var offset := FileOffset(index, |t.files|, t.dwarf5);
    if offset.None? then None else Some(t.files[offset.value])
  }

  /** The file of the unit that owns the address. Both lookups agree on the unit wherever
      both find one. */
  method FindVirtualFile(table: LineTable, a: U64, index: U64) returns (r: Result<Option<string>>)
    requires Ordered(table.ranges)
    requires forall q :: q in table.ranges ==> q.unit < |table.fileTables|
    ensures r.Err? <==> Contested(table.ranges, a)
    ensures forall u: nat :: Owns(table.ranges, a, u) ==>
      u < |table.fileTables| && r == Ok(FileAt(table.fileTables[u], index))
    ensures (forall q :: q in table.ranges ==> !Contains(q, a)) ==> r == Ok(None)
    ensures r.Ok? && r.value.Some? && Chosen(table.ranges, a).Some? ==>
      Owns(table.ranges, a, Chosen(table.ranges, a).value.unit)
  {
    var owner := FindOwner(table.ranges, a);
    if owner.Err? {
      return Err(owner.error);
    }
    if owner.value.None? {
      return Ok(None);
    }
    OwnerIsOfChosen(table.ranges, a, owner.value.value);
    return Ok(FileAt(table.fileTables[owner.value.value], index));
  }

  /** Where there is an owner, the search by address finds a range, and it is the owner's,
      exactly when the last range that begins at or before the address has not ended. */
  lemma OwnerIsOfChosen(ranges: seq<Range>, a: int, unit: nat)
    requires Ordered(ranges) && Owns(ranges, a, unit)
    ensures LastStarting(ranges, a).Some?
    ensures Chosen(ranges, a).Some? <==> a < LastStarting(ranges, a).value.end
    ensures Chosen(ranges, a).Some? ==> Chosen(ranges, a).value.unit == unit
    ensures Disjoint(ranges) ==> Chosen(ranges, a).Some?
  {
    var r :| r in ranges && Contains(r, a);
    LastStartsLatest(ranges, a, r);
    if Disjoint(ranges) {
      ContainingIsChosen(ranges, a, r);
    }
  }

  /** On overlapping ranges the two lookups differ: an address has an owner, but no
      location. */
  lemma OwnedWithoutLocation(here: SourceLocation)
    ensures var ranges := [Range(0, 100, here, 0), Range(10, 20, here, 0)];
            Ordered(ranges) && Owns(ranges, 50, 0) && Chosen(ranges, 50).None?
  {
    var ranges := [Range(0, 100, here, 0), Range(10, 20, here, 0)];
    assert ranges[0] in ranges && Contains(ranges[0], 50);
    assert ranges[1].begin <= 50;
  }

  // ----- from line-number programs to lookups -----

  /** One sequence of rows of one unit. */
  datatype Sequence = Sequence(rows: seq<LineRow>, unit: nat)

  function AllRanges(sequences: seq<Sequence>): seq<Range> {
    if sequences == [] then []
    else Compile(None, sequences[0].rows, sequences[0].unit) + AllRanges(sequences[1..])
  }

  predicate WellFormed(s: Sequence) {
    IsSequence(s.rows) && Nondecreasing(s.rows)
  }

  /** The one ends before the other begins. */
  predicate Precedes(s: Sequence, t: Sequence) {
    |s.rows| > 0 && |t.rows| > 0 && s.rows[|s.rows| - 1].address <= t.rows[0].address
  }

  /** All sequences ascend, and no two of them overlap. */
  predicate WellLaid(sequences: seq<Sequence>) {
    && (forall i :: 0 <= i < |sequences| ==> WellFormed(sequences[i]))
    && (forall i, j :: 0 <= i < j < |sequences| ==>
          Precedes(sequences[i], sequences[j]) || Precedes(sequences[j], sequences[i]))
  }

  ghost predicate RangeOf(sequences: seq<Sequence>, i: int, r: Range) {
    0 <= i < |sequences| && r in Compile(None, sequences[i].rows, sequences[i].unit)
  }

  lemma {:induction false} RangesComeFromSequences(sequences: seq<Sequence>, r: Range)
    ensures r in AllRanges(sequences) <==> exists i :: RangeOf(sequences, i, r)
  {
    if sequences != [] {
      var rest := sequences[1..];
      RangesComeFromSequences(rest, r);
      if r in Compile(None, sequences[0].rows, sequences[0].unit) {
        assert RangeOf(sequences, 0, r);
      }
      if i :| RangeOf(sequences, i, r) {
        if i > 0 {
          assert RangeOf(rest, i - 1, r);
        }
      }
      if j :| RangeOf(rest, j, r) {
        assert RangeOf(sequences, j + 1, r);
      }
    }
  }

  /** The ranges of a sequence lie between its first and its last row. */
  lemma RangesWithin(s: Sequence, r: Range)
    requires WellFormed(s) && r in Compile(None, s.rows, s.unit)
    ensures s.rows[0].address <= r.begin < r.end <= s.rows[|s.rows| - 1].address
  {
    SequenceMeaning(s.rows, s.unit, 0);
    var last := r.end - 1;
    SequenceMeaning(s.rows, s.unit, last);
    var ranges := Compile(None, s.rows, s.unit);
    assert r.begin < r.end;
    ScanFinds(ranges, last);
    assert Contains(r, last);
  }

  lemma TwoRanges(sequences: seq<Sequence>, i: int, r: Range, j: int, q: Range)
    requires WellLaid(sequences) && RangeOf(sequences, i, r) && RangeOf(sequences, j, q) && r != q
    ensures r.end <= q.begin || q.end <= r.begin
  {
    hide IsSequence, Nondecreasing;
    if i == j {
      SequenceMeaning(sequences[i].rows, sequences[i].unit, 0);
    } else {
      hide Compile, Separate;
      RangesWithin(sequences[i], r);
      RangesWithin(sequences[j], q);
    }
  }

  lemma SequencesAreDisjoint(sequences: seq<Sequence>)
    requires WellLaid(sequences)
    ensures Disjoint(AllRanges(sequences))
  {
    hide IsSequence, Nondecreasing, AllRanges, Compile;
    var all := AllRanges(sequences);
    forall r | r in all
      ensures r.begin < r.end
    {
      RangesComeFromSequences(sequences, r);
      var i :| RangeOf(sequences, i, r);
      RangesWithin(sequences[i], r);
    }
    forall r, q | r in all && q in all && r != q
      ensures r.end <= q.begin || q.end <= r.begin
    {
      RangesComeFromSequences(sequences, r);
      RangesComeFromSequences(sequences, q);
      var i :| RangeOf(sequences, i, r);
      var j :| RangeOf(sequences, j, q);
      TwoRanges(sequences, i, r, j, q);
    }
  }

  /** Only the sequence an address lies in has a range that contains it. */
  lemma OwnSequence(sequences: seq<Sequence>, s: nat, a: int, i: int, r: Range)
    requires WellLaid(sequences) && s < |sequences| && RangeOf(sequences, i, r) && Contains(r, a)
    requires var rows := sequences[s].rows; rows[0].address <= a < rows[|rows| - 1].address
    ensures i == s
  {
    RangesWithin(sequences[i], r);
  }

  /** From programs to lookups: if the sequences of all units ascend and do not overlap,
      then for every address of a sequence the search in the sorted index gives the
      location of the last row at or before it. */
  lemma LookupMeansLastRow(sequences: seq<Sequence>, sorted: seq<Range>, s: nat, a: int, k: int)
    requires WellLaid(sequences) && SortOf(sorted, AllRanges(sequences)) && s < |sequences|
    requires var rows := sequences[s].rows; IsLastAtOrBefore(rows, a, k) && a < rows[|rows| - 1].address
    ensures Ordered(sorted) && Disjoint(sorted)
    ensures sequences[s].rows[k].location ==
            if Chosen(sorted, a).Some? then Some(Chosen(sorted, a).value.location) else None
  {
    var rows, own := sequences[s].rows, Compile(None, sequences[s].rows, sequences[s].unit);
    SequencesAreDisjoint(sequences);
    SortKeepsRanges(sorted, AllRanges(sequences));
    SequenceMeaning(rows, sequences[s].unit, a);
    ScanFinds(own, a);
    assert rows[0].address <= rows[k].address;
    if At(own, a).Some? {
      var r :| r in own && Contains(r, a) && At(own, a) == Some(r.location);
      RangesComeFromSequences(sequences, r);
      assert RangeOf(sequences, s, r);
      ContainingIsChosen(sorted, a, r);
    } else if Chosen(sorted, a).Some? {
      var r := Chosen(sorted, a).value;
      RangesComeFromSequences(sequences, r);
      var i :| RangeOf(sequences, i, r);
      OwnSequence(sequences, s, a, i, r);
    }
  }

  // ----- from units to sequences -----

  /** The number of rows up to and including the first end row, if there is one. */
  function FirstSequence(rows: seq<LineRow>): (n: Option<nat>)
    ensures n.Some? ==> 0 < n.value <= |rows| && IsSequence(rows[..n.value])
    ensures n.None? ==> forall i :: 0 <= i < |rows| ==> !rows[i].end
  {
    if rows == [] then None
    else if rows[0].end then Some(1)
    else
      var rest := FirstSequence(rows[1..]);
      if rest.None? then None
      else
        assert rows[..rest.value + 1] == [rows[0]] + rows[1..][..rest.value];
        Some(rest.value + 1)
  }

  /** A unit's rows, cut behind every end row; what is left over was never ended. */
  function SequencesOf(rows: seq<LineRow>, unit: nat): (s: seq<Sequence>)
    ensures forall i :: 0 <= i < |s| ==> IsSequence(s[i].rows) && s[i].unit == unit
    decreases |rows|
  {
    var n := FirstSequence(rows);
    if n.None? then [] else [Sequence(rows[..n.value], unit)] + SequencesOf(rows[n.value..], unit)
  }

  function Unended(rows: seq<LineRow>): seq<LineRow>
    decreases |rows|
  {
    var n := FirstSequence(rows);
    if n.None? then rows else Unended(rows[n.value..])
  }

  /** The ranges of a unit are those of its sequences, and of the rows left over. */
  lemma {:induction false} UnitIsSequences(rows: seq<LineRow>, unit: nat)
    ensures Compile(None, rows, unit) == AllRanges(SequencesOf(rows, unit)) + Compile(None, Unended(rows), unit)
    decreases |rows|
  {
    var n := FirstSequence(rows);
    if n.Some? {
      var first, later := rows[..n.value], rows[n.value..];
      assert rows == first + later;
      SequenceBySequence(None, first, later, unit);
      UnitIsSequences(later, unit);
      var s := SequencesOf(rows, unit);
      assert s[0] == Sequence(first, unit) && s[1..] == SequencesOf(later, unit);
    }
  }

  lemma {:induction false} RangesOfBoth(s: seq<Sequence>, t: seq<Sequence>)
    ensures AllRanges(s + t) == AllRanges(s) + AllRanges(t)
  {
    if s == [] {
      assert s + t == t;
    } else {
      assert (s + t)[1..] == s[1..] + t;
      RangesOfBoth(s[1..], t);
    }
  }

  /** A unit of the section: its header, and where its program lies. */
  datatype Unit = Unit(header: Header, begin: nat, end: nat, files: seq<FileEntry>)

  predicate GoodUnits(bytes: seq<Byte>, units: seq<Unit>) {
    forall k :: 0 <= k < |units| ==> GoodHeader(units[k].header) && units[k].end <= |bytes|
  }

  /** The row matrix of a unit whose program decodes. */
  function MatrixOf(bytes: seq<Byte>, u: Unit): seq<LineRow>
    requires GoodHeader(u.header) && u.end <= |bytes|
  {
    var program := DecodeAll(u.header, bytes, u.begin, u.end);
    if program.Err? then [] else Matrix(u.header, LineMachine(INITIAL, u.files), program.value)
  }

  function SequencesOfUnits(bytes: seq<Byte>, units: seq<Unit>, n: nat): seq<Sequence>
    requires GoodUnits(bytes, units) && n <= |units|
  {
    if n == 0 then [] else SequencesOfUnits(bytes, units, n - 1) + SequencesOf(MatrixOf(bytes, units[n - 1]), n - 1)
  }

  lemma NoUnitYet(bytes: seq<Byte>, units: seq<Unit>)
    requires GoodUnits(bytes, units)
    ensures AllRanges(SequencesOfUnits(bytes, units, 0)) == []
  {
  }

  lemma OneMoreUnit(bytes: seq<Byte>, units: seq<Unit>, k: nat)
    requires GoodUnits(bytes, units) && k < |units| && Unended(MatrixOf(bytes, units[k])) == []
    ensures AllRanges(SequencesOfUnits(bytes, units, k + 1)) ==
            AllRanges(SequencesOfUnits(bytes, units, k)) + Compile(None, MatrixOf(bytes, units[k]), k)
  {
    hide GoodHeader, MatrixOf;
    var rows := MatrixOf(bytes, units[k]);
    UnitIsSequences(rows, k);
    RangesOfBoth(SequencesOfUnits(bytes, units, k), SequencesOf(rows, k));
    assert Compile(None, rows, k) == AllRanges(SequencesOf(rows, k)) + [];
  }

  /** The ranges of all units. If no unit leaves a sequence open, they are the ranges of
      the sequences of all row matrices; sorted, they are the index that
      `LookupMeansLastRow` is about. */
  method BuildRanges(bytes: seq<Byte>, units: seq<Unit>) returns (r: Result<seq<Range>>)
    requires GoodUnits(bytes, units)
    ensures r.Ok? <==> forall k :: 0 <= k < |units| ==> DecodeAll(units[k].header, bytes, units[k].begin, units[k].end).Ok?
    ensures r.Ok? && (forall k :: 0 <= k < |units| ==> Unended(MatrixOf(bytes, units[k])) == []) ==>
      r.value == AllRanges(SequencesOfUnits(bytes, units, |units|))
  {
    hide DecodeAll, Matrix, Compile, AllRanges, SequencesOf, Unended, GoodHeader;
    var ranges, k := [], 0;
    NoUnitYet(bytes, units);
    while k < |units|
      invariant k <= |units|
      invariant forall i :: 0 <= i < k ==> DecodeAll(units[i].header, bytes, units[i].begin, units[i].end).Ok?
      invariant (forall i :: 0 <= i < k ==> Unended(MatrixOf(bytes, units[i])) == []) ==>
        ranges == AllRanges(SequencesOfUnits(bytes, units, k))
    {
      var u := units[k];
      var more := RunUnit(u.header, bytes, u.begin, u.end, u.files, k);
      if more.Err? {
        return Err(more.error);
      }
      if Unended(MatrixOf(bytes, u)) == [] {
        OneMoreUnit(bytes, units, k);
      }
      ranges := ranges + more.value;
      k := k + 1;
    }
    return Ok(ranges);
  }
}
