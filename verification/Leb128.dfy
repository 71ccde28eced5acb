/** LEB128 numbers (section 7.6 of DWARF version 4): what a byte sequence denotes, and
    the readers that accept at most ten bytes and 64 bits. */
module Leb128 {
  import opened Base

  /** A value and the position behind the bytes it was read from. */
  datatype Read<+T> = Read(value: T, next: nat)

  const MAX_BYTES: nat := 10

  function Pow128(n: nat): nat {
    if n == 0 then 1 else 128 * Pow128(n - 1)
  }

  // ----- what an encoding denotes -----

  /** Every byte but the last has its high bit set. */
  predicate IsEncoding(e: seq<Byte>) {
    && |e| > 0
    && e[|e| - 1] < 128
    && forall i :: 0 <= i < |e| - 1 ==> e[i] >= 128
  }

  function UlebValue(e: seq<Byte>): nat {
    if |e| == 0 then 0 else e[0] % 128 + 128 * UlebValue(e[1..])
  }

  /** Two's complement on seven bits for each byte. */
  function SlebValue(e: seq<Byte>): int {
    UlebValue(e) - if |e| > 0 && e[|e| - 1] % 128 >= 64 then Pow128(|e|) else 0
  }

  lemma {:induction false} UlebAppend(e: seq<Byte>, b: Byte)
    ensures UlebValue(e + [b]) == UlebValue(e) + b % 128 * Pow128(|e|)
  {
    if |e| > 0 {
      assert (e + [b])[1..] == e[1..] + [b];
      UlebAppend(e[1..], b);
      Distribute(b % 128, Pow128(|e| - 1));
    }
  }

  lemma Distribute(x: nat, w: nat)
    ensures 128 * (x * w) == x * (128 * w)
  {
  }

  lemma {:induction false} UlebBound(e: seq<Byte>)
    ensures UlebValue(e) < Pow128(|e|)
  {
    if |e| > 0 {
      UlebBound(e[1..]);
    }
  }

  lemma Powers()
    ensures Pow128(9) == TWO63 && Pow128(8) == TWO63 / 128 && Pow128(10) == 128 * TWO63
  {
  }

  lemma {:induction false} PowersGrow(m: nat, n: nat)
    requires m <= n
    ensures Pow128(m) <= Pow128(n)
  {
    if m < n {
      PowersGrow(m, n - 1);
    }
  }

  // ----- where an encoding ends -----

  /** The end of the encoding at `at`, if one of at most `count` bytes lies within the
      limit. */
  function FindEnd(bytes: seq<Byte>, at: nat, limit: nat, count: nat): Option<nat>
    decreases count
  {
    if count == 0 || at >= limit || at >= |bytes| then None
    else if bytes[at] < 128 then Some(at + 1)
    else FindEnd(bytes, at + 1, limit, count - 1)
  }

  /** An encoding is found exactly when there is one, and then it is the only one. */
  lemma {:induction false} FindEndIff(bytes: seq<Byte>, at: nat, limit: nat, count: nat, end: nat)
    ensures FindEnd(bytes, at, limit, count) == Some(end) <==>
      at < end <= at + count && end <= limit && end <= |bytes| && IsEncoding(bytes[at..end])
    decreases count
  {
    if count > 0 && at < limit && at < |bytes| {
      if bytes[at] < 128 {
        if at < end <= |bytes| {
          var e := bytes[at..end];
          assert e[0] == bytes[at];
        }
      } else {
        FindEndIff(bytes, at + 1, limit, count - 1, end);
        if at < end <= |bytes| {
          var e := bytes[at..end];
          if at + 1 < end {
            var rest := bytes[at + 1..end];
            assert e == [bytes[at]] + rest;
          }
        }
      }
    }
  }

  // ----- the readers -----

  /** The number a reader is to deliver. */
  function Uleb(bytes: seq<Byte>, at: nat, limit: nat): (r: Result<Read<U64>>) {
    var end := FindEnd(bytes, at, limit, MAX_BYTES);
    if end.None? then Err(RuntimeError)
    else
      FindEndIff(bytes, at, limit, MAX_BYTES, end.value);
      var value := UlebValue(bytes[at..end.value]);
      if value < TWO64 then Ok(Read(value, end.value)) else Err(RuntimeError)
  }

  function StrictSleb(bytes: seq<Byte>, at: nat, limit: nat): (r: Result<Read<I64>>) {
    var end := FindEnd(bytes, at, limit, MAX_BYTES);
    if end.None? then Err(RuntimeError)
    else
      FindEndIff(bytes, at, limit, MAX_BYTES, end.value);
      var value := SlebValue(bytes[at..end.value]);
      if -TWO63 <= value < TWO63 then Ok(Read(value, end.value)) else Err(RuntimeError)
  }

  /** Bits beyond the 64th are dropped. */
  function Sleb(bytes: seq<Byte>, at: nat, limit: nat): (r: Result<Read<I64>>) {
    var end := FindEnd(bytes, at, limit, MAX_BYTES);
    if end.None? then Err(RuntimeError)
    else
      FindEndIff(bytes, at, limit, MAX_BYTES, end.value);
      Ok(Read(Signed64(Wrap64(SlebValue(bytes[at..end.value]))), end.value))
  }

  /** The strict reader's numbers are the lenient reader's, at the same cost. */
  lemma StrictImpliesLenient(bytes: seq<Byte>, at: nat, limit: nat)
    ensures StrictSleb(bytes, at, limit).Ok? ==> Sleb(bytes, at, limit) == StrictSleb(bytes, at, limit)
  {
  }

  /** A number is read exactly when an encoding of at most ten bytes within the limit
      denotes one below 2^64. */
  lemma UlebSucceedsIff(bytes: seq<Byte>, at: nat, limit: nat, value: nat, next: nat)
    ensures (value < TWO64 && Uleb(bytes, at, limit) == Ok(Read(value, next))) <==>
      && at < next <= at + MAX_BYTES && next <= limit && next <= |bytes|
      && IsEncoding(bytes[at..next]) && UlebValue(bytes[at..next]) == value < TWO64
  {
    FindEndIff(bytes, at, limit, MAX_BYTES, next);
  }

  lemma StrictSlebSucceedsIff(bytes: seq<Byte>, at: nat, limit: nat, value: int, next: nat)
    ensures (-TWO63 <= value < TWO63 && StrictSleb(bytes, at, limit) == Ok(Read(value, next))) <==>
      && at < next <= at + MAX_BYTES && next <= limit && next <= |bytes|
      && IsEncoding(bytes[at..next]) && -TWO63 <= SlebValue(bytes[at..next]) == value < TWO63
  {
    FindEndIff(bytes, at, limit, MAX_BYTES, next);
  }

  /** The bytes read so far, `count` of them, all to be continued. */
  ghost predicate Reading(bytes: seq<Byte>, at: nat, limit: nat, count: nat) {
    && at + count <= |bytes| && count <= MAX_BYTES
    && FindEnd(bytes, at, limit, MAX_BYTES) == FindEnd(bytes, at + count, limit, MAX_BYTES - count)
  }

  lemma OneMoreByte(bytes: seq<Byte>, at: nat, count: nat)
    requires at + count < |bytes|
    ensures UlebValue(bytes[at..at + count + 1]) ==
            UlebValue(bytes[at..at + count]) + bytes[at + count] % 128 * Pow128(count)
    ensures UlebValue(bytes[at..at + count]) < Pow128(count) && Pow128(count + 1) == 128 * Pow128(count)
  {
    assert bytes[at..at + count + 1] == bytes[at..at + count] + [bytes[at + count]];
    UlebAppend(bytes[at..at + count], bytes[at + count]);
    UlebBound(bytes[at..at + count]);
  }

  lemma NextByte(bytes: seq<Byte>, at: nat, limit: nat, count: nat)
    requires Reading(bytes, at, limit, count) && count < MAX_BYTES && at + count < limit && at + count < |bytes|
    ensures if bytes[at + count] < 128 then FindEnd(bytes, at, limit, MAX_BYTES) == Some(at + count + 1)
            else Reading(bytes, at, limit, count + 1)
    ensures forall end :: FindEnd(bytes, at, limit, MAX_BYTES) == Some(end) && count == 9 ==> end == at + 10
  {
  }

  lemma FitsBelow(result: nat, payload: nat, count: nat)
    requires count < 10 && result < Pow128(count) && payload < 128
    ensures result + payload * Pow128(count) < TWO64 <==> !(count == 9 && payload > 1)
  {
    Powers();
    if count < 9 {
      PowersGrow(count, 8);
      assert payload * Pow128(count) <= 127 * Pow128(count);
    }
  }

  /** `result |= payload << shift` in 64 bits: the bits are disjoint, and those beyond
      the 64th are lost. */
  function Or(result: U64, payload: nat, weight: nat): U64 {
    Wrap64(result + payload * weight)
  }

  method ReadUleb(bytes: seq<Byte>, at: nat, limit: nat) returns (r: Result<Read<U64>>)
    ensures r == Uleb(bytes, at, limit)
  {
    hide Pow128, UlebValue;
    if at > |bytes| {
      return Err(RuntimeError);
    }
    var result: U64, count, weight := 0, 0, 1;
    NothingRead(bytes, at);
    while count < MAX_BYTES
      invariant Reading(bytes, at, limit, count)
      invariant weight == Pow128(count) && result == UlebValue(bytes[at..at + count])
    {
      if at + count >= limit || at + count >= |bytes| {
        return Err(RuntimeError);
      }
      var byte := bytes[at + count];
      var payload := byte % 128;
      OneMoreByte(bytes, at, count);
      NextByte(bytes, at, limit, count);
      FitsBelow(result, payload, count);
      if count == 9 && payload > 1 {
        return Err(RuntimeError);
      }
      result := Or(result, payload, weight);
      if byte < 128 {
        return Ok(Read(result, at + count + 1));
      }
      count, weight := count + 1, 128 * weight;
    }
    return Err(RuntimeError);
  }

  lemma NothingRead(bytes: seq<Byte>, at: nat)
    requires at <= |bytes|
    ensures UlebValue(bytes[at..at]) == 0 && Pow128(0) == 1
  {
  }

  /** `result |= ~0 << shift`, unless all 64 bits are taken. */
  function SignExtended(result: U64, payload: nat, count: nat): U64 {
    if payload >= 64 && count < 9 then Wrap64(result + TWO64 - Pow128(count + 1)) else result
  }

  /** What a sleb reader has after its last byte, which is number `count`. */
  function Finished(low: U64, payload: nat, count: nat): I64 {
    Signed64(SignExtended(Or(low, payload, Pow128(count)), payload, count))
  }

  lemma Extended(sum: nat, top: nat, negative: bool)
    requires sum < top <= TWO63
    ensures var value := sum - if negative then top else 0;
            && -TWO63 <= value < TWO63
            && Signed64(if negative then Wrap64(sum + TWO64 - top) else sum) == value == Signed64(Wrap64(value))
  {
  }

  lemma FinishedShort(low: U64, payload: nat, count: nat)
    requires count < 9 && low < Pow128(count) && payload < 128
    ensures var value := low + payload * Pow128(count) - if payload >= 64 then Pow128(count + 1) else 0;
            -TWO63 <= value < TWO63 && Signed64(Wrap64(value)) == value == Finished(low, payload, count)
  {
    Powers();
    PowersGrow(count + 1, 9);
    OrIsSum(low, payload, count);
    assert Pow128(count + 1) == 128 * Pow128(count);
    hide Pow128, Or, Wrap64, Signed64;
    var sum := low + payload * Pow128(count);
    assert payload * Pow128(count) <= 127 * Pow128(count);
    Extended(sum, Pow128(count + 1), payload >= 64);
  }

  lemma FinishedLong(low: U64, payload: nat)
    requires low < TWO63 && payload < 128
    ensures var value := low + payload * TWO63 - if payload >= 64 then 128 * TWO63 else 0;
            && Signed64(Or(low, payload, TWO63)) == Signed64(Wrap64(value))
            && (-TWO63 <= value < TWO63 <==> payload == 0 || payload == 127)
            && (-TWO63 <= value < TWO63 ==> Signed64(Wrap64(value)) == value)
  {
    var sign := if payload >= 64 then 64 else 0;
    var bit, whole := payload % 2, payload / 2;
    var sum := low + bit * TWO63;
    assert 0 <= sum < TWO64;
    WrapsAway(sum, whole);
    WrapsAway(sum, whole - sign);
    hide Wrap64;
    assert low + payload * TWO63 == sum + whole * TWO64;
    assert low + payload * TWO63 - 2 * sign * TWO63 == sum + (whole - sign) * TWO64;
  }

  /** Whole multiples of 2^64 wrap away. */
  lemma WrapsAway(x: U64, n: int)
    ensures Wrap64(x + n * TWO64) == x
  {
  }

  /** The last byte settles the number, and whether it fits. */
  lemma LastByte(bytes: seq<Byte>, at: nat, count: nat)
    requires count < 10 && at + count < |bytes|
    ensures UlebValue(bytes[at..at + count]) < TWO64
    ensures var value, payload := SlebValue(bytes[at..at + count + 1]), bytes[at + count] % 128;
            && Finished(UlebValue(bytes[at..at + count]), payload, count) == Signed64(Wrap64(value))
            && (-TWO63 <= value < TWO63 <==> !(count == 9 && payload != 0 && payload != 127))
            && (-TWO63 <= value < TWO63 ==> Signed64(Wrap64(value)) == value)
  {
    hide UlebValue, Pow128, Wrap64, Signed64, Or;
    OneMoreByte(bytes, at, count);
    Powers();
    PowersGrow(count, 9);
    var low, payload := UlebValue(bytes[at..at + count]), bytes[at + count] % 128;
    assert |bytes[at..at + count + 1]| == count + 1 && bytes[at..at + count + 1][count] == bytes[at + count];
    if count < 9 {
      FinishedShort(low, payload, count);
    } else {
      FinishedLong(low, payload);
    }
  }

  /** The reader of line-number programs. */
  method ReadStrictSleb(bytes: seq<Byte>, at: nat, limit: nat) returns (r: Result<Read<I64>>)
    ensures r == StrictSleb(bytes, at, limit)
  {
    hide Pow128, UlebValue, SlebValue, Or;
    if at > |bytes| {
      return Err(RuntimeError);
    }
    var result: U64, count, weight := 0, 0, 1;
    NothingRead(bytes, at);
    while count < MAX_BYTES
      invariant Reading(bytes, at, limit, count)
      invariant weight == Pow128(count)
      invariant count < MAX_BYTES ==> result == UlebValue(bytes[at..at + count])
    {
      if at + count >= limit || at + count >= |bytes| {
        return Err(RuntimeError);
      }
      var byte := bytes[at + count];
      var payload := byte % 128;
      OneMoreByte(bytes, at, count);
      NextByte(bytes, at, limit, count);
      LastByte(bytes, at, count);
      if count == 9 && payload != 0 && payload != 127 {
        return Err(RuntimeError);
      }
      if count < 9 {
        OrIsSum(result, payload, count);
      }
      result := Or(result, payload, weight);
      if byte < 128 {
        result := SignExtended(result, payload, count);
        return Ok(Read(Signed64(result), at + count + 1));
      }
      count, weight := count + 1, 128 * weight;
    }
    return Err(RuntimeError);
  }

  lemma OrIsSum(result: U64, payload: nat, count: nat)
    requires count < 9 && result < Pow128(count) && payload < 128
    ensures Or(result, payload, Pow128(count)) == result + payload * Pow128(count)
  {
    FitsBelow(result, payload, count);
  }

  /** The reader of call-frame information. */
  method ReadSleb(bytes: seq<Byte>, at: nat, limit: nat) returns (r: Result<Read<I64>>)
    ensures r == Sleb(bytes, at, limit)
  {
    hide Pow128, UlebValue, SlebValue, Or;
    if at > |bytes| {
      return Err(RuntimeError);
    }
    var result: U64, count, weight := 0, 0, 1;
    NothingRead(bytes, at);
    while count < MAX_BYTES
      invariant Reading(bytes, at, limit, count)
      invariant weight == Pow128(count)
      invariant count < MAX_BYTES ==> result == UlebValue(bytes[at..at + count])
    {
      if at + count >= limit || at + count >= |bytes| {
        return Err(RuntimeError);
      }
      var byte := bytes[at + count];
      var payload := byte % 128;
      OneMoreByte(bytes, at, count);
      NextByte(bytes, at, limit, count);
      LastByte(bytes, at, count);
      if count < 9 {
        OrIsSum(result, payload, count);
      }
      result := Or(result, payload, weight);
      if byte < 128 {
        result := SignExtended(result, payload, count);
        return Ok(Read(Signed64(result), at + count + 1));
      }
      count, weight := count + 1, 128 * weight;
    }
    return Err(RuntimeError);
  }

  // ----- encoding -----

  function EncodeUleb(v: nat): (e: seq<Byte>) {
    if v < 128 then [v] else [128 + v % 128] + EncodeUleb(v / 128)
  }

  function EncodeSleb(v: int): (e: seq<Byte>)
    decreases if v < 0 then -v else v
  {
    if -64 <= v < 64 then [v % 128] else [128 + v % 128] + EncodeSleb(v / 128)
  }

  lemma {:induction false} UlebEncodes(v: nat, n: nat)
    requires v < Pow128(n) && n > 0
    ensures IsEncoding(EncodeUleb(v)) && UlebValue(EncodeUleb(v)) == v && |EncodeUleb(v)| <= n
  {
    if v >= 128 {
      UlebEncodes(v / 128, n - 1);
      var e := EncodeUleb(v);
      assert e[1..] == EncodeUleb(v / 128);
    }
  }

  lemma SlebPrepend(b: Byte, rest: seq<Byte>)
    requires IsEncoding(rest) && b >= 128
    ensures IsEncoding([b] + rest) && SlebValue([b] + rest) == b % 128 + 128 * SlebValue(rest)
  {
    var e := [b] + rest;
    assert e[1..] == rest && e[|e| - 1] == rest[|rest| - 1];
  }

  lemma Shrinks(v: int, w: nat)
    requires -64 * (128 * w) <= v < 64 * (128 * w)
    ensures -64 * w <= v / 128 < 64 * w
  {
  }

  lemma OneByteSleb(v: int)
    requires -64 <= v < 64
    ensures IsEncoding([v % 128]) && SlebValue([v % 128]) == v
  {
    var e: seq<Byte> := [v % 128];
    assert UlebValue(e[1..]) == 0 && Pow128(1) == 128;
  }

  lemma {:induction false} SlebEncodes(v: int, n: nat)
    requires n > 0 && -64 * Pow128(n - 1) <= v < 64 * Pow128(n - 1)
    ensures IsEncoding(EncodeSleb(v)) && SlebValue(EncodeSleb(v)) == v && |EncodeSleb(v)| <= n
    decreases n
  {
    hide IsEncoding, SlebValue;
    if -64 <= v < 64 {
      OneByteSleb(v);
    } else {
      assert n > 1 && Pow128(n - 1) == 128 * Pow128(n - 2);
      hide Pow128;
      Shrinks(v, Pow128(n - 2));
      SlebEncodes(v / 128, n - 1);
      SlebPrepend(128 + v % 128, EncodeSleb(v / 128));
    }
  }

  lemma EncodingInside(before: seq<Byte>, e: seq<Byte>, after: seq<Byte>)
    ensures var bytes := before + e + after;
            |before| + |e| <= |bytes| && bytes[|before|..|before| + |e|] == e
  {
  }

  /** Every unsigned 64-bit number, encoded and followed by anything, is read back, and
      exactly its own bytes are consumed. */
  lemma UlebRoundTrip(before: seq<Byte>, v: U64, after: seq<Byte>, limit: nat)
    requires limit >= |before| + |EncodeUleb(v)|
    ensures Uleb(before + EncodeUleb(v) + after, |before|, limit) == Ok(Read(v, |before| + |EncodeUleb(v)|))
  {
    Powers();
    UlebEncodes(v, MAX_BYTES);
    EncodingInside(before, EncodeUleb(v), after);
    UlebSucceedsIff(before + EncodeUleb(v) + after, |before|, limit, v, |before| + |EncodeUleb(v)|);
  }

  lemma SlebRoundTrip(before: seq<Byte>, v: I64, after: seq<Byte>, limit: nat)
    requires limit >= |before| + |EncodeSleb(v)|
    ensures StrictSleb(before + EncodeSleb(v) + after, |before|, limit) == Ok(Read(v, |before| + |EncodeSleb(v)|))
    ensures Sleb(before + EncodeSleb(v) + after, |before|, limit) == Ok(Read(v, |before| + |EncodeSleb(v)|))
  {
    Powers();
    SlebEncodes(v, MAX_BYTES);
    EncodingInside(before, EncodeSleb(v), after);
    StrictSlebSucceedsIff(before + EncodeSleb(v) + after, |before|, limit, v, |before| + |EncodeSleb(v)|);
    StrictImpliesLenient(before + EncodeSleb(v) + after, |before|, limit);
  }
}
