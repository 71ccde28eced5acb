/** Fields of fixed width and strings, read from a byte sequence within a limit. */
module Fields {
  import opened Base
  import opened Leb128

  /** `n` bytes, least significant first. */
  function Little(bytes: seq<Byte>): (v: nat) {
    if |bytes| == 0 then 0 else bytes[0] + 256 * Little(bytes[1..])
  }

  function Pow256(n: nat): nat {
    if n == 0 then 1 else 256 * Pow256(n - 1)
  }

  lemma {:induction false} LittleBound(bytes: seq<Byte>)
    ensures Little(bytes) < Pow256(|bytes|)
  {
    if |bytes| > 0 {
      LittleBound(bytes[1..]);
    }
  }

  /** A field of `width` bytes before `limit`. */
  function Scalar(bytes: seq<Byte>, at: nat, limit: nat, width: nat): (r: Result<Read<nat>>)
    ensures r.Ok? <==> at + width <= limit && at + width <= |bytes|
    ensures r.Ok? ==> r.value.next == at + width && r.value.value < Pow256(width)
  {
    if at > limit || width > limit - at || at > |bytes| || width > |bytes| - at then Err(RuntimeError)
    else
      LittleBound(bytes[at..at + width]);
      Ok(Read(Little(bytes[at..at + width]), at + width))
  }

  /** The low `n` bytes of a number, least significant first. */
  function LittleBytes(v: nat, n: nat): (bytes: seq<Byte>)
    ensures |bytes| == n
    decreases n
  {
    if n == 0 then [] else [v % 256] + LittleBytes(v / 256, n - 1)
  }

  lemma {:induction false} LittleRoundTrip(v: nat, n: nat)
    requires v < Pow256(n)
    ensures Little(LittleBytes(v, n)) == v
    decreases n
  {
    if n > 0 {
      LittleRoundTrip(v / 256, n - 1);
      assert LittleBytes(v, n)[1..] == LittleBytes(v / 256, n - 1);
    }
  }

  /** A field is read back from between any bytes. */
  lemma ScalarRoundTrip(before: seq<Byte>, v: nat, n: nat, after: seq<Byte>, limit: nat)
    requires v < Pow256(n) && limit >= |before| + n
    ensures Scalar(before + LittleBytes(v, n) + after, |before|, limit, n) == Ok(Read(v, |before| + n))
  {
    LittleRoundTrip(v, n);
    assert (before + LittleBytes(v, n) + after)[|before|..|before| + n] == LittleBytes(v, n);
  }

  /** The characters up to the next zero byte. */
  function CString(bytes: seq<Byte>, at: nat, limit: nat): (r: Result<Read<seq<Byte>>>)
    requires limit <= |bytes|
    ensures r.Ok? ==> at < r.value.next <= limit
    decreases limit - at
  {
    if at >= limit then Err(RuntimeError)
    else if bytes[at] == 0 then Ok(Read([], at + 1))
    else
      var rest := CString(bytes, at + 1, limit);
      if rest.Err? then Err(rest.error) else Ok(Read([bytes[at]] + rest.value.value, rest.value.next))
  }

  method ReadCString(bytes: seq<Byte>, at: nat, limit: nat) returns (r: Result<Read<seq<Byte>>>)
    requires limit <= |bytes|
    ensures r == CString(bytes, at, limit)
  {
    var text, cursor := [], at;
    ghost var all := CString(bytes, at, limit);
    if all.Ok? {
      assert [] + all.value.value == all.value.value;
    }
    while cursor < limit
      invariant at <= cursor
      invariant CString(bytes, at, limit) ==
        var rest := CString(bytes, cursor, limit);
        if rest.Err? then Err(rest.error) else Ok(Read(text + rest.value.value, rest.value.next))
      decreases limit - cursor
    {
      var value := bytes[cursor];
      cursor := cursor + 1;
      if value == 0 {
        assert text + [] == text;
        return Ok(Read(text, cursor));
      }
      ghost var rest := CString(bytes, cursor, limit);
      if rest.Ok? {
        assert text + ([value] + rest.value.value) == text + [value] + rest.value.value;
      }
      text := text + [value];
    }
    return Err(RuntimeError);
  }

  /** A string without zero bytes, terminated by one, is read back. */
  lemma {:induction false} CStringRoundTrip(before: seq<Byte>, text: seq<Byte>, after: seq<Byte>, limit: nat)
    requires 0 !in text && |before| + |text| + 1 <= limit <= |before + (text + [0]) + after|
    ensures CString(before + (text + [0]) + after, |before|, limit) == Ok(Read(text, |before| + |text| + 1))
    decreases |text|
  {
    var bytes := before + (text + [0]) + after;
    if text != [] {
      assert bytes == before + [text[0]] + (text[1..] + [0]) + after;
      assert bytes[|before|] == text[0];
      CStringRoundTrip(before + [text[0]], text[1..], after, limit);
      assert text == [text[0]] + text[1..];
    } else {
      assert bytes[|before|] == 0;
    }
  }
}
