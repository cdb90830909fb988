/** Unpadded URL-safe base64 (sections 3.2 and 5 of RFC 4648), as used for the limiter's room slot. */
module Base64Url {
  import opened Prelude

  /** The character for a 6-bit value. */
  function Symbol(v: int): (c: Byte)
    requires 0 <= v < 64
    ensures Value(c) == Some(v)
  {
    if v < 26 then ('A' as int + v) as char
    else if v < 52 then ('a' as int + (v - 26)) as char
    else if v < 62 then ('0' as int + (v - 52)) as char
    else if v == 62 then '-' else '_'
  }

  /** The 6-bit value of a character, if it is in the alphabet. */
  function Value(c: char): (v: Option<int>)
    ensures v.Some? ==> 0 <= v.value < 64
  {
    if 'A' <= c <= 'Z' then Some(c as int - 'A' as int)
    else if 'a' <= c <= 'z' then Some(c as int - 'a' as int + 26)
    else if '0' <= c <= '9' then Some(c as int - '0' as int + 52)
    else if c == '-' then Some(62)
    else if c == '_' then Some(63)
    else None
  }

  /** Three bytes become four characters; a last group of one or two bytes becomes two or three. */
  function EncodeGroup(b: Bytes): (s: Bytes)
    requires 1 <= |b| <= 3
    ensures |s| == |b| + 1
    ensures forall i :: 0 <= i < |s| ==> Value(s[i]).Some?
  {
    var b0 := b[0] as int;
    var b1 := if |b| > 1 then b[1] as int else 0;
    var b2 := if |b| > 2 then b[2] as int else 0;
    [Symbol(b0 / 4), Symbol(b0 % 4 * 16 + b1 / 16), Symbol(b1 % 16 * 4 + b2 / 64), Symbol(b2 % 64)][..|b| + 1]
  }

  function Encode(b: Bytes): Bytes {
    if b == [] then []
    else
      var n := if |b| < 3 then |b| else 3;
      EncodeGroup(b[..n]) + Encode(b[n..])
  }

  function DecodeGroup(s: Bytes): (b: Option<Bytes>)
    requires 1 <= |s| <= 4
  {
    if |s| == 1 || exists i :: 0 <= i < |s| && Value(s[i]).None? then None
    else
      var v0, v1 := Value(s[0]).value, Value(s[1]).value;
      var v2 := if |s| > 2 then Value(s[2]).value else 0;
      var v3 := if |s| > 3 then Value(s[3]).value else 0;
      var b: Bytes := [(v0 * 4 + v1 / 16) as char, (v1 % 16 * 16 + v2 / 4) as char, (v2 % 4 * 64 + v3) as char];
      Some(b[..|s| - 1])
  }

  function Decode(s: Bytes): Option<Bytes> {
    if s == [] then Some([])
    else
      var n := if |s| < 4 then |s| else 4;
      var first, rest := DecodeGroup(s[..n]), Decode(s[n..]);
      if first.None? || rest.None? then None else Some(first.value + rest.value)
  }

  /** The URL-safe alphabet, table 2 of RFC 4648: A to Z, a to z and 0 to 9 in a row, then '-' and '_'. */
  lemma AlphabetInOrder()
    ensures Symbol(0) == 'A' && Symbol(25) == 'Z' && Symbol(26) == 'a' && Symbol(51) == 'z'
    ensures Symbol(52) == '0' && Symbol(61) == '9' && Symbol(62) == '-' && Symbol(63) == '_'
    ensures forall v :: 0 <= v < 61 && v != 25 && v != 51 ==> Symbol(v + 1) as int == Symbol(v) as int + 1
  {
  }

  /** The bits of a group, read as one number, are those of its characters, with zero bits to fill the last one. */
  lemma GroupKeepsBits(b: Bytes)
    requires 1 <= |b| <= 3
    ensures
      var s := EncodeGroup(b);
      var v := (i: int) requires 0 <= i < |s| => Value(s[i]).value;
      match |b|
      case 1 => v(0) * 64 + v(1) == b[0] as int * 16
      case 2 => (v(0) * 64 + v(1)) * 64 + v(2) == (b[0] as int * 256 + b[1] as int) * 4
      case _ => ((v(0) * 64 + v(1)) * 64 + v(2)) * 64 + v(3) == (b[0] as int * 256 + b[1] as int) * 256 + b[2] as int
  {
  }

  lemma GroupRoundTrip(b: Bytes)
    requires 1 <= |b| <= 3
    ensures DecodeGroup(EncodeGroup(b)) == Some(b)
  {
    var x0 := b[0] as int;
    var x1 := if |b| > 1 then b[1] as int else 0;
    var x2 := if |b| > 2 then b[2] as int else 0;
    assert (x0 % 4 * 16 + x1 / 16) / 16 == x0 % 4;
    assert (x0 % 4 * 16 + x1 / 16) % 16 == x1 / 16;
    assert (x1 % 16 * 4 + x2 / 64) / 4 == x1 % 16;
    assert (x1 % 16 * 4 + x2 / 64) % 4 == x2 / 64;
    var d := DecodeGroup(EncodeGroup(b)).value;
    assert |d| == |b|;
    assert d[0] == b[0];
    assert |b| > 1 ==> d[1] == b[1];
    assert |b| > 2 ==> d[2] == b[2];
    assert d == b;
  }

  /** Every byte string survives encoding, whatever its length modulo 3. */
  lemma {:induction false} RoundTrip(b: Bytes)
    ensures Decode(Encode(b)) == Some(b)
  {
    if b != [] {
      var n := if |b| < 3 then |b| else 3;
      var group := EncodeGroup(b[..n]);
      var s := Encode(b);
      GroupRoundTrip(b[..n]);
      RoundTrip(b[n..]);
      assert b == b[..n] + b[n..];
      var m := if |s| < 4 then |s| else 4;
      assert n < 3 ==> b[n..] == [] && s == group;
      assert m == |group|;
      assert s[..m] == group && s[m..] == Encode(b[n..]);
    }
  }

  /** Only alphabet characters are produced, so never a brace; and only the empty string encodes to nothing. */
  lemma {:induction false} EncodeAlphabet(b: Bytes)
    ensures forall i :: 0 <= i < |Encode(b)| ==> Value(Encode(b)[i]).Some?
    ensures Encode(b) == [] <==> b == []
  {
    if b != [] {
      var n := if |b| < 3 then |b| else 3;
      EncodeAlphabet(b[n..]);
    }
  }
}
