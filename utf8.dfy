/** UTF-8 as Rust's `str::as_bytes` and `std::str::from_utf8` use it. Every
    `String` in the source is a UTF-8 byte string; the model keeps strings as
    sequences of Unicode scalar values and converts with `Encode`/`Decode`
    where the source crosses between `&str` and `&[u8]`. `Decode` is strict in
    the way `from_utf8` is: no overlong forms, no surrogates, nothing above
    U+10FFFF. */
module Utf8 {
  import opened Wrappers
  import opened Bytes

  /** Number of bytes the UTF-8 form of `c` takes. */
  function CharLen(c: char): (n: nat)
    ensures 1 <= n <= 4
  {
    var v := c as int;
    if v < 0x80 then 1 else if v < 0x800 then 2 else if v < 0x10000 then 3 else 4
  }

  predicate IsContinuation(b: byte) {
    0x80 <= b <= 0xBF
  }

  function EncodeChar(c: char): (r: Bytes)
    ensures |r| == CharLen(c)
    ensures (c as int < 0x80) == (r == [c as int])
  {
    var v := c as int;
    if v < 0x80 then [v]
    else if v < 0x800 then [0xC0 + v / 64, 0x80 + v % 64]
    else if v < 0x10000 then [0xE0 + v / 4096, 0x80 + (v / 64) % 64, 0x80 + v % 64]
    else [0xF0 + v / 262144, 0x80 + (v / 4096) % 64, 0x80 + (v / 64) % 64, 0x80 + v % 64]
  }

  /** `str::as_bytes`. */
  function Encode(s: string): (r: Bytes)
    ensures |r| >= |s|
  {
    if s == [] then [] else EncodeChar(s[0]) + Encode(s[1..])
  }

  /** Decodes the scalar value at the front of `b`, with the byte count it takes;
      None when the front of `b` is not a well-formed UTF-8 sequence. */
  function DecodeChar(b: Bytes): (r: Option<(char, nat)>)
    ensures r.Some? ==> 1 <= r.value.1 <= |b| && r.value.1 == CharLen(r.value.0)
  {
    if |b| == 0 then None
    else
      var b0: int := b[0];
      if b0 < 0x80 then
        Some((b0 as char, 1))
      else if 0xC2 <= b0 <= 0xDF then
        if |b| >= 2 && IsContinuation(b[1]) then
          Some((Scalar2(b0, b[1]) as char, 2))
        else None
      else if 0xE0 <= b0 <= 0xEF then
        var lo := if b0 == 0xE0 then 0xA0 else 0x80;
        var hi := if b0 == 0xED then 0x9F else 0xBF;
        if |b| >= 3 && lo <= b[1] <= hi && IsContinuation(b[2]) then
          Some((Scalar3(b0, b[1], b[2]) as char, 3))
        else None
      else if 0xF0 <= b0 <= 0xF4 then
        var lo := if b0 == 0xF0 then 0x90 else 0x80;
        var hi := if b0 == 0xF4 then 0x8F else 0xBF;
        if |b| >= 4 && lo <= b[1] <= hi && IsContinuation(b[2]) && IsContinuation(b[3]) then
          Some((Scalar4(b0, b[1], b[2], b[3]) as char, 4))
        else None
      else None
  }

  function Scalar2(b0: int, b1: int): (v: int)
    requires 0xC2 <= b0 <= 0xDF && 0x80 <= b1 <= 0xBF
    ensures 0x80 <= v < 0x800
  {
    (b0 - 0xC0) * 64 + (b1 - 0x80)
  }

  function Scalar3(b0: int, b1: int, b2: int): (v: int)
    requires 0xE0 <= b0 <= 0xEF && 0x80 <= b1 <= 0xBF && 0x80 <= b2 <= 0xBF
    requires b0 == 0xE0 ==> b1 >= 0xA0
    requires b0 == 0xED ==> b1 <= 0x9F
    ensures 0x800 <= v < 0x10000 && !(0xD800 <= v < 0xE000)
  {
    (b0 - 0xE0) * 4096 + (b1 - 0x80) * 64 + (b2 - 0x80)
  }

  function Scalar4(b0: int, b1: int, b2: int, b3: int): (v: int)
    requires 0xF0 <= b0 <= 0xF4 && 0x80 <= b1 <= 0xBF && 0x80 <= b2 <= 0xBF && 0x80 <= b3 <= 0xBF
    requires b0 == 0xF0 ==> b1 >= 0x90
    requires b0 == 0xF4 ==> b1 <= 0x8F
    ensures 0x10000 <= v < 0x110000
  {
    (b0 - 0xF0) * 262144 + (b1 - 0x80) * 4096 + (b2 - 0x80) * 64 + (b3 - 0x80)
  }

  /** `std::str::from_utf8`: None is its `Utf8Error`. */
  function Decode(b: Bytes): Option<string>
    decreases |b|
  {
    if |b| == 0 then Some("")
    else match DecodeChar(b)
      case None => None
      case Some((c, n)) =>
        match Decode(b[n..])
        case None => None
        case Some(s) => Some([c] + s)
  }

  lemma DivMod64(x: int, q: int, r: int)
    requires 0 <= r < 64 && x == q * 64 + r
    ensures x / 64 == q && x % 64 == r
  {
  }

  lemma Encode2(v: int)
    requires 0x80 <= v < 0x800
    ensures 0xC2 <= 0xC0 + v / 64 <= 0xDF && 0 <= v % 64 < 64
    ensures Scalar2(0xC0 + v / 64, 0x80 + v % 64) == v
  {
  }

  lemma Encode3(v: int)
    requires 0x800 <= v < 0x10000 && !(0xD800 <= v < 0xE000)
    ensures var b0, b1, b2 := 0xE0 + v / 4096, 0x80 + (v / 64) % 64, 0x80 + v % 64;
      && 0xE0 <= b0 <= 0xEF && 0x80 <= b1 <= 0xBF && 0x80 <= b2 <= 0xBF
      && (b0 == 0xE0 ==> b1 >= 0xA0) && (b0 == 0xED ==> b1 <= 0x9F)
      && Scalar3(b0, b1, b2) == v
  {
    var q := v / 64;
    DivMod64(v, q, v % 64);
    DivMod64(q, q / 64, q % 64);
    assert v / 4096 == q / 64;
  }

  lemma Encode4(v: int)
    requires 0x10000 <= v < 0x110000
    ensures var b0, b1, b2, b3 := 0xF0 + v / 262144, 0x80 + (v / 4096) % 64, 0x80 + (v / 64) % 64, 0x80 + v % 64;
      && 0xF0 <= b0 <= 0xF4 && 0x80 <= b1 <= 0xBF && 0x80 <= b2 <= 0xBF && 0x80 <= b3 <= 0xBF
      && (b0 == 0xF0 ==> b1 >= 0x90) && (b0 == 0xF4 ==> b1 <= 0x8F)
      && Scalar4(b0, b1, b2, b3) == v
  {
    var q := v / 64;
    var q2 := q / 64;
    DivMod64(v, q, v % 64);
    DivMod64(q, q2, q % 64);
    DivMod64(q2, q2 / 64, q2 % 64);
    assert v / 4096 == q2;
    assert v / 262144 == q2 / 64;
  }

  /** Decoding reads back the scalar value that `EncodeChar` wrote, whatever follows it. */
  lemma DecodeEncodeChar(c: char, rest: Bytes)
    ensures DecodeChar(EncodeChar(c) + rest) == Some((c, CharLen(c)))
  {
    var v := c as int;
    var e := EncodeChar(c);
    var b := e + rest;
    assert b[..|e|] == e;
    if v < 0x80 {
    } else if v < 0x800 {
      Encode2(v);
      assert b[0] == e[0] && b[1] == e[1];
    } else if v < 0x10000 {
      Encode3(v);
      assert b[0] == e[0] && b[1] == e[1] && b[2] == e[2];
    } else {
      Encode4(v);
      assert b[0] == e[0] && b[1] == e[1] && b[2] == e[2] && b[3] == e[3];
    }
  }

  lemma Decode3(b0: int, b1: int, b2: int)
    requires 0xE0 <= b0 <= 0xEF && 0x80 <= b1 <= 0xBF && 0x80 <= b2 <= 0xBF
    requires b0 == 0xE0 ==> b1 >= 0xA0
    requires b0 == 0xED ==> b1 <= 0x9F
    ensures var v := Scalar3(b0, b1, b2);
      v / 4096 == b0 - 0xE0 && (v / 64) % 64 == b1 - 0x80 && v % 64 == b2 - 0x80
  {
    var v := Scalar3(b0, b1, b2);
    var q := (b0 - 0xE0) * 64 + (b1 - 0x80);
    DivMod64(v, q, b2 - 0x80);
    DivMod64(q, b0 - 0xE0, b1 - 0x80);
    assert v / 4096 == q / 64;
  }

  lemma Decode4(b0: int, b1: int, b2: int, b3: int)
    requires 0xF0 <= b0 <= 0xF4 && 0x80 <= b1 <= 0xBF && 0x80 <= b2 <= 0xBF && 0x80 <= b3 <= 0xBF
    requires b0 == 0xF0 ==> b1 >= 0x90
    requires b0 == 0xF4 ==> b1 <= 0x8F
    ensures var v := Scalar4(b0, b1, b2, b3);
      && v / 262144 == b0 - 0xF0 && (v / 4096) % 64 == b1 - 0x80
      && (v / 64) % 64 == b2 - 0x80 && v % 64 == b3 - 0x80
  {
    var v := Scalar4(b0, b1, b2, b3);
    var q2 := (b0 - 0xF0) * 64 + (b1 - 0x80);
    var q := q2 * 64 + (b2 - 0x80);
    DivMod64(v, q, b3 - 0x80);
    DivMod64(q, q2, b2 - 0x80);
    DivMod64(q2, b0 - 0xF0, b1 - 0x80);
    assert v / 4096 == q2;
    assert v / 262144 == q2 / 64;
  }

  /** Whatever `DecodeChar` accepts is exactly the encoding of the scalar value it returns. */
  lemma EncodeDecodeChar(b: Bytes)
    requires DecodeChar(b).Some?
    ensures b[..DecodeChar(b).value.1] == EncodeChar(DecodeChar(b).value.0)
  {
    var (c, n) := DecodeChar(b).value;
    if n == 2 {
      DivMod64(c as int, b[0] - 0xC0, b[1] - 0x80);
    } else if n == 3 {
      Decode3(b[0], b[1], b[2]);
    } else if n == 4 {
      Decode4(b[0], b[1], b[2], b[3]);
    }
  }

  lemma EncodeAppend(s: string, t: string)
    ensures Encode(s + t) == Encode(s) + Encode(t)
  {
    if s == [] {
      assert s + t == t;
    } else {
      assert (s + t)[0] == s[0];
      assert (s + t)[1..] == s[1..] + t;
      EncodeAppend(s[1..], t);
      calc {
        Encode(s + t);
        EncodeChar(s[0]) + Encode(s[1..] + t);
        EncodeChar(s[0]) + (Encode(s[1..]) + Encode(t));
        (EncodeChar(s[0]) + Encode(s[1..])) + Encode(t);
      }
    }
  }

  /** `from_utf8(s.as_bytes())` gives back `s`. */
  lemma {:induction false} DecodeEncode(s: string)
    ensures Decode(Encode(s)) == Some(s)
  {
    if s != [] {
      var b := Encode(s);
      var n := CharLen(s[0]);
      DecodeEncodeChar(s[0], Encode(s[1..]));
      assert b[n..] == Encode(s[1..]);
      DecodeEncode(s[1..]);
      assert [s[0]] + s[1..] == s;
    }
  }

  /** `from_utf8` accepts only canonical encodings: what it decodes re-encodes to the input. */
  lemma {:induction false} EncodeDecode(b: Bytes)
    requires Decode(b).Some?
    ensures Encode(Decode(b).value) == b
    decreases |b|
  {
    if |b| > 0 {
      var (c, n) := DecodeChar(b).value;
      EncodeDecodeChar(b);
      var s := Decode(b[n..]).value;
      EncodeDecode(b[n..]);
      var r := Decode(b).value;
      assert r == [c] + s;
      assert r[0] == c && r[1..] == s;
      assert b == b[..n] + b[n..];
    }
  }

  /** Two strings with the same bytes are the same string. */
  lemma EncodeInjective(s: string, t: string)
    requires Encode(s) == Encode(t)
    ensures s == t
  {
    DecodeEncode(s);
    DecodeEncode(t);
  }
}
