module Leb {
  // LEB128 integers (src/wat2wasm.c, buf_uleb and buf_sleb; section 5.2.2 of the WebAssembly
  // Core Specification): what is written reads back, and is short.

  type Byte = b: int | 0 <= b < 256

  /** Unsigned: seven bits a byte, low ones first, 0x80 on all but the last. */
  function Uleb(v: nat): (bs: seq<Byte>)
    ensures |bs| > 0
  {
    if v < 128 then [v] else [v % 128 + 128] + Uleb(v / 128)
  }

  /** Signed: the last byte's 0x40 bit is the sign. */
  function Sleb(v: int): (bs: seq<Byte>)
    ensures |bs| > 0
    decreases if v < 0 then -v else v
  {
    if -64 <= v < 64 then [v % 128] else [v % 128 + 128] + Sleb(v / 128)
  }

  datatype Read<+T> = Bad | Good(v: T, rest: seq<Byte>)

  /** The specification's reading of an unsigned integer. */
  function ReadU(bs: seq<Byte>): Read<nat>
    decreases |bs|
  {
    if bs == [] then Bad
    else if bs[0] < 128 then Good(bs[0], bs[1..])
    else
      match ReadU(bs[1..])
      case Bad => Bad
      case Good(v, rest) => Good(v * 128 + (bs[0] - 128), rest)
  }

  function ReadS(bs: seq<Byte>): Read<int>
    decreases |bs|
  {
    if bs == [] then Bad
    else if bs[0] < 64 then Good(bs[0], bs[1..])
    else if bs[0] < 128 then Read<int>.Good((bs[0] as int) - 128, bs[1..])
    else
      match ReadS(bs[1..])
      case Bad => Bad
      case Good(v, rest) => Good(v * 128 + (bs[0] - 128), rest)
  }

  lemma {:induction false} UlebReads(v: nat, rest: seq<Byte>)
    ensures ReadU(Uleb(v) + rest) == Good(v, rest)
    decreases v
  {
    var bs := Uleb(v) + rest;
    if v < 128 {
      assert bs[1..] == rest;
    } else {
      UlebReads(v / 128, rest);
      assert bs[1..] == Uleb(v / 128) + rest;
    }
  }

  lemma {:induction false} SlebReads(v: int, rest: seq<Byte>)
    ensures ReadS(Sleb(v) + rest) == Good(v, rest)
    decreases if v < 0 then -v else v
  {
    var bs := Sleb(v) + rest;
    if -64 <= v < 64 {
      assert bs[1..] == rest;
    } else {
      SlebReads(v / 128, rest);
      assert bs[1..] == Sleb(v / 128) + rest;
    }
  }

  function Pow128(n: nat): (p: nat)
    ensures p > 0
  {
    if n == 0 then 1 else 128 * Pow128(n - 1)
  }

  /** Byte i holds the i-th seven bits, and 0x80 says that more follow; in two's complement
      for signed integers. */
  lemma {:induction false} UlebDigits(v: nat, i: nat)
    requires i < |Uleb(v)|
    ensures Uleb(v)[i] == (v / Pow128(i)) % 128 + (if i + 1 < |Uleb(v)| then 128 else 0)
    decreases i
  {
    if i > 0 {
      UlebDigits(v / 128, i - 1);
      DivDiv(v, Pow128(i - 1));
    }
  }

  lemma {:induction false} SlebDigits(v: int, i: nat)
    requires i < |Sleb(v)|
    ensures Sleb(v)[i] == (v / Pow128(i)) % 128 + (if i + 1 < |Sleb(v)| then 128 else 0)
    decreases i
  {
    if i > 0 {
      SlebDigits(v / 128, i - 1);
      DivDiv(v, Pow128(i - 1));
    }
  }

  lemma {:induction false} DivDiv(v: int, n: nat)
    requires n > 0
    ensures v / 128 / n == v / (128 * n)
  {
    var q, a, r := v / 128 / n, v / 128, v % 128;
    var s := a % n;
    assert v == 128 * a + r && a == q * n + s;
    assert v == q * (128 * n) + (128 * s + r);
    assert 128 * s + r < 128 * n;
    QuotientIs(v, 128 * n, q, 128 * s + r);
  }

  lemma {:induction false} QuotientIs(v: int, d: nat, q: int, r: int)
    requires d > 0 && v == q * d + r && 0 <= r < d
    ensures v / d == q
  {
    var p := v / d;
    var s := v % d;
    assert (p - q) * d == r - s by {
      assert v == p * d + s;
      assert (p - q) * d == p * d - q * d;
    }
    Times(p - q, d);
    Times(q - p, d);
    assert (q - p) * d == -((p - q) * d);
  }

  lemma {:induction false} Times(k: int, d: nat)
    ensures k >= 1 ==> k * d >= d
  {
  }

  /** An n-septet value takes at most n bytes: 5 for 32 bits, 10 for 64. */
  lemma {:induction false} UlebShort(v: nat, n: nat)
    requires n > 0 && v < Pow128(n)
    ensures |Uleb(v)| <= n
    decreases n
  {
    if v >= 128 {
      assert v / 128 < Pow128(n - 1);
      UlebShort(v / 128, n - 1);
    }
  }

  lemma {:induction false} SlebShort(v: int, n: nat)
    requires n > 0 && -64 * Pow128(n - 1) <= v < 64 * Pow128(n - 1)
    ensures |Sleb(v)| <= n
    decreases n
  {
    if !(-64 <= v < 64) {
      assert Pow128(n - 1) == 128 * Pow128(n - 2);
      assert -64 * Pow128(n - 2) <= v / 128 < 64 * Pow128(n - 2);
      SlebShort(v / 128, n - 1);
    }
  }

  class Buf {
    var data: seq<Byte>

    constructor ()
      ensures data == []
    {
      data := [];
    }

    method PutByte(b: Byte)
      modifies this
      ensures data == old(data) + [b]
    {
      data := data + [b];
    }

    /** buf_uleb. */
    method PutUleb(value: nat)
      modifies this
      ensures data == old(data) + Uleb(value)
    {
      var v, more := value, true;
      while more
        invariant if more then data + Uleb(v) == old(data) + Uleb(value) else data == old(data) + Uleb(value)
        decreases if more then 1 else 0, v
      {
        var byte := v % 128;
        ghost var was, w := data, v;
        v := v / 128;
        if v != 0 {
          PutByte(byte + 128);
        } else {
          PutByte(byte);
          more := false;
        }
        assert more ==> was + Uleb(w) == data + Uleb(v);
      }
    }

    /** buf_sleb: an arithmetic shift is a division rounding down. */
    method PutSleb(value: int)
      modifies this
      ensures data == old(data) + Sleb(value)
    {
      var v, more := value, true;
      while more
        invariant if more then data + Sleb(v) == old(data) + Sleb(value) else data == old(data) + Sleb(value)
        decreases if more then 1 else 0, if v < 0 then -v else v
      {
        var byte := v % 128;
        ghost var was, w := data, v;
        v := v / 128;
        if (v == 0 && byte < 64) || (v == -1 && byte >= 64) {
          PutByte(byte);
          more := false;
        } else {
          PutByte(byte + 128);
        }
        assert more ==> was + Sleb(w) == data + Sleb(v);
      }
    }
  }
}
