/**
 * Byte-level encodings used by the decoder: little-endian 32-bit integers (struct '<i'),
 * lowercase hexadecimal text of bytes (bytes.hex()) and of naturals (hex() / str() of an int).
 */
module Bytes {
  /** A byte of the buffer. */
  newtype byte = x: int | 0 <= x < 0x100

  const TWO_31: int := 0x8000_0000
  const TWO_32: int := 0x1_0000_0000

  /** Unsigned little-endian value of four bytes. */
  function U32(b: seq<byte>): (n: nat)
    requires |b| == 4
    ensures n < TWO_32
  {
    b[0] as int + 0x100 * (b[1] as int + 0x100 * (b[2] as int + 0x100 * b[3] as int))
  }

  /** struct.unpack('<i', b): the signed two's-complement little-endian value of four bytes. */
  function Int32(b: seq<byte>): (x: int)
    requires |b| == 4
    ensures -TWO_31 <= x < TWO_31
    ensures (x < 0) == (b[3] >= 0x80)
  {
    var u := U32(b);
    if u < TWO_31 then u else u - TWO_32
  }

  /** struct.pack('<i', x): the four bytes a signed 32-bit value is stored as. */
  function Int32Bytes(x: int): (b: seq<byte>)
    requires -TWO_31 <= x < TWO_31
    ensures |b| == 4
  {
    var u0 := if x < 0 then x + TWO_32 else x;
    var u1 := u0 / 0x100;
    var u2 := u1 / 0x100;
    [(u0 % 0x100) as byte, (u1 % 0x100) as byte, (u2 % 0x100) as byte, (u2 / 0x100) as byte]
  }

  /** Packing then unpacking gives the value back. */
  lemma Int32OfBytes(x: int)
    requires -TWO_31 <= x < TWO_31
    ensures Int32(Int32Bytes(x)) == x
  {
    var u0 := if x < 0 then x + TWO_32 else x;
    var u1 := u0 / 0x100;
    var u2 := u1 / 0x100;
    assert u0 == u0 % 0x100 + 0x100 * u1;
    assert u1 == u1 % 0x100 + 0x100 * u2;
    assert u2 == u2 % 0x100 + 0x100 * (u2 / 0x100);
    assert U32(Int32Bytes(x)) == u0;
  }

  /** Unpacking then packing gives the bytes back: every 4-byte pattern is some int32. */
  lemma BytesOfInt32(b: seq<byte>)
    requires |b| == 4
    ensures Int32Bytes(Int32(b)) == b
  {
    var u0 := U32(b);
    var u1 := b[1] as int + 0x100 * (b[2] as int + 0x100 * b[3] as int);
    var u2 := b[2] as int + 0x100 * b[3] as int;
    assert u0 / 0x100 == u1 && u0 % 0x100 == b[0] as int;
    assert u1 / 0x100 == u2 && u1 % 0x100 == b[1] as int;
    assert u2 / 0x100 == b[3] as int && u2 % 0x100 == b[2] as int;
    assert (if Int32(b) < 0 then Int32(b) + TWO_32 else Int32(b)) == u0;
  }

  // ---------------------------------------------------------------------------
  // Digits

  predicate IsHexDigit(c: char) { '0' <= c <= '9' || 'a' <= c <= 'f' }

  /** The lowercase digit character of value d. */
  function DigitChar(d: nat): (c: char)
    requires d < 16
    ensures IsHexDigit(c)
    ensures d < 10 ==> '0' <= c <= '9'
  {
    if d < 10 then ('0' as int + d) as char else ('a' as int + d - 10) as char
  }

  /** The value of a lowercase hex digit character; the inverse of DigitChar. */
  function DigitOf(c: char): (d: nat)
    requires IsHexDigit(c)
    ensures d < 16 && DigitChar(d) == c
  {
    if c <= '9' then c as int - '0' as int else c as int - 'a' as int + 10
  }

  lemma DigitCharInjective(d: nat, e: nat)
    requires d < 16 && e < 16 && DigitChar(d) == DigitChar(e)
    ensures d == e
  {
    assert DigitOf(DigitChar(d)) == d && DigitOf(DigitChar(e)) == e;
  }

  // ---------------------------------------------------------------------------
  // bytes.hex() and its inverse bytes.fromhex()

  /** bytes.hex(): two lowercase digits per byte, high nibble first. */
  function Hex(b: seq<byte>): (t: string)
    ensures |t| == 2 * |b|
    ensures forall i :: 0 <= i < |t| ==> IsHexDigit(t[i])
  {
    if b == [] then [] else [DigitChar(b[0] as int / 16), DigitChar(b[0] as int % 16)] + Hex(b[1..])
  }

  /** bytes.fromhex() restricted to lowercase digit text of even length. */
  function Unhex(t: string): (b: seq<byte>)
    requires |t| % 2 == 0
    requires forall i :: 0 <= i < |t| ==> IsHexDigit(t[i])
    ensures |b| == |t| / 2
  {
    if t == [] then [] else [(16 * DigitOf(t[0]) + DigitOf(t[1])) as byte] + Unhex(t[2..])
  }

  lemma {:induction false} UnhexHex(b: seq<byte>)
    ensures Unhex(Hex(b)) == b
  {
    if b != [] {
      var t := Hex(b);
      var hi, lo := b[0] as int / 16, b[0] as int % 16;
      assert DigitOf(t[0]) == hi && DigitOf(t[1]) == lo;
      assert 16 * hi + lo == b[0] as int;
      assert Unhex(t)[0] == b[0];
      assert t[2..] == Hex(b[1..]);
      UnhexHex(b[1..]);
      assert Unhex(t) == [b[0]] + Unhex(t[2..]);
    }
  }

  /** Distinct byte strings have distinct hex text. */
  lemma HexInjective(a: seq<byte>, b: seq<byte>)
    requires Hex(a) == Hex(b)
    ensures a == b
  {
    UnhexHex(a);
    UnhexHex(b);
  }

  function Reverse<T>(s: seq<T>): (r: seq<T>)
    ensures |r| == |s|
    ensures forall i :: 0 <= i < |s| ==> r[i] == s[|s| - 1 - i]
  {
    if s == [] then [] else Reverse(s[1..]) + [s[0]]
  }

  lemma {:induction false} ReverseReverse<T>(s: seq<T>)
    ensures Reverse(Reverse(s)) == s
  {
    var r := Reverse(Reverse(s));
    assert |r| == |s|;
    forall i | 0 <= i < |s| ensures r[i] == s[i] {
      assert r[i] == Reverse(s)[|s| - 1 - i];
    }
  }

  // ---------------------------------------------------------------------------
  // hex(n)[2:] and str(n): digits of a natural without padding

  /** The digits of n in the given base, most significant first, without leading zeros. */
  function NatText(n: nat, base: nat): (t: string)
    requires 2 <= base <= 16
    ensures |t| >= 1
    ensures forall i :: 0 <= i < |t| ==> IsHexDigit(t[i])
    ensures base <= 10 ==> forall i :: 0 <= i < |t| ==> '0' <= t[i] <= '9'
    decreases n
  {
    if n < base then [DigitChar(n)]
    else
      DivSmaller(n, base);
      NatText(n / base, base) + [DigitChar(n % base)]
  }

  /** The value of a digit text in the given base; the inverse of NatText. */
  function TextValue(t: string, base: nat): nat
    requires 2 <= base <= 16
    requires forall i :: 0 <= i < |t| ==> IsHexDigit(t[i])
  {
    if t == [] then 0 else TextValue(t[..|t| - 1], base) * base + DigitOf(t[|t| - 1])
  }

  lemma {:induction false} TextValueOfNatText(n: nat, base: nat)
    requires 2 <= base <= 16
    ensures TextValue(NatText(n, base), base) == n
    decreases n
  {
    if n >= base {
      var q, d := n / base, n % base;
      assert 1 <= q < n by { DivSmaller(n, base); }
      var head := NatText(q, base);
      var t := NatText(n, base);
      assert t[..|t| - 1] == head;
      TextValueOfNatText(q, base);
      calc {
        TextValue(t, base);
        TextValue(head, base) * base + DigitOf(DigitChar(d));
        q * base + d;
        { DivMod(n, base); }
        n;
      }
    }
  }

  lemma DivSmaller(n: nat, base: nat)
    requires 2 <= base <= n
    ensures 1 <= n / base < n
  {
  }

  lemma DivMod(n: nat, base: nat)
    requires base > 0
    ensures (n / base) * base + n % base == n
  {
  }

  /** Digit text never starts with '0' except for the value zero itself. */
  lemma {:induction false} NatTextNoLeadingZero(n: nat, base: nat)
    requires 2 <= base <= 16
    ensures (NatText(n, base)[0] == '0') == (n == 0)
    decreases n
  {
    if n >= base {
      DivSmaller(n, base);
      NatTextNoLeadingZero(n / base, base);
      assert NatText(n, base)[0] == NatText(n / base, base)[0];
    } else {
      assert NatText(n, base) == [DigitChar(n)];
    }
  }

  /** A value below base^k takes at most k digits; a 32-bit value at most 8 hex digits. */
  lemma {:induction false} NatTextLength(n: nat, base: nat, k: nat, bound: nat)
    requires 2 <= base <= 16
    requires n < bound && bound == Power(base, k) && k >= 1
    ensures |NatText(n, base)| <= k
    decreases k
  {
    if n >= base {
      assert Power(base, 1) == base;
      assert k > 1;
      DivBelowPower(n, base, k - 1);
      NatTextLength(n / base, base, k - 1, Power(base, k - 1));
    }
  }

  function Power(b: nat, k: nat): nat {
    if k == 0 then 1 else b * Power(b, k - 1)
  }

  lemma DivBelowPower(n: nat, base: nat, k: nat)
    requires 2 <= base && n < base * Power(base, k)
    ensures n / base < Power(base, k)
  {
  }

  /** str(i) for a Python int. */
  function IntText(i: int): (t: string)
    ensures |t| >= 1
  {
    if i < 0 then "-" + NatText(-i, 10) else NatText(i, 10)
  }

  /** int(t) for the text str() produces: an optional minus sign, then decimal digits. */
  function IntValue(t: string): int
    requires |t| >= 1
    requires forall i :: 1 <= i < |t| ==> IsHexDigit(t[i])
    requires t[0] == '-' || IsHexDigit(t[0])
  {
    if t[0] == '-' then -(TextValue(t[1..], 10) as int) else TextValue(t, 10)
  }

  /** str() loses nothing: int(str(i)) == i. */
  lemma IntTextValue(i: int)
    ensures var t := IntText(i);
      && (t[0] == '-' || '0' <= t[0] <= '9')
      && (forall k :: 1 <= k < |t| ==> '0' <= t[k] <= '9')
      && (t[0] == '-' || IsHexDigit(t[0])) && (forall k :: 1 <= k < |t| ==> IsHexDigit(t[k]))
      && IntValue(t) == i
  {
    var t := IntText(i);
    if i < 0 {
      var digits := NatText(-i, 10);
      assert t[1..] == digits;
      TextValueOfNatText(-i, 10);
    } else {
      TextValueOfNatText(i, 10);
    }
  }
}
