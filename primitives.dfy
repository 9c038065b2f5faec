/**
 * The forward-only cursor over the buffer and the primitive readers (read_int ... read_file_path).
 * Each reader has a pure meaning `XAt(s, p)` over the buffer `s` and a start position `p`, and an
 * imperative reader `ReadX(c)` that advances the cursor and is proved to follow that meaning.
 */
module Primitives {
  import opened Outcomes
  import opened Bytes
  import opened PyValues
  import Utf8

  /** The file being decoded: an immutable buffer and a position that only moves forward. */
  class Cursor {
    const data: seq<byte>
    var pos: nat

    ghost predicate Valid()
      reads this
    {
      pos <= |data|
    }

    constructor (data: seq<byte>)
      ensures Valid() && this.data == data && pos == 0
    {
      this.data := data;
      pos := 0;
    }

    /** `file.read(n)`, except that a read past the end (or of negative length) fails. */
    method Read(n: int) returns (r: Result<seq<byte>>)
      requires Valid()
      modifies this
      ensures Valid() && Follows(r, BytesAt(data, old(pos), n), pos)
    {
      if n < 0 || pos + n > |data| {
        return Err(Truncated);
      }
      r := Ok(data[pos..pos + n]);
      pos := pos + n;
    }
  }

  /** The n bytes at p. */
  function BytesAt(s: seq<byte>, p: nat, n: int): (r: Parsed<seq<byte>>)
    ensures r.Ok? <==> 0 <= n && p + n <= |s|
    ensures r.Ok? ==> r.value.next == p + n && r.value.v == s[p..p + n]
  {
    if n < 0 || p + n > |s| then Err(Truncated) else Ok(Decoded(s[p..p + n], p + n))
  }

  /** The number of iterations of `for _ in range(n)`. */
  function RangeCount(n: int): nat {
    if n < 0 then 0 else n
  }

  // ---------------------------------------------------------------------------
  // Pure meaning of the primitive readers

  /** read_int: a signed little-endian 32-bit integer. */
  function IntAt(s: seq<byte>, p: nat): (r: Parsed<int>)
    ensures r.Ok? <==> p + 4 <= |s|
    ensures Consumes(r, p, 4)
    ensures r.Ok? ==> -TWO_31 <= r.value.v < TWO_31
  {
    var b :- BytesAt(s, p, 4);
    Ok(Decoded(Int32(b.v), b.next))
  }

  /** The int read is the one whose two's-complement little-endian encoding is the four bytes. */
  lemma IntAtBytes(s: seq<byte>, p: nat)
    requires p + 4 <= |s|
    ensures Int32Bytes(IntAt(s, p).value.v) == s[p..p + 4]
  {
    BytesOfInt32(s[p..p + 4]);
  }

  /** Reading back an encoded int32 gives the int, whatever surrounds it. */
  lemma IntAtEncoded(pre: seq<byte>, x: int, post: seq<byte>)
    requires -TWO_31 <= x < TWO_31
    ensures IntAt(pre + Int32Bytes(x) + post, |pre|) == Ok(Decoded(x, |pre| + 4))
  {
    var s := pre + Int32Bytes(x) + post;
    assert s[|pre|..|pre| + 4] == Int32Bytes(x);
    Int32OfBytes(x);
  }

  /** read_short: reads four bytes, then struct '<h' rejects them because it needs exactly two. */
  function ShortAt(s: seq<byte>, p: nat): (r: Parsed<int>)
    ensures r.Err?
    ensures r.error == (if p + 4 <= |s| then ShortUnpack else Truncated)
  {
    var b :- BytesAt(s, p, 4);
    Err(ShortUnpack)
  }

  /** read_float: four bytes kept as an opaque float32 bit pattern. */
  function FloatAt(s: seq<byte>, p: nat): (r: Parsed<F32>)
    ensures r.Ok? <==> p + 4 <= |s|
    ensures Consumes(r, p, 4)
    ensures r.Ok? ==> r.value.v == F32(U32(s[p..p + 4]))
  {
    var b :- BytesAt(s, p, 4);
    Ok(Decoded(F32(U32(b.v)), b.next))
  }

  /** read_bool: struct '<?' is true exactly for a nonzero byte. */
  function BoolAt(s: seq<byte>, p: nat): (r: Parsed<bool>)
    ensures r.Ok? <==> p + 1 <= |s|
    ensures Consumes(r, p, 1)
    ensures r.Ok? ==> (r.value.v <==> s[p] != 0)
  {
    var b :- BytesAt(s, p, 1);
    Ok(Decoded(b.v[0] != 0, b.next))
  }

  /** read_string: an int32 byte count, then that many bytes of UTF-8 text. */
  function StringAt(s: seq<byte>, p: nat): (r: Parsed<string>)
    ensures r.Ok? ==> IntAt(s, p).Ok? && 0 <= IntAt(s, p).value.v && r.value.next == p + 4 + IntAt(s, p).value.v <= |s|
    ensures r.Err? ==> r.error == Truncated || r.error == InvalidText
  {
    var size :- IntAt(s, p);
    var raw :- BytesAt(s, size.next, size.v);
    match Utf8.Decode(raw.v)
    case None => Err(InvalidText)
    case Some(text) => Ok(Decoded(text, raw.next))
  }

  /**
   * The text read is exactly the announced payload, and with the payload inside the buffer the read
   * fails exactly when the payload is not well-formed UTF-8.
   */
  lemma StringAtText(s: seq<byte>, p: nat)
    ensures StringAt(s, p).Ok? ==>
              Utf8.Encode(StringAt(s, p).value.v) == s[p + 4..StringAt(s, p).value.next]
    ensures IntAt(s, p).Ok? && 0 <= IntAt(s, p).value.v && p + 4 + IntAt(s, p).value.v <= |s| ==>
              (StringAt(s, p).Ok? <==> Utf8.Decode(s[p + 4..p + 4 + IntAt(s, p).value.v]).Some?)
  {
    if StringAt(s, p).Ok? {
      Utf8.EncodeDecode(s[p + 4..StringAt(s, p).value.next]);
    }
  }

  /** A string as a writer lays it out: its UTF-8 byte count, then the bytes. */
  function StringBytes(t: string): seq<byte>
    requires |Utf8.Encode(t)| < TWO_31
  {
    Int32Bytes(|Utf8.Encode(t)|) + Utf8.Encode(t)
  }

  /** Reading back a laid-out string gives the string, whatever surrounds it. */
  lemma StringAtEncoded(pre: seq<byte>, t: string, post: seq<byte>)
    requires |Utf8.Encode(t)| < TWO_31
    ensures StringAt(pre + StringBytes(t) + post, |pre|) ==
              Ok(Decoded(t, |pre| + 4 + |Utf8.Encode(t)|))
  {
    var e := Utf8.Encode(t);
    var s := pre + StringBytes(t) + post;
    assert s == pre + Int32Bytes(|e|) + (e + post);
    IntAtEncoded(pre, |e|, e + post);
    assert s[|pre| + 4..|pre| + 4 + |e|] == e;
    Utf8.DecodeEncode(t);
  }

  /** read_hash: the lowercase hex text of the four bytes in reversed order (a type code). */
  function HashAt(s: seq<byte>, p: nat): (r: Parsed<string>)
    ensures r.Ok? <==> p + 4 <= |s|
    ensures Consumes(r, p, 4)
    ensures r.Ok? ==> |r.value.v| == 8
  {
    var b :- BytesAt(s, p, 4);
    Ok(Decoded(Hex(Reverse(b.v)), b.next))
  }

  /** A type code is eight lowercase hex digits that spell the four bytes in reversed order. */
  lemma HashAtText(s: seq<byte>, p: nat)
    requires p + 4 <= |s|
    ensures forall i :: 0 <= i < 8 ==> IsHexDigit(HashAt(s, p).value.v[i])
    ensures Unhex(HashAt(s, p).value.v) == Reverse(s[p..p + 4])
  {
    UnhexHex(Reverse(s[p..p + 4]));
  }

  /** Different four-byte groups give different type codes. */
  lemma HashAtInjective(s: seq<byte>, p: nat, t: seq<byte>, q: nat)
    requires p + 4 <= |s| && q + 4 <= |t|
    requires HashAt(s, p).value.v == HashAt(t, q).value.v
    ensures s[p..p + 4] == t[q..q + 4]
  {
    HashAtText(s, p);
    HashAtText(t, q);
    ReverseReverse(s[p..p + 4]);
    ReverseReverse(t[q..q + 4]);
  }

  /** The float stored in the four bytes at p, as a value; the bytes must be there. */
  function FloatValueAt(s: seq<byte>, p: nat): Value
    requires p + 4 <= |s|
  {
    VFloat(F32(U32(s[p..p + 4])))
  }

  /** read_vector: a tuple of three floats. */
  function VectorAt(s: seq<byte>, p: nat): (r: Parsed<Value>)
    ensures r.Ok? <==> p + 12 <= |s|
    ensures Consumes(r, p, 12)
    ensures r.Ok? ==>
              && r.value.v.VTuple? && |r.value.v.items| == 3
              && forall i :: 0 <= i < 3 ==> r.value.v.items[i] == FloatValueAt(s, p + 4 * i)
  {
    var x :- FloatAt(s, p);
    var y :- FloatAt(s, x.next);
    var z :- FloatAt(s, y.next);
    Ok(Decoded(VTuple([VFloat(x.v), VFloat(y.v), VFloat(z.v)]), z.next))
  }

  /** read_color: a tuple of four floats (r, g, b, a). */
  function ColorAt(s: seq<byte>, p: nat): (r: Parsed<Value>)
    ensures r.Ok? <==> p + 16 <= |s|
    ensures Consumes(r, p, 16)
    ensures r.Ok? ==>
              && r.value.v.VTuple? && |r.value.v.items| == 4
              && forall i :: 0 <= i < 4 ==> r.value.v.items[i] == FloatValueAt(s, p + 4 * i)
  {
    var red :- FloatAt(s, p);
    var green :- FloatAt(s, red.next);
    var blue :- FloatAt(s, green.next);
    var alpha :- FloatAt(s, blue.next);
    Ok(Decoded(VTuple([VFloat(red.v), VFloat(green.v), VFloat(blue.v), VFloat(alpha.v)]), alpha.next))
  }

  const TRANSFORM_KEYS: seq<string> := ["pos", "rot_x", "rot_y", "rot_z", "scale"]

  /** The five transform keys are distinct, and each is a string of length 3 or 5. */
  lemma TransformKeysDistinct()
    ensures forall i, j :: 0 <= i < j < 5 ==> TRANSFORM_KEYS[i] != TRANSFORM_KEYS[j]
    ensures forall i :: 0 <= i < 5 ==> (|TRANSFORM_KEYS[i]| == 3 || |TRANSFORM_KEYS[i]| == 5)
  {
    assert "rot_x"[4] == 'x' && "rot_y"[4] == 'y' && "rot_z"[4] == 'z' && "scale"[0] == 's';
  }

  /** Every transform key has three or five characters. */
  lemma NotTransformKey(k: string)
    requires |k| != 3 && |k| != 5
    ensures k !in TRANSFORM_KEYS
  {
    TransformKeysDistinct();
  }

  /** `{**d, **transform}` where d has none of the transform keys: the transform's five entries are appended. */
  lemma TransformSpread(d: Entries, names: seq<string>, e: Entries)
    requires HasKeys(d, names) && HasKeys(e, TRANSFORM_KEYS)
    requires forall i :: 0 <= i < |names| ==> names[i] !in TRANSFORM_KEYS
    ensures PutEach(d, e) == d + e
    ensures HasKeys(d + e, names + TRANSFORM_KEYS)
  {
    TransformKeysDistinct();
    assert UniqueKeys(e) by {
      forall i, j | 0 <= i < j < |e| ensures e[i].0 != e[j].0 {
        assert e[i].0 == VStr(TRANSFORM_KEYS[i]) && e[j].0 == VStr(TRANSFORM_KEYS[j]);
      }
    }
    forall k | k in KeysOf(e) ensures k !in KeysOf(d) {
      var i := KeyIndex(e, k);
      assert k == VStr(TRANSFORM_KEYS[i]);
      NotInKeys(d, k);
    }
    PutEachFresh(d, e);
    KeysAppend(d, e, names, TRANSFORM_KEYS);
  }

  /** read_transform: five vectors, as a dict position, three basis rows, scale. */
  function TransformAt(s: seq<byte>, p: nat): (r: Parsed<Value>)
    ensures r.Ok? <==> p + 60 <= |s|
    ensures Consumes(r, p, 60)
    ensures r.Ok? ==>
              && r.value.v.VDict? && HasKeys(r.value.v.entries, TRANSFORM_KEYS)
              && forall i :: 0 <= i < 5 ==> r.value.v.entries[i].1 == VectorAt(s, p + 12 * i).value.v
  {
    var position :- VectorAt(s, p);
    var rotationX :- VectorAt(s, position.next);
    var rotationY :- VectorAt(s, rotationX.next);
    var rotationZ :- VectorAt(s, rotationY.next);
    var scale :- VectorAt(s, rotationZ.next);
    Ok(Decoded(VDict([
      (Str("pos"), position.v),
      (Str("rot_x"), rotationX.v),
      (Str("rot_y"), rotationY.v),
      (Str("rot_z"), rotationZ.v),
      (Str("scale"), scale.v)]), scale.next))
  }

  /** read_file_path: a root index and a path; the bare path when the index is 0, else the pair. */
  function FilePathAt(s: seq<byte>, p: nat): (r: Parsed<Value>)
    ensures r.Ok? <==> IntAt(s, p).Ok? && StringAt(s, p + 4).Ok?
    ensures r.Ok? ==> r.value.next == StringAt(s, p + 4).value.next
    ensures r.Ok? ==>
      var root, path := IntAt(s, p).value.v, StringAt(s, p + 4).value.v;
      r.value.v == if root == 0 then VStr(path) else VTuple([VInt(root), VStr(path)])
  {
    var root :- IntAt(s, p);
    var path :- StringAt(s, root.next);
    Ok(Decoded(if root.v == 0 then VStr(path.v) else VTuple([VInt(root.v), VStr(path.v)]), path.next))
  }

  // ---------------------------------------------------------------------------
  // Count-prefixed lists: `for _ in range(k): items.append(item(file))`

  /** k items read one after another, each starting where the previous one ended. */
  function Repeat<T>(item: (seq<byte>, nat) -> Parsed<T>, s: seq<byte>, p: nat, k: nat): (r: Parsed<seq<T>>)
    ensures r.Ok? ==> |r.value.v| == k
  {
    if k == 0 then Ok(Decoded([], p))
    else
      var init :- Repeat(item, s, p, k - 1);
      var last :- item(s, init.next);
      Ok(Decoded(init.v + [last.v], last.next))
  }

  /** Once an item fails, the list fails with that error however many items were asked for. */
  lemma {:induction false} RepeatErrorSticks<T>(item: (seq<byte>, nat) -> Parsed<T>, s: seq<byte>, p: nat, i: nat, n: nat)
    requires i <= n && Repeat(item, s, p, i).Err?
    ensures Repeat(item, s, p, n) == Repeat(item, s, p, i)
    decreases n
  {
    if n > i {
      RepeatErrorSticks(item, s, p, i, n - 1);
    }
  }

  /** One more item read successfully extends the list by that item. */
  lemma RepeatStep<T>(item: (seq<byte>, nat) -> Parsed<T>, s: seq<byte>, p: nat, i: nat, xs: seq<T>, q: nat)
    requires Repeat(item, s, p, i) == Ok(Decoded(xs, q)) && item(s, q).Ok?
    ensures Repeat(item, s, p, i + 1) == Ok(Decoded(xs + [item(s, q).value.v], item(s, q).value.next))
  {
  }

  /** An item that fails after i good ones makes every longer list fail with its error. */
  lemma RepeatStepFails<T>(item: (seq<byte>, nat) -> Parsed<T>, s: seq<byte>, p: nat, i: nat, n: nat, xs: seq<T>, q: nat)
    requires i < n && Repeat(item, s, p, i) == Ok(Decoded(xs, q)) && item(s, q).Err?
    ensures Repeat(item, s, p, n) == Err(item(s, q).error)
  {
    RepeatErrorSticks(item, s, p, i + 1, n);
  }

  /** A list of items that each stay in the buffer and move forward stays in the buffer too. */
  lemma {:induction false} RepeatAdvances<T>(item: (seq<byte>, nat) -> Parsed<T>, s: seq<byte>, p: nat, k: nat)
    requires forall q: nat :: Advances(item(s, q), q, |s|)
    requires p <= |s|
    ensures Advances(Repeat(item, s, p, k), p, |s|)
  {
    if k > 0 {
      RepeatAdvances(item, s, p, k - 1);
    }
  }

  /** Every item of a list has a property that every item the reader can produce has. */
  lemma {:induction false} RepeatAll<T>(item: (seq<byte>, nat) -> Parsed<T>, P: T -> bool, s: seq<byte>, p: nat, k: nat)
    requires forall q: nat :: item(s, q).Ok? ==> P(item(s, q).value.v)
    ensures Repeat(item, s, p, k).Ok? ==> forall i :: 0 <= i < k ==> P(Repeat(item, s, p, k).value.v[i])
  {
    if k > 0 && Repeat(item, s, p, k).Ok? {
      RepeatAll(item, P, s, p, k - 1);
      var init := Repeat(item, s, p, k - 1).value;
      assert Repeat(item, s, p, k).value.v == init.v + [item(s, init.next).value.v];
    }
  }

  /**
   * A list of fixed-width items, each readable exactly when its bytes are in the buffer, is
   * readable exactly when k times that width fits, and is exactly that long.
   */
  lemma {:induction false} RepeatFixed<T>(item: (seq<byte>, nat) -> Parsed<T>, s: seq<byte>, p: nat, k: nat, width: nat)
    requires forall q: nat :: (item(s, q).Ok? <==> q + width <= |s|) && Consumes(item(s, q), q, width)
    requires p <= |s|
    ensures Repeat(item, s, p, k).Ok? <==> p + k * width <= |s|
    ensures Consumes(Repeat(item, s, p, k), p, k * width)
  {
    if k > 0 {
      RepeatFixed(item, s, p, k - 1, width);
      assert (k - 1) * width + width == k * width;
    }
  }

  /**
   * Two item readers that succeed together with equal results give lists that succeed together
   * with equal results.
   */
  lemma {:induction false} RepeatAgree<T>(f: (seq<byte>, nat) -> Parsed<T>, g: (seq<byte>, nat) -> Parsed<T>,
                                         s: seq<byte>, p: nat, k: nat)
    requires forall q: nat :: f(s, q).Ok? ==> g(s, q) == f(s, q)
    ensures Repeat(f, s, p, k).Ok? ==> Repeat(g, s, p, k) == Repeat(f, s, p, k)
  {
    if k > 0 {
      RepeatAgree(f, g, s, p, k - 1);
    }
  }

  // ---------------------------------------------------------------------------
  // Lists read one item at a time

  /** `xs` put in front of the list a reader yields, its errors left as they are. */
  function Prepend<T>(xs: seq<T>, r: Parsed<seq<T>>): (q: Parsed<seq<T>>)
    ensures q.Ok? <==> r.Ok?
    ensures q.Err? ==> q.error == r.error
    ensures q.Ok? ==> q.value == Decoded(xs + r.value.v, r.value.next)
  {
    match r
    case Ok(d) => Ok(Decoded(xs + d.v, d.next))
    case Err(e) => Err(e)
  }

  /** Putting nothing in front changes nothing; putting xs, then ys in front puts ys + xs. */
  lemma PrependLaws<T>(xs: seq<T>, ys: seq<T>, r: Parsed<seq<T>>)
    ensures Prepend([], r) == r
    ensures Prepend(ys, Prepend(xs, r)) == Prepend(ys + xs, r)
  {
    if r.Ok? {
      assert [] + r.value.v == r.value.v;
      assert ys + (xs + r.value.v) == (ys + xs) + r.value.v;
    }
  }

  // ---------------------------------------------------------------------------
  // The imperative readers

  method ReadInt(c: Cursor) returns (r: Result<int>)
    requires c.Valid()
    modifies c
    ensures c.Valid() && Follows(r, IntAt(c.data, old(c.pos)), c.pos)
  {
    var b :- c.Read(4);
    BytesOfInt32(b);
    return Ok(Int32(b));
  }

  method ReadShort(c: Cursor) returns (r: Result<int>)
    requires c.Valid()
    modifies c
    ensures c.Valid() && Follows(r, ShortAt(c.data, old(c.pos)), c.pos)
  {
    var b :- c.Read(4);
    return Err(ShortUnpack);
  }

  method ReadFloat(c: Cursor) returns (r: Result<F32>)
    requires c.Valid()
    modifies c
    ensures c.Valid() && Follows(r, FloatAt(c.data, old(c.pos)), c.pos)
  {
    var b :- c.Read(4);
    return Ok(F32(U32(b)));
  }

  method ReadBool(c: Cursor) returns (r: Result<bool>)
    requires c.Valid()
    modifies c
    ensures c.Valid() && Follows(r, BoolAt(c.data, old(c.pos)), c.pos)
  {
    var b :- c.Read(1);
    return Ok(b[0] != 0);
  }

  method ReadString(c: Cursor) returns (r: Result<string>)
    requires c.Valid()
    modifies c
    ensures c.Valid() && Follows(r, StringAt(c.data, old(c.pos)), c.pos)
  {
    var size :- ReadInt(c);
    var raw :- c.Read(size);
    match Utf8.Decode(raw)
    case None =>
      return Err(InvalidText);
    case Some(text) =>
      return Ok(text);
  }

  method ReadHash(c: Cursor) returns (r: Result<string>)
    requires c.Valid()
    modifies c
    ensures c.Valid() && Follows(r, HashAt(c.data, old(c.pos)), c.pos)
  {
    var b :- c.Read(4);
    return Ok(Hex(Reverse(b)));
  }

  method ReadVector(c: Cursor) returns (r: Result<Value>)
    requires c.Valid()
    modifies c
    ensures c.Valid() && Follows(r, VectorAt(c.data, old(c.pos)), c.pos)
  {
    var x :- ReadFloat(c);
    var y :- ReadFloat(c);
    var z :- ReadFloat(c);
    return Ok(VTuple([VFloat(x), VFloat(y), VFloat(z)]));
  }

  method ReadColor(c: Cursor) returns (r: Result<Value>)
    requires c.Valid()
    modifies c
    ensures c.Valid() && Follows(r, ColorAt(c.data, old(c.pos)), c.pos)
  {
    var red :- ReadFloat(c);
    var green :- ReadFloat(c);
    var blue :- ReadFloat(c);
    var alpha :- ReadFloat(c);
    return Ok(VTuple([VFloat(red), VFloat(green), VFloat(blue), VFloat(alpha)]));
  }

  method ReadTransform(c: Cursor) returns (r: Result<Value>)
    requires c.Valid()
    modifies c
    ensures c.Valid() && Follows(r, TransformAt(c.data, old(c.pos)), c.pos)
  {
    var position :- ReadVector(c);
    var rotationX :- ReadVector(c);
    var rotationY :- ReadVector(c);
    var rotationZ :- ReadVector(c);
    var scale :- ReadVector(c);
    return Ok(VDict([
      (Str("pos"), position),
      (Str("rot_x"), rotationX),
      (Str("rot_y"), rotationY),
      (Str("rot_z"), rotationZ),
      (Str("scale"), scale)]));
  }

  method ReadFilePath(c: Cursor) returns (r: Result<Value>)
    requires c.Valid()
    modifies c
    ensures c.Valid() && Follows(r, FilePathAt(c.data, old(c.pos)), c.pos)
  {
    var root :- ReadInt(c);
    var path :- ReadString(c);
    return Ok(if root == 0 then VStr(path) else VTuple([VInt(root), VStr(path)]));
  }

  /** `for _ in range(count): read_string(file)`, keeping the strings read. */
  method ReadStrings(c: Cursor, count: int) returns (r: Result<seq<string>>)
    requires c.Valid()
    modifies c
    ensures c.Valid() && Follows(r, Repeat(StringAt, c.data, old(c.pos), RangeCount(count)), c.pos)
  {
    ghost var start := c.pos;
    var names: seq<string> := [];
    var i := 0;
    while i < count
      invariant c.Valid()
      invariant 0 <= i <= RangeCount(count)
      invariant Repeat(StringAt, c.data, start, i) == Ok(Decoded(names, c.pos))
      decreases count - i
    {
      ghost var q := c.pos;
      var name := ReadString(c);
      if name.Err? {
        RepeatStepFails(StringAt, c.data, start, i, RangeCount(count), names, q);
        return Err(name.error);
      }
      RepeatStep(StringAt, c.data, start, i, names, q);
      names := names + [name.value];
      i := i + 1;
    }
    assert i == RangeCount(count);
    return Ok(names);
  }
}
