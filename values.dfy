/**
 * The Python values the readers build and the emitter renders: None, bools, ints, float32 bit
 * patterns, strings, tuples, lists and insertion-ordered dicts with `d[k] = v` and `**x` semantics.
 */
module PyValues {
  import opened Outcomes

  /** A float32, kept as the unsigned little-endian value of its four bytes (an opaque bit pattern). */
  datatype F32 = F32(bits: nat)

  datatype Value =
    | VNone
    | VBool(b: bool)
    | VInt(i: int)
    | VFloat(f: F32)
    | VStr(s: string)
    | VTuple(items: seq<Value>)
    | VList(items: seq<Value>)
    | VDict(entries: seq<(Value, Value)>)

  /** The entries of a dict in insertion order. */
  type Entries = seq<(Value, Value)>

  /** A dict display with string keys, `{'k1': v1, ...}`. */
  function Str(s: string): Value { VStr(s) }

  /** The keys of the dict are the given strings, in this order: `list(d) == names`. */
  predicate HasKeys(d: Entries, names: seq<string>) {
    |d| == |names| && forall i :: 0 <= i < |d| ==> d[i].0 == VStr(names[i])
  }

  /** The dict display `{'k1': v1, 'k2': v2, ...}` with distinct string keys, in their order. */
  function Record(keys: seq<string>, values: seq<Value>): (d: Entries)
    requires |keys| == |values|
    ensures HasKeys(d, keys)
    ensures forall i :: 0 <= i < |d| ==> d[i].1 == values[i]
  {
    if keys == [] then [] else [(VStr(keys[0]), values[0])] + Record(keys[1..], values[1..])
  }

  lemma KeysAppend(a: Entries, b: Entries, m: seq<string>, n: seq<string>)
    requires HasKeys(a, m) && HasKeys(b, n)
    ensures HasKeys(a + b, m + n)
  {
  }

  ghost predicate UniqueKeys(d: Entries) {
    forall i, j :: 0 <= i < j < |d| ==> d[i].0 != d[j].0
  }

  function KeysOf(d: Entries): set<Value> {
    if d == [] then {} else {d[0].0} + KeysOf(d[1..])
  }

  lemma {:induction false} KeysOfAppend(a: Entries, b: Entries)
    ensures KeysOf(a + b) == KeysOf(a) + KeysOf(b)
  {
    if a == [] {
      assert a + b == b;
    } else {
      var ab := a + b;
      assert ab != [] && ab[0] == a[0];
      assert ab[1..] == a[1..] + b;
      KeysOfAppend(a[1..], b);
      assert KeysOf(ab) == {a[0].0} + KeysOf(a[1..] + b);
    }
  }

  /** A key that no entry carries is not a key. */
  lemma {:induction false} NotInKeys(d: Entries, k: Value)
    requires forall i :: 0 <= i < |d| ==> d[i].0 != k
    ensures k !in KeysOf(d)
  {
    if d != [] {
      assert forall i :: 0 <= i < |d[1..]| ==> d[1..][i].0 == d[i + 1].0;
      NotInKeys(d[1..], k);
    }
  }

  lemma HeadKeyFresh(d: Entries)
    requires d != [] && UniqueKeys(d)
    ensures d[0].0 !in KeysOf(d[1..]) && UniqueKeys(d[1..])
  {
    assert forall i :: 0 <= i < |d[1..]| ==> d[1..][i].0 == d[i + 1].0;
    NotInKeys(d[1..], d[0].0);
  }

  lemma {:induction false} KeysOfIndex(d: Entries, i: nat)
    requires i < |d|
    ensures d[i].0 in KeysOf(d)
  {
    if i > 0 { KeysOfIndex(d[1..], i - 1); }
  }

  /** `d.get(k)`: the value stored under k. */
  function Lookup(d: Entries, k: Value): (r: Option<Value>)
    ensures r.Some? <==> k in KeysOf(d)
  {
    if d == [] then None
    else if d[0].0 == k then Some(d[0].1)
    else Lookup(d[1..], k)
  }

  /**
   * `d[k] = v`: a new key goes to the end; an existing key keeps its place and takes the new value.
   */
  function Put(d: Entries, k: Value, v: Value): (r: Entries)
    ensures Lookup(r, k) == Some(v)
    ensures forall k' :: k' != k ==> Lookup(r, k') == Lookup(d, k')
    ensures KeysOf(r) == KeysOf(d) + {k}
    ensures |r| == if k in KeysOf(d) then |d| else |d| + 1
    ensures forall i :: 0 <= i < |d| ==> r[i].0 == d[i].0
  {
    if d == [] then [(k, v)]
    else if d[0].0 == k then [(k, v)] + d[1..]
    else
      var r := [d[0]] + Put(d[1..], k, v);
      assert r[1..] == Put(d[1..], k, v);
      r
  }

  /** `d[k] = v` keeps the keys distinct. */
  lemma {:induction false} PutKeepsUnique(d: Entries, k: Value, v: Value)
    requires UniqueKeys(d)
    ensures UniqueKeys(Put(d, k, v))
  {
    if d != [] {
      HeadKeyFresh(d);
      var r := Put(d, k, v);
      if d[0].0 != k {
        PutKeepsUnique(d[1..], k, v);
        assert r[1..] == Put(d[1..], k, v);
        forall i | 0 <= i < |r[1..]| ensures r[1..][i].0 != d[0].0 {
          KeysOfIndex(r[1..], i);
        }
      } else {
        assert r[1..] == d[1..];
        forall i | 0 <= i < |d[1..]| ensures d[1..][i].0 != k {
          KeysOfIndex(d[1..], i);
        }
      }
    }
  }

  /** The dict built by `for k, v in pairs: d[k] = v`, starting from `{}`. */
  function PutAll(pairs: seq<(Value, Value)>): (r: Entries) {
    if pairs == [] then []
    else
      var last := pairs[|pairs| - 1];
      Put(PutAll(pairs[..|pairs| - 1]), last.0, last.1)
  }

  /** The dict built by `d[k] = v` from `{}` never holds a key twice. */
  lemma {:induction false} PutAllUnique(pairs: seq<(Value, Value)>)
    ensures UniqueKeys(PutAll(pairs))
  {
    if pairs != [] {
      var last := pairs[|pairs| - 1];
      PutAllUnique(pairs[..|pairs| - 1]);
      PutKeepsUnique(PutAll(pairs[..|pairs| - 1]), last.0, last.1);
    }
  }

  /** Writing the same key again and again leaves one entry holding the last value written. */
  lemma {:induction false} PutAllSameKey(pairs: seq<(Value, Value)>, k: Value)
    requires pairs != [] && forall i :: 0 <= i < |pairs| ==> pairs[i].0 == k
    ensures PutAll(pairs) == [(k, pairs[|pairs| - 1].1)]
  {
    if |pairs| > 1 {
      PutAllSameKey(pairs[..|pairs| - 1], k);
    }
  }

  /** Reference meaning of last-write-wins: the value of the last pair whose key is k. */
  function LastWrite(pairs: seq<(Value, Value)>, k: Value): Option<Value> {
    if pairs == [] then None
    else if pairs[|pairs| - 1].0 == k then Some(pairs[|pairs| - 1].1)
    else LastWrite(pairs[..|pairs| - 1], k)
  }

  /** A pair is the last write of its key when no later pair has that key. */
  lemma {:induction false} LastWriteUnrepeated(pairs: seq<(Value, Value)>, i: nat)
    requires i < |pairs|
    requires forall j :: i < j < |pairs| ==> pairs[j].0 != pairs[i].0
    ensures LastWrite(pairs, pairs[i].0) == Some(pairs[i].1)
    decreases |pairs|
  {
    if i < |pairs| - 1 {
      LastWriteUnrepeated(pairs[..|pairs| - 1], i);
    }
  }

  /** A key that no pair has is never written. */
  lemma {:induction false} LastWriteAbsent(pairs: seq<(Value, Value)>, k: Value)
    requires forall i :: 0 <= i < |pairs| ==> pairs[i].0 != k
    ensures LastWrite(pairs, k) == None
    decreases |pairs|
  {
    if pairs != [] {
      LastWriteAbsent(pairs[..|pairs| - 1], k);
    }
  }

  /** The position of a key that is present. */
  function KeyIndex(d: Entries, k: Value): (i: nat)
    requires k in KeysOf(d)
    ensures i < |d| && d[i].0 == k
  {
    if d[0].0 == k then 0 else 1 + KeyIndex(d[1..], k)
  }

  /** Every key holds the value written last under it. */
  lemma {:induction false} PutAllLookup(pairs: seq<(Value, Value)>, k: Value)
    ensures Lookup(PutAll(pairs), k) == LastWrite(pairs, k)
  {
    if pairs != [] {
      PutAllLookup(pairs[..|pairs| - 1], k);
    }
  }

  /** The dict has one entry per distinct key, so never more entries than pairs. */
  lemma {:induction false} PutAllKeys(pairs: seq<(Value, Value)>)
    ensures KeysOf(PutAll(pairs)) == KeysOf(pairs)
    ensures |PutAll(pairs)| <= |pairs|
  {
    if pairs != [] {
      var init := pairs[..|pairs| - 1];
      PutAllKeys(init);
      assert pairs == init + [pairs[|pairs| - 1]];
      KeysOfAppend(init, [pairs[|pairs| - 1]]);
    }
  }

  /** `d[k] = v` for each entry of e in order. */
  function PutEach(d: Entries, e: Entries): Entries
    decreases |e|
  {
    if e == [] then d else PutEach(Put(d, e[0].0, e[0].1), e[1..])
  }

  /** `{**d, **x}` as a dict display evaluates it: x must be a dict; None raises TypeError. */
  function Spread(d: Entries, x: Value): Result<Entries> {
    if x.VDict? then Ok(PutEach(d, x.entries)) else Err(NotAMapping)
  }

  /** The last write of a key in a list led by one more pair. */
  lemma {:induction false} LastWriteCons(x: (Value, Value), e: seq<(Value, Value)>, k: Value)
    ensures LastWrite([x] + e, k) == if LastWrite(e, k).Some? then LastWrite(e, k) else if x.0 == k then Some(x.1) else None
  {
    if e != [] {
      var xe := [x] + e;
      assert xe[..|xe| - 1] == [x] + e[..|e| - 1];
      LastWriteCons(x, e[..|e| - 1], k);
    }
  }

  /**
   * After `d[k] = v` for each entry of e, a key holds the value e wrote last for it, and a key e
   * never writes keeps its value in d.
   */
  lemma {:induction false} PutEachLookup(d: Entries, e: Entries, k: Value)
    ensures Lookup(PutEach(d, e), k) == if LastWrite(e, k).Some? then LastWrite(e, k) else Lookup(d, k)
    decreases |e|
  {
    if e != [] {
      PutEachLookup(Put(d, e[0].0, e[0].1), e[1..], k);
      LastWriteCons(e[0], e[1..], k);
      assert [e[0]] + e[1..] == e;
    }
  }

  /** Spreading a dict whose keys are new and distinct appends its entries unchanged. */
  lemma {:induction false} PutEachFresh(d: Entries, e: Entries)
    requires UniqueKeys(e)
    requires KeysOf(d) !! KeysOf(e)
    ensures PutEach(d, e) == d + e
    decreases |e|
  {
    if e != [] {
      var d' := d + [e[0]];
      assert d' + e[1..] == d + e by { assert e == [e[0]] + e[1..]; }
      PutEachFreshStep(d, e);
      PutEachFresh(d', e[1..]);
    }
  }

  /** The first entry of e is appended to d, and the rest of e is still new and distinct. */
  lemma PutEachFreshStep(d: Entries, e: Entries)
    requires e != [] && UniqueKeys(e)
    requires KeysOf(d) !! KeysOf(e)
    ensures PutEach(d, e) == PutEach(d + [e[0]], e[1..])
    ensures UniqueKeys(e[1..]) && KeysOf(d + [e[0]]) !! KeysOf(e[1..])
  {
    assert e[0].0 in KeysOf(e);
    PutNew(d, e[0].0, e[0].1);
    KeysOfAppend(d, [e[0]]);
    HeadKeyFresh(e);
  }

  /** A key not yet present is appended. */
  lemma {:induction false} PutNew(d: Entries, k: Value, v: Value)
    requires k !in KeysOf(d)
    ensures Put(d, k, v) == d + [(k, v)]
  {
    if d != [] {
      PutNew(d[1..], k, v);
    }
  }
}
