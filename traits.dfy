/**
 * Trait paths, keyframe data points and sequencer objects (read_trait_path ... read_sequencer_objects).
 * A sequencer object animates one trait of an object: it names the trait by a path of member
 * hashes, gives the trait's type, and lists keyframes as a dict from time to value.
 */
module Traits {
  import opened Outcomes
  import opened Bytes
  import opened PyValues
  import opened Primitives

  // ---------------------------------------------------------------------------
  // Trait paths

  /** A trait path segment: a member hash alone (index -1) or a (hash, index) pair. */
  predicate IsSegment(v: Value) {
    || (v.VStr? && |v.s| == 8)
    || (v.VTuple? && |v.items| == 2 && v.items[0].VStr? && |v.items[0].s| == 8
        && v.items[1].VInt? && v.items[1].i != -1)
  }

  /** One iteration of read_trait_path's loop: a member hash, then its int32 index. */
  function SegmentAt(s: seq<byte>, p: nat): (r: Parsed<Value>)
    ensures r.Ok? <==> p + 8 <= |s|
    ensures Consumes(r, p, 8)
    ensures r.Ok? ==> IsSegment(r.value.v)
    ensures r.Ok? ==>
              var member, index := HashAt(s, p).value.v, IntAt(s, p + 4).value.v;
              r.value.v == if index == -1 then VStr(member) else VTuple([VStr(member), VInt(index)])
  {
    var member :- HashAt(s, p);
    var index :- IntAt(s, member.next);
    Ok(Decoded(if index.v == -1 then VStr(member.v) else VTuple([VStr(member.v), VInt(index.v)]), index.next))
  }

  /**
   * read_trait_path: an int32 count, then that many 8-byte segments; the path is readable exactly
   * when all of them are in the buffer.
   */
  function TraitPathAt(s: seq<byte>, p: nat): (r: Parsed<seq<Value>>)
    ensures r.Ok? <==> IntAt(s, p).Ok? && p + 4 + 8 * RangeCount(IntAt(s, p).value.v) <= |s|
    ensures r.Ok? ==>
              && r.value.next == p + 4 + 8 * RangeCount(IntAt(s, p).value.v)
              && |r.value.v| == RangeCount(IntAt(s, p).value.v)
              && forall i :: 0 <= i < |r.value.v| ==> IsSegment(r.value.v[i])
  {
    var count :- IntAt(s, p);
    RepeatFixed(SegmentAt, s, count.next, RangeCount(count.v), 8);
    RepeatAll(SegmentAt, IsSegment, s, count.next, RangeCount(count.v));
    Repeat(SegmentAt, s, count.next, RangeCount(count.v))
  }

  // ---------------------------------------------------------------------------
  // Data points

  /** The number of trait types, the length of `data_point_readers` and of `trait_type_names`. */
  const TRAIT_TYPE_COUNT: nat := 20

  /** The names of the trait types, indexed by trait type. */
  const TRAIT_TYPE_NAMES: seq<string> := [
    "kTraitInt", "kTraitBool", "kTraitFloat", "kTraitColor", "kTraitObj",
    "kTraitVec3", "kTraitPath", "kTraitEnum", "kTraitAction", "kTraitObjVec",
    "kTraitString", "kTraitCue", "kTraitEvent", "kTraitSym", "kTraitList",
    "kTraitTraitPath", "kTraitQuat", "kTraitChildLib", "kTraitComponent", "kNumTraitTypes"]

  /** The value readers a data point can use. */
  datatype DataKind = IntPoint | BoolPoint | FloatPoint | ColorPoint

  /** `data_point_readers[traitType]`: entries 0 to 3 and 8 hold a reader, the other fifteen None. */
  function DataPointReader(traitType: int): Option<DataKind>
    requires 0 <= traitType < TRAIT_TYPE_COUNT
  {
    if traitType == 0 then Some(IntPoint)
    else if traitType == 1 then Some(BoolPoint)
    else if traitType == 2 then Some(FloatPoint)
    else if traitType == 3 then Some(ColorPoint)
    else if traitType == 8 then Some(BoolPoint)
    else None
  }

  /** What a data point reader of kind k yields. */
  predicate IsDataValue(k: DataKind, v: Value) {
    match k
    case IntPoint => v.VInt?
    case BoolPoint => v.VBool?
    case FloatPoint => v.VFloat?
    case ColorPoint => v.VTuple? && |v.items| == 4
  }

  /** The keyframe value read by the reader of kind k. */
  function DataValueAt(k: DataKind, s: seq<byte>, p: nat): (r: Parsed<Value>)
    ensures Consumes(r, p, match k case IntPoint => 4 case BoolPoint => 1 case FloatPoint => 4 case ColorPoint => 16)
    ensures r.Ok? ==> IsDataValue(k, r.value.v)
  {
    match k
    case IntPoint =>
      var x :- IntAt(s, p);
      Ok(Decoded(VInt(x.v), x.next))
    case BoolPoint =>
      var b :- BoolAt(s, p);
      Ok(Decoded(VBool(b.v), b.next))
    case FloatPoint =>
      var f :- FloatAt(s, p);
      Ok(Decoded(VFloat(f.v), f.next))
    case ColorPoint => ColorAt(s, p)
  }

  /**
   * read_data_point: the trait type must index the table (IndexError otherwise) and have a reader
   * (TypeError otherwise), both checked before any byte is read; then the time, the value, and the
   * interpolation and easing names, of which only (time, value) is kept.
   */
  function DataPointAt(s: seq<byte>, p: nat, traitType: int): (r: Parsed<(Value, Value)>)
    ensures Advances(r, p, |s|)
    ensures !(0 <= traitType < TRAIT_TYPE_COUNT) ==> r == Err(TraitTypeOutOfRange(traitType))
    ensures 0 <= traitType < TRAIT_TYPE_COUNT && DataPointReader(traitType).None? ==>
              r == Err(UnsupportedTraitType(traitType))
    ensures r.Ok? ==>
              && 0 <= traitType < TRAIT_TYPE_COUNT && DataPointReader(traitType).Some?
              && FloatAt(s, p).Ok? && r.value.v.0 == VFloat(FloatAt(s, p).value.v)
              && IsDataValue(DataPointReader(traitType).value, r.value.v.1)
  {
    if !(0 <= traitType < TRAIT_TYPE_COUNT) then Err(TraitTypeOutOfRange(traitType))
    else
      match DataPointReader(traitType)
      case None => Err(UnsupportedTraitType(traitType))
      case Some(k) =>
        var time :- FloatAt(s, p);
        var value :- DataValueAt(k, s, time.next);
        var interpolation :- StringAt(s, value.next);
        var easing :- StringAt(s, interpolation.next);
        Ok(Decoded((VFloat(time.v), value.v), easing.next))
  }

  /** read_data_point for a fixed trait type, as an item reader for a counted list. */
  function DataPointItem(traitType: int): (seq<byte>, nat) -> Parsed<(Value, Value)> {
    (s: seq<byte>, p: nat) => DataPointAt(s, p, traitType)
  }

  /** The (time, value) pairs of read_data_points, in the order they are read. */
  function DataPointPairsAt(s: seq<byte>, p: nat, traitType: int): (r: Parsed<seq<(Value, Value)>>)
    ensures Advances(r, p, |s|)
    ensures r.Ok? ==> IntAt(s, p).Ok? && |r.value.v| == RangeCount(IntAt(s, p).value.v)
  {
    var count :- IntAt(s, p);
    RepeatAdvances(DataPointItem(traitType), s, count.next, RangeCount(count.v));
    Repeat(DataPointItem(traitType), s, count.next, RangeCount(count.v))
  }

  /** read_data_points: `data_points[time] = value` for each pair, starting from `{}`. */
  function DataPointsAt(s: seq<byte>, p: nat, traitType: int): (r: Parsed<Entries>)
    ensures Advances(r, p, |s|)
    ensures r.Ok? <==> DataPointPairsAt(s, p, traitType).Ok?
  {
    var pairs :- DataPointPairsAt(s, p, traitType);
    Ok(Decoded(PutAll(pairs.v), pairs.next))
  }

  /**
   * The dict of data points keeps, for every time, the value read last for it; its keys are
   * distinct, so it has at most as many entries as points were read.
   */
  lemma DataPointsLastWins(s: seq<byte>, p: nat, traitType: int)
    requires DataPointsAt(s, p, traitType).Ok?
    ensures var points, pairs := DataPointsAt(s, p, traitType).value.v, DataPointPairsAt(s, p, traitType).value.v;
            && (forall k :: Lookup(points, k) == LastWrite(pairs, k))
            && KeysOf(points) == KeysOf(pairs)
            && UniqueKeys(points)
            && |points| <= RangeCount(IntAt(s, p).value.v)
  {
    var pairs := DataPointPairsAt(s, p, traitType).value.v;
    forall k {
      PutAllLookup(pairs, k);
    }
    PutAllKeys(pairs);
    PutAllUnique(pairs);
  }

  /** Points that all share one time leave one entry, holding the last value (3 then 7 give {t: 7}). */
  lemma DataPointsSameTime(s: seq<byte>, p: nat, traitType: int, time: Value)
    requires DataPointsAt(s, p, traitType).Ok?
    requires var pairs := DataPointPairsAt(s, p, traitType).value.v;
             pairs != [] && forall i :: 0 <= i < |pairs| ==> pairs[i].0 == time
    ensures var pairs := DataPointPairsAt(s, p, traitType).value.v;
            DataPointsAt(s, p, traitType).value.v == [(time, pairs[|pairs| - 1].1)]
  {
    PutAllSameKey(DataPointPairsAt(s, p, traitType).value.v, time);
  }

  /**
   * A trait type without a reader fails as soon as there is one point to read, and a trait type
   * with one succeeds for zero points whatever it is.
   */
  lemma DataPointsTypeCheck(s: seq<byte>, p: nat, traitType: int)
    requires IntAt(s, p).Ok?
    ensures IntAt(s, p).value.v > 0 && !(0 <= traitType < TRAIT_TYPE_COUNT) ==>
              DataPointsAt(s, p, traitType) == Err(TraitTypeOutOfRange(traitType))
    ensures IntAt(s, p).value.v > 0 && 0 <= traitType < TRAIT_TYPE_COUNT && DataPointReader(traitType).None? ==>
              DataPointsAt(s, p, traitType) == Err(UnsupportedTraitType(traitType))
    ensures IntAt(s, p).value.v <= 0 ==> DataPointsAt(s, p, traitType) == Ok(Decoded([], p + 4))
  {
    var n := RangeCount(IntAt(s, p).value.v);
    if n > 0 && !(0 <= traitType < TRAIT_TYPE_COUNT && DataPointReader(traitType).Some?) {
      assert DataPointItem(traitType)(s, p + 4).Err?;
      RepeatErrorSticks(DataPointItem(traitType), s, p + 4, 1, n);
    }
  }

  // ---------------------------------------------------------------------------
  // The sequencer object footer

  /** `int(b)` of a bool. */
  function BoolInt(b: bool): Value {
    VInt(if b then 1 else 0)
  }

  /**
   * The first seven footer fields: line animation type, default interpolation, default easing,
   * two unused ints and two intensity operation names. The list puts easing before interpolation,
   * the reverse of the order they are read in.
   */
  function FooterHeadAt(s: seq<byte>, p: nat): (r: Parsed<seq<Value>>)
    ensures r.Ok? <==> p + 20 <= |s| && StringAt(s, p + 20).Ok? && StringAt(s, StringAt(s, p + 20).value.next).Ok?
    ensures r.Ok? ==>
              && r.value.next == StringAt(s, StringAt(s, p + 20).value.next).value.next
              && |r.value.v| == 7
              && r.value.v[0] == VInt(IntAt(s, p).value.v)
              && r.value.v[1] == VInt(IntAt(s, p + 8).value.v)
              && r.value.v[2] == VInt(IntAt(s, p + 4).value.v)
              && r.value.v[3..] == [VInt(IntAt(s, p + 12).value.v), VInt(IntAt(s, p + 16).value.v),
                                    VStr(StringAt(s, p + 20).value.v),
                                    VStr(StringAt(s, StringAt(s, p + 20).value.next).value.v)]
  {
    var lineAnimation :- IntAt(s, p);
    var interpolation :- IntAt(s, lineAnimation.next);
    var easing :- IntAt(s, interpolation.next);
    var unused1 :- IntAt(s, easing.next);
    var unused2 :- IntAt(s, unused1.next);
    var operation1 :- StringAt(s, unused2.next);
    var operation2 :- StringAt(s, operation1.next);
    Ok(Decoded([VInt(lineAnimation.v), VInt(easing.v), VInt(interpolation.v), VInt(unused1.v), VInt(unused2.v),
                VStr(operation1.v), VStr(operation2.v)], operation2.next))
  }

  /**
   * The last ten footer entries, 28 bytes: two flags as ints, the step frequency, an unused float,
   * the four floats of an unused color spread into the list, and two more flags as ints.
   */
  function FooterTailAt(s: seq<byte>, p: nat): (r: Parsed<seq<Value>>)
    ensures r.Ok? <==> p + 28 <= |s|
    ensures Consumes(r, p, 28)
    ensures r.Ok? ==>
              && |r.value.v| == 10
              && r.value.v[0] == BoolInt(s[p] != 0) && r.value.v[1] == BoolInt(s[p + 1] != 0)
              && r.value.v[2] == VInt(IntAt(s, p + 2).value.v)
              && r.value.v[3] == VFloat(FloatAt(s, p + 6).value.v)
              && r.value.v[4..8] == ColorAt(s, p + 10).value.v.items
              && r.value.v[8] == BoolInt(s[p + 26] != 0) && r.value.v[9] == BoolInt(s[p + 27] != 0)
  {
    var intensityPhase :- BoolAt(s, p);
    var setterOp :- BoolAt(s, intensityPhase.next);
    var stepFrequency :- IntAt(s, setterOp.next);
    var unused3 :- FloatAt(s, stepFrequency.next);
    var unused4 :- ColorAt(s, unused3.next);
    var intensityScale :- BoolAt(s, unused4.next);
    var unused5 :- BoolAt(s, intensityScale.next);
    Ok(Decoded([BoolInt(intensityPhase.v), BoolInt(setterOp.v), VInt(stepFrequency.v), VFloat(unused3.v)]
               + unused4.v.items + [BoolInt(intensityScale.v), BoolInt(unused5.v)], unused5.next))
  }

  /** The footer list of a sequencer object: seventeen entries. */
  function FooterAt(s: seq<byte>, p: nat): (r: Parsed<seq<Value>>)
    ensures Advances(r, p, |s|)
    ensures r.Ok? <==> FooterHeadAt(s, p).Ok? && FooterHeadAt(s, p).value.next + 28 <= |s|
    ensures r.Ok? ==>
              && r.value.next == FooterHeadAt(s, p).value.next + 28
              && |r.value.v| == 17
              && r.value.v[1] == VInt(IntAt(s, p + 8).value.v)
              && r.value.v[2] == VInt(IntAt(s, p + 4).value.v)
              && r.value.v == FooterHeadAt(s, p).value.v + FooterTailAt(s, FooterHeadAt(s, p).value.next).value.v
  {
    var head :- FooterHeadAt(s, p);
    var tail :- FooterTailAt(s, head.next);
    Ok(Decoded(head.v + tail.v, tail.next))
  }

  // ---------------------------------------------------------------------------
  // Sequencer objects

  const SEQUENCER_BODY_KEYS: seq<string> := ["param_path", "trait_type", "data_points", "step", "footer"]
  const SEQUENCER_OBJECT_KEYS: seq<string> := ["obj_name"] + SEQUENCER_BODY_KEYS

  /**
   * The dict display closing a sequencer object, after every byte of it is read:
   * `trait_path[0]` raises on an empty path, then `trait_type_names[trait_type]` on a type outside
   * the table; the step entry is the string 'False'.
   */
  function SequencerBody(path: seq<Value>, traitType: int, points: Entries, footer: seq<Value>): (r: Result<Entries>)
    ensures r.Ok? <==> |path| > 0 && 0 <= traitType < TRAIT_TYPE_COUNT
    ensures |path| == 0 ==> r == Err(EmptyTraitPath)
    ensures |path| > 0 && !(0 <= traitType < TRAIT_TYPE_COUNT) ==> r == Err(TraitTypeOutOfRange(traitType))
    ensures r.Ok? ==>
              && HasKeys(r.value, SEQUENCER_BODY_KEYS)
              && r.value[0].1 == path[0]
              && r.value[1].1 == VStr(TRAIT_TYPE_NAMES[traitType])
              && r.value[2].1 == VDict(points)
              && r.value[3].1 == VStr("False")
              && r.value[4].1 == VList(footer)
  {
    if |path| == 0 then Err(EmptyTraitPath)
    else if !(0 <= traitType < TRAIT_TYPE_COUNT) then Err(TraitTypeOutOfRange(traitType))
    else
      Ok([(Str("param_path"), path[0]),
          (Str("trait_type"), VStr(TRAIT_TYPE_NAMES[traitType])),
          (Str("data_points"), VDict(points)),
          (Str("step"), VStr("False")),
          (Str("footer"), VList(footer))])
  }

  /** The fields of a sequencer object up to its data points: name, trait path and trait type. */
  datatype SequencerHeader = SequencerHeader(name: string, path: seq<Value>, traitType: int)

  function SequencerHeaderAt(s: seq<byte>, p: nat): (r: Parsed<SequencerHeader>)
    ensures Advances(r, p, |s|)
    ensures r.Ok? <==>
              && StringAt(s, p).Ok? && TraitPathAt(s, StringAt(s, p).value.next).Ok?
              && TraitPathAt(s, StringAt(s, p).value.next).value.next + 4 <= |s|
    ensures r.Ok? ==>
              && r.value.v.name == StringAt(s, p).value.v
              && r.value.v.path == TraitPathAt(s, StringAt(s, p).value.next).value.v
              && r.value.v.traitType == IntAt(s, TraitPathAt(s, StringAt(s, p).value.next).value.next).value.v
              && r.value.next == TraitPathAt(s, StringAt(s, p).value.next).value.next + 4
  {
    var name :- StringAt(s, p);
    var path :- TraitPathAt(s, name.next);
    var traitType :- IntAt(s, path.next);
    Ok(Decoded(SequencerHeader(name.v, path.v, traitType.v), traitType.next))
  }

  /** The fields after the trait type: data points, UI elements (dropped) and the footer. */
  datatype SequencerTrack = SequencerTrack(points: Entries, footer: seq<Value>)

  function SequencerTrackAt(s: seq<byte>, p: nat, traitType: int): (r: Parsed<SequencerTrack>)
    ensures Advances(r, p, |s|)
    ensures r.Ok? ==> |r.value.v.footer| == 17
    ensures r.Ok? ==> DataPointsAt(s, p, traitType).Ok? && r.value.v.points == DataPointsAt(s, p, traitType).value.v
    ensures r.Ok? ==>
              var ui := DataPointsAt(s, DataPointsAt(s, p, traitType).value.next, traitType);
              && ui.Ok? && FooterAt(s, ui.value.next).Ok?
              && r.value.v.footer == FooterAt(s, ui.value.next).value.v
              && r.value.next == FooterAt(s, ui.value.next).value.next
  {
    var points :- DataPointsAt(s, p, traitType);
    var uiElements :- DataPointsAt(s, points.next, traitType);
    var footer :- FooterAt(s, uiElements.next);
    Ok(Decoded(SequencerTrack(points.v, footer.v), footer.next))
  }

  /**
   * read_sequencer_object: header, data points, UI elements (read with the same trait type and
   * dropped), footer and a trailing bool, then the closing dict display.
   */
  function SequencerObjectAt(s: seq<byte>, p: nat): (r: Parsed<Value>)
    ensures Advances(r, p, |s|)
    ensures r.Ok? ==> SequencerHeaderAt(s, p).Ok?
    ensures r.Ok? ==>
              var header := SequencerHeaderAt(s, p).value.v;
              && |header.path| > 0 && 0 <= header.traitType < TRAIT_TYPE_COUNT
              && r.value.v.VDict? && HasKeys(r.value.v.entries, SEQUENCER_OBJECT_KEYS)
              && r.value.v.entries[0].1 == VStr(header.name)
              && r.value.v.entries[1].1 == header.path[0]
              && r.value.v.entries[2].1 == VStr(TRAIT_TYPE_NAMES[header.traitType])
              && r.value.v.entries[5].1.VList? && |r.value.v.entries[5].1.items| == 17
    ensures r.Ok? ==>
              var header := SequencerHeaderAt(s, p).value;
              var track := SequencerTrackAt(s, header.next, header.v.traitType);
              && track.Ok?
              && r.value.v.entries[3].1 == VDict(DataPointsAt(s, header.next, header.v.traitType).value.v)
              && r.value.v.entries[4].1 == VStr("False")
              && r.value.v.entries[5].1 == VList(track.value.v.footer)
              && r.value.next == track.value.next + 1
  {
    var header :- SequencerHeaderAt(s, p);
    var track :- SequencerTrackAt(s, header.next, header.v.traitType);
    var unknown :- BoolAt(s, track.next);
    var body :- SequencerBody(header.v.path, header.v.traitType, track.v.points, track.v.footer);
    Ok(Decoded(SequencerRecord(header.v.name, body), unknown.next))
  }

  /** `{'obj_name': name, ...}` in front of the body's entries. */
  function SequencerRecord(name: string, body: Entries): (v: Value)
    requires HasKeys(body, SEQUENCER_BODY_KEYS)
    ensures v.VDict? && HasKeys(v.entries, SEQUENCER_OBJECT_KEYS)
    ensures v.entries[0].1 == VStr(name)
    ensures v.entries[1..] == body
  {
    KeysAppend([(Str("obj_name"), VStr(name))], body, ["obj_name"], SEQUENCER_BODY_KEYS);
    VDict([(Str("obj_name"), VStr(name))] + body)
  }

  /**
   * An object whose every field reads but whose trait path is empty fails with the IndexError of
   * `trait_path[0]`.
   */
  lemma SequencerObjectEmptyPath(s: seq<byte>, p: nat)
    requires SequencerHeaderAt(s, p).Ok? && SequencerHeaderAt(s, p).value.v.path == []
    requires var header := SequencerHeaderAt(s, p).value;
             var track := SequencerTrackAt(s, header.next, header.v.traitType);
             track.Ok? && track.value.next < |s|
    ensures SequencerObjectAt(s, p) == Err(EmptyTraitPath)
  {
  }

  /** read_sequencer_objects: an int32 count, then that many sequencer objects. */
  function SequencerObjectsAt(s: seq<byte>, p: nat): (r: Parsed<seq<Value>>)
    ensures Advances(r, p, |s|)
    ensures r.Ok? ==> IntAt(s, p).Ok? && |r.value.v| == RangeCount(IntAt(s, p).value.v)
    ensures r.Ok? ==> forall i :: 0 <= i < |r.value.v| ==> r.value.v[i].VDict?
  {
    var count :- IntAt(s, p);
    RepeatAdvances(SequencerObjectAt, s, count.next, RangeCount(count.v));
    RepeatAll(SequencerObjectAt, (v: Value) => v.VDict?, s, count.next, RangeCount(count.v));
    Repeat(SequencerObjectAt, s, count.next, RangeCount(count.v))
  }

  // ---------------------------------------------------------------------------
  // The imperative readers

  method ReadSegment(c: Cursor) returns (r: Result<Value>)
    requires c.Valid()
    modifies c
    ensures c.Valid() && Follows(r, SegmentAt(c.data, old(c.pos)), c.pos)
  {
    var member :- ReadHash(c);
    var index :- ReadInt(c);
    return Ok(if index == -1 then VStr(member) else VTuple([VStr(member), VInt(index)]));
  }

  method ReadTraitPath(c: Cursor) returns (r: Result<seq<Value>>)
    requires c.Valid()
    modifies c
    ensures c.Valid() && Follows(r, TraitPathAt(c.data, old(c.pos)), c.pos)
  {
    ghost var p0 := c.pos;
    var count :- ReadInt(c);
    ghost var start := c.pos;
    assert TraitPathAt(c.data, p0) == Repeat(SegmentAt, c.data, start, RangeCount(count));
    var segments: seq<Value> := [];
    var i := 0;
    while i < count
      invariant c.Valid()
      invariant 0 <= i <= RangeCount(count)
      invariant Repeat(SegmentAt, c.data, start, i) == Ok(Decoded(segments, c.pos))
      decreases count - i
    {
      ghost var q := c.pos;
      var segment := ReadSegment(c);
      if segment.Err? {
        RepeatStepFails(SegmentAt, c.data, start, i, RangeCount(count), segments, q);
        return Err(segment.error);
      }
      RepeatStep(SegmentAt, c.data, start, i, segments, q);
      segments := segments + [segment.value];
      i := i + 1;
    }
    assert i == RangeCount(count);
    return Ok(segments);
  }

  method ReadDataValue(c: Cursor, k: DataKind) returns (r: Result<Value>)
    requires c.Valid()
    modifies c
    ensures c.Valid() && Follows(r, DataValueAt(k, c.data, old(c.pos)), c.pos)
  {
    match k
    case IntPoint =>
      var x :- ReadInt(c);
      return Ok(VInt(x));
    case BoolPoint =>
      var b :- ReadBool(c);
      return Ok(VBool(b));
    case FloatPoint =>
      var f :- ReadFloat(c);
      return Ok(VFloat(f));
    case ColorPoint =>
      r := ReadColor(c);
  }

  /** Both type checks come before the cursor moves. */
  method ReadDataPoint(c: Cursor, traitType: int) returns (r: Result<(Value, Value)>)
    requires c.Valid()
    modifies c
    ensures c.Valid() && Follows(r, DataPointAt(c.data, old(c.pos), traitType), c.pos)
    ensures r == Err(TraitTypeOutOfRange(traitType)) || r == Err(UnsupportedTraitType(traitType)) ==>
              c.pos == old(c.pos)
  {
    if !(0 <= traitType < TRAIT_TYPE_COUNT) {
      return Err(TraitTypeOutOfRange(traitType));
    }
    match DataPointReader(traitType)
    case None =>
      return Err(UnsupportedTraitType(traitType));
    case Some(k) =>
      var time :- ReadFloat(c);
      var value :- ReadDataValue(c, k);
      var interpolation :- ReadString(c);
      var easing :- ReadString(c);
      return Ok((VFloat(time), value));
  }

  /** The dict of data points is updated in place, one `data_points[time] = value` per point. */
  method ReadDataPoints(c: Cursor, traitType: int) returns (r: Result<Entries>)
    requires c.Valid()
    modifies c
    ensures c.Valid() && Follows(r, DataPointsAt(c.data, old(c.pos), traitType), c.pos)
  {
    ghost var p0 := c.pos;
    var count :- ReadInt(c);
    ghost var start := c.pos;
    ghost var item := DataPointItem(traitType);
    assert DataPointPairsAt(c.data, p0, traitType) == Repeat(item, c.data, start, RangeCount(count));
    ghost var pairs: seq<(Value, Value)> := [];
    var points: Entries := [];
    var i := 0;
    while i < count
      invariant c.Valid()
      invariant 0 <= i <= RangeCount(count)
      invariant Repeat(item, c.data, start, i) == Ok(Decoded(pairs, c.pos))
      invariant points == PutAll(pairs)
      decreases count - i
    {
      ghost var q := c.pos;
      var point := ReadDataPoint(c, traitType);
      if point.Err? {
        RepeatStepFails(item, c.data, start, i, RangeCount(count), pairs, q);
        return Err(point.error);
      }
      RepeatStep(item, c.data, start, i, pairs, q);
      assert (pairs + [point.value])[..|pairs|] == pairs;
      pairs := pairs + [point.value];
      points := Put(points, point.value.0, point.value.1);
      i := i + 1;
    }
    assert i == RangeCount(count);
    return Ok(points);
  }

  method ReadFooterHead(c: Cursor) returns (r: Result<seq<Value>>)
    requires c.Valid()
    modifies c
    ensures c.Valid() && Follows(r, FooterHeadAt(c.data, old(c.pos)), c.pos)
  {
    var lineAnimation :- ReadInt(c);
    var interpolation :- ReadInt(c);
    var easing :- ReadInt(c);
    var unused1 :- ReadInt(c);
    var unused2 :- ReadInt(c);
    var operation1 :- ReadString(c);
    var operation2 :- ReadString(c);
    return Ok([VInt(lineAnimation), VInt(easing), VInt(interpolation), VInt(unused1), VInt(unused2),
               VStr(operation1), VStr(operation2)]);
  }

  method ReadFooterTail(c: Cursor) returns (r: Result<seq<Value>>)
    requires c.Valid()
    modifies c
    ensures c.Valid() && Follows(r, FooterTailAt(c.data, old(c.pos)), c.pos)
  {
    var intensityPhase :- ReadBool(c);
    var setterOp :- ReadBool(c);
    var stepFrequency :- ReadInt(c);
    var unused3 :- ReadFloat(c);
    var unused4 :- ReadColor(c);
    var intensityScale :- ReadBool(c);
    var unused5 :- ReadBool(c);
    return Ok([BoolInt(intensityPhase), BoolInt(setterOp), VInt(stepFrequency), VFloat(unused3)]
              + unused4.items + [BoolInt(intensityScale), BoolInt(unused5)]);
  }

  method ReadFooter(c: Cursor) returns (r: Result<seq<Value>>)
    requires c.Valid()
    modifies c
    ensures c.Valid() && Follows(r, FooterAt(c.data, old(c.pos)), c.pos)
  {
    var head :- ReadFooterHead(c);
    var tail :- ReadFooterTail(c);
    return Ok(head + tail);
  }

  method ReadSequencerHeader(c: Cursor) returns (r: Result<SequencerHeader>)
    requires c.Valid()
    modifies c
    ensures c.Valid() && Follows(r, SequencerHeaderAt(c.data, old(c.pos)), c.pos)
  {
    var name :- ReadString(c);
    var path :- ReadTraitPath(c);
    var traitType :- ReadInt(c);
    return Ok(SequencerHeader(name, path, traitType));
  }

  method ReadSequencerTrack(c: Cursor, traitType: int) returns (r: Result<SequencerTrack>)
    requires c.Valid()
    modifies c
    ensures c.Valid() && Follows(r, SequencerTrackAt(c.data, old(c.pos), traitType), c.pos)
  {
    var points :- ReadDataPoints(c, traitType);
    var uiElements :- ReadDataPoints(c, traitType);
    var footer :- ReadFooter(c);
    return Ok(SequencerTrack(points, footer));
  }

  method ReadSequencerObject(c: Cursor) returns (r: Result<Value>)
    requires c.Valid()
    modifies c
    ensures c.Valid() && Follows(r, SequencerObjectAt(c.data, old(c.pos)), c.pos)
  {
    var header :- ReadSequencerHeader(c);
    var track :- ReadSequencerTrack(c, header.traitType);
    var unknown :- ReadBool(c);
    var body :- SequencerBody(header.path, header.traitType, track.points, track.footer);
    return Ok(VDict([(Str("obj_name"), VStr(header.name))] + body));
  }

  method ReadSequencerObjects(c: Cursor) returns (r: Result<seq<Value>>)
    requires c.Valid()
    modifies c
    ensures c.Valid() && Follows(r, SequencerObjectsAt(c.data, old(c.pos)), c.pos)
  {
    ghost var p0 := c.pos;
    var count :- ReadInt(c);
    ghost var start := c.pos;
    assert SequencerObjectsAt(c.data, p0) == Repeat(SequencerObjectAt, c.data, start, RangeCount(count));
    var objects: seq<Value> := [];
    var i := 0;
    while i < count
      invariant c.Valid()
      invariant 0 <= i <= RangeCount(count)
      invariant Repeat(SequencerObjectAt, c.data, start, i) == Ok(Decoded(objects, c.pos))
      decreases count - i
    {
      ghost var q := c.pos;
      var sequencerObject := ReadSequencerObject(c);
      if sequencerObject.Err? {
        RepeatStepFails(SequencerObjectAt, c.data, start, i, RangeCount(count), objects, q);
        return Err(sequencerObject.error);
      }
      RepeatStep(SequencerObjectAt, c.data, start, i, objects, q);
      objects := objects + [sequencerObject.value];
      i := i + 1;
    }
    assert i == RangeCount(count);
    return Ok(objects);
  }
}
