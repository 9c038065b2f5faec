/**
 * The Leaf-only reader (leaf_parser.py): the same primitives and the same byte layout as a Leaf in
 * an objlib, read by differently split functions. Its object starts with sections, which accept
 * only two of the five component codes; a sequencer object is a wrapper (name, body, trailing bool)
 * around a body that starts at the trait path; and a data point reads its time before it finds out
 * that its trait type has no reader.
 */
module LeafParser {
  import opened Outcomes
  import opened Bytes
  import opened PyValues
  import opened Primitives
  import opened Components
  import opened Traits
  import opened Objects

  // ---------------------------------------------------------------------------
  // Sections

  datatype SectionKind = AnimationSection | EditStateSection

  /** The marker under which each kind is registered in `section_readers`. */
  function SectionCode(k: SectionKind): string {
    match k
    case AnimationSection => "63259f0a"
    case EditStateSection => "3c8efb12"
  }

  /** `section_readers[marker]`, None for a marker the table lacks (KeyError). */
  function SectionKindOf(code: string): Option<SectionKind> {
    if code == "63259f0a" then Some(AnimationSection)
    else if code == "3c8efb12" then Some(EditStateSection)
    else None
  }

  /** The table registers exactly the two markers, each for its own kind. */
  lemma SectionTable(code: string, k: SectionKind)
    ensures SectionKindOf(code) == Some(k) <==> code == SectionCode(k)
  {
  }

  /**
   * read_section: a marker, then an animation section (version int, frame float, unit string) or
   * an edit-state section (no bytes); both yield `{}`.
   */
  function SectionAt(s: seq<byte>, p: nat): (r: Parsed<Value>)
    ensures Advances(r, p, |s|)
    ensures r.Ok? ==> r.value.v == EMPTY_OBJECT
    ensures HashAt(s, p).Ok? ==>
              var code := HashAt(s, p).value.v;
              match SectionKindOf(code)
              case None => r == Err(UnknownType(code, SectionReaders))
              case Some(AnimationSection) => r == AnimationComponentAt(s, p + 4)
              case Some(EditStateSection) => r == Ok(Decoded(EMPTY_OBJECT, p + 4))
  {
    var code :- HashAt(s, p);
    match SectionKindOf(code.v)
    case None => Err(UnknownType(code.v, SectionReaders))
    case Some(AnimationSection) => AnimationComponentAt(s, code.next)
    case Some(EditStateSection) => Ok(Decoded(EMPTY_OBJECT, code.next))
  }

  /** A section that reads is the component with the same code, read the same way. */
  lemma SectionIsComponent(s: seq<byte>, p: nat)
    ensures SectionAt(s, p).Ok? ==> ComponentAt(s, p) == SectionAt(s, p)
  {
  }

  /** read_sections: an int32 count, then that many sections. */
  function SectionsAt(s: seq<byte>, p: nat): (r: Parsed<seq<Value>>)
    ensures Advances(r, p, |s|)
    ensures r.Ok? ==> IntAt(s, p).Ok? && |r.value.v| == RangeCount(IntAt(s, p).value.v)
  {
    var count :- IntAt(s, p);
    RepeatAdvances(SectionAt, s, count.next, RangeCount(count.v));
    Repeat(SectionAt, s, count.next, RangeCount(count.v))
  }

  /** Sections that read are components read the same way: read_components yields the same list. */
  lemma SectionsAreComponents(s: seq<byte>, p: nat)
    ensures SectionsAt(s, p).Ok? ==> ComponentsAt(s, p) == SectionsAt(s, p)
  {
    if SectionsAt(s, p).Ok? {
      forall q: nat ensures SectionAt(s, q).Ok? ==> ComponentAt(s, q) == SectionAt(s, q) {
        SectionIsComponent(s, q);
      }
      var n := RangeCount(IntAt(s, p).value.v);
      RepeatAgree(SectionAt, ComponentAt, s, p + 4, n);
      assert SectionsAt(s, p) == Repeat(SectionAt, s, p + 4, n);
    }
  }

  // ---------------------------------------------------------------------------
  // Data points

  /**
   * read_data_point of leaf_parser.py: indexing the table raises before anything is read, but the
   * time is read before the missing reader is called, so a trait type without a reader fails with
   * a short read when fewer than four bytes remain.
   */
  function LeafDataPointAt(s: seq<byte>, p: nat, traitType: int): (r: Parsed<(Value, Value)>)
    ensures Advances(r, p, |s|)
    ensures !(0 <= traitType < TRAIT_TYPE_COUNT) ==> r == Err(TraitTypeOutOfRange(traitType))
    ensures 0 <= traitType < TRAIT_TYPE_COUNT && DataPointReader(traitType).None? ==>
              r == Err(if p + 4 <= |s| then UnsupportedTraitType(traitType) else Truncated)
    ensures 0 <= traitType < TRAIT_TYPE_COUNT && DataPointReader(traitType).Some? ==> r == DataPointAt(s, p, traitType)
  {
    if !(0 <= traitType < TRAIT_TYPE_COUNT) then Err(TraitTypeOutOfRange(traitType))
    else
      var time :- FloatAt(s, p);
      match DataPointReader(traitType)
      case None => Err(UnsupportedTraitType(traitType))
      case Some(k) =>
        var value :- DataValueAt(k, s, time.next);
        var interpolation :- StringAt(s, value.next);
        var easing :- StringAt(s, interpolation.next);
        Ok(Decoded((VFloat(time.v), value.v), easing.next))
  }

  /** The two readers of one data point succeed on the same bytes, with the same point. */
  lemma DataPointsReadAlike(s: seq<byte>, p: nat, traitType: int)
    ensures LeafDataPointAt(s, p, traitType).Ok? <==> DataPointAt(s, p, traitType).Ok?
    ensures LeafDataPointAt(s, p, traitType).Ok? ==> LeafDataPointAt(s, p, traitType) == DataPointAt(s, p, traitType)
  {
  }

  /** A trait type without a reader and fewer than four bytes left: one reader says which type, the other only that the file is short. */
  lemma UnsupportedAfterTime(s: seq<byte>, p: nat)
    requires p + 4 > |s|
    ensures LeafDataPointAt(s, p, 4) == Err(Truncated)
    ensures DataPointAt(s, p, 4) == Err(UnsupportedTraitType(4))
  {
  }

  /** leaf_parser's read_data_point for a fixed trait type, as an item reader for a counted list. */
  function LeafDataPointItem(traitType: int): (seq<byte>, nat) -> Parsed<(Value, Value)> {
    (s: seq<byte>, p: nat) => LeafDataPointAt(s, p, traitType)
  }

  /** The (time, value) pairs of leaf_parser's read_data_points, in the order they are read. */
  function LeafDataPointPairsAt(s: seq<byte>, p: nat, traitType: int): (r: Parsed<seq<(Value, Value)>>)
    ensures Advances(r, p, |s|)
    ensures r.Ok? ==> IntAt(s, p).Ok? && |r.value.v| == RangeCount(IntAt(s, p).value.v)
  {
    var count :- IntAt(s, p);
    RepeatAdvances(LeafDataPointItem(traitType), s, count.next, RangeCount(count.v));
    Repeat(LeafDataPointItem(traitType), s, count.next, RangeCount(count.v))
  }

  /** read_data_points: `data_points[time] = value` for each pair, starting from `{}`. */
  function LeafDataPointsAt(s: seq<byte>, p: nat, traitType: int): (r: Parsed<Entries>)
    ensures Advances(r, p, |s|)
    ensures r.Ok? <==> LeafDataPointPairsAt(s, p, traitType).Ok?
  {
    var pairs :- LeafDataPointPairsAt(s, p, traitType);
    Ok(Decoded(PutAll(pairs.v), pairs.next))
  }

  /** Both readers of a list of data points succeed on the same bytes, with the same dict. */
  lemma LeafDataPointsAgree(s: seq<byte>, p: nat, traitType: int)
    ensures LeafDataPointsAt(s, p, traitType).Ok? <==> DataPointsAt(s, p, traitType).Ok?
    ensures LeafDataPointsAt(s, p, traitType).Ok? ==> LeafDataPointsAt(s, p, traitType) == DataPointsAt(s, p, traitType)
  {
    var f, g := LeafDataPointItem(traitType), DataPointItem(traitType);
    forall q: nat ensures f(s, q).Ok? ==> g(s, q) == f(s, q) {
      DataPointsReadAlike(s, q, traitType);
    }
    forall q: nat ensures g(s, q).Ok? ==> f(s, q) == g(s, q) {
      DataPointsReadAlike(s, q, traitType);
    }
    if IntAt(s, p).Ok? {
      var n := RangeCount(IntAt(s, p).value.v);
      RepeatAgree(f, g, s, p + 4, n);
      RepeatAgree(g, f, s, p + 4, n);
      assert LeafDataPointPairsAt(s, p, traitType) == Repeat(f, s, p + 4, n);
      assert DataPointPairsAt(s, p, traitType) == Repeat(g, s, p + 4, n);
    }
  }

  // ---------------------------------------------------------------------------
  // Sequencer objects

  /** The trait path and the trait type that open a sequencer body. */
  function LeafSequencerHeadAt(s: seq<byte>, p: nat): (r: Parsed<(seq<Value>, int)>)
    ensures Advances(r, p, |s|)
    ensures r.Ok? <==> TraitPathAt(s, p).Ok? && TraitPathAt(s, p).value.next + 4 <= |s|
    ensures r.Ok? ==>
              && r.value.v.0 == TraitPathAt(s, p).value.v
              && r.value.v.1 == IntAt(s, TraitPathAt(s, p).value.next).value.v
              && r.value.next == TraitPathAt(s, p).value.next + 4
  {
    var path :- TraitPathAt(s, p);
    var traitType :- IntAt(s, path.next);
    Ok(Decoded((path.v, traitType.v), traitType.next))
  }

  /** The data points, the UI elements (read alike and dropped) and the footer. */
  function LeafSequencerTrackAt(s: seq<byte>, p: nat, traitType: int): (r: Parsed<SequencerTrack>)
    ensures Advances(r, p, |s|)
    ensures r.Ok? ==> |r.value.v.footer| == 17
  {
    var points :- LeafDataPointsAt(s, p, traitType);
    var uiElements :- LeafDataPointsAt(s, points.next, traitType);
    var footer :- FooterAt(s, uiElements.next);
    Ok(Decoded(SequencerTrack(points.v, footer.v), footer.next))
  }

  /** The track read by either reader is the same. */
  lemma TracksAgree(s: seq<byte>, p: nat, traitType: int)
    ensures LeafSequencerTrackAt(s, p, traitType).Ok? <==> SequencerTrackAt(s, p, traitType).Ok?
    ensures LeafSequencerTrackAt(s, p, traitType).Ok? ==>
              LeafSequencerTrackAt(s, p, traitType) == SequencerTrackAt(s, p, traitType)
  {
    LeafDataPointsAgree(s, p, traitType);
    if LeafDataPointsAt(s, p, traitType).Ok? {
      LeafDataPointsAgree(s, LeafDataPointsAt(s, p, traitType).value.next, traitType);
    }
  }

  /**
   * read_sequencer_object of leaf_parser.py: the body from the trait path to the footer; its dict
   * display indexes `trait_path[0]` and `trait_type_names[trait_type]` once every byte is read.
   */
  function LeafSequencerAt(s: seq<byte>, p: nat): (r: Parsed<Entries>)
    ensures Advances(r, p, |s|)
    ensures r.Ok? ==> HasKeys(r.value.v, SEQUENCER_BODY_KEYS)
    ensures LeafSequencerHeadAt(s, p).Ok? && LeafSequencerHeadAt(s, p).value.v.0 == [] ==> r.Err?
  {
    var head :- LeafSequencerHeadAt(s, p);
    var track :- LeafSequencerTrackAt(s, head.next, head.v.1);
    var body :- SequencerBody(head.v.0, head.v.1, track.v.points, track.v.footer);
    Ok(Decoded(body, track.next))
  }

  /** `{'obj_name': name, **body}` for a body with the five sequencer keys: the body is appended. */
  lemma SequencerSpread(name: string, e: Entries)
    requires HasKeys(e, SEQUENCER_BODY_KEYS)
    ensures PutEach([(Str("obj_name"), VStr(name))], e) == [(Str("obj_name"), VStr(name))] + e
  {
    var d := [(Str("obj_name"), VStr(name))];
    assert "param_path"[0] != "trait_type"[0];
    assert UniqueKeys(e) by {
      forall i, j | 0 <= i < j < |e| ensures e[i].0 != e[j].0 {
        assert e[i].0 == VStr(SEQUENCER_BODY_KEYS[i]) && e[j].0 == VStr(SEQUENCER_BODY_KEYS[j]);
      }
    }
    forall k | k in KeysOf(e) ensures k !in KeysOf(d) {
      var i := KeyIndex(e, k);
      assert k == VStr(SEQUENCER_BODY_KEYS[i]);
      NotInKeys(d, k);
    }
    PutEachFresh(d, e);
  }

  /** read_trait_animation_sequencer_object_section: the object name, the body, and an unused bool. */
  function LeafSequencerSectionAt(s: seq<byte>, p: nat): (r: Parsed<Value>)
    ensures Advances(r, p, |s|)
    ensures r.Ok? ==>
              && StringAt(s, p).Ok? && LeafSequencerAt(s, StringAt(s, p).value.next).Ok?
              && r.value.v == VDict([(Str("obj_name"), VStr(StringAt(s, p).value.v))] +
                                    LeafSequencerAt(s, StringAt(s, p).value.next).value.v)
  {
    var name :- StringAt(s, p);
    var body :- LeafSequencerAt(s, name.next);
    var unknown :- BoolAt(s, body.next);
    SequencerSpread(name.v, body.v);
    Ok(Decoded(VDict(PutEach([(Str("obj_name"), VStr(name.v))], body.v)), unknown.next))
  }

  /**
   * leaf_parser's wrapper and file_parser's read_sequencer_object succeed on the same bytes, consume
   * the same bytes and yield the same dict, with the same keys in the same order.
   */
  lemma SequencerObjectsAlike(s: seq<byte>, p: nat)
    ensures LeafSequencerSectionAt(s, p).Ok? <==> SequencerObjectAt(s, p).Ok?
    ensures LeafSequencerSectionAt(s, p).Ok? ==> LeafSequencerSectionAt(s, p) == SequencerObjectAt(s, p)
  {
    var name := StringAt(s, p);
    if name.Ok? {
      var head := LeafSequencerHeadAt(s, name.value.next);
      if head.Ok? {
        var header := SequencerHeaderAt(s, p).value;
        assert header.next == head.value.next;
        assert header.v.path == head.value.v.0 && header.v.traitType == head.value.v.1;
        TracksAgree(s, head.value.next, head.value.v.1);
      }
    }
  }

  /** read_trait_animation: an int32 count, then that many wrapped sequencer objects. */
  function TraitAnimationAt(s: seq<byte>, p: nat): (r: Parsed<seq<Value>>)
    ensures Advances(r, p, |s|)
    ensures r.Ok? ==> IntAt(s, p).Ok? && |r.value.v| == RangeCount(IntAt(s, p).value.v)
  {
    var count :- IntAt(s, p);
    RepeatAdvances(LeafSequencerSectionAt, s, count.next, RangeCount(count.v));
    Repeat(LeafSequencerSectionAt, s, count.next, RangeCount(count.v))
  }

  /** The trait animation is read_sequencer_objects under another name. */
  lemma TraitAnimationAlike(s: seq<byte>, p: nat)
    ensures TraitAnimationAt(s, p).Ok? <==> SequencerObjectsAt(s, p).Ok?
    ensures TraitAnimationAt(s, p).Ok? ==> TraitAnimationAt(s, p) == SequencerObjectsAt(s, p)
  {
    forall q: nat ensures LeafSequencerSectionAt(s, q).Ok? ==> SequencerObjectAt(s, q) == LeafSequencerSectionAt(s, q) {
      SequencerObjectsAlike(s, q);
    }
    forall q: nat ensures SequencerObjectAt(s, q).Ok? ==> LeafSequencerSectionAt(s, q) == SequencerObjectAt(s, q) {
      SequencerObjectsAlike(s, q);
    }
    if IntAt(s, p).Ok? {
      var n := RangeCount(IntAt(s, p).value.v);
      RepeatAgree(LeafSequencerSectionAt, SequencerObjectAt, s, p + 4, n);
      RepeatAgree(SequencerObjectAt, LeafSequencerSectionAt, s, p + 4, n);
      assert TraitAnimationAt(s, p) == Repeat(LeafSequencerSectionAt, s, p + 4, n);
      assert SequencerObjectsAt(s, p) == Repeat(SequencerObjectAt, s, p + 4, n);
    }
  }

  // ---------------------------------------------------------------------------
  // The Leaf

  /** The three version numbers, then the sections. */
  function LeafHeadAt(s: seq<byte>, p: nat): (r: Parsed<seq<Value>>)
    ensures r.Ok? <==> p + 12 <= |s| && SectionsAt(s, p + 12).Ok?
    ensures r.Ok? ==> r == SectionsAt(s, p + 12)
  {
    var leafVersion :- IntAt(s, p);
    var animVersion :- IntAt(s, leafVersion.next);
    var objVersion :- IntAt(s, animVersion.next);
    SectionsAt(s, objVersion.next)
  }

  /**
   * read_leaf of leaf_parser.py: versions, sections, trait animation and the beats; the beat count
   * reported is the count read, and the object ends after one 12-byte vector per beat and an int.
   */
  function LeafFileAt(s: seq<byte>, p: nat, name: string): (r: Parsed<Value>)
    ensures Advances(r, p, |s|)
    ensures r.Ok? ==>
              && LeafHeadAt(s, p).Ok?
              && var animation := TraitAnimationAt(s, LeafHeadAt(s, p).value.next);
              && animation.Ok?
              && var beats := IntAt(s, animation.value.next);
              && beats.Ok?
              && r.value.next == animation.value.next + 16 + 12 * RangeCount(beats.value.v)
              && r.value.v.VDict? && HasKeys(r.value.v.entries, LEAF_KEYS)
              && r.value.v.entries[1].1 == VStr(name)
              && r.value.v.entries[2].1 == VList(animation.value.v)
              && r.value.v.entries[3].1 == VInt(beats.value.v)
  {
    var head :- LeafHeadAt(s, p);
    var animation :- TraitAnimationAt(s, head.next);
    var beats :- LeafBeatsAt(s, animation.next);
    Ok(Decoded(VDict(Record(LEAF_KEYS, [VStr("SequinLeaf"), VStr(name), VList(animation.v), VInt(beats.v)])),
               beats.next))
  }

  /**
   * Where the Leaf-only reader succeeds, an objlib's Leaf reader reads the same bytes to the same
   * dict: sections are components, and the trait animation is the list of sequencer objects.
   */
  lemma LeafReadersAgree(s: seq<byte>, p: nat, name: string)
    ensures LeafFileAt(s, p, name).Ok? ==> LeafAt(s, p, name) == LeafFileAt(s, p, name)
  {
    if LeafFileAt(s, p, name).Ok? {
      SectionsAreComponents(s, p + 12);
      var head := LeafHeadAt(s, p).value;
      assert ObjectHeadAt(s, p, 3) == SectionsAt(s, p + 12);
      TraitAnimationAlike(s, head.next);
    }
  }

  // ---------------------------------------------------------------------------
  // The imperative readers

  method ReadSection(c: Cursor) returns (r: Result<Value>)
    requires c.Valid()
    modifies c
    ensures c.Valid() && Follows(r, SectionAt(c.data, old(c.pos)), c.pos)
  {
    var code :- ReadHash(c);
    match SectionKindOf(code)
    case None =>
      return Err(UnknownType(code, SectionReaders));
    case Some(AnimationSection) =>
      r := ReadAnimationComponent(c);
    case Some(EditStateSection) =>
      return Ok(EMPTY_OBJECT);
  }

  method ReadSections(c: Cursor) returns (r: Result<seq<Value>>)
    requires c.Valid()
    modifies c
    ensures c.Valid() && Follows(r, SectionsAt(c.data, old(c.pos)), c.pos)
  {
    ghost var p0 := c.pos;
    var count :- ReadInt(c);
    ghost var start := c.pos;
    assert SectionsAt(c.data, p0) == Repeat(SectionAt, c.data, start, RangeCount(count));
    var sections: seq<Value> := [];
    var i := 0;
    while i < count
      invariant c.Valid()
      invariant 0 <= i <= RangeCount(count)
      invariant Repeat(SectionAt, c.data, start, i) == Ok(Decoded(sections, c.pos))
      decreases count - i
    {
      ghost var q := c.pos;
      var section := ReadSection(c);
      if section.Err? {
        RepeatStepFails(SectionAt, c.data, start, i, RangeCount(count), sections, q);
        return Err(section.error);
      }
      RepeatStep(SectionAt, c.data, start, i, sections, q);
      sections := sections + [section.value];
      i := i + 1;
    }
    assert i == RangeCount(count);
    return Ok(sections);
  }

  /** The index check comes before the cursor moves; the reader check after the time is read. */
  method ReadLeafDataPoint(c: Cursor, traitType: int) returns (r: Result<(Value, Value)>)
    requires c.Valid()
    modifies c
    ensures c.Valid() && Follows(r, LeafDataPointAt(c.data, old(c.pos), traitType), c.pos)
  {
    if !(0 <= traitType < TRAIT_TYPE_COUNT) {
      return Err(TraitTypeOutOfRange(traitType));
    }
    var time :- ReadFloat(c);
    match DataPointReader(traitType)
    case None =>
      return Err(UnsupportedTraitType(traitType));
    case Some(k) =>
      var value :- ReadDataValue(c, k);
      var interpolation :- ReadString(c);
      var easing :- ReadString(c);
      return Ok((VFloat(time), value));
  }

  /** The dict of data points is updated in place, one `data_points[time] = value` per point. */
  method ReadLeafDataPoints(c: Cursor, traitType: int) returns (r: Result<Entries>)
    requires c.Valid()
    modifies c
    ensures c.Valid() && Follows(r, LeafDataPointsAt(c.data, old(c.pos), traitType), c.pos)
  {
    ghost var p0 := c.pos;
    var count :- ReadInt(c);
    ghost var start := c.pos;
    ghost var item := LeafDataPointItem(traitType);
    assert LeafDataPointPairsAt(c.data, p0, traitType) == Repeat(item, c.data, start, RangeCount(count));
    ghost var pairs: seq<(Value, Value)> := [];
    var points: Entries := [];
    var i := 0;
    while i < count
      invariant c.Valid()
      invariant 0 <= i <= RangeCount(count)
      invariant Repeat(item, c.data, start, i) == Ok(Decoded(pairs, c.pos))
      invariant points == PutAll(pairs)
      decreases count - i
    {
      ghost var q := c.pos;
      var point := ReadLeafDataPoint(c, traitType);
      if point.Err? {
        RepeatStepFails(item, c.data, start, i, RangeCount(count), pairs, q);
        return Err(point.error);
      }
      RepeatStep(item, c.data, start, i, pairs, q);
      assert (pairs + [point.value])[..|pairs|] == pairs;
      pairs := pairs + [point.value];
      points := Put(points, point.value.0, point.value.1);
      i := i + 1;
    }
    assert i == RangeCount(count);
    return Ok(points);
  }

  method ReadLeafSequencerHead(c: Cursor) returns (r: Result<(seq<Value>, int)>)
    requires c.Valid()
    modifies c
    ensures c.Valid() && Follows(r, LeafSequencerHeadAt(c.data, old(c.pos)), c.pos)
  {
    var path :- ReadTraitPath(c);
    var traitType :- ReadInt(c);
    return Ok((path, traitType));
  }

  method ReadLeafSequencerTrack(c: Cursor, traitType: int) returns (r: Result<SequencerTrack>)
    requires c.Valid()
    modifies c
    ensures c.Valid() && Follows(r, LeafSequencerTrackAt(c.data, old(c.pos), traitType), c.pos)
  {
    var points :- ReadLeafDataPoints(c, traitType);
    var uiElements :- ReadLeafDataPoints(c, traitType);
    var footer :- ReadFooter(c);
    return Ok(SequencerTrack(points, footer));
  }

  method ReadLeafSequencer(c: Cursor) returns (r: Result<Entries>)
    requires c.Valid()
    modifies c
    ensures c.Valid() && Follows(r, LeafSequencerAt(c.data, old(c.pos)), c.pos)
  {
    var head :- ReadLeafSequencerHead(c);
    var track :- ReadLeafSequencerTrack(c, head.1);
    r := SequencerBody(head.0, head.1, track.points, track.footer);
  }

  method ReadLeafSequencerSection(c: Cursor) returns (r: Result<Value>)
    requires c.Valid()
    modifies c
    ensures c.Valid() && Follows(r, LeafSequencerSectionAt(c.data, old(c.pos)), c.pos)
  {
    var name :- ReadString(c);
    var body :- ReadLeafSequencer(c);
    var unknown :- ReadBool(c);
    return Ok(VDict(PutEach([(Str("obj_name"), VStr(name))], body)));
  }

  method ReadTraitAnimation(c: Cursor) returns (r: Result<seq<Value>>)
    requires c.Valid()
    modifies c
    ensures c.Valid() && Follows(r, TraitAnimationAt(c.data, old(c.pos)), c.pos)
  {
    ghost var p0 := c.pos;
    var count :- ReadInt(c);
    ghost var start := c.pos;
    assert TraitAnimationAt(c.data, p0) == Repeat(LeafSequencerSectionAt, c.data, start, RangeCount(count));
    var objects: seq<Value> := [];
    var i := 0;
    while i < count
      invariant c.Valid()
      invariant 0 <= i <= RangeCount(count)
      invariant Repeat(LeafSequencerSectionAt, c.data, start, i) == Ok(Decoded(objects, c.pos))
      decreases count - i
    {
      ghost var q := c.pos;
      var section := ReadLeafSequencerSection(c);
      if section.Err? {
        RepeatStepFails(LeafSequencerSectionAt, c.data, start, i, RangeCount(count), objects, q);
        return Err(section.error);
      }
      RepeatStep(LeafSequencerSectionAt, c.data, start, i, objects, q);
      objects := objects + [section.value];
      i := i + 1;
    }
    assert i == RangeCount(count);
    return Ok(objects);
  }

  method ReadLeafHead(c: Cursor) returns (r: Result<seq<Value>>)
    requires c.Valid()
    modifies c
    ensures c.Valid() && Follows(r, LeafHeadAt(c.data, old(c.pos)), c.pos)
  {
    var leafVersion :- ReadInt(c);
    var animVersion :- ReadInt(c);
    var objVersion :- ReadInt(c);
    r := ReadSections(c);
  }

  /** read_leaf over a whole file's bytes, read from its start. */
  method ReadLeafFile(data: seq<byte>, name: string) returns (r: Result<Value>)
    ensures var leaf := LeafFileAt(data, 0, name);
            Follows(r, leaf, if leaf.Ok? then leaf.value.next else 0)
  {
    var c := new Cursor(data);
    var head :- ReadLeafHead(c);
    var animation :- ReadTraitAnimation(c);
    var beats :- ReadLeafBeats(c);
    return Ok(VDict(Record(LEAF_KEYS, [VStr("SequinLeaf"), VStr(name), VList(animation), VInt(beats)])));
  }
}
