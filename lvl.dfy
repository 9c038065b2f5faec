/**
 * The level object of an objlib (read_lvl): its sequencer objects, the steps of its leaf sequence
 * (a list ended by a false flag), its loops and its flow and tutorial settings.
 */
module Lvl {
  import opened Outcomes
  import opened Bytes
  import opened PyValues
  import opened Primitives
  import opened Components
  import opened Traits
  import opened Objects

  // ---------------------------------------------------------------------------
  // Steps

  /** One sub path of a step: two strings, kept as a two-element list. */
  function SubPathAt(s: seq<byte>, p: nat): (r: Parsed<Value>)
    ensures Advances(r, p, |s|)
    ensures r.Ok? <==> StringAt(s, p).Ok? && StringAt(s, StringAt(s, p).value.next).Ok?
    ensures r.Ok? ==>
              && r.value.v.VList? && |r.value.v.items| == 2
              && r.value.v.items[0] == VStr(StringAt(s, p).value.v)
              && var second := StringAt(s, StringAt(s, p).value.next).value;
              && r.value.v.items[1] == VStr(second.v) && r.value.next == second.next
  {
    var first :- StringAt(s, p);
    var second :- StringAt(s, first.next);
    Ok(Decoded(VList([VStr(first.v), VStr(second.v)]), second.next))
  }

  /** An int32 count, then that many sub paths. */
  function SubPathsAt(s: seq<byte>, p: nat): (r: Parsed<seq<Value>>)
    ensures Advances(r, p, |s|)
    ensures r.Ok? ==> IntAt(s, p).Ok? && |r.value.v| == RangeCount(IntAt(s, p).value.v)
    ensures r.Ok? ==> r == Repeat(SubPathAt, s, p + 4, RangeCount(IntAt(s, p).value.v))
  {
    var count :- IntAt(s, p);
    RepeatAdvances(SubPathAt, s, count.next, RangeCount(count.v));
    Repeat(SubPathAt, s, count.next, RangeCount(count.v))
  }

  /** `sequin = read_string(file)` when its guard holds; otherwise nothing is read and nothing bound. */
  function OptionalStringAt(s: seq<byte>, p: nat, present: bool): (r: Parsed<Option<string>>)
    ensures Advances(r, p, |s|) || !present
    ensures !present ==> r == Ok(Decoded(None, p))
    ensures present ==> (r.Ok? <==> StringAt(s, p).Ok?)
    ensures present && r.Ok? ==> r.value.v == Some(StringAt(s, p).value.v) && r.value.next == StringAt(s, p).value.next
  {
    if present then
      var text :- StringAt(s, p);
      Ok(Decoded(Some(text.v), text.next))
    else
      Ok(Decoded(None, p))
  }

  /** The fields a step reads when its leading string is empty; `sequin` is unbound when skipped. */
  datatype StepHead = StepHead(beats: int, sequin: Option<string>, mainPath: string, subPaths: seq<Value>)

  /** The beat count, the skip flag, the sequin name unless skipped, the main path and the sub paths. */
  function StepHeadAt(s: seq<byte>, p: nat): (r: Parsed<StepHead>)
    ensures Advances(r, p, |s|)
    ensures r.Ok? ==>
              && IntAt(s, p).Ok? && BoolAt(s, p + 4).Ok?
              && r.value.v.beats == IntAt(s, p).value.v
              && (r.value.v.sequin.None? <==> BoolAt(s, p + 4).value.v)
    ensures r.Ok? ==>
              && var sequin := OptionalStringAt(s, p + 5, s[p + 4] == 0);
              && sequin.Ok? && r.value.v.sequin == sequin.value.v
              && var mainPath := StringAt(s, sequin.value.next);
              && mainPath.Ok? && r.value.v.mainPath == mainPath.value.v
              && var subPaths := SubPathsAt(s, mainPath.value.next);
              && subPaths.Ok? && r.value.v.subPaths == subPaths.value.v
              && r.value.next == subPaths.value.next
  {
    var beats :- IntAt(s, p);
    var skip :- BoolAt(s, beats.next);
    var sequin :- OptionalStringAt(s, skip.next, !skip.v);
    var mainPath :- StringAt(s, sequin.next);
    var subPaths :- SubPathsAt(s, mainPath.next);
    Ok(Decoded(StepHead(beats.v, sequin.v, mainPath.v, subPaths.v), subPaths.next))
  }

  /** The fields every step reads: its type, its offset, its transform and two flags. */
  function StepTailAt(s: seq<byte>, p: nat): (r: Parsed<Entries>)
    ensures Advances(r, p, |s|)
    ensures r.Ok? <==>
              && StringAt(s, p).Ok? && TransformAt(s, StringAt(s, p).value.next + 4).Ok?
              && StringAt(s, p).value.next + 66 <= |s|
    ensures r.Ok? ==>
              && HasKeys(r.value.v, TRANSFORM_KEYS)
              && r.value.v == TransformAt(s, StringAt(s, p).value.next + 4).value.v.entries
              && r.value.next == StringAt(s, p).value.next + 66
  {
    var stepType :- StringAt(s, p);
    var offset :- IntAt(s, stepType.next);
    var transform :- TransformAt(s, offset.next);
    var unknown5 :- BoolAt(s, transform.next);
    var unknown6 :- BoolAt(s, unknown5.next);
    Ok(Decoded(transform.v.entries, unknown6.next))
  }

  const STEP_KEYS: seq<string> := ["beat_cnt", "leaf_name", "main_path", "sub_paths"]

  /** A step's dict, keys in display order: the transform's entries come after the four named ones. */
  predicate IsStep(v: Value) {
    v.VDict? && HasKeys(v.entries, STEP_KEYS + TRANSFORM_KEYS)
  }

  /** The dict read_step returns: the beat count, the sequin name, the paths and `**transform`. */
  function StepRecord(head: StepHead, sequin: string, transform: Entries): (v: Value)
    requires HasKeys(transform, TRANSFORM_KEYS)
    ensures IsStep(v)
    ensures v.entries[0].1 == VInt(head.beats) && v.entries[1].1 == VStr(sequin)
    ensures v.entries[2].1 == VStr(head.mainPath) && v.entries[3].1 == VList(head.subPaths)
    ensures v.entries[4..] == transform
  {
    var named := Record(STEP_KEYS, [VInt(head.beats), VStr(sequin), VStr(head.mainPath), VList(head.subPaths)]);
    StepKeysFresh();
    TransformSpread(named, STEP_KEYS, transform);
    assert (named + transform)[4..] == transform;
    VDict(PutEach(named, transform))
  }

  /** None of a step's own keys is a transform key. */
  lemma StepKeysFresh()
    ensures forall i :: 0 <= i < |STEP_KEYS| ==> STEP_KEYS[i] !in TRANSFORM_KEYS
  {
    NotTransformKey("beat_cnt");
    NotTransformKey("leaf_name");
    NotTransformKey("main_path");
    NotTransformKey("sub_paths");
  }

  /**
   * read_step: a non-empty leading string leaves the beat count unbound, and so does a set skip
   * flag leave the sequin name unbound; either raises only once the whole step has been read.
   */
  function StepAt(s: seq<byte>, p: nat): (r: Parsed<Value>)
    ensures Advances(r, p, |s|)
    ensures r.Ok? ==> IsStep(r.value.v)
  {
    var lead :- StringAt(s, p);
    if lead.v != "" then
      var tail :- StepTailAt(s, lead.next);
      Err(UnboundLocal)
    else
      var head :- StepHeadAt(s, lead.next);
      var tail :- StepTailAt(s, head.next);
      if head.v.sequin.None? then Err(UnboundLocal)
      else Ok(Decoded(StepRecord(head.v, head.v.sequin.value, tail.v), tail.next))
  }

  /** A non-empty leading string raises UnboundLocalError once the rest of the step has been read. */
  lemma StepNamedUnbound(s: seq<byte>, p: nat)
    requires StringAt(s, p).Ok? && StringAt(s, p).value.v != ""
    ensures StepTailAt(s, StringAt(s, p).value.next).Ok? ==> StepAt(s, p) == Err(UnboundLocal)
    ensures StepTailAt(s, StringAt(s, p).value.next).Err? ==> StepAt(s, p) == Err(StepTailAt(s, StringAt(s, p).value.next).error)
  {
  }

  /**
   * A step that reads has an empty leading string and an unskipped sequin; its dict holds the beat
   * count, the sequin name, the main path and the sub paths its head read, then the transform its
   * tail read, and the step ends where the tail does.
   */
  lemma StepFields(s: seq<byte>, p: nat)
    requires StepAt(s, p).Ok?
    ensures StringAt(s, p).Ok? && StringAt(s, p).value.v == ""
    ensures var head := StepHeadAt(s, StringAt(s, p).value.next);
            && head.Ok? && head.value.v.sequin.Some?
            && var tail := StepTailAt(s, head.value.next);
            && tail.Ok?
            && var step := StepAt(s, p).value;
            && step.v.entries[0].1 == VInt(head.value.v.beats)
            && step.v.entries[1].1 == VStr(head.value.v.sequin.value)
            && step.v.entries[2].1 == VStr(head.value.v.mainPath)
            && step.v.entries[3].1 == VList(head.value.v.subPaths)
            && step.v.entries[4..] == tail.value.v
            && step.next == tail.value.next
  {
  }

  /** The byte just before `next` is a false flag. */
  predicate EndsAtFalse(s: seq<byte>, next: nat) {
    0 < next <= |s| && s[next - 1] == 0
  }

  /**
   * read_steps: `while read_bool(file)` reads one more step; the list ends just after the first
   * false flag, and every element is a step's dict.
   */
  function StepsAt(s: seq<byte>, p: nat): (r: Parsed<seq<Value>>)
    ensures Advances(r, p, |s|)
    ensures r.Ok? ==> p < r.value.next && EndsAtFalse(s, r.value.next)
    ensures r.Ok? ==> forall i :: 0 <= i < |r.value.v| ==> IsStep(r.value.v[i])
    decreases |s| - p
  {
    var more :- BoolAt(s, p);
    if !more.v then Ok(Decoded([], more.next))
    else
      var first :- StepAt(s, more.next);
      var rest :- StepsAt(s, first.next);
      Ok(Decoded([first.v] + rest.v, rest.next))
  }

  /**
   * A flag that cannot be read fails the list, a false flag ends it; after a true flag, a failing
   * step fails the list and a good one leads it.
   */
  lemma StepsStep(s: seq<byte>, p: nat)
    ensures p >= |s| ==> StepsAt(s, p) == Err(Truncated)
    ensures p < |s| && s[p] == 0 ==> StepsAt(s, p) == Ok(Decoded([], p + 1))
    ensures p < |s| && s[p] != 0 && StepAt(s, p + 1).Err? ==> StepsAt(s, p) == Err(StepAt(s, p + 1).error)
    ensures p < |s| && s[p] != 0 && StepAt(s, p + 1).Ok? ==>
              StepsAt(s, p) == Prepend([StepAt(s, p + 1).value.v], StepsAt(s, StepAt(s, p + 1).value.next))
  {
  }

  // ---------------------------------------------------------------------------
  // Loops

  const LOOP_KEYS: seq<string> := ["samp_name", "beats_per_loop"]

  /** read_loop: the sample object name and the beats per loop; the third field is read and dropped. */
  function LoopAt(s: seq<byte>, p: nat): (r: Parsed<Value>)
    ensures Advances(r, p, |s|)
    ensures r.Ok? <==> StringAt(s, p).Ok? && StringAt(s, p).value.next + 8 <= |s|
    ensures r.Ok? ==>
              && r.value.next == StringAt(s, p).value.next + 8
              && r.value.v.VDict? && HasKeys(r.value.v.entries, LOOP_KEYS)
              && r.value.v.entries[0].1 == VStr(StringAt(s, p).value.v)
              && r.value.v.entries[1].1 == VInt(IntAt(s, StringAt(s, p).value.next).value.v)
  {
    var sample :- StringAt(s, p);
    var beats :- IntAt(s, sample.next);
    var channel :- IntAt(s, beats.next);
    Ok(Decoded(VDict(Record(LOOP_KEYS, [VStr(sample.v), VInt(beats.v)])), channel.next))
  }

  /** read_loops: an int32 count, then that many loops. */
  function LoopsAt(s: seq<byte>, p: nat): (r: Parsed<seq<Value>>)
    ensures Advances(r, p, |s|)
    ensures r.Ok? ==> IntAt(s, p).Ok? && |r.value.v| == RangeCount(IntAt(s, p).value.v)
  {
    var count :- IntAt(s, p);
    RepeatAdvances(LoopAt, s, count.next, RangeCount(count.v));
    Repeat(LoopAt, s, count.next, RangeCount(count.v))
  }

  // ---------------------------------------------------------------------------
  // The level

  /** The minimum end frame, the move type and the move sequin name, none of them kept. */
  function LvlMoveAt(s: seq<byte>, p: nat): (r: Parsed<Unit>)
    ensures Advances(r, p, |s|)
    ensures r.Ok? ==> p + 12 <= r.value.next
    ensures r.Ok? ==>
              && StringAt(s, p + 4).Ok? && StringAt(s, StringAt(s, p + 4).value.next).Ok?
              && r.value.next == StringAt(s, StringAt(s, p + 4).value.next).value.next
  {
    var minEndFrame :- FloatAt(s, p);
    var moveType :- StringAt(s, minEndFrame.next);
    var moveSequin :- StringAt(s, moveType.next);
    Ok(Decoded((), moveSequin.next))
  }

  /** An unused flag, the volume, then the start flow name, trait path and trait type (dropped). */
  function LvlFlowAt(s: seq<byte>, p: nat): (r: Parsed<F32>)
    ensures Advances(r, p, |s|)
    ensures r.Ok? ==> p + 5 <= |s| && r.value.v == FloatAt(s, p + 1).value.v
    ensures r.Ok? ==>
              && StringAt(s, p + 5).Ok?
              && var path := TraitPathAt(s, StringAt(s, p + 5).value.next);
              && path.Ok? && StringAt(s, path.value.next).Ok?
              && r.value.next == StringAt(s, path.value.next).value.next
  {
    var unknown1 :- BoolAt(s, p);
    var volume :- FloatAt(s, unknown1.next);
    var startFlow :- StringAt(s, volume.next);
    var path :- TraitPathAt(s, startFlow.next);
    var traitType :- StringAt(s, path.next);
    Ok(Decoded(volume.v, traitType.next))
  }

  /** The last fields of a level that it keeps. */
  datatype LvlTail = LvlTail(inputAllowed: bool, tutorialType: string, startAngleFracs: Value)

  /** The input flag, the tutorial type and the start angle fractions vector. */
  function LvlTailAt(s: seq<byte>, p: nat): (r: Parsed<LvlTail>)
    ensures Advances(r, p, |s|)
    ensures r.Ok? ==>
              && BoolAt(s, p).Ok? && StringAt(s, p + 1).Ok?
              && r.value.v.inputAllowed == BoolAt(s, p).value.v
              && r.value.v.tutorialType == StringAt(s, p + 1).value.v
              && r.value.next == StringAt(s, p + 1).value.next + 12
              && r.value.v.startAngleFracs == VectorAt(s, StringAt(s, p + 1).value.next).value.v
  {
    var input :- BoolAt(s, p);
    var tutorial :- StringAt(s, input.next);
    var fracs :- VectorAt(s, tutorial.next);
    Ok(Decoded(LvlTail(input.v, tutorial.v, fracs.v), fracs.next))
  }

  /** The parts of a level after its sequencer objects that its dict keeps. */
  datatype LvlBody = LvlBody(steps: seq<Value>, loops: seq<Value>, volume: F32, tail: LvlTail)

  /** The move fields, the steps, the loops, the flow fields and the tail of a level. */
  function LvlBodyAt(s: seq<byte>, p: nat): (r: Parsed<LvlBody>)
    ensures Advances(r, p, |s|)
    ensures r.Ok? ==>
              && LvlMoveAt(s, p).Ok? && StepsAt(s, LvlMoveAt(s, p).value.next).Ok?
              && r.value.v.steps == StepsAt(s, LvlMoveAt(s, p).value.next).value.v
              && IntAt(s, StepsAt(s, LvlMoveAt(s, p).value.next).value.next).Ok?
              && |r.value.v.loops| == RangeCount(IntAt(s, StepsAt(s, LvlMoveAt(s, p).value.next).value.next).value.v)
    ensures r.Ok? ==>
              && LvlMoveAt(s, p).Ok? && StepsAt(s, LvlMoveAt(s, p).value.next).Ok?
              && var loops := LoopsAt(s, StepsAt(s, LvlMoveAt(s, p).value.next).value.next);
              && loops.Ok? && r.value.v.loops == loops.value.v
              && var flow := LvlFlowAt(s, loops.value.next);
              && flow.Ok? && r.value.v.volume == flow.value.v
              && var tail := LvlTailAt(s, flow.value.next);
              && tail.Ok? && r.value.v.tail == tail.value.v
              && r.value.next == tail.value.next
  {
    var move :- LvlMoveAt(s, p);
    var steps :- StepsAt(s, move.next);
    var loops :- LoopsAt(s, steps.next);
    var volume :- LvlFlowAt(s, loops.next);
    var tail :- LvlTailAt(s, volume.next);
    Ok(Decoded(LvlBody(steps.v, loops.v, volume.v, tail.v), tail.next))
  }

  /** The entries the level dict displays after `**approach_animation_component`. */
  function LvlTrailing(objects: seq<Value>, body: LvlBody): Entries {
    [(Str("seq_objs"), VList(objects)),
     (Str("leaf_seq"), VList(body.steps)),
     (Str("loops"), VList(body.loops)),
     (Str("volume"), VFloat(body.volume)),
     (Str("input_allowed"), VBool(body.tail.inputAllowed)),
     (Str("tutorial_type"), VStr(body.tail.tutorialType)),
     (Str("start_angle_fracs"), body.tail.startAngleFracs)]
  }

  /**
   * The dict read_lvl returns: `{'obj_type': 'SequinLevel', 'obj_name': name, **approach, ...}`.
   * Spreading an approach component that is not a dict raises; the displayed keys after it win.
   */
  function LvlRecord(name: string, approach: Value, objects: seq<Value>, body: LvlBody): (r: Result<Value>)
    ensures r.Ok? <==> approach.VDict?
    ensures r.Err? ==> r.error == NotAMapping
    ensures r.Ok? ==>
              && r.value.VDict?
              && Lookup(r.value.entries, Str("seq_objs")) == Some(VList(objects))
              && Lookup(r.value.entries, Str("leaf_seq")) == Some(VList(body.steps))
              && Lookup(r.value.entries, Str("loops")) == Some(VList(body.loops))
              && Lookup(r.value.entries, Str("volume")) == Some(VFloat(body.volume))
              && Lookup(r.value.entries, Str("input_allowed")) == Some(VBool(body.tail.inputAllowed))
              && Lookup(r.value.entries, Str("tutorial_type")) == Some(VStr(body.tail.tutorialType))
              && Lookup(r.value.entries, Str("start_angle_fracs")) == Some(body.tail.startAngleFracs)
    // the approach component's entries override the type and name, and supply approach_beats
    ensures r.Ok? ==>
              && Lookup(r.value.entries, Str("obj_type")) ==
                   (if LastWrite(approach.entries, Str("obj_type")).Some? then LastWrite(approach.entries, Str("obj_type"))
                    else Some(VStr("SequinLevel")))
              && Lookup(r.value.entries, Str("obj_name")) ==
                   (if LastWrite(approach.entries, Str("obj_name")).Some? then LastWrite(approach.entries, Str("obj_name"))
                    else Some(VStr(name)))
              && Lookup(r.value.entries, Str("approach_beats")) == LastWrite(approach.entries, Str("approach_beats"))
  {
    var head := [(Str("obj_type"), VStr("SequinLevel")), (Str("obj_name"), VStr(name))];
    var level :- Spread(head, approach);
    LvlTrailingKeys(level, objects, body);
    LvlHeadKey(level, head, approach.entries, objects, body, "obj_type");
    LvlHeadKey(level, head, approach.entries, objects, body, "obj_name");
    LvlHeadKey(level, head, approach.entries, objects, body, "approach_beats");
    assert Lookup(head, Str("obj_type")) == Some(VStr("SequinLevel"));
    assert Lookup(head, Str("obj_name")) == Some(VStr(name));
    assert Lookup(head, Str("approach_beats")) == None;
    Ok(VDict(PutEach(level, LvlTrailing(objects, body))))
  }

  /** Each trailing entry of the level dict is written once, so it holds what the level read. */
  lemma LvlTrailingKeys(level: Entries, objects: seq<Value>, body: LvlBody)
    ensures var d := PutEach(level, LvlTrailing(objects, body));
            && Lookup(d, Str("seq_objs")) == Some(VList(objects))
            && Lookup(d, Str("leaf_seq")) == Some(VList(body.steps))
            && Lookup(d, Str("loops")) == Some(VList(body.loops))
            && Lookup(d, Str("volume")) == Some(VFloat(body.volume))
            && Lookup(d, Str("input_allowed")) == Some(VBool(body.tail.inputAllowed))
            && Lookup(d, Str("tutorial_type")) == Some(VStr(body.tail.tutorialType))
            && Lookup(d, Str("start_angle_fracs")) == Some(body.tail.startAngleFracs)
  {
    var trailing := LvlTrailing(objects, body);
    assert "seq_objs"[0] != "leaf_seq"[0];
    LastWriteUnrepeated(trailing, 0);
    LastWriteUnrepeated(trailing, 1);
    LastWriteUnrepeated(trailing, 2);
    LastWriteUnrepeated(trailing, 3);
    LastWriteUnrepeated(trailing, 4);
    LastWriteUnrepeated(trailing, 5);
    LastWriteUnrepeated(trailing, 6);
    PutEachLookup(level, trailing, Str("seq_objs"));
    PutEachLookup(level, trailing, Str("leaf_seq"));
    PutEachLookup(level, trailing, Str("loops"));
    PutEachLookup(level, trailing, Str("volume"));
    PutEachLookup(level, trailing, Str("input_allowed"));
    PutEachLookup(level, trailing, Str("tutorial_type"));
    PutEachLookup(level, trailing, Str("start_angle_fracs"));
  }

  /** The keys read_lvl's dict display writes before the approach component, and that key itself. */
  lemma LvlHeadKey(level: Entries, head: Entries, approach: Entries, objects: seq<Value>, body: LvlBody, k: string)
    requires level == PutEach(head, approach)
    requires k == "obj_type" || k == "obj_name" || k == "approach_beats"
    ensures Lookup(PutEach(level, LvlTrailing(objects, body)), Str(k)) ==
              if LastWrite(approach, Str(k)).Some? then LastWrite(approach, Str(k)) else Lookup(head, Str(k))
  {
    assert |k| == 8 ==> k[0] == 'o';
    var trailing := LvlTrailing(objects, body);
    LastWriteAbsent(trailing, Str(k));
    PutEachLookup(level, trailing, Str(k));
    PutEachLookup(head, approach, Str(k));
  }

  /**
   * read_lvl: three version numbers, exactly two components (else ValueError right after they are
   * read), the sequencer objects and the body; the first component is spread into the dict.
   */
  function LvlAt(s: seq<byte>, p: nat, name: string): (r: Parsed<Value>)
    ensures Advances(r, p, |s|)
    ensures ObjectHeadAt(s, p, 3).Ok? && |ObjectHeadAt(s, p, 3).value.v| != 2 ==>
              r == Err(ComponentCount(|ObjectHeadAt(s, p, 3).value.v|))
    ensures r.Ok? ==>
              && ObjectHeadAt(s, p, 3).Ok? && |ObjectHeadAt(s, p, 3).value.v| == 2
              && ObjectHeadAt(s, p, 3).value.v[0].VDict?
              && SequencerObjectsAt(s, ObjectHeadAt(s, p, 3).value.next).Ok?
              && r.value.v.VDict?
              && Lookup(r.value.v.entries, Str("seq_objs")) ==
                   Some(VList(SequencerObjectsAt(s, ObjectHeadAt(s, p, 3).value.next).value.v))
    // the dict is the level record of the first component, the objects and the body read after them
    ensures r.Ok? ==>
              && ObjectHeadAt(s, p, 3).Ok? && |ObjectHeadAt(s, p, 3).value.v| == 2
              && SequencerObjectsAt(s, ObjectHeadAt(s, p, 3).value.next).Ok?
              && var objects := SequencerObjectsAt(s, ObjectHeadAt(s, p, 3).value.next).value;
              && var body := LvlBodyAt(s, objects.next);
              && body.Ok?
              && LvlRecord(name, ObjectHeadAt(s, p, 3).value.v[0], objects.v, body.value.v) == Ok(r.value.v)
              && r.value.next == body.value.next
  {
    var head :- ObjectHeadAt(s, p, 3);
    var pair :- ComponentPair(head.v);
    var objects :- SequencerObjectsAt(s, head.next);
    var body :- LvlBodyAt(s, objects.next);
    var level :- LvlRecord(name, pair.0, objects.v, body.v);
    Ok(Decoded(level, body.next))
  }

  // ---------------------------------------------------------------------------
  // The readers over a cursor, each following its specification function

  method ReadSubPath(c: Cursor) returns (r: Result<Value>)
    requires c.Valid()
    modifies c
    ensures c.Valid() && Follows(r, SubPathAt(c.data, old(c.pos)), c.pos)
  {
    var first :- ReadString(c);
    var second :- ReadString(c);
    return Ok(VList([VStr(first), VStr(second)]));
  }

  method ReadSubPaths(c: Cursor) returns (r: Result<seq<Value>>)
    requires c.Valid()
    modifies c
    ensures c.Valid() && Follows(r, SubPathsAt(c.data, old(c.pos)), c.pos)
  {
    ghost var p0 := c.pos;
    var count :- ReadInt(c);
    ghost var start := c.pos;
    assert SubPathsAt(c.data, p0) == Repeat(SubPathAt, c.data, start, RangeCount(count));
    var subPaths: seq<Value> := [];
    var i := 0;
    while i < count
      invariant c.Valid()
      invariant 0 <= i <= RangeCount(count)
      invariant Repeat(SubPathAt, c.data, start, i) == Ok(Decoded(subPaths, c.pos))
      decreases count - i
    {
      ghost var q := c.pos;
      var subPath := ReadSubPath(c);
      if subPath.Err? {
        RepeatStepFails(SubPathAt, c.data, start, i, RangeCount(count), subPaths, q);
        return Err(subPath.error);
      }
      RepeatStep(SubPathAt, c.data, start, i, subPaths, q);
      subPaths := subPaths + [subPath.value];
      i := i + 1;
    }
    assert i == RangeCount(count);
    return Ok(subPaths);
  }

  method ReadStepHead(c: Cursor) returns (r: Result<StepHead>)
    requires c.Valid()
    modifies c
    ensures c.Valid() && Follows(r, StepHeadAt(c.data, old(c.pos)), c.pos)
  {
    var beats :- ReadInt(c);
    var skip :- ReadBool(c);
    var sequin: Option<string> := None;
    if !skip {
      var text :- ReadString(c);
      sequin := Some(text);
    }
    var mainPath :- ReadString(c);
    var subPaths :- ReadSubPaths(c);
    return Ok(StepHead(beats, sequin, mainPath, subPaths));
  }

  method ReadStepTail(c: Cursor) returns (r: Result<Entries>)
    requires c.Valid()
    modifies c
    ensures c.Valid() && Follows(r, StepTailAt(c.data, old(c.pos)), c.pos)
  {
    var stepType :- ReadString(c);
    var offset :- ReadInt(c);
    var transform :- ReadTransform(c);
    var unknown5 :- ReadBool(c);
    var unknown6 :- ReadBool(c);
    return Ok(transform.entries);
  }

  method ReadStep(c: Cursor) returns (r: Result<Value>)
    requires c.Valid()
    modifies c
    ensures c.Valid() && Follows(r, StepAt(c.data, old(c.pos)), c.pos)
  {
    var lead :- ReadString(c);
    if lead != "" {
      var tail :- ReadStepTail(c);
      return Err(UnboundLocal);
    }
    var head :- ReadStepHead(c);
    var tail :- ReadStepTail(c);
    if head.sequin.None? {
      return Err(UnboundLocal);
    }
    return Ok(StepRecord(head, head.sequin.value, tail));
  }

  method ReadSteps(c: Cursor) returns (r: Result<seq<Value>>)
    requires c.Valid()
    modifies c
    ensures c.Valid() && Follows(r, StepsAt(c.data, old(c.pos)), c.pos)
  {
    ghost var p0 := c.pos;
    var steps: seq<Value> := [];
    PrependLaws(steps, steps, StepsAt(c.data, p0));
    while true
      invariant c.Valid()
      invariant StepsAt(c.data, p0) == Prepend(steps, StepsAt(c.data, c.pos))
      decreases |c.data| - c.pos
    {
      ghost var q := c.pos;
      StepsStep(c.data, q);
      var more := ReadBool(c);
      if more.Err? {
        assert StepsAt(c.data, q) == Err(more.error);
        assert StepsAt(c.data, p0) == Err(more.error);
        return Err(more.error);
      }
      if !more.value {
        assert StepsAt(c.data, q) == Ok(Decoded([], c.pos));
        assert steps + [] == steps;
        assert StepsAt(c.data, p0) == Ok(Decoded(steps, c.pos));
        return Ok(steps);
      }
      var step := ReadStep(c);
      if step.Err? {
        assert StepsAt(c.data, q) == Err(step.error);
        assert StepsAt(c.data, p0) == Err(step.error);
        return Err(step.error);
      }
      PrependLaws([step.value], steps, StepsAt(c.data, c.pos));
      assert StepsAt(c.data, q) == Prepend([step.value], StepsAt(c.data, c.pos));
      steps := steps + [step.value];
    }
  }

  method ReadLoop(c: Cursor) returns (r: Result<Value>)
    requires c.Valid()
    modifies c
    ensures c.Valid() && Follows(r, LoopAt(c.data, old(c.pos)), c.pos)
  {
    var sample :- ReadString(c);
    var beats :- ReadInt(c);
    var channel :- ReadInt(c);
    return Ok(VDict(Record(LOOP_KEYS, [VStr(sample), VInt(beats)])));
  }

  method ReadLoops(c: Cursor) returns (r: Result<seq<Value>>)
    requires c.Valid()
    modifies c
    ensures c.Valid() && Follows(r, LoopsAt(c.data, old(c.pos)), c.pos)
  {
    ghost var p0 := c.pos;
    var count :- ReadInt(c);
    ghost var start := c.pos;
    assert LoopsAt(c.data, p0) == Repeat(LoopAt, c.data, start, RangeCount(count));
    var loops: seq<Value> := [];
    var i := 0;
    while i < count
      invariant c.Valid()
      invariant 0 <= i <= RangeCount(count)
      invariant Repeat(LoopAt, c.data, start, i) == Ok(Decoded(loops, c.pos))
      decreases count - i
    {
      ghost var q := c.pos;
      var loop := ReadLoop(c);
      if loop.Err? {
        RepeatStepFails(LoopAt, c.data, start, i, RangeCount(count), loops, q);
        return Err(loop.error);
      }
      RepeatStep(LoopAt, c.data, start, i, loops, q);
      loops := loops + [loop.value];
      i := i + 1;
    }
    assert i == RangeCount(count);
    return Ok(loops);
  }

  method ReadLvlMove(c: Cursor) returns (r: Result<Unit>)
    requires c.Valid()
    modifies c
    ensures c.Valid() && Follows(r, LvlMoveAt(c.data, old(c.pos)), c.pos)
  {
    var minEndFrame :- ReadFloat(c);
    var moveType :- ReadString(c);
    var moveSequin :- ReadString(c);
    return Ok(());
  }

  method ReadLvlFlow(c: Cursor) returns (r: Result<F32>)
    requires c.Valid()
    modifies c
    ensures c.Valid() && Follows(r, LvlFlowAt(c.data, old(c.pos)), c.pos)
  {
    var unknown1 :- ReadBool(c);
    var volume :- ReadFloat(c);
    var startFlow :- ReadString(c);
    var path :- ReadTraitPath(c);
    var traitType :- ReadString(c);
    return Ok(volume);
  }

  method ReadLvlTail(c: Cursor) returns (r: Result<LvlTail>)
    requires c.Valid()
    modifies c
    ensures c.Valid() && Follows(r, LvlTailAt(c.data, old(c.pos)), c.pos)
  {
    var input :- ReadBool(c);
    var tutorial :- ReadString(c);
    var fracs :- ReadVector(c);
    return Ok(LvlTail(input, tutorial, fracs));
  }

  method ReadLvlBody(c: Cursor) returns (r: Result<LvlBody>)
    requires c.Valid()
    modifies c
    ensures c.Valid() && Follows(r, LvlBodyAt(c.data, old(c.pos)), c.pos)
  {
    var move :- ReadLvlMove(c);
    var steps :- ReadSteps(c);
    var loops :- ReadLoops(c);
    var volume :- ReadLvlFlow(c);
    var tail :- ReadLvlTail(c);
    return Ok(LvlBody(steps, loops, volume, tail));
  }

  method ReadLvl(c: Cursor, name: string) returns (r: Result<Value>)
    requires c.Valid()
    modifies c
    ensures c.Valid() && Follows(r, LvlAt(c.data, old(c.pos), name), c.pos)
  {
    var head :- ReadObjectHead(c, 3);
    var pair :- ComponentPair(head);
    var objects :- ReadSequencerObjects(c);
    var body :- ReadLvlBody(c);
    r := LvlRecord(name, pair.0, objects, body);
  }
}
