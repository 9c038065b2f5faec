/**
 * The level object readers of an objlib other than the level itself: Leaf, Master, Gate, Samp,
 * Spn, Tex, Mat, Mesh and Path (read_leaf ... read_path). Every object starts with its version
 * numbers and its components; Gate, Tex, Mat, Mesh and Path consume their bytes and yield `{}`.
 */
module Objects {
  import opened Outcomes
  import opened Bytes
  import opened PyValues
  import opened Primitives
  import opened Components
  import opened Traits

  /** `{}`, what a reader that keeps nothing returns. */
  const EMPTY_OBJECT: Value := VDict([])

  /** `{'items': [item]}`, the single-item wrapper several readers return. */
  function Items(item: Value): (v: Value)
    ensures v.VDict? && HasKeys(v.entries, ["items"])
    ensures v.entries[0].1 == VList([item])
  {
    VDict(Record(["items"], [VList([item])]))
  }

  /** An object's leading version numbers (three for the Sequin objects, two for the rest), then its components. */
  function ObjectHeadAt(s: seq<byte>, p: nat, versions: nat): (r: Parsed<seq<Value>>)
    requires versions == 2 || versions == 3
    ensures r.Ok? <==> p + 4 * versions <= |s| && ComponentsAt(s, p + 4 * versions).Ok?
    ensures r.Ok? ==> r == ComponentsAt(s, p + 4 * versions)
  {
    var first :- IntAt(s, p);
    var second :- IntAt(s, first.next);
    var third :- if versions == 3 then IntAt(s, second.next) else Ok(Decoded(0, second.next));
    ComponentsAt(s, third.next)
  }

  // ---------------------------------------------------------------------------
  // Leaf

  /** The end of a Leaf: the beat count, two phases, one unused vector per beat, the lane offset. */
  function LeafBeatsAt(s: seq<byte>, p: nat): (r: Parsed<int>)
    ensures r.Ok? <==> IntAt(s, p).Ok? && p + 16 + 12 * RangeCount(IntAt(s, p).value.v) <= |s|
    ensures r.Ok? ==> r.value.v == IntAt(s, p).value.v && r.value.next == p + 16 + 12 * RangeCount(r.value.v)
  {
    var beats :- IntAt(s, p);
    var pathPhase :- FloatAt(s, beats.next);
    var tilePhase :- FloatAt(s, pathPhase.next);
    RepeatFixed(VectorAt, s, tilePhase.next, RangeCount(beats.v), 12);
    var vectors :- Repeat(VectorAt, s, tilePhase.next, RangeCount(beats.v));
    var laneOffset :- IntAt(s, vectors.next);
    Ok(Decoded(beats.v, laneOffset.next))
  }

  const LEAF_KEYS: seq<string> := ["obj_type", "obj_name", "seq_objs", "beat_cnt"]

  /** read_leaf: the beat count reported is the int read, and max(count, 0) vectors are skipped. */
  function LeafAt(s: seq<byte>, p: nat, name: string): (r: Parsed<Value>)
    ensures Advances(r, p, |s|)
    ensures r.Ok? ==>
              && ObjectHeadAt(s, p, 3).Ok?
              && var objects := SequencerObjectsAt(s, ObjectHeadAt(s, p, 3).value.next);
              && objects.Ok?
              && var beats := LeafBeatsAt(s, objects.value.next);
              && beats.Ok? && r.value.next == beats.value.next
              && r.value.v.VDict? && HasKeys(r.value.v.entries, LEAF_KEYS)
              && r.value.v.entries[0].1 == VStr("SequinLeaf") && r.value.v.entries[1].1 == VStr(name)
              && r.value.v.entries[2].1 == VList(objects.value.v)
              && r.value.v.entries[3].1 == VInt(beats.value.v)
  {
    var head :- ObjectHeadAt(s, p, 3);
    var objects :- SequencerObjectsAt(s, head.next);
    var beats :- LeafBeatsAt(s, objects.next);
    Ok(Decoded(VDict(Record(LEAF_KEYS, [VStr("SequinLeaf"), VStr(name), VList(objects.v), VInt(beats.v)])),
               beats.next))
  }

  // ---------------------------------------------------------------------------
  // Master

  /** The four unused flags of a level grouping, and the play-plus flag last, eight bytes in all. */
  function GroupingFlagsAt(s: seq<byte>, p: nat): (r: Parsed<bool>)
    ensures r.Ok? <==> p + 8 <= |s|
    ensures Consumes(r, p, 8)
    ensures r.Ok? ==> (r.value.v <==> s[p + 7] != 0)
  {
    var unknown1 :- BoolAt(s, p);
    var unknown2 :- BoolAt(s, unknown1.next);
    var unknown3 :- IntAt(s, unknown2.next);
    var unknown4 :- BoolAt(s, unknown3.next);
    var playPlus :- BoolAt(s, unknown4.next);
    Ok(Decoded(playPlus.v, playPlus.next))
  }

  const GROUPING_KEYS: seq<string> :=
    ["lvl_name", "gate_name", "checkpoint", "checkpoint_leader_lvl_name", "rest_lvl_name", "play_plus"]

  /** The level and gate names, the checkpoint flag, and the checkpoint leader and rest level names. */
  function GroupingNamesAt(s: seq<byte>, p: nat): (r: Parsed<seq<Value>>)
    ensures Advances(r, p, |s|)
    ensures r.Ok? ==>
              && StringAt(s, p).Ok?
              && var level := StringAt(s, p).value;
              && StringAt(s, level.next).Ok?
              && var gate := StringAt(s, level.next).value;
              && gate.next < |s| && StringAt(s, gate.next + 1).Ok?
              && var leader := StringAt(s, gate.next + 1).value;
              && StringAt(s, leader.next).Ok?
              && var rest := StringAt(s, leader.next).value;
              && r.value.v == [VStr(level.v), VStr(gate.v), VBool(s[gate.next] != 0), VStr(leader.v), VStr(rest.v)]
              && r.value.next == rest.next
  {
    var level :- StringAt(s, p);
    var gate :- StringAt(s, level.next);
    var checkpoint :- BoolAt(s, gate.next);
    var leader :- StringAt(s, checkpoint.next);
    var rest :- StringAt(s, leader.next);
    Ok(Decoded([VStr(level.v), VStr(gate.v), VBool(checkpoint.v), VStr(leader.v), VStr(rest.v)], rest.next))
  }

  /** The dict read_lvl_grouping returns, from the five name fields and the play-plus flag. */
  function GroupingRecord(names: seq<Value>, playPlus: bool): (v: Value)
    requires |names| == 5
    ensures v.VDict? && HasKeys(v.entries, GROUPING_KEYS)
    ensures forall i :: 0 <= i < 5 ==> v.entries[i].1 == names[i]
    ensures v.entries[5].1 == VBool(playPlus)
  {
    var values := names + [VBool(playPlus)];
    assert values[5] == VBool(playPlus);
    VDict(Record(GROUPING_KEYS, values))
  }

  /** read_lvl_grouping: the level and gate names, the checkpoint settings and the play-plus flag. */
  function GroupingAt(s: seq<byte>, p: nat): (r: Parsed<Value>)
    ensures Advances(r, p, |s|)
    ensures r.Ok? ==>
              && StringAt(s, p).Ok? && r.value.v.VDict? && HasKeys(r.value.v.entries, GROUPING_KEYS)
              && r.value.v.entries[0].1 == VStr(StringAt(s, p).value.v)
              && r.value.v.entries[2].1.VBool? && r.value.v.entries[5].1.VBool?
    ensures r.Ok? ==>
              && GroupingNamesAt(s, p).Ok?
              && var names := GroupingNamesAt(s, p).value;
              && GroupingFlagsAt(s, names.next).Ok?
              && (forall i :: 0 <= i < 5 ==> r.value.v.entries[i].1 == names.v[i])
              && r.value.v.entries[5].1 == VBool(s[names.next + 7] != 0)
              && r.value.next == names.next + 8
  {
    var names :- GroupingNamesAt(s, p);
    var playPlus :- GroupingFlagsAt(s, names.next);
    Ok(Decoded(GroupingRecord(names.v, playPlus.v), playPlus.next))
  }

  /** read_lvl_groupings: an int32 count, then that many groupings. */
  function GroupingsAt(s: seq<byte>, p: nat): (r: Parsed<seq<Value>>)
    ensures Advances(r, p, |s|)
    ensures r.Ok? ==> IntAt(s, p).Ok? && |r.value.v| == RangeCount(IntAt(s, p).value.v)
  {
    var count :- IntAt(s, p);
    RepeatAdvances(GroupingAt, s, count.next, RangeCount(count.v));
    Repeat(GroupingAt, s, count.next, RangeCount(count.v))
  }

  /** The minimum end frame, the skybox name (read, then dropped) and the intro level name. */
  function MasterSceneAt(s: seq<byte>, p: nat): (r: Parsed<string>)
    ensures r.Ok? <==> p + 4 <= |s| && StringAt(s, p + 4).Ok? && StringAt(s, StringAt(s, p + 4).value.next).Ok?
    ensures r.Ok? ==> r == StringAt(s, StringAt(s, p + 4).value.next)
  {
    var minEndFrame :- FloatAt(s, p);
    var skybox :- StringAt(s, minEndFrame.next);
    StringAt(s, skybox.next)
  }

  /** Two unused flags, four unused ints and an unused vector: 30 bytes. */
  function MasterUnusedAt(s: seq<byte>, p: nat): (r: Parsed<Unit>)
    ensures r.Ok? <==> p + 30 <= |s|
    ensures Consumes(r, p, 30)
  {
    var unknown1 :- BoolAt(s, p);
    var unknown2 :- BoolAt(s, unknown1.next);
    var unknown3 :- IntAt(s, unknown2.next);
    var unknown4 :- IntAt(s, unknown3.next);
    var unknown5 :- IntAt(s, unknown4.next);
    var unknown6 :- IntAt(s, unknown5.next);
    var unknown7 :- VectorAt(s, unknown6.next);
    Ok(Decoded((), unknown7.next))
  }

  /** The end of a Master: the unused fields, then the checkpoint level name and one more string. */
  function MasterCheckpointAt(s: seq<byte>, p: nat): (r: Parsed<string>)
    ensures r.Ok? <==> p + 30 <= |s| && StringAt(s, p + 30).Ok? && StringAt(s, StringAt(s, p + 30).value.next).Ok?
    ensures r.Ok? ==>
              && r.value.v == StringAt(s, p + 30).value.v
              && r.value.next == StringAt(s, StringAt(s, p + 30).value.next).value.next
  {
    var unused :- MasterUnusedAt(s, p);
    var checkpoint :- StringAt(s, unused.next);
    var unknown8 :- StringAt(s, checkpoint.next);
    Ok(Decoded(checkpoint.v, unknown8.next))
  }

  const MASTER_KEYS: seq<string> :=
    ["obj_type", "obj_name", "skybox_name", "intro_lvl_name", "groupings", "checkpoint_lvl_name"]

  /** The dict read_master returns. */
  function MasterRecord(name: string, intro: string, groupings: seq<Value>, checkpoint: string): (v: Value)
    ensures v.VDict? && HasKeys(v.entries, MASTER_KEYS)
    ensures v.entries[0].1 == VStr("SequinMaster") && v.entries[1].1 == VStr(name)
    ensures v.entries[2].1 == VStr("skybox_cube") && v.entries[3].1 == VStr(intro)
    ensures v.entries[4].1 == VList(groupings) && v.entries[5].1 == VStr(checkpoint)
  {
    VDict(Record(MASTER_KEYS, [VStr("SequinMaster"), VStr(name), VStr("skybox_cube"), VStr(intro),
                               VList(groupings), VStr(checkpoint)]))
  }

  /** read_master: the skybox name reported is always 'skybox_cube', whatever name the file holds. */
  function MasterAt(s: seq<byte>, p: nat, name: string): (r: Parsed<Value>)
    ensures Advances(r, p, |s|)
    ensures r.Ok? ==>
              && r.value.v.VDict? && HasKeys(r.value.v.entries, MASTER_KEYS)
              && r.value.v.entries[0].1 == VStr("SequinMaster") && r.value.v.entries[1].1 == VStr(name)
              && r.value.v.entries[2].1 == VStr("skybox_cube")
              && r.value.v.entries[4].1.VList?
    ensures r.Ok? ==>
              && ObjectHeadAt(s, p, 3).Ok?
              && var objects := SequencerObjectsAt(s, ObjectHeadAt(s, p, 3).value.next);
              && objects.Ok?
              && var intro := MasterSceneAt(s, objects.value.next);
              && intro.Ok?
              && var groupings := GroupingsAt(s, intro.value.next);
              && groupings.Ok?
              && var checkpoint := MasterCheckpointAt(s, groupings.value.next);
              && checkpoint.Ok?
              && r.value.v.entries[3].1 == VStr(intro.value.v)
              && r.value.v.entries[4].1 == VList(groupings.value.v)
              && r.value.v.entries[5].1 == VStr(checkpoint.value.v)
              && r.value.next == checkpoint.value.next
  {
    var head :- ObjectHeadAt(s, p, 3);
    var objects :- SequencerObjectsAt(s, head.next);
    var intro :- MasterSceneAt(s, objects.next);
    var groupings :- GroupingsAt(s, intro.next);
    var checkpoint :- MasterCheckpointAt(s, groupings.next);
    Ok(Decoded(MasterRecord(name, intro.v, groupings.v, checkpoint.v), checkpoint.next))
  }

  // ---------------------------------------------------------------------------
  // Gate

  /** read_boss_pattern: a script node hash, a level name, a flag, a sentry type, a float, a bucket. */
  function BossPatternAt(s: seq<byte>, p: nat): (r: Parsed<Value>)
    ensures Advances(r, p, |s|)
    ensures r.Ok? <==>
              && p + 4 <= |s| && StringAt(s, p + 4).Ok?
              && StringAt(s, StringAt(s, p + 4).value.next + 1).Ok?
              && StringAt(s, StringAt(s, p + 4).value.next + 1).value.next + 8 <= |s|
    ensures r.Ok? ==>
              && r.value.v == EMPTY_OBJECT && p + 17 <= r.value.next
              && r.value.next == StringAt(s, StringAt(s, p + 4).value.next + 1).value.next + 8
  {
    var node :- HashAt(s, p);
    var level :- StringAt(s, node.next);
    var unknown1 :- BoolAt(s, level.next);
    var sentry :- StringAt(s, unknown1.next);
    var unknown2 :- FloatAt(s, sentry.next);
    var bucket :- IntAt(s, unknown2.next);
    Ok(Decoded(EMPTY_OBJECT, bucket.next))
  }

  /** read_boss_patterns: an int32 count, then that many boss patterns. */
  function BossPatternsAt(s: seq<byte>, p: nat): (r: Parsed<seq<Value>>)
    ensures Advances(r, p, |s|)
    ensures r.Ok? ==> IntAt(s, p).Ok? && |r.value.v| == RangeCount(IntAt(s, p).value.v)
  {
    var count :- IntAt(s, p);
    RepeatAdvances(BossPatternAt, s, count.next, RangeCount(count.v));
    Repeat(BossPatternAt, s, count.next, RangeCount(count.v))
  }

  /** The spawner name and the entity trait path of a Gate. */
  function GateTargetAt(s: seq<byte>, p: nat): (r: Parsed<Unit>)
    ensures Advances(r, p, |s|)
    ensures r.Ok? <==> StringAt(s, p).Ok? && TraitPathAt(s, StringAt(s, p).value.next).Ok?
    ensures r.Ok? ==> r.value.next == TraitPathAt(s, StringAt(s, p).value.next).value.next
  {
    var spawner :- StringAt(s, p);
    var path :- TraitPathAt(s, spawner.next);
    Ok(Decoded((), path.next))
  }

  /** The level names around the boss, a component type, a float and the random type of a Gate. */
  function GateLevelsAt(s: seq<byte>, p: nat): (r: Parsed<Unit>)
    ensures Advances(r, p, |s|)
    ensures r.Ok? ==> p + 24 <= r.value.next
    ensures r.Ok? ==>
              && StringAt(s, p).Ok?
              && var preBoss := StringAt(s, p).value.next;
              && StringAt(s, preBoss).Ok?
              && var postBoss := StringAt(s, preBoss).value.next;
              && StringAt(s, postBoss).Ok?
              && var restart := StringAt(s, postBoss).value.next;
              && StringAt(s, restart).Ok?
              && var unknown1 := StringAt(s, restart).value.next;
              && StringAt(s, unknown1).Ok?
              && var componentType := StringAt(s, unknown1).value.next;
              && StringAt(s, componentType + 4).Ok?
              && r.value.next == StringAt(s, componentType + 4).value.next
  {
    var preBoss :- StringAt(s, p);
    var postBoss :- StringAt(s, preBoss.next);
    var restart :- StringAt(s, postBoss.next);
    var unknown1 :- StringAt(s, restart.next);
    var componentType :- StringAt(s, unknown1.next);
    var unknown2 :- FloatAt(s, componentType.next);
    var randomType :- StringAt(s, unknown2.next);
    Ok(Decoded((), randomType.next))
  }

  /** read_gate: reads every field and keeps none. */
  function GateAt(s: seq<byte>, p: nat, name: string): (r: Parsed<Value>)
    ensures Advances(r, p, |s|)
    ensures r.Ok? ==> r.value.v == EMPTY_OBJECT
    ensures r.Ok? ==> ObjectHeadAt(s, p, 2).Ok? && GateTargetAt(s, ObjectHeadAt(s, p, 2).value.next).Ok?
    ensures r.Ok? ==>
              var target := GateTargetAt(s, ObjectHeadAt(s, p, 2).value.next).value;
              && BossPatternsAt(s, target.next).Ok?
              && GateLevelsAt(s, BossPatternsAt(s, target.next).value.next).Ok?
              && r.value.next == GateLevelsAt(s, BossPatternsAt(s, target.next).value.next).value.next
  {
    var head :- ObjectHeadAt(s, p, 2);
    var target :- GateTargetAt(s, head.next);
    var patterns :- BossPatternsAt(s, target.next);
    var levels :- GateLevelsAt(s, patterns.next);
    Ok(Decoded(EMPTY_OBJECT, levels.next))
  }

  // ---------------------------------------------------------------------------
  // Samp

  /** A sample's stream flag and loop count (dropped), then volume, pitch, pan and offset: 21 bytes. */
  function SampleMixAt(s: seq<byte>, p: nat): (r: Parsed<seq<Value>>)
    ensures r.Ok? <==> p + 21 <= |s|
    ensures Consumes(r, p, 21)
    ensures r.Ok? ==>
              && |r.value.v| == 4
              && forall i :: 0 <= i < 4 ==> r.value.v[i] == VFloat(FloatAt(s, p + 5 + 4 * i).value.v)
  {
    var stream :- BoolAt(s, p);
    var loops :- IntAt(s, stream.next);
    var volume :- FloatAt(s, loops.next);
    var pitch :- FloatAt(s, volume.next);
    var pan :- FloatAt(s, pitch.next);
    var offset :- FloatAt(s, pan.next);
    Ok(Decoded([VFloat(volume.v), VFloat(pitch.v), VFloat(pan.v), VFloat(offset.v)], offset.next))
  }

  const SAMPLE_KEYS: seq<string> :=
    ["obj_type", "obj_name", "mode", "path", "volume", "pitch", "pan", "offset", "channel_group"]

  /** read_samp: `{'items': [sample]}`, the sample naming its play mode, file path and mix. */
  function SampAt(s: seq<byte>, p: nat, name: string): (r: Parsed<Value>)
    ensures Advances(r, p, |s|)
    ensures r.Ok? ==>
              && r.value.v.VDict? && HasKeys(r.value.v.entries, ["items"])
              && var items := r.value.v.entries[0].1;
              && items.VList? && |items.items| == 1
              && items.items[0].VDict? && HasKeys(items.items[0].entries, SAMPLE_KEYS)
              && items.items[0].entries[1].1 == VStr(name)
    ensures r.Ok? ==>
              && ObjectHeadAt(s, p, 2).Ok?
              && var mode := StringAt(s, ObjectHeadAt(s, p, 2).value.next);
              && mode.Ok?
              && var path := FilePathAt(s, mode.value.next);
              && path.Ok?
              && var mix := SampleMixAt(s, path.value.next);
              && mix.Ok?
              && var channel := StringAt(s, path.value.next + 21);
              && channel.Ok?
              && var sample := r.value.v.entries[0].1.items[0];
              && sample.entries[0].1 == VStr("Sample")
              && sample.entries[2].1 == VStr(mode.value.v)
              && sample.entries[3].1 == path.value.v
              && (forall i :: 0 <= i < 4 ==> sample.entries[4 + i].1 == mix.value.v[i])
              && sample.entries[8].1 == VStr(channel.value.v)
              && r.value.next == channel.value.next
  {
    var head :- ObjectHeadAt(s, p, 2);
    var mode :- StringAt(s, head.next);
    var path :- FilePathAt(s, mode.next);
    var mix :- SampleMixAt(s, path.next);
    var channel :- StringAt(s, mix.next);
    Ok(Decoded(Items(SampleRecord(name, mode.v, path.v, mix.v, channel.v)), channel.next))
  }

  /** The sample dict: its type and name, play mode, file path, the four mix values and channel group. */
  function SampleRecord(name: string, mode: string, path: Value, mix: seq<Value>, channel: string): (v: Value)
    requires |mix| == 4
    ensures v.VDict? && HasKeys(v.entries, SAMPLE_KEYS)
    ensures v.entries[1].1 == VStr(name) && v.entries[2].1 == VStr(mode) && v.entries[3].1 == path
    ensures v.entries[0].1 == VStr("Sample")
    ensures forall i :: 0 <= i < 4 ==> v.entries[4 + i].1 == mix[i]
    ensures v.entries[8].1 == VStr(channel)
  {
    VDict(Record(SAMPLE_KEYS, [VStr("Sample"), VStr(name), VStr(mode), path] + mix + [VStr(channel)]))
  }

  // ---------------------------------------------------------------------------
  // Spn

  /** `[first, second] = read_components(file)`: exactly two components, or ValueError. */
  function ComponentPair(components: seq<Value>): (r: Result<(Value, Value)>)
    ensures r.Ok? <==> |components| == 2
    ensures r.Err? ==> r.error == ComponentCount(|components|)
    ensures r.Ok? ==> r.value == (components[0], components[1])
  {
    if |components| != 2 then Err(ComponentCount(|components|)) else Ok((components[0], components[1]))
  }

  /**
   * The spawner dict: `{'obj_type': 'EntitySpawner', 'obj_name': name, **transform, 'objlib_path': path,
   * 'bucket': bucket}`; spreading anything but a dict raises.
   */
  function SpawnerItem(name: string, transform: Value, path: Value, bucket: string): (r: Result<Value>)
    ensures r.Ok? <==> transform.VDict?
    ensures r.Err? ==> r.error == NotAMapping
    ensures r.Ok? ==>
              && r.value.VDict?
              && Lookup(r.value.entries, Str("objlib_path")) == Some(path)
              && Lookup(r.value.entries, Str("bucket")) == Some(VStr(bucket))
  {
    var spawner :- Spread([(Str("obj_type"), VStr("EntitySpawner")), (Str("obj_name"), VStr(name))], transform);
    var trailing := [(Str("objlib_path"), path), (Str("bucket"), VStr(bucket))];
    PutEachLookup(spawner, trailing, Str("objlib_path"));
    PutEachLookup(spawner, trailing, Str("bucket"));
    Ok(VDict(PutEach(spawner, trailing)))
  }

  /** read_spn: the spawner of the second of exactly two components, its objlib path and its bucket. */
  function SpnAt(s: seq<byte>, p: nat, name: string): (r: Parsed<Value>)
    ensures Advances(r, p, |s|)
    ensures ObjectHeadAt(s, p, 2).Ok? && |ObjectHeadAt(s, p, 2).value.v| != 2 ==>
              r == Err(ComponentCount(|ObjectHeadAt(s, p, 2).value.v|))
    ensures r.Ok? ==>
              && ObjectHeadAt(s, p, 2).Ok? && |ObjectHeadAt(s, p, 2).value.v| == 2
              && ObjectHeadAt(s, p, 2).value.v[1].VDict?
              && FilePathAt(s, ObjectHeadAt(s, p, 2).value.next).Ok?
              && r.value.v.VDict? && HasKeys(r.value.v.entries, ["items"])
              && var items := r.value.v.entries[0].1;
              && items.VList? && |items.items| == 1 && items.items[0].VDict?
              && Lookup(items.items[0].entries, Str("objlib_path")) ==
                   Some(FilePathAt(s, ObjectHeadAt(s, p, 2).value.next).value.v)
              && var bucket := StringAt(s, FilePathAt(s, ObjectHeadAt(s, p, 2).value.next).value.next);
              && bucket.Ok?
              && SpawnerItem(name, ObjectHeadAt(s, p, 2).value.v[1], FilePathAt(s, ObjectHeadAt(s, p, 2).value.next).value.v,
                             bucket.value.v) == Ok(items.items[0])
              && r.value.next == bucket.value.next
  {
    var head :- ObjectHeadAt(s, p, 2);
    var pair :- ComponentPair(head.v);
    var path :- FilePathAt(s, head.next);
    var bucket :- StringAt(s, path.next);
    var spawner :- SpawnerItem(name, pair.1, path.v, bucket.v);
    Ok(Decoded(Items(spawner), bucket.next))
  }

  // ---------------------------------------------------------------------------
  // Tex and Mat

  /** read_tex: the compression, the mip flag and the file path, none of which is kept. */
  function TexAt(s: seq<byte>, p: nat, name: string): (r: Parsed<Value>)
    ensures Advances(r, p, |s|)
    ensures r.Ok? ==> r.value.v == EMPTY_OBJECT
    ensures r.Ok? ==>
              && ObjectHeadAt(s, p, 2).Ok?
              && var q := ObjectHeadAt(s, p, 2).value.next;
              && StringAt(s, q).Ok? && FilePathAt(s, StringAt(s, q).value.next + 1).Ok?
              && r.value.next == FilePathAt(s, StringAt(s, q).value.next + 1).value.next
  {
    var head :- ObjectHeadAt(s, p, 2);
    var compression :- StringAt(s, head.next);
    var mips :- BoolAt(s, compression.next);
    var path :- FilePathAt(s, mips.next);
    Ok(Decoded(EMPTY_OBJECT, path.next))
  }

  /** The decal, emissive and reflection maps and the blending mode of a Mat. */
  function MaterialMapsAt(s: seq<byte>, p: nat): (r: Parsed<Unit>)
    ensures Advances(r, p, |s|)
    ensures r.Ok? ==> p + 16 <= r.value.next
    ensures r.Ok? ==>
              && StringAt(s, p).Ok?
              && var decal := StringAt(s, p).value.next;
              && StringAt(s, decal).Ok?
              && var emissive := StringAt(s, decal).value.next;
              && StringAt(s, emissive).Ok?
              && var reflection := StringAt(s, emissive).value.next;
              && StringAt(s, reflection).Ok?
              && r.value.next == StringAt(s, reflection).value.next
  {
    var decal :- StringAt(s, p);
    var emissive :- StringAt(s, decal.next);
    var reflection :- StringAt(s, emissive.next);
    var blending :- StringAt(s, reflection.next);
    Ok(Decoded((), blending.next))
  }

  /** The lighting, cull and depth modes, two flags and the filtering mode of a Mat. */
  function MaterialModesAt(s: seq<byte>, p: nat): (r: Parsed<Unit>)
    ensures Advances(r, p, |s|)
    ensures r.Ok? ==> p + 18 <= r.value.next
    ensures r.Ok? ==>
              && StringAt(s, p + 4).Ok?
              && var cull := StringAt(s, p + 4).value.next;
              && StringAt(s, cull).Ok?
              && var depth := StringAt(s, cull).value.next;
              && StringAt(s, depth + 2).Ok?
              && r.value.next == StringAt(s, depth + 2).value.next
  {
    var lighting :- IntAt(s, p);
    var cull :- StringAt(s, lighting.next);
    var depth :- StringAt(s, cull.next);
    var unknown1 :- BoolAt(s, depth.next);
    var unknown2 :- BoolAt(s, unknown1.next);
    var filtering :- StringAt(s, unknown2.next);
    Ok(Decoded((), filtering.next))
  }

  /** Emissive, ambient, diffuse, specular and reflectivity colours, alpha and a float: 88 bytes. */
  function MaterialColorsAt(s: seq<byte>, p: nat): (r: Parsed<Unit>)
    ensures r.Ok? <==> p + 88 <= |s|
    ensures Consumes(r, p, 88)
  {
    var emissive :- ColorAt(s, p);
    var ambient :- ColorAt(s, emissive.next);
    var diffuse :- ColorAt(s, ambient.next);
    var specular :- ColorAt(s, diffuse.next);
    var reflectivity :- ColorAt(s, specular.next);
    var alpha :- FloatAt(s, reflectivity.next);
    var unknown3 :- FloatAt(s, alpha.next);
    Ok(Decoded((), unknown3.next))
  }

  /** The specular map, the texture transform and the noise vignette settings of a Mat. */
  function MaterialTextureAt(s: seq<byte>, p: nat): (r: Parsed<Unit>)
    ensures Advances(r, p, |s|)
    ensures r.Ok? ==> p + 78 <= r.value.next
    ensures r.Ok? ==>
              && StringAt(s, p).Ok?
              && var specularMap := StringAt(s, p).value.next;
              && StringAt(s, specularMap).Ok?
              && var transformMode := StringAt(s, specularMap).value.next;
              && StringAt(s, transformMode + 65).Ok?
              && StringAt(s, transformMode + 65).value.next < |s|
              && r.value.next == StringAt(s, transformMode + 65).value.next + 1
  {
    var specularMap :- StringAt(s, p);
    var transformMode :- StringAt(s, specularMap.next);
    var transform :- TransformAt(s, transformMode.next);
    var unknown4 :- FloatAt(s, transform.next);
    var lowSpec :- BoolAt(s, unknown4.next);
    var vignette :- StringAt(s, lowSpec.next);
    var unknown5 :- BoolAt(s, vignette.next);
    Ok(Decoded((), unknown5.next))
  }

  /** Every field of a Mat after its components: maps, modes, colours and texture settings. */
  function MaterialAt(s: seq<byte>, p: nat): (r: Parsed<Unit>)
    ensures Advances(r, p + 200, |s|)
    ensures r.Ok? ==>
              && var maps := MaterialMapsAt(s, p);
              && maps.Ok?
              && var modes := MaterialModesAt(s, maps.value.next);
              && modes.Ok?
              && MaterialColorsAt(s, modes.value.next).Ok?
              && var texture := MaterialTextureAt(s, MaterialColorsAt(s, modes.value.next).value.next);
              && texture.Ok?
              && r.value.next == texture.value.next
  {
    var maps :- MaterialMapsAt(s, p);
    var modes :- MaterialModesAt(s, maps.next);
    var colors :- MaterialColorsAt(s, modes.next);
    var texture :- MaterialTextureAt(s, colors.next);
    Ok(Decoded((), texture.next))
  }

  /** read_mat: reads every field and keeps none. */
  function MatAt(s: seq<byte>, p: nat, name: string): (r: Parsed<Value>)
    ensures Advances(r, p, |s|)
    ensures r.Ok? ==> r.value.v == EMPTY_OBJECT
    ensures r.Ok? ==> ObjectHeadAt(s, p, 2).Ok? && ObjectHeadAt(s, p, 2).value.next + 200 <= r.value.next
    ensures r.Ok? ==>
              && MaterialAt(s, ObjectHeadAt(s, p, 2).value.next).Ok?
              && r.value.next == MaterialAt(s, ObjectHeadAt(s, p, 2).value.next).value.next
  {
    var head :- ObjectHeadAt(s, p, 2);
    var material :- MaterialAt(s, head.next);
    Ok(Decoded(EMPTY_OBJECT, material.next))
  }

  // ---------------------------------------------------------------------------
  // Mesh

  /** A vertex: position, normal and texture coordinate vectors, 36 bytes. */
  function VertexAt(s: seq<byte>, p: nat): (r: Parsed<Unit>)
    ensures r.Ok? <==> p + 36 <= |s|
    ensures Consumes(r, p, 36)
  {
    var position :- VectorAt(s, p);
    var normal :- VectorAt(s, position.next);
    var uvw :- VectorAt(s, normal.next);
    Ok(Decoded((), uvw.next))
  }

  /** A face: three vertex indices read with read_short, so no face can be read. */
  function FaceAt(s: seq<byte>, p: nat): (r: Parsed<Unit>)
    ensures r.Err? && (r.error == ShortUnpack || r.error == Truncated)
  {
    // the first of the three read_short calls already fails, so the other two are never reached
    Err(ShortAt(s, p).error)
  }

  /** An int32 count, then that many vertices. */
  function VerticesAt(s: seq<byte>, p: nat): (r: Parsed<seq<Unit>>)
    ensures r.Ok? <==> IntAt(s, p).Ok? && p + 4 + 36 * RangeCount(IntAt(s, p).value.v) <= |s|
    ensures r.Ok? ==> r.value.next == p + 4 + 36 * RangeCount(IntAt(s, p).value.v)
  {
    var count :- IntAt(s, p);
    RepeatFixed(VertexAt, s, count.next, RangeCount(count.v), 36);
    Repeat(VertexAt, s, count.next, RangeCount(count.v))
  }

  /** No list of faces can be read unless it is empty. */
  lemma FacesFail(s: seq<byte>, p: nat, k: nat)
    requires k > 0
    ensures Repeat(FaceAt, s, p, k).Err?
  {
    if Repeat(FaceAt, s, p, k - 1).Ok? {
      assert FaceAt(s, Repeat(FaceAt, s, p, k - 1).value.next).Err?;
    }
  }

  /** An int32 count, then that many faces: only a count of zero or less can be read. */
  function FacesAt(s: seq<byte>, p: nat): (r: Parsed<seq<Unit>>)
    ensures r.Ok? <==> IntAt(s, p).Ok? && IntAt(s, p).value.v <= 0
    ensures r.Ok? ==> r.value.next == p + 4
  {
    var count :- IntAt(s, p);
    if count.v > 0 then
      FacesFail(s, count.next, RangeCount(count.v));
      Repeat(FaceAt, s, count.next, RangeCount(count.v))
    else
      Repeat(FaceAt, s, count.next, RangeCount(count.v))
  }

  /** Mesh data stored in the object: vertices, faces and two flags. */
  function MeshDataAt(s: seq<byte>, p: nat): (r: Parsed<Unit>)
    ensures Advances(r, p, |s|)
    // any face makes the read fail, so only a mesh without faces is read
    ensures r.Ok? ==>
              && IntAt(s, p).Ok? && p + 4 + 36 * RangeCount(IntAt(s, p).value.v) + 4 <= |s|
              && var faces := IntAt(s, p + 4 + 36 * RangeCount(IntAt(s, p).value.v));
              && faces.Ok? && faces.value.v <= 0
              && r.value.next == faces.value.next + 2
  {
    var vertices :- VerticesAt(s, p);
    var faces :- FacesAt(s, vertices.next);
    var unknown1 :- BoolAt(s, faces.next);
    var unknown2 :- BoolAt(s, unknown1.next);
    Ok(Decoded((), unknown2.next))
  }

  /** A mesh stored in a separate file: its path and five cache name parameters. */
  function MeshFileAt(s: seq<byte>, p: nat): (r: Parsed<Unit>)
    ensures Advances(r, p, |s|)
    ensures r.Ok? <==> FilePathAt(s, p).Ok? && FilePathAt(s, p).value.next + 17 <= |s|
    ensures r.Ok? ==> r.value.next == FilePathAt(s, p).value.next + 17
  {
    var path :- FilePathAt(s, p);
    var param1 :- IntAt(s, path.next);
    var param2 :- IntAt(s, param1.next);
    var param3 :- IntAt(s, param2.next);
    var param4 :- BoolAt(s, param3.next);
    var param5 :- IntAt(s, param4.next);
    Ok(Decoded((), param5.next))
  }

  /**
   * read_mesh: after the material name, a string whose truth chooses between mesh data in the
   * object (non-empty) and a mesh file (empty).
   */
  function MeshAt(s: seq<byte>, p: nat, name: string): (r: Parsed<Value>)
    ensures Advances(r, p, |s|)
    ensures r.Ok? ==> r.value.v == EMPTY_OBJECT
    ensures r.Ok? ==>
              && ObjectHeadAt(s, p, 2).Ok?
              && var material := StringAt(s, ObjectHeadAt(s, p, 2).value.next);
              && material.Ok?
              && var inline := StringAt(s, material.value.next);
              && inline.Ok?
              && var body := if inline.value.v != "" then MeshDataAt(s, inline.value.next)
                             else MeshFileAt(s, inline.value.next);
              && body.Ok? && r.value.next == body.value.next
  {
    var head :- ObjectHeadAt(s, p, 2);
    var material :- StringAt(s, head.next);
    var inline :- StringAt(s, material.next);
    var body :- if inline.v != "" then MeshDataAt(s, inline.next) else MeshFileAt(s, inline.next);
    Ok(Decoded(EMPTY_OBJECT, body.next))
  }

  // ---------------------------------------------------------------------------
  // Path

  /** Tile scale and size vectors and the lane spacing: 28 bytes. */
  function PathTilesAt(s: seq<byte>, p: nat): (r: Parsed<Unit>)
    ensures r.Ok? <==> p + 28 <= |s|
    ensures Consumes(r, p, 28)
  {
    var tileScale :- VectorAt(s, p);
    var tileSize :- VectorAt(s, tileScale.next);
    var laneSpacing :- FloatAt(s, tileSize.next);
    Ok(Decoded((), laneSpacing.next))
  }

  /** The mesh name, the bend settings, the pulse flags and the v scale of a Path. */
  function PathLookAt(s: seq<byte>, p: nat): (r: Parsed<Unit>)
    ensures Advances(r, p, |s|)
    ensures r.Ok? ==> p + 15 <= r.value.next
    ensures r.Ok? ==>
              && StringAt(s, p).Ok?
              && var bendInterpolation := StringAt(s, StringAt(s, p).value.next + 1);
              && bendInterpolation.Ok?
              && r.value.next == bendInterpolation.value.next + 6
  {
    var mesh :- StringAt(s, p);
    var bends :- BoolAt(s, mesh.next);
    var bendInterpolation :- StringAt(s, bends.next);
    var pulseColor :- BoolAt(s, bendInterpolation.next);
    var pulseScale :- BoolAt(s, pulseColor.next);
    var vScale :- FloatAt(s, pulseScale.next);
    Ok(Decoded((), vScale.next))
  }

  /** A counted list of decorator names and the visibility flag that ends a Path. */
  function PathDecoratorsAt(s: seq<byte>, p: nat): (r: Parsed<Unit>)
    ensures Advances(r, p + 5, |s|)
    ensures r.Ok? <==>
              && IntAt(s, p).Ok?
              && var decorators := Repeat(StringAt, s, p + 4, RangeCount(IntAt(s, p).value.v));
              && decorators.Ok? && decorators.value.next < |s|
    ensures r.Ok? ==>
              r.value.next == Repeat(StringAt, s, p + 4, RangeCount(IntAt(s, p).value.v)).value.next + 1
  {
    var count :- IntAt(s, p);
    RepeatAdvances(StringAt, s, count.next, RangeCount(count.v));
    var decorators :- Repeat(StringAt, s, count.next, RangeCount(count.v));
    var visible :- BoolAt(s, decorators.next);
    Ok(Decoded((), visible.next))
  }

  /** read_path: reads every field, including a counted list of decorator names, and keeps none. */
  function PathAt(s: seq<byte>, p: nat, name: string): (r: Parsed<Value>)
    ensures Advances(r, p, |s|)
    ensures r.Ok? ==> r.value.v == EMPTY_OBJECT
    ensures r.Ok? ==> ObjectHeadAt(s, p, 2).Ok? && ObjectHeadAt(s, p, 2).value.next + 48 <= r.value.next
    ensures r.Ok? ==>
              && ObjectHeadAt(s, p, 2).Ok?
              && var tiles := PathTilesAt(s, ObjectHeadAt(s, p, 2).value.next);
              && tiles.Ok?
              && var look := PathLookAt(s, tiles.value.next);
              && look.Ok? && PathDecoratorsAt(s, look.value.next).Ok?
              && r.value.next == PathDecoratorsAt(s, look.value.next).value.next
  {
    var head :- ObjectHeadAt(s, p, 2);
    var tiles :- PathTilesAt(s, head.next);
    var look :- PathLookAt(s, tiles.next);
    var decorators :- PathDecoratorsAt(s, look.next);
    Ok(Decoded(EMPTY_OBJECT, decorators.next))
  }

  // ---------------------------------------------------------------------------
  // The readers over a cursor, each following its specification function

  method ReadObjectHead(c: Cursor, versions: nat) returns (r: Result<seq<Value>>)
    requires c.Valid() && (versions == 2 || versions == 3)
    modifies c
    ensures c.Valid() && Follows(r, ObjectHeadAt(c.data, old(c.pos), versions), c.pos)
  {
    var first :- ReadInt(c);
    var second :- ReadInt(c);
    if versions == 3 {
      var third :- ReadInt(c);
    }
    r := ReadComponents(c);
  }

  method ReadLeafBeats(c: Cursor) returns (r: Result<int>)
    requires c.Valid()
    modifies c
    ensures c.Valid() && Follows(r, LeafBeatsAt(c.data, old(c.pos)), c.pos)
  {
    var beats :- ReadInt(c);
    var pathPhase :- ReadFloat(c);
    var tilePhase :- ReadFloat(c);
    var vectors :- ReadBeatVectors(c, beats);
    var laneOffset :- ReadInt(c);
    return Ok(beats);
  }

  /** `for _ in range(beat_cnt): read_vector(file)`: the vectors are read and not kept. */
  method ReadBeatVectors(c: Cursor, beats: int) returns (r: Result<seq<Value>>)
    requires c.Valid()
    modifies c
    ensures c.Valid() && Follows(r, Repeat(VectorAt, c.data, old(c.pos), RangeCount(beats)), c.pos)
  {
    ghost var start := c.pos;
    var vectors: seq<Value> := [];
    var i := 0;
    while i < beats
      invariant c.Valid()
      invariant 0 <= i <= RangeCount(beats)
      invariant Repeat(VectorAt, c.data, start, i) == Ok(Decoded(vectors, c.pos))
      decreases beats - i
    {
      ghost var q := c.pos;
      var vector := ReadVector(c);
      if vector.Err? {
        RepeatStepFails(VectorAt, c.data, start, i, RangeCount(beats), vectors, q);
        return Err(vector.error);
      }
      RepeatStep(VectorAt, c.data, start, i, vectors, q);
      vectors := vectors + [vector.value];
      i := i + 1;
    }
    assert i == RangeCount(beats);
    return Ok(vectors);
  }

  method ReadLeaf(c: Cursor, name: string) returns (r: Result<Value>)
    requires c.Valid()
    modifies c
    ensures c.Valid() && Follows(r, LeafAt(c.data, old(c.pos), name), c.pos)
  {
    var head :- ReadObjectHead(c, 3);
    var objects :- ReadSequencerObjects(c);
    var beats :- ReadLeafBeats(c);
    return Ok(VDict(Record(LEAF_KEYS, [VStr("SequinLeaf"), VStr(name), VList(objects), VInt(beats)])));
  }

  method ReadGroupingFlags(c: Cursor) returns (r: Result<bool>)
    requires c.Valid()
    modifies c
    ensures c.Valid() && Follows(r, GroupingFlagsAt(c.data, old(c.pos)), c.pos)
  {
    var unknown1 :- ReadBool(c);
    var unknown2 :- ReadBool(c);
    var unknown3 :- ReadInt(c);
    var unknown4 :- ReadBool(c);
    var playPlus :- ReadBool(c);
    return Ok(playPlus);
  }

  method ReadGroupingNames(c: Cursor) returns (r: Result<seq<Value>>)
    requires c.Valid()
    modifies c
    ensures c.Valid() && Follows(r, GroupingNamesAt(c.data, old(c.pos)), c.pos)
  {
    var level :- ReadString(c);
    var gate :- ReadString(c);
    var checkpoint :- ReadBool(c);
    var leader :- ReadString(c);
    var rest :- ReadString(c);
    return Ok([VStr(level), VStr(gate), VBool(checkpoint), VStr(leader), VStr(rest)]);
  }

  method ReadGrouping(c: Cursor) returns (r: Result<Value>)
    requires c.Valid()
    modifies c
    ensures c.Valid() && Follows(r, GroupingAt(c.data, old(c.pos)), c.pos)
  {
    var names :- ReadGroupingNames(c);
    var playPlus :- ReadGroupingFlags(c);
    return Ok(GroupingRecord(names, playPlus));
  }

  method ReadGroupings(c: Cursor) returns (r: Result<seq<Value>>)
    requires c.Valid()
    modifies c
    ensures c.Valid() && Follows(r, GroupingsAt(c.data, old(c.pos)), c.pos)
  {
    ghost var p0 := c.pos;
    var count :- ReadInt(c);
    ghost var start := c.pos;
    assert GroupingsAt(c.data, p0) == Repeat(GroupingAt, c.data, start, RangeCount(count));
    var groupings: seq<Value> := [];
    var i := 0;
    while i < count
      invariant c.Valid()
      invariant 0 <= i <= RangeCount(count)
      invariant Repeat(GroupingAt, c.data, start, i) == Ok(Decoded(groupings, c.pos))
      decreases count - i
    {
      ghost var q := c.pos;
      var grouping := ReadGrouping(c);
      if grouping.Err? {
        RepeatStepFails(GroupingAt, c.data, start, i, RangeCount(count), groupings, q);
        return Err(grouping.error);
      }
      RepeatStep(GroupingAt, c.data, start, i, groupings, q);
      groupings := groupings + [grouping.value];
      i := i + 1;
    }
    assert i == RangeCount(count);
    return Ok(groupings);
  }

  method ReadMasterScene(c: Cursor) returns (r: Result<string>)
    requires c.Valid()
    modifies c
    ensures c.Valid() && Follows(r, MasterSceneAt(c.data, old(c.pos)), c.pos)
  {
    var minEndFrame :- ReadFloat(c);
    var skybox :- ReadString(c);
    r := ReadString(c);
  }

  method ReadMasterUnused(c: Cursor) returns (r: Result<Unit>)
    requires c.Valid()
    modifies c
    ensures c.Valid() && Follows(r, MasterUnusedAt(c.data, old(c.pos)), c.pos)
  {
    var unknown1 :- ReadBool(c);
    var unknown2 :- ReadBool(c);
    var unknown3 :- ReadInt(c);
    var unknown4 :- ReadInt(c);
    var unknown5 :- ReadInt(c);
    var unknown6 :- ReadInt(c);
    var unknown7 :- ReadVector(c);
    return Ok(());
  }

  method ReadMasterCheckpoint(c: Cursor) returns (r: Result<string>)
    requires c.Valid()
    modifies c
    ensures c.Valid() && Follows(r, MasterCheckpointAt(c.data, old(c.pos)), c.pos)
  {
    var unused :- ReadMasterUnused(c);
    var checkpoint :- ReadString(c);
    var unknown8 :- ReadString(c);
    return Ok(checkpoint);
  }

  method ReadMaster(c: Cursor, name: string) returns (r: Result<Value>)
    requires c.Valid()
    modifies c
    ensures c.Valid() && Follows(r, MasterAt(c.data, old(c.pos), name), c.pos)
  {
    var head :- ReadObjectHead(c, 3);
    var objects :- ReadSequencerObjects(c);
    var intro :- ReadMasterScene(c);
    var groupings :- ReadGroupings(c);
    var checkpoint :- ReadMasterCheckpoint(c);
    return Ok(MasterRecord(name, intro, groupings, checkpoint));
  }

  method ReadBossPattern(c: Cursor) returns (r: Result<Value>)
    requires c.Valid()
    modifies c
    ensures c.Valid() && Follows(r, BossPatternAt(c.data, old(c.pos)), c.pos)
  {
    var node :- ReadHash(c);
    var level :- ReadString(c);
    var unknown1 :- ReadBool(c);
    var sentry :- ReadString(c);
    var unknown2 :- ReadFloat(c);
    var bucket :- ReadInt(c);
    return Ok(EMPTY_OBJECT);
  }

  method ReadBossPatterns(c: Cursor) returns (r: Result<seq<Value>>)
    requires c.Valid()
    modifies c
    ensures c.Valid() && Follows(r, BossPatternsAt(c.data, old(c.pos)), c.pos)
  {
    ghost var p0 := c.pos;
    var count :- ReadInt(c);
    ghost var start := c.pos;
    assert BossPatternsAt(c.data, p0) == Repeat(BossPatternAt, c.data, start, RangeCount(count));
    var patterns: seq<Value> := [];
    var i := 0;
    while i < count
      invariant c.Valid()
      invariant 0 <= i <= RangeCount(count)
      invariant Repeat(BossPatternAt, c.data, start, i) == Ok(Decoded(patterns, c.pos))
      decreases count - i
    {
      ghost var q := c.pos;
      var pattern := ReadBossPattern(c);
      if pattern.Err? {
        RepeatStepFails(BossPatternAt, c.data, start, i, RangeCount(count), patterns, q);
        return Err(pattern.error);
      }
      RepeatStep(BossPatternAt, c.data, start, i, patterns, q);
      patterns := patterns + [pattern.value];
      i := i + 1;
    }
    assert i == RangeCount(count);
    return Ok(patterns);
  }

  method ReadGateTarget(c: Cursor) returns (r: Result<Unit>)
    requires c.Valid()
    modifies c
    ensures c.Valid() && Follows(r, GateTargetAt(c.data, old(c.pos)), c.pos)
  {
    var spawner :- ReadString(c);
    var path :- ReadTraitPath(c);
    return Ok(());
  }

  method ReadGateLevels(c: Cursor) returns (r: Result<Unit>)
    requires c.Valid()
    modifies c
    ensures c.Valid() && Follows(r, GateLevelsAt(c.data, old(c.pos)), c.pos)
  {
    var preBoss :- ReadString(c);
    var postBoss :- ReadString(c);
    var restart :- ReadString(c);
    var unknown1 :- ReadString(c);
    var componentType :- ReadString(c);
    var unknown2 :- ReadFloat(c);
    var randomType :- ReadString(c);
    return Ok(());
  }

  method ReadGate(c: Cursor, name: string) returns (r: Result<Value>)
    requires c.Valid()
    modifies c
    ensures c.Valid() && Follows(r, GateAt(c.data, old(c.pos), name), c.pos)
  {
    var head :- ReadObjectHead(c, 2);
    var target :- ReadGateTarget(c);
    var patterns :- ReadBossPatterns(c);
    var levels :- ReadGateLevels(c);
    return Ok(EMPTY_OBJECT);
  }

  method ReadSampleMix(c: Cursor) returns (r: Result<seq<Value>>)
    requires c.Valid()
    modifies c
    ensures c.Valid() && Follows(r, SampleMixAt(c.data, old(c.pos)), c.pos)
  {
    var stream :- ReadBool(c);
    var loops :- ReadInt(c);
    var volume :- ReadFloat(c);
    var pitch :- ReadFloat(c);
    var pan :- ReadFloat(c);
    var offset :- ReadFloat(c);
    return Ok([VFloat(volume), VFloat(pitch), VFloat(pan), VFloat(offset)]);
  }

  method ReadSamp(c: Cursor, name: string) returns (r: Result<Value>)
    requires c.Valid()
    modifies c
    ensures c.Valid() && Follows(r, SampAt(c.data, old(c.pos), name), c.pos)
  {
    var head :- ReadObjectHead(c, 2);
    var mode :- ReadString(c);
    var path :- ReadFilePath(c);
    var mix :- ReadSampleMix(c);
    var channel :- ReadString(c);
    var sample := Record(SAMPLE_KEYS, [VStr("Sample"), VStr(name), VStr(mode), path] + mix + [VStr(channel)]);
    return Ok(Items(VDict(sample)));
  }

  method ReadSpn(c: Cursor, name: string) returns (r: Result<Value>)
    requires c.Valid()
    modifies c
    ensures c.Valid() && Follows(r, SpnAt(c.data, old(c.pos), name), c.pos)
  {
    var head :- ReadObjectHead(c, 2);
    var pair :- ComponentPair(head);
    var path :- ReadFilePath(c);
    var bucket :- ReadString(c);
    var spawner :- SpawnerItem(name, pair.1, path, bucket);
    return Ok(Items(spawner));
  }

  method ReadTex(c: Cursor, name: string) returns (r: Result<Value>)
    requires c.Valid()
    modifies c
    ensures c.Valid() && Follows(r, TexAt(c.data, old(c.pos), name), c.pos)
  {
    var head :- ReadObjectHead(c, 2);
    var compression :- ReadString(c);
    var mips :- ReadBool(c);
    var path :- ReadFilePath(c);
    return Ok(EMPTY_OBJECT);
  }

  method ReadMaterialMaps(c: Cursor) returns (r: Result<Unit>)
    requires c.Valid()
    modifies c
    ensures c.Valid() && Follows(r, MaterialMapsAt(c.data, old(c.pos)), c.pos)
  {
    var decal :- ReadString(c);
    var emissive :- ReadString(c);
    var reflection :- ReadString(c);
    var blending :- ReadString(c);
    return Ok(());
  }

  method ReadMaterialModes(c: Cursor) returns (r: Result<Unit>)
    requires c.Valid()
    modifies c
    ensures c.Valid() && Follows(r, MaterialModesAt(c.data, old(c.pos)), c.pos)
  {
    var lighting :- ReadInt(c);
    var cull :- ReadString(c);
    var depth :- ReadString(c);
    var unknown1 :- ReadBool(c);
    var unknown2 :- ReadBool(c);
    var filtering :- ReadString(c);
    return Ok(());
  }

  method ReadMaterialColors(c: Cursor) returns (r: Result<Unit>)
    requires c.Valid()
    modifies c
    ensures c.Valid() && Follows(r, MaterialColorsAt(c.data, old(c.pos)), c.pos)
  {
    var emissive :- ReadColor(c);
    var ambient :- ReadColor(c);
    var diffuse :- ReadColor(c);
    var specular :- ReadColor(c);
    var reflectivity :- ReadColor(c);
    var alpha :- ReadFloat(c);
    var unknown3 :- ReadFloat(c);
    return Ok(());
  }

  method ReadMaterialTexture(c: Cursor) returns (r: Result<Unit>)
    requires c.Valid()
    modifies c
    ensures c.Valid() && Follows(r, MaterialTextureAt(c.data, old(c.pos)), c.pos)
  {
    var specularMap :- ReadString(c);
    var transformMode :- ReadString(c);
    var transform :- ReadTransform(c);
    var unknown4 :- ReadFloat(c);
    var lowSpec :- ReadBool(c);
    var vignette :- ReadString(c);
    var unknown5 :- ReadBool(c);
    return Ok(());
  }

  method ReadMaterial(c: Cursor) returns (r: Result<Unit>)
    requires c.Valid()
    modifies c
    ensures c.Valid() && Follows(r, MaterialAt(c.data, old(c.pos)), c.pos)
  {
    var maps :- ReadMaterialMaps(c);
    var modes :- ReadMaterialModes(c);
    var colors :- ReadMaterialColors(c);
    var texture :- ReadMaterialTexture(c);
    return Ok(());
  }

  method ReadMat(c: Cursor, name: string) returns (r: Result<Value>)
    requires c.Valid()
    modifies c
    ensures c.Valid() && Follows(r, MatAt(c.data, old(c.pos), name), c.pos)
  {
    var head :- ReadObjectHead(c, 2);
    var material :- ReadMaterial(c);
    return Ok(EMPTY_OBJECT);
  }

  method ReadVertex(c: Cursor) returns (r: Result<Unit>)
    requires c.Valid()
    modifies c
    ensures c.Valid() && Follows(r, VertexAt(c.data, old(c.pos)), c.pos)
  {
    var position :- ReadVector(c);
    var normal :- ReadVector(c);
    var uvw :- ReadVector(c);
    return Ok(());
  }

  method ReadFace(c: Cursor) returns (r: Result<Unit>)
    requires c.Valid()
    modifies c
    ensures c.Valid() && Follows(r, FaceAt(c.data, old(c.pos)), c.pos)
  {
    // read_short always fails, so the face's other two indices are never read
    var first := ReadShort(c);
    return Err(first.error);
  }

  method ReadVertices(c: Cursor) returns (r: Result<seq<Unit>>)
    requires c.Valid()
    modifies c
    ensures c.Valid() && Follows(r, VerticesAt(c.data, old(c.pos)), c.pos)
  {
    ghost var p0 := c.pos;
    var count :- ReadInt(c);
    ghost var start := c.pos;
    assert VerticesAt(c.data, p0) == Repeat(VertexAt, c.data, start, RangeCount(count));
    var vertices: seq<Unit> := [];
    var i := 0;
    while i < count
      invariant c.Valid()
      invariant 0 <= i <= RangeCount(count)
      invariant Repeat(VertexAt, c.data, start, i) == Ok(Decoded(vertices, c.pos))
      decreases count - i
    {
      ghost var q := c.pos;
      var vertex := ReadVertex(c);
      if vertex.Err? {
        RepeatStepFails(VertexAt, c.data, start, i, RangeCount(count), vertices, q);
        return Err(vertex.error);
      }
      RepeatStep(VertexAt, c.data, start, i, vertices, q);
      vertices := vertices + [vertex.value];
      i := i + 1;
    }
    assert i == RangeCount(count);
    return Ok(vertices);
  }

  method ReadFaces(c: Cursor) returns (r: Result<seq<Unit>>)
    requires c.Valid()
    modifies c
    ensures c.Valid() && Follows(r, FacesAt(c.data, old(c.pos)), c.pos)
  {
    var count :- ReadInt(c);
    ghost var start := c.pos;
    // the loop over the faces stops in its first iteration, since a face read always fails
    if count > 0 {
      var face := ReadFace(c);
      RepeatStepFails(FaceAt, c.data, start, 0, RangeCount(count), [], start);
      return Err(face.error);
    }
    return Ok([]);
  }

  method ReadMeshData(c: Cursor) returns (r: Result<Unit>)
    requires c.Valid()
    modifies c
    ensures c.Valid() && Follows(r, MeshDataAt(c.data, old(c.pos)), c.pos)
  {
    var vertices :- ReadVertices(c);
    var faces :- ReadFaces(c);
    var unknown1 :- ReadBool(c);
    var unknown2 :- ReadBool(c);
    return Ok(());
  }

  method ReadMeshFile(c: Cursor) returns (r: Result<Unit>)
    requires c.Valid()
    modifies c
    ensures c.Valid() && Follows(r, MeshFileAt(c.data, old(c.pos)), c.pos)
  {
    var path :- ReadFilePath(c);
    var param1 :- ReadInt(c);
    var param2 :- ReadInt(c);
    var param3 :- ReadInt(c);
    var param4 :- ReadBool(c);
    var param5 :- ReadInt(c);
    return Ok(());
  }

  method ReadMesh(c: Cursor, name: string) returns (r: Result<Value>)
    requires c.Valid()
    modifies c
    ensures c.Valid() && Follows(r, MeshAt(c.data, old(c.pos), name), c.pos)
  {
    var head :- ReadObjectHead(c, 2);
    var material :- ReadString(c);
    var inline :- ReadString(c);
    if inline != "" {
      var body :- ReadMeshData(c);
    } else {
      var body :- ReadMeshFile(c);
    }
    return Ok(EMPTY_OBJECT);
  }

  method ReadPathTiles(c: Cursor) returns (r: Result<Unit>)
    requires c.Valid()
    modifies c
    ensures c.Valid() && Follows(r, PathTilesAt(c.data, old(c.pos)), c.pos)
  {
    var tileScale :- ReadVector(c);
    var tileSize :- ReadVector(c);
    var laneSpacing :- ReadFloat(c);
    return Ok(());
  }

  method ReadPathLook(c: Cursor) returns (r: Result<Unit>)
    requires c.Valid()
    modifies c
    ensures c.Valid() && Follows(r, PathLookAt(c.data, old(c.pos)), c.pos)
  {
    var mesh :- ReadString(c);
    var bends :- ReadBool(c);
    var bendInterpolation :- ReadString(c);
    var pulseColor :- ReadBool(c);
    var pulseScale :- ReadBool(c);
    var vScale :- ReadFloat(c);
    return Ok(());
  }

  method ReadPathDecorators(c: Cursor) returns (r: Result<Unit>)
    requires c.Valid()
    modifies c
    ensures c.Valid() && Follows(r, PathDecoratorsAt(c.data, old(c.pos)), c.pos)
  {
    var count :- ReadInt(c);
    var decorators :- ReadStrings(c, count);
    var visible :- ReadBool(c);
    return Ok(());
  }

  method ReadPath(c: Cursor, name: string) returns (r: Result<Value>)
    requires c.Valid()
    modifies c
    ensures c.Valid() && Follows(r, PathAt(c.data, old(c.pos), name), c.pos)
  {
    var head :- ReadObjectHead(c, 2);
    var tiles :- ReadPathTiles(c);
    var look :- ReadPathLook(c);
    var decorators :- ReadPathDecorators(c);
    return Ok(EMPTY_OBJECT);
  }
}
