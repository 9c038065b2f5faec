/** Components: a type code followed by one of five component bodies (file_parser.py:62-123). */
module Components {
  import opened Outcomes
  import opened Bytes
  import opened PyValues
  import opened Primitives

  datatype ComponentKind = Animation | EditState | ApproachAnimation | Transform | Draw

  /** The type code under which each kind is registered in `component_readers`. */
  function ComponentCode(k: ComponentKind): string {
    match k
    case Animation => "63259f0a"
    case EditState => "3c8efb12"
    case ApproachAnimation => "6c2d3373"
    case Transform => "84e761eb"
    case Draw => "f92719ee"
  }

  /** `component_readers[code]`, None for a code the table lacks (KeyError). */
  function ComponentKindOf(code: string): Option<ComponentKind> {
    if code == "63259f0a" then Some(Animation)
    else if code == "3c8efb12" then Some(EditState)
    else if code == "6c2d3373" then Some(ApproachAnimation)
    else if code == "84e761eb" then Some(Transform)
    else if code == "f92719ee" then Some(Draw)
    else None
  }

  /** The table registers exactly the five codes, each for its own kind. */
  lemma ComponentTable(code: string, k: ComponentKind)
    ensures ComponentKindOf(code) == Some(k) <==> code == ComponentCode(k)
  {
  }

  /** read_animation_component: version int, frame float, unit-of-time string; yields `{}`. */
  function AnimationComponentAt(s: seq<byte>, p: nat): (r: Parsed<Value>)
    ensures r.Ok? <==> p + 8 <= |s| && StringAt(s, p + 8).Ok?
    ensures r.Ok? ==> r.value == Decoded(VDict([]), StringAt(s, p + 8).value.next)
  {
    var version :- IntAt(s, p);
    var frame :- FloatAt(s, version.next);
    var unit :- StringAt(s, frame.next);
    Ok(Decoded(VDict([]), unit.next))
  }

  /** read_edit_state_component: no bytes at all; yields `{}`. */
  function EditStateComponentAt(s: seq<byte>, p: nat): (r: Parsed<Value>)
    ensures r == Ok(Decoded(VDict([]), p))
  {
    Ok(Decoded(VDict([]), p))
  }

  /**
   * read_approach_animation_component: the fields of an animation component, then a version int and
   * the beat count; yields `{'approach_beats': count}`.
   */
  function ApproachComponentAt(s: seq<byte>, p: nat): (r: Parsed<Value>)
    ensures r.Ok? <==> AnimationComponentAt(s, p).Ok? && AnimationComponentAt(s, p).value.next + 8 <= |s|
    ensures r.Ok? ==>
              var q := AnimationComponentAt(s, p).value.next;
              r.value == Decoded(VDict([(Str("approach_beats"), VInt(IntAt(s, q + 4).value.v))]), q + 8)
  {
    var version :- IntAt(s, p);
    var frame :- FloatAt(s, version.next);
    var unit :- StringAt(s, frame.next);
    var approachVersion :- IntAt(s, unit.next);
    var beats :- IntAt(s, approachVersion.next);
    Ok(Decoded(VDict([(Str("approach_beats"), VInt(beats.v))]), beats.next))
  }

  const TRANSFORM_COMPONENT_KEYS: seq<string> := ["xfm_name", "constrainnt"] + TRANSFORM_KEYS

  /**
   * read_transform_component: version int, parent name, constraint, transform; yields
   * `{'xfm_name': parent, 'constrainnt': constraint, **transform}` (the key's spelling is the source's).
   */
  function TransformComponentAt(s: seq<byte>, p: nat): (r: Parsed<Value>)
    ensures r.Ok? <==>
              && p + 4 <= |s| && StringAt(s, p + 4).Ok?
              && StringAt(s, StringAt(s, p + 4).value.next).Ok?
              && StringAt(s, StringAt(s, p + 4).value.next).value.next + 60 <= |s|
    ensures r.Ok? ==>
              && r.value.next == StringAt(s, StringAt(s, p + 4).value.next).value.next + 60
              && r.value.v.VDict?
              && HasKeys(r.value.v.entries, TRANSFORM_COMPONENT_KEYS)
              && r.value.v.entries[0].1 == VStr(StringAt(s, p + 4).value.v)
              && r.value.v.entries[1].1 == VStr(StringAt(s, StringAt(s, p + 4).value.next).value.v)
              && var q := StringAt(s, StringAt(s, p + 4).value.next).value.next;
                 r.value.v.entries[2..] == TransformAt(s, q).value.v.entries
  {
    var version :- IntAt(s, p);
    var parent :- StringAt(s, version.next);
    var constraint :- StringAt(s, parent.next);
    var transform :- TransformAt(s, constraint.next);
    Ok(Decoded(VDict(TransformComponentRecord(parent.v, constraint.v, transform.v.entries)), transform.next))
  }

  /**
   * `{'xfm_name': parent, 'constrainnt': constraint, **transform}`: the two names first, then the
   * transform's entries unchanged.
   */
  function TransformComponentRecord(parent: string, constraint: string, transform: Entries): (e: Entries)
    requires HasKeys(transform, TRANSFORM_KEYS)
    ensures HasKeys(e, TRANSFORM_COMPONENT_KEYS)
    ensures e[0].1 == VStr(parent) && e[1].1 == VStr(constraint)
    ensures e[2..] == transform
  {
    var names := [(Str("xfm_name"), VStr(parent)), (Str("constrainnt"), VStr(constraint))];
    NotTransformKey("xfm_name");
    NotTransformKey("constrainnt");
    TransformSpread(names, ["xfm_name", "constrainnt"], transform);
    Spread(names, VDict(transform)).value
  }

  /** The fields of a draw component before its child list: version, visibility, layer and bucket. */
  function DrawHeadAt(s: seq<byte>, p: nat): (r: Parsed<Unit>)
    ensures r.Ok? <==>
              && p + 5 <= |s| && StringAt(s, p + 5).Ok?
              && StringAt(s, StringAt(s, p + 5).value.next).Ok?
    ensures r.Ok? ==> r.value.next == StringAt(s, StringAt(s, p + 5).value.next).value.next
    ensures Advances(r, p + 13, |s|)
  {
    var version :- IntAt(s, p);
    var visible :- BoolAt(s, version.next);
    var layer :- StringAt(s, visible.next);
    var bucket :- StringAt(s, layer.next);
    Ok(Decoded((), bucket.next))
  }

  /** The counted list of child names that ends a draw component; the names are not kept. */
  function DrawChildrenAt(s: seq<byte>, p: nat): (r: Parsed<Unit>)
    ensures r.Ok? <==> IntAt(s, p).Ok? && Repeat(StringAt, s, p + 4, RangeCount(IntAt(s, p).value.v)).Ok?
    ensures r.Ok? ==> r.value.next == Repeat(StringAt, s, p + 4, RangeCount(IntAt(s, p).value.v)).value.next
    ensures Advances(r, p + 4, |s|)
  {
    var count :- IntAt(s, p);
    RepeatAdvances(StringAt, s, count.next, RangeCount(count.v));
    var children :- Repeat(StringAt, s, count.next, RangeCount(count.v));
    Ok(Decoded((), children.next))
  }

  /**
   * read_draw_component: version, visibility, draw layer, render bucket and a counted list of child
   * names; the function has no return statement, so it yields None.
   */
  function DrawComponentAt(s: seq<byte>, p: nat): (r: Parsed<Value>)
    ensures r.Ok? <==> DrawHeadAt(s, p).Ok? && DrawChildrenAt(s, DrawHeadAt(s, p).value.next).Ok?
    ensures r.Ok? ==>
              && r.value.v == VNone
              && r.value.next == DrawChildrenAt(s, DrawHeadAt(s, p).value.next).value.next
    ensures Advances(r, p + 17, |s|)
  {
    var head :- DrawHeadAt(s, p);
    var children :- DrawChildrenAt(s, head.next);
    Ok(Decoded(VNone, children.next))
  }

  /** The body of a component of the given kind. */
  function ComponentBodyAt(k: ComponentKind, s: seq<byte>, p: nat): Parsed<Value> {
    match k
    case Animation => AnimationComponentAt(s, p)
    case EditState => EditStateComponentAt(s, p)
    case ApproachAnimation => ApproachComponentAt(s, p)
    case Transform => TransformComponentAt(s, p)
    case Draw => DrawComponentAt(s, p)
  }

  /** read_component: the type code selects the body reader; an unregistered code raises KeyError. */
  function ComponentAt(s: seq<byte>, p: nat): (r: Parsed<Value>)
    ensures Advances(r, p, |s|)
    ensures r.Ok? ==> HashAt(s, p).Ok? && ComponentKindOf(HashAt(s, p).value.v).Some?
    ensures HashAt(s, p).Ok? ==>
              var code := HashAt(s, p).value.v;
              match ComponentKindOf(code)
              case None => r == Err(UnknownType(code, ComponentReaders))
              case Some(k) => r == ComponentBodyAt(k, s, p + 4)
    // only the draw component yields None; every other component yields a dict
    ensures r.Ok? ==> (r.value.v == VNone <==> ComponentKindOf(HashAt(s, p).value.v) == Some(Draw))
    ensures r.Ok? ==> IsComponentValue(r.value.v)
  {
    var code :- HashAt(s, p);
    match ComponentKindOf(code.v)
    case None => Err(UnknownType(code.v, ComponentReaders))
    case Some(k) => ComponentBodyAt(k, s, code.next)
  }

  /** What a component reader yields: a dict, or None for the draw component. */
  predicate IsComponentValue(v: Value) {
    v == VNone || v.VDict?
  }

  /** read_components: an int32 count, then that many components (none for a negative count). */
  function ComponentsAt(s: seq<byte>, p: nat): (r: Parsed<seq<Value>>)
    ensures Advances(r, p, |s|)
    ensures r.Ok? ==> IntAt(s, p).Ok? && |r.value.v| == RangeCount(IntAt(s, p).value.v)
    ensures r.Ok? ==> forall i :: 0 <= i < |r.value.v| ==> IsComponentValue(r.value.v[i])
  {
    var count :- IntAt(s, p);
    RepeatAdvances(ComponentAt, s, count.next, RangeCount(count.v));
    RepeatAll(ComponentAt, IsComponentValue, s, count.next, RangeCount(count.v));
    var items :- Repeat(ComponentAt, s, count.next, RangeCount(count.v));
    Ok(items)
  }

  // ---------------------------------------------------------------------------
  // The imperative readers

  method ReadAnimationComponent(c: Cursor) returns (r: Result<Value>)
    requires c.Valid()
    modifies c
    ensures c.Valid() && Follows(r, AnimationComponentAt(c.data, old(c.pos)), c.pos)
  {
    var version :- ReadInt(c);
    var frame :- ReadFloat(c);
    var unit :- ReadString(c);
    return Ok(VDict([]));
  }

  method ReadEditStateComponent(c: Cursor) returns (r: Result<Value>)
    requires c.Valid()
    modifies c
    ensures c.Valid() && Follows(r, EditStateComponentAt(c.data, old(c.pos)), c.pos)
  {
    return Ok(VDict([]));
  }

  method ReadApproachComponent(c: Cursor) returns (r: Result<Value>)
    requires c.Valid()
    modifies c
    ensures c.Valid() && Follows(r, ApproachComponentAt(c.data, old(c.pos)), c.pos)
  {
    var version :- ReadInt(c);
    var frame :- ReadFloat(c);
    var unit :- ReadString(c);
    var approachVersion :- ReadInt(c);
    var beats :- ReadInt(c);
    return Ok(VDict([(Str("approach_beats"), VInt(beats))]));
  }

  method ReadTransformComponent(c: Cursor) returns (r: Result<Value>)
    requires c.Valid()
    modifies c
    ensures c.Valid() && Follows(r, TransformComponentAt(c.data, old(c.pos)), c.pos)
  {
    var version :- ReadInt(c);
    var parent :- ReadString(c);
    var constraint :- ReadString(c);
    var transform :- ReadTransform(c);
    var entries :- Spread([(Str("xfm_name"), VStr(parent)), (Str("constrainnt"), VStr(constraint))], transform);
    return Ok(VDict(entries));
  }

  method ReadDrawComponent(c: Cursor) returns (r: Result<Value>)
    requires c.Valid()
    modifies c
    ensures c.Valid() && Follows(r, DrawComponentAt(c.data, old(c.pos)), c.pos)
  {
    var version :- ReadInt(c);
    var visible :- ReadBool(c);
    var layer :- ReadString(c);
    var bucket :- ReadString(c);
    var count :- ReadInt(c);
    var children :- ReadStrings(c, count);
    return Ok(VNone);
  }

  method ReadComponent(c: Cursor) returns (r: Result<Value>)
    requires c.Valid()
    modifies c
    ensures c.Valid() && Follows(r, ComponentAt(c.data, old(c.pos)), c.pos)
  {
    var code :- ReadHash(c);
    match ComponentKindOf(code)
    case None =>
      return Err(UnknownType(code, ComponentReaders));
    case Some(Animation) =>
      r := ReadAnimationComponent(c);
    case Some(EditState) =>
      r := ReadEditStateComponent(c);
    case Some(ApproachAnimation) =>
      r := ReadApproachComponent(c);
    case Some(Transform) =>
      r := ReadTransformComponent(c);
    case Some(Draw) =>
      r := ReadDrawComponent(c);
  }

  method ReadComponents(c: Cursor) returns (r: Result<seq<Value>>)
    requires c.Valid()
    modifies c
    ensures c.Valid() && Follows(r, ComponentsAt(c.data, old(c.pos)), c.pos)
  {
    ghost var p0 := c.pos;
    var count :- ReadInt(c);
    ghost var start := c.pos;
    assert ComponentsAt(c.data, p0) == Repeat(ComponentAt, c.data, start, RangeCount(count));
    var components: seq<Value> := [];
    var i := 0;
    while i < count
      invariant c.Valid()
      invariant 0 <= i <= RangeCount(count)
      invariant Repeat(ComponentAt, c.data, start, i) == Ok(Decoded(components, c.pos))
      decreases count - i
    {
      ghost var q := c.pos;
      var component := ReadComponent(c);
      if component.Err? {
        RepeatStepFails(ComponentAt, c.data, start, i, RangeCount(count), components, q);
        return Err(component.error);
      }
      RepeatStep(ComponentAt, c.data, start, i, components, q);
      components := components + [component.value];
      i := i + 1;
    }
    assert i == RangeCount(count);
    return Ok(components);
  }
}
