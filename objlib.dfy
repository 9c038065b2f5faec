/**
 * The outer structure of a file: the file kind, the objlib kind, and a level objlib, which is a
 * header, libraries, external objects, a table of (name, type code) declarations, and then the
 * objects themselves, read in declaration order (file_parser.py:273-298, 612-669).
 */
module Objlib {
  import opened Outcomes
  import opened Bytes
  import opened PyValues
  import opened Primitives
  import opened Objects
  import opened Lvl

  // ---------------------------------------------------------------------------
  // The level object table

  /**
   * The ten kinds of level object whose readers exist. The table also names read_drawer, read_xfm,
   * read_anim, read_flow and read_env, which are never defined; their codes are treated as absent.
   */
  datatype LevelObjectKind = Leaf | Master | Samp | Level | Spawner | Mesh | Path | Material | Gate | Texture

  /** The type code under which each kind is registered in `level_object_readers`. */
  function LevelObjectCode(k: LevelObjectKind): string {
    match k
    case Leaf => "ce7e85f6"
    case Master => "490780b9"
    case Samp => "7aa8f390"
    case Level => "bcd17473"
    case Spawner => "d897d5db"
    case Mesh => "bf69f115"
    case Path => "4890a3f6"
    case Material => "7ba5c8e0"
    case Gate => "aa63a508"
    case Texture => "96ba8a70"
  }

  /** `level_object_readers[code]`, None for a code the table lacks (KeyError) or whose reader is undefined. */
  function LevelObjectKindOf(code: string): Option<LevelObjectKind> {
    if code == "ce7e85f6" then Some(Leaf)
    else if code == "490780b9" then Some(Master)
    else if code == "7aa8f390" then Some(Samp)
    else if code == "bcd17473" then Some(Level)
    else if code == "d897d5db" then Some(Spawner)
    else if code == "bf69f115" then Some(Mesh)
    else if code == "4890a3f6" then Some(Path)
    else if code == "7ba5c8e0" then Some(Material)
    else if code == "aa63a508" then Some(Gate)
    else if code == "96ba8a70" then Some(Texture)
    else None
  }

  /** The table registers exactly the ten codes, each for its own kind. */
  lemma LevelObjectTable(code: string, k: LevelObjectKind)
    ensures LevelObjectKindOf(code) == Some(k) <==> code == LevelObjectCode(k)
  {
    KindHasItsCode(code);
    CodeSelectsKind(k);
  }

  /** A code the table knows is the code of the kind it selects. */
  lemma KindHasItsCode(code: string)
    ensures LevelObjectKindOf(code).Some? ==> code == LevelObjectCode(LevelObjectKindOf(code).value)
  {
  }

  /** Each kind's own code selects that kind. */
  lemma CodeSelectsKind(k: LevelObjectKind)
    ensures LevelObjectKindOf(LevelObjectCode(k)) == Some(k)
  {
    match k
    case Leaf =>
    case Master =>
    case Samp =>
    case Level =>
    case Spawner =>
    case Mesh =>
    case Path =>
    case Material =>
    case Gate =>
    case Texture =>
  }

  /** The codes of read_drawer, read_xfm, read_anim, read_flow and read_env select no reader. */
  lemma UndefinedReader(code: string)
    requires code == "d3058b5d" || code == "7d9db5ef" || code == "5232f8f9" || code == "86621b1e" || code == "3bbcc4ec"
    ensures LevelObjectKindOf(code).None?
  {
  }

  /** The reader registered for a kind, called with the file and the declared object name. */
  function LevelObjectReader(k: LevelObjectKind): (seq<byte>, nat, string) -> Parsed<Value> {
    match k
    case Leaf => LeafAt
    case Master => MasterAt
    case Samp => SampAt
    case Level => LvlAt
    case Spawner => SpnAt
    case Mesh => MeshAt
    case Path => PathAt
    case Material => MatAt
    case Gate => GateAt
    case Texture => TexAt
  }

  /** Every registered reader stays inside the buffer and never moves backwards. */
  lemma ReadersAdvance(s: seq<byte>, k: LevelObjectKind)
    ensures forall q: nat, name: string :: Advances(LevelObjectReader(k)(s, q, name), q, |s|)
  {
  }

  // ---------------------------------------------------------------------------
  // Libraries and external objects

  /** read_global_library: an unused int and the library name; yields `{}`. */
  function GlobalLibraryAt(s: seq<byte>, p: nat): (r: Parsed<Value>)
    ensures r.Ok? <==> p + 4 <= |s| && StringAt(s, p + 4).Ok?
    ensures r.Ok? ==> r.value == Decoded(EMPTY_OBJECT, StringAt(s, p + 4).value.next)
  {
    var unknown :- IntAt(s, p);
    var name :- StringAt(s, unknown.next);
    Ok(Decoded(EMPTY_OBJECT, name.next))
  }

  /** read_global_libraries: an int32 count, then that many libraries. */
  function GlobalLibrariesAt(s: seq<byte>, p: nat): (r: Parsed<seq<Value>>)
    ensures Advances(r, p, |s|)
    ensures r.Ok? ==> IntAt(s, p).Ok? && |r.value.v| == RangeCount(IntAt(s, p).value.v)
  {
    var count :- IntAt(s, p);
    RepeatAdvances(GlobalLibraryAt, s, count.next, RangeCount(count.v));
    Repeat(GlobalLibraryAt, s, count.next, RangeCount(count.v))
  }

  /** read_level_external_object: a type code, a name and an unused int; yields `{}`. */
  function ExternalObjectAt(s: seq<byte>, p: nat): (r: Parsed<Value>)
    ensures r.Ok? <==> p + 4 <= |s| && StringAt(s, p + 4).Ok? && StringAt(s, p + 4).value.next + 4 <= |s|
    ensures r.Ok? ==> r.value == Decoded(EMPTY_OBJECT, StringAt(s, p + 4).value.next + 4)
  {
    var code :- HashAt(s, p);
    var name :- StringAt(s, code.next);
    var unknown :- IntAt(s, name.next);
    Ok(Decoded(EMPTY_OBJECT, unknown.next))
  }

  /** read_level_external_objects: an int32 count, then that many external objects. */
  function ExternalObjectsAt(s: seq<byte>, p: nat): (r: Parsed<seq<Value>>)
    ensures Advances(r, p, |s|)
    ensures r.Ok? ==> IntAt(s, p).Ok? && |r.value.v| == RangeCount(IntAt(s, p).value.v)
  {
    var count :- IntAt(s, p);
    RepeatAdvances(ExternalObjectAt, s, count.next, RangeCount(count.v));
    Repeat(ExternalObjectAt, s, count.next, RangeCount(count.v))
  }

  // ---------------------------------------------------------------------------
  // Declarations and objects

  /** A declared object: its name and the kind its type code selects. */
  datatype Declaration = Declaration(name: string, kind: LevelObjectKind)

  /** read_level_object_declaration: a name, then a type code looked up at once in the table. */
  function DeclarationAt(s: seq<byte>, p: nat): (r: Parsed<Declaration>)
    ensures Advances(r, p, |s|)
    ensures r.Ok? ==>
              && StringAt(s, p).Ok? && HashAt(s, StringAt(s, p).value.next).Ok?
              && r.value.next == StringAt(s, p).value.next + 4
              && r.value.v.name == StringAt(s, p).value.v
              && LevelObjectKindOf(HashAt(s, StringAt(s, p).value.next).value.v) == Some(r.value.v.kind)
    ensures StringAt(s, p).Ok? && HashAt(s, StringAt(s, p).value.next).Ok? ==>
              var code := HashAt(s, StringAt(s, p).value.next).value.v;
              LevelObjectKindOf(code).None? ==> r == Err(UnknownType(code, LevelObjectReaders))
  {
    var name :- StringAt(s, p);
    var code :- HashAt(s, name.next);
    match LevelObjectKindOf(code.v)
    case None => Err(UnknownType(code.v, LevelObjectReaders))
    case Some(k) => Ok(Decoded(Declaration(name.v, k), code.next))
  }

  /** read_level_object_declarations: an int32 count, then that many declarations. */
  function DeclarationsAt(s: seq<byte>, p: nat): (r: Parsed<seq<Declaration>>)
    ensures Advances(r, p, |s|)
    ensures r.Ok? ==> IntAt(s, p).Ok? && |r.value.v| == RangeCount(IntAt(s, p).value.v)
  {
    var count :- IntAt(s, p);
    RepeatAdvances(DeclarationAt, s, count.next, RangeCount(count.v));
    Repeat(DeclarationAt, s, count.next, RangeCount(count.v))
  }

  /** The declared objects, each read by its kind's reader where the previous one ended. */
  function ObjectsFrom(s: seq<byte>, p: nat, declarations: seq<Declaration>): (r: Parsed<seq<Value>>)
    requires p <= |s|
    ensures Advances(r, p, |s|)
    ensures r.Ok? ==> |r.value.v| == |declarations|
    ensures declarations == [] ==> r == Ok(Decoded([], p))
    decreases |declarations|
  {
    if declarations == [] then Ok(Decoded([], p))
    else
      var d := declarations[0];
      ReadersAdvance(s, d.kind);
      var first :- LevelObjectReader(d.kind)(s, p, d.name);
      var rest :- ObjectsFrom(s, first.next, declarations[1..]);
      Ok(Decoded([first.v] + rest.v, rest.next))
  }

  /**
   * Reading the objects of two runs of declarations is reading those of the first run, then those
   * of the second from where the first ended.
   */
  lemma {:induction false} ObjectsFromAppend(s: seq<byte>, p: nat, xs: seq<Declaration>, ys: seq<Declaration>)
    requires p <= |s|
    ensures ObjectsFrom(s, p, xs + ys) ==
              match ObjectsFrom(s, p, xs)
              case Err(e) => Err(e)
              case Ok(d) => Prepend(d.v, ObjectsFrom(s, d.next, ys))
    decreases |xs|
  {
    if xs == [] {
      assert xs + ys == ys;
      PrependLaws([], [], ObjectsFrom(s, p, ys));
    } else {
      assert (xs + ys)[0] == xs[0] && (xs + ys)[1..] == xs[1..] + ys;
      ReadersAdvance(s, xs[0].kind);
      var first := LevelObjectReader(xs[0].kind)(s, p, xs[0].name);
      if first.Ok? {
        ObjectsFromAppend(s, first.value.next, xs[1..], ys);
        match ObjectsFrom(s, first.value.next, xs[1..])
        case Err(e) =>
        case Ok(d) =>
          PrependLaws(d.v, [first.value.v], ObjectsFrom(s, d.next, ys));
      }
    }
  }

  /** An object that reads leads its run, and the rest is read from where it ends. */
  lemma FirstDeclaration(s: seq<byte>, p: nat, d: Declaration, rest: seq<Declaration>)
    requires p <= |s| && LevelObjectReader(d.kind)(s, p, d.name).Ok?
    ensures var first := LevelObjectReader(d.kind)(s, p, d.name).value;
            first.next <= |s| &&
            ObjectsFrom(s, p, [d] + rest) == Prepend([first.v], ObjectsFrom(s, first.next, rest))
  {
    ReadersAdvance(s, d.kind);
    assert ([d] + rest)[0] == d && ([d] + rest)[1..] == rest;
  }

  /** A single declaration: the run is that object's read, in a one-element list. */
  lemma SingleDeclaration(s: seq<byte>, q: nat, d: Declaration)
    requires q <= |s|
    ensures ObjectsFrom(s, q, [d]) ==
              match LevelObjectReader(d.kind)(s, q, d.name)
              case Err(e) => Err(e)
              case Ok(only) => Ok(Decoded([only.v], only.next))
  {
    assert [d][0] == d && [d][1..] == [];
    var only := LevelObjectReader(d.kind)(s, q, d.name);
    if only.Ok? {
      assert [only.value.v] + [] == [only.value.v];
    }
  }

  /** The sample kind's registered reader is read_samp. */
  lemma SampReader()
    ensures LevelObjectReader(Samp) == SampAt
  {
  }

  /** The spawner kind's registered reader is read_spn. */
  lemma SpnReader()
    ensures LevelObjectReader(Spawner) == SpnAt
  {
  }

  /** Two declarations: the second object is read from where the first ends. */
  lemma TwoDeclarations(s: seq<byte>, p: nat, a: Declaration, b: Declaration)
    requires p <= |s|
    ensures ObjectsFrom(s, p, [a, b]) ==
              match LevelObjectReader(a.kind)(s, p, a.name)
              case Err(e) => Err(e)
              case Ok(first) =>
                match LevelObjectReader(b.kind)(s, first.next, b.name)
                case Err(e) => Err(e)
                case Ok(second) => Ok(Decoded([first.v, second.v], second.next))
  {
    assert [a, b] == [a] + [b];
    var first := LevelObjectReader(a.kind)(s, p, a.name);
    if first.Ok? {
      FirstDeclaration(s, p, a, [b]);
      SingleDeclaration(s, first.value.next, b);
      var second := LevelObjectReader(b.kind)(s, first.value.next, b.name);
      if second.Ok? {
        assert [first.value.v] + [second.value.v] == [first.value.v, second.value.v];
      }
    }
  }

  /**
   * A sample declared before a spawner: the spawner is read from the byte just after the sample's
   * channel group name, and the run ends where the spawner's bucket name ends.
   */
  lemma SampThenSpn(s: seq<byte>, p: nat, sample: string, spawner: string)
    requires p <= |s| && SampAt(s, p, sample).Ok?
    ensures var first := SampAt(s, p, sample).value;
            ObjectsFrom(s, p, [Declaration(sample, Samp), Declaration(spawner, Spawner)]) ==
              match SpnAt(s, first.next, spawner)
              case Err(e) => Err(e)
              case Ok(second) => Ok(Decoded([first.v, second.v], second.next))
  {
    TwoDeclarations(s, p, Declaration(sample, Samp), Declaration(spawner, Spawner));
    SampReader();
    SpnReader();
  }

  // ---------------------------------------------------------------------------
  // The level objlib and the file

  /** What read_level_objlib binds: the declarations and the objects they name, in order. */
  datatype LevelObjlib = LevelObjlib(declarations: seq<Declaration>, objects: seq<Value>)

  /** The four unused ints that open a level objlib. */
  function UnknownsAt(s: seq<byte>, p: nat): (r: Parsed<Unit>)
    ensures r.Ok? <==> p + 16 <= |s|
    ensures r.Ok? ==> r.value.next == p + 16
  {
    var unknown1 :- IntAt(s, p);
    var unknown2 :- IntAt(s, unknown1.next);
    var unknown3 :- IntAt(s, unknown2.next);
    var unknown4 :- IntAt(s, unknown3.next);
    Ok(Decoded((), unknown4.next))
  }

  /** The unused ints, the global libraries, the original file path and the external objects. */
  function ObjlibHeaderAt(s: seq<byte>, p: nat): (r: Parsed<Unit>)
    ensures Advances(r, p, |s|)
    ensures r.Ok? ==> p + 16 <= r.value.next
  {
    var unknowns :- UnknownsAt(s, p);
    var libraries :- GlobalLibrariesAt(s, unknowns.next);
    var path :- StringAt(s, libraries.next);
    var externals :- ExternalObjectsAt(s, path.next);
    Ok(Decoded((), externals.next))
  }

  /**
   * read_level_objlib: every declaration is read and looked up before any object is, so an unknown
   * type code fails before an object byte is read; then the objects follow in declaration order.
   */
  function LevelObjlibAt(s: seq<byte>, p: nat): (r: Parsed<LevelObjlib>)
    ensures Advances(r, p, |s|)
    ensures ObjlibHeaderAt(s, p).Ok? && DeclarationsAt(s, ObjlibHeaderAt(s, p).value.next).Err? ==>
              r == Err(DeclarationsAt(s, ObjlibHeaderAt(s, p).value.next).error)
    ensures r.Ok? ==>
              && ObjlibHeaderAt(s, p).Ok?
              && var declarations := DeclarationsAt(s, ObjlibHeaderAt(s, p).value.next);
              && declarations.Ok?
              && r.value.v.declarations == declarations.value.v
              && ObjectsFrom(s, declarations.value.next, declarations.value.v) ==
                   Ok(Decoded(r.value.v.objects, r.value.next))
  {
    var header :- ObjlibHeaderAt(s, p);
    var declarations :- DeclarationsAt(s, header.next);
    var objects :- ObjectsFrom(s, declarations.next, declarations.v);
    Ok(Decoded(LevelObjlib(declarations.v, objects.v), objects.next))
  }

  /** A declaration whose type code is not a reader's fails the list, after the ones before it. */
  lemma UnknownDeclarationFailsList(s: seq<byte>, p: nat, i: nat, ds: seq<Declaration>, q: nat, code: string)
    requires IntAt(s, p).Ok? && i < RangeCount(IntAt(s, p).value.v)
    requires Repeat(DeclarationAt, s, p + 4, i) == Ok(Decoded(ds, q))
    requires StringAt(s, q).Ok? && HashAt(s, StringAt(s, q).value.next) == Ok(Decoded(code, StringAt(s, q).value.next + 4))
    requires LevelObjectKindOf(code).None?
    ensures DeclarationsAt(s, p) == Err(UnknownType(code, LevelObjectReaders))
  {
    assert DeclarationAt(s, q) == Err(UnknownType(code, LevelObjectReaders));
    RepeatStepFails(DeclarationAt, s, p + 4, i, RangeCount(IntAt(s, p).value.v), ds, q);
  }

  /**
   * Such a declaration fails the whole objlib with that code, before any object is read.
   */
  lemma UnknownDeclarationFails(s: seq<byte>, p: nat, header: nat, i: nat, ds: seq<Declaration>, q: nat, code: string)
    requires ObjlibHeaderAt(s, p).Ok? && header == ObjlibHeaderAt(s, p).value.next
    requires IntAt(s, header).Ok? && i < RangeCount(IntAt(s, header).value.v)
    requires Repeat(DeclarationAt, s, header + 4, i) == Ok(Decoded(ds, q))
    requires StringAt(s, q).Ok? && HashAt(s, StringAt(s, q).value.next) == Ok(Decoded(code, StringAt(s, q).value.next + 4))
    requires LevelObjectKindOf(code).None?
    ensures LevelObjlibAt(s, p) == Err(UnknownType(code, LevelObjectReaders))
  {
    UnknownDeclarationFailsList(s, header, i, ds, q, code);
  }

  /** The one objlib kind registered in `objlib_readers`. */
  const LEVEL_OBJLIB_CODE: string := "0b374d9e"

  /** read_objlib_file: the objlib type code, then the level objlib reader (or KeyError). */
  function ObjlibFileAt(s: seq<byte>, p: nat): (r: Parsed<LevelObjlib>)
    ensures Advances(r, p, |s|)
    ensures HashAt(s, p).Ok? && HashAt(s, p).value.v != LEVEL_OBJLIB_CODE ==>
              r == Err(UnknownType(HashAt(s, p).value.v, ObjlibReaders))
    ensures r.Ok? ==> HashAt(s, p).Ok? && HashAt(s, p).value.v == LEVEL_OBJLIB_CODE && r == LevelObjlibAt(s, p + 4)
  {
    var code :- HashAt(s, p);
    if code.v != LEVEL_OBJLIB_CODE then Err(UnknownType(code.v, ObjlibReaders))
    else LevelObjlibAt(s, code.next)
  }

  /** The one file kind registered in `file_readers`. */
  const OBJLIB_FILE_KIND: int := 8

  /**
   * read_file: the file kind, then the objlib file reader (or KeyError). The source's readers return
   * None here; the value kept is what read_level_objlib binds before it returns.
   */
  function FileAt(s: seq<byte>): (r: Parsed<LevelObjlib>)
    ensures Advances(r, 0, |s|)
    ensures IntAt(s, 0).Ok? && IntAt(s, 0).value.v != OBJLIB_FILE_KIND ==> r == Err(UnknownFileKind(IntAt(s, 0).value.v))
    ensures r.Ok? ==> IntAt(s, 0).Ok? && IntAt(s, 0).value.v == OBJLIB_FILE_KIND && r == ObjlibFileAt(s, 4)
  {
    var kind :- IntAt(s, 0);
    if kind.v != OBJLIB_FILE_KIND then Err(UnknownFileKind(kind.v))
    else ObjlibFileAt(s, kind.next)
  }

  /** File bytes f6 85 7e ce read as the type code 'ce7e85f6', which selects read_leaf. */
  lemma LeafCode()
    ensures HashAt([0xf6, 0x85, 0x7e, 0xce], 0) == Ok(Decoded("ce7e85f6", 4))
    ensures LevelObjectKindOf("ce7e85f6") == Some(Leaf)
  {
    var b: seq<byte> := [0xf6, 0x85, 0x7e, 0xce];
    assert b[0..4] == b;
    assert Reverse(b) == [0xce, 0x7e, 0x85, 0xf6];
    assert Hex([0xce, 0x7e, 0x85, 0xf6]) == "ce7e85f6";
  }

  // ---------------------------------------------------------------------------
  // The imperative readers

  method ReadGlobalLibrary(c: Cursor) returns (r: Result<Value>)
    requires c.Valid()
    modifies c
    ensures c.Valid() && Follows(r, GlobalLibraryAt(c.data, old(c.pos)), c.pos)
  {
    var unknown :- ReadInt(c);
    var name :- ReadString(c);
    return Ok(EMPTY_OBJECT);
  }

  method ReadGlobalLibraries(c: Cursor) returns (r: Result<seq<Value>>)
    requires c.Valid()
    modifies c
    ensures c.Valid() && Follows(r, GlobalLibrariesAt(c.data, old(c.pos)), c.pos)
  {
    ghost var p0 := c.pos;
    var count :- ReadInt(c);
    ghost var start := c.pos;
    assert GlobalLibrariesAt(c.data, p0) == Repeat(GlobalLibraryAt, c.data, start, RangeCount(count));
    var libraries: seq<Value> := [];
    var i := 0;
    while i < count
      invariant c.Valid()
      invariant 0 <= i <= RangeCount(count)
      invariant Repeat(GlobalLibraryAt, c.data, start, i) == Ok(Decoded(libraries, c.pos))
      decreases count - i
    {
      ghost var q := c.pos;
      var library := ReadGlobalLibrary(c);
      if library.Err? {
        RepeatStepFails(GlobalLibraryAt, c.data, start, i, RangeCount(count), libraries, q);
        return Err(library.error);
      }
      RepeatStep(GlobalLibraryAt, c.data, start, i, libraries, q);
      libraries := libraries + [library.value];
      i := i + 1;
    }
    assert i == RangeCount(count);
    return Ok(libraries);
  }

  method ReadExternalObject(c: Cursor) returns (r: Result<Value>)
    requires c.Valid()
    modifies c
    ensures c.Valid() && Follows(r, ExternalObjectAt(c.data, old(c.pos)), c.pos)
  {
    var code :- ReadHash(c);
    var name :- ReadString(c);
    var unknown :- ReadInt(c);
    return Ok(EMPTY_OBJECT);
  }

  method ReadExternalObjects(c: Cursor) returns (r: Result<seq<Value>>)
    requires c.Valid()
    modifies c
    ensures c.Valid() && Follows(r, ExternalObjectsAt(c.data, old(c.pos)), c.pos)
  {
    ghost var p0 := c.pos;
    var count :- ReadInt(c);
    ghost var start := c.pos;
    assert ExternalObjectsAt(c.data, p0) == Repeat(ExternalObjectAt, c.data, start, RangeCount(count));
    var externals: seq<Value> := [];
    var i := 0;
    while i < count
      invariant c.Valid()
      invariant 0 <= i <= RangeCount(count)
      invariant Repeat(ExternalObjectAt, c.data, start, i) == Ok(Decoded(externals, c.pos))
      decreases count - i
    {
      ghost var q := c.pos;
      var external := ReadExternalObject(c);
      if external.Err? {
        RepeatStepFails(ExternalObjectAt, c.data, start, i, RangeCount(count), externals, q);
        return Err(external.error);
      }
      RepeatStep(ExternalObjectAt, c.data, start, i, externals, q);
      externals := externals + [external.value];
      i := i + 1;
    }
    assert i == RangeCount(count);
    return Ok(externals);
  }

  method ReadDeclaration(c: Cursor) returns (r: Result<Declaration>)
    requires c.Valid()
    modifies c
    ensures c.Valid() && Follows(r, DeclarationAt(c.data, old(c.pos)), c.pos)
  {
    var name :- ReadString(c);
    var code :- ReadHash(c);
    match LevelObjectKindOf(code)
    case None =>
      return Err(UnknownType(code, LevelObjectReaders));
    case Some(k) =>
      return Ok(Declaration(name, k));
  }

  method ReadDeclarations(c: Cursor) returns (r: Result<seq<Declaration>>)
    requires c.Valid()
    modifies c
    ensures c.Valid() && Follows(r, DeclarationsAt(c.data, old(c.pos)), c.pos)
  {
    ghost var p0 := c.pos;
    var count :- ReadInt(c);
    ghost var start := c.pos;
    assert DeclarationsAt(c.data, p0) == Repeat(DeclarationAt, c.data, start, RangeCount(count));
    var declarations: seq<Declaration> := [];
    var i := 0;
    while i < count
      invariant c.Valid()
      invariant 0 <= i <= RangeCount(count)
      invariant Repeat(DeclarationAt, c.data, start, i) == Ok(Decoded(declarations, c.pos))
      decreases count - i
    {
      ghost var q := c.pos;
      var declaration := ReadDeclaration(c);
      if declaration.Err? {
        RepeatStepFails(DeclarationAt, c.data, start, i, RangeCount(count), declarations, q);
        return Err(declaration.error);
      }
      RepeatStep(DeclarationAt, c.data, start, i, declarations, q);
      declarations := declarations + [declaration.value];
      i := i + 1;
    }
    assert i == RangeCount(count);
    return Ok(declarations);
  }

  /** `level_object_readers[type](f, name)` for a declaration whose reader exists. */
  method ReadLevelObject(c: Cursor, d: Declaration) returns (r: Result<Value>)
    requires c.Valid()
    modifies c
    ensures c.Valid() && Follows(r, LevelObjectReader(d.kind)(c.data, old(c.pos), d.name), c.pos)
  {
    match d.kind
    case Leaf => r := ReadLeaf(c, d.name);
    case Master => r := ReadMaster(c, d.name);
    case Samp => r := ReadSamp(c, d.name);
    case Level => r := ReadLvl(c, d.name);
    case Spawner => r := ReadSpn(c, d.name);
    case Mesh => r := ReadMesh(c, d.name);
    case Path => r := ReadPath(c, d.name);
    case Material => r := ReadMat(c, d.name);
    case Gate => r := ReadGate(c, d.name);
    case Texture => r := ReadTex(c, d.name);
  }

  /** The loop over the declarations, one object each, in order. */
  method ReadObjects(c: Cursor, declarations: seq<Declaration>) returns (r: Result<seq<Value>>)
    requires c.Valid()
    modifies c
    ensures c.Valid() && Follows(r, ObjectsFrom(c.data, old(c.pos), declarations), c.pos)
  {
    ghost var p0 := c.pos;
    var objects: seq<Value> := [];
    PrependLaws(objects, objects, ObjectsFrom(c.data, p0, declarations));
    var i := 0;
    while i < |declarations|
      invariant c.Valid()
      invariant 0 <= i <= |declarations|
      invariant ObjectsFrom(c.data, p0, declarations) == Prepend(objects, ObjectsFrom(c.data, c.pos, declarations[i..]))
      decreases |declarations| - i
    {
      ghost var q := c.pos;
      var rest := declarations[i..];
      assert rest[0] == declarations[i] && rest[1..] == declarations[i + 1..];
      ReadersAdvance(c.data, declarations[i].kind);
      var obj := ReadLevelObject(c, declarations[i]);
      if obj.Err? {
        assert ObjectsFrom(c.data, q, rest) == Err(obj.error);
        return Err(obj.error);
      }
      PrependLaws([obj.value], objects, ObjectsFrom(c.data, c.pos, declarations[i + 1..]));
      assert ObjectsFrom(c.data, q, rest) == Prepend([obj.value], ObjectsFrom(c.data, c.pos, declarations[i + 1..]));
      objects := objects + [obj.value];
      i := i + 1;
    }
    assert declarations[i..] == [];
    assert objects + [] == objects;
    return Ok(objects);
  }

  method ReadObjlibHeader(c: Cursor) returns (r: Result<Unit>)
    requires c.Valid()
    modifies c
    ensures c.Valid() && Follows(r, ObjlibHeaderAt(c.data, old(c.pos)), c.pos)
  {
    var unknown1 :- ReadInt(c);
    var unknown2 :- ReadInt(c);
    var unknown3 :- ReadInt(c);
    var unknown4 :- ReadInt(c);
    var libraries :- ReadGlobalLibraries(c);
    var path :- ReadString(c);
    var externals :- ReadExternalObjects(c);
    return Ok(());
  }

  method ReadLevelObjlib(c: Cursor) returns (r: Result<LevelObjlib>)
    requires c.Valid()
    modifies c
    ensures c.Valid() && Follows(r, LevelObjlibAt(c.data, old(c.pos)), c.pos)
  {
    var header :- ReadObjlibHeader(c);
    var declarations :- ReadDeclarations(c);
    var objects :- ReadObjects(c, declarations);
    return Ok(LevelObjlib(declarations, objects));
  }

  method ReadObjlibFile(c: Cursor) returns (r: Result<LevelObjlib>)
    requires c.Valid()
    modifies c
    ensures c.Valid() && Follows(r, ObjlibFileAt(c.data, old(c.pos)), c.pos)
  {
    var code :- ReadHash(c);
    if code != LEVEL_OBJLIB_CODE {
      return Err(UnknownType(code, ObjlibReaders));
    }
    r := ReadLevelObjlib(c);
  }

  /** read_file over a whole file's bytes, read from its start. */
  method ReadFile(data: seq<byte>) returns (r: Result<LevelObjlib>)
    ensures var file := FileAt(data);
            Follows(r, file, if file.Ok? then file.value.next else 0)
  {
    var c := new Cursor(data);
    var kind :- ReadInt(c);
    if kind != OBJLIB_FILE_KIND {
      return Err(UnknownFileKind(kind));
    }
    r := ReadObjlibFile(c);
  }
}
