/**
 * format_fake_json: the JSON-like text the tool writes for a decoded value (file_parser.py:671-685,
 * leaf_parser.py:218-230). Dicts and lists open a bracket, put each entry on its own line one tab
 * deeper with a trailing comma, and close on a line at the caller's depth; ints (and bools, which
 * Python counts as ints) print in decimal, strings in single quotes with no escaping.
 */
module FakeJson {
  import opened Outcomes
  import opened Bytes
  import opened PyValues

  /** `n * '\t'`. */
  function Tabs(n: nat): (t: string)
    ensures |t| == n && forall i :: 0 <= i < |t| ==> t[i] == '\t'
  {
    if n == 0 then "" else Tabs(n - 1) + "\t"
  }

  /** `str(True)` and `str(False)`: a bool takes the int branch and prints as its name. */
  function BoolText(b: bool): string {
    if b then "True" else "False"
  }

  /** The name `str(type(data))` shows for the types the emitter refuses. */
  function TypeName(v: Value): string {
    match v
    case VNone => "NoneType"
    case VTuple(_) => "tuple"
    case _ => ""
  }

  /**
   * format_fake_json(data, indent). Floats are rendered by `showFloat`, standing for
   * `str(int(f)) if f.is_integer() else str(f)`.
   */
  function Format(v: Value, indent: nat, showFloat: F32 -> string): (r: Result<string>)
    ensures r.Err? ==> r.error == Unformattable("NoneType") || r.error == Unformattable("tuple")
    decreases v, 1
  {
    match v
    case VDict(_) =>
      var body :- FormatEntries(v, 0, indent + 1, showFloat);
      Ok("{" + body + "\n" + Tabs(indent) + "}")
    case VList(_) =>
      var body :- FormatItems(v, 0, indent + 1, showFloat);
      Ok("[" + body + "\n" + Tabs(indent) + "]")
    case VBool(b) => Ok(BoolText(b))
    case VInt(i) => Ok(IntText(i))
    case VFloat(f) => Ok(showFloat(f))
    case VStr(s) => Ok("'" + s + "'")
    case VNone => Err(Unformattable(TypeName(v)))
    case VTuple(_) => Err(Unformattable(TypeName(v)))
  }

  /**
   * The entries of dict `d` from the i-th on, each on a new line at depth `inner`: key, `': '`,
   * value, `','`.
   */
  function FormatEntries(d: Value, i: nat, inner: nat, showFloat: F32 -> string): (r: Result<string>)
    requires d.VDict?
    ensures r.Err? ==> r.error == Unformattable("NoneType") || r.error == Unformattable("tuple")
    decreases d, 0, |d.entries| - i
  {
    if i >= |d.entries| then Ok("")
    else
      var line :- EntryText(d, i, inner, showFloat);
      var rest :- FormatEntries(d, i + 1, inner, showFloat);
      Ok(line + rest)
  }

  /** The i-th entry's line: a newline, the indent, the key, `': '`, the value and `','`. */
  function EntryText(d: Value, i: nat, inner: nat, showFloat: F32 -> string): (r: Result<string>)
    requires d.VDict? && i < |d.entries|
    ensures r.Err? ==> r.error == Unformattable("NoneType") || r.error == Unformattable("tuple")
    decreases d, 0, 0
  {
    var entry := d.entries[i];
    assert entry in d.entries;
    var key :- Format(entry.0, inner, showFloat);
    var value :- Format(entry.1, inner, showFloat);
    Ok("\n" + Tabs(inner) + key + ": " + value + ",")
  }

  /** The items of list `l` from the i-th on, each on a new line at depth `inner`, followed by `','`. */
  function FormatItems(l: Value, i: nat, inner: nat, showFloat: F32 -> string): (r: Result<string>)
    requires l.VList?
    ensures r.Err? ==> r.error == Unformattable("NoneType") || r.error == Unformattable("tuple")
    decreases l, 0, |l.items| - i
  {
    if i >= |l.items| then Ok("")
    else
      var item :- Format(l.items[i], inner, showFloat);
      var rest :- FormatItems(l, i + 1, inner, showFloat);
      Ok("\n" + Tabs(inner) + item + "," + rest)
  }

  /** A value the emitter accepts: no None and no tuple anywhere inside it. */
  predicate Emittable(v: Value)
    decreases v, 1
  {
    match v
    case VNone => false
    case VTuple(_) => false
    case VDict(_) => EntriesEmittable(v, 0)
    case VList(_) => ItemsEmittable(v, 0)
    case _ => true
  }

  /** The entries of dict `d` from the i-th on have emittable keys and values. */
  predicate EntriesEmittable(d: Value, i: nat)
    requires d.VDict?
    decreases d, 0, |d.entries| - i
  {
    i < |d.entries| ==>
      var entry := d.entries[i];
      assert entry in d.entries;
      Emittable(entry.0) && Emittable(entry.1) && EntriesEmittable(d, i + 1)
  }

  /** The items of list `l` from the i-th on are emittable. */
  predicate ItemsEmittable(l: Value, i: nat)
    requires l.VList?
    decreases l, 0, |l.items| - i
  {
    i < |l.items| ==> Emittable(l.items[i]) && ItemsEmittable(l, i + 1)
  }

  /** format_fake_json succeeds exactly on the values with no None and no tuple inside them. */
  lemma {:induction false} FormatOkIffEmittable(v: Value, indent: nat, showFloat: F32 -> string)
    ensures Format(v, indent, showFloat).Ok? <==> Emittable(v)
    decreases v, 1
  {
    match v
    case VDict(_) => EntriesOkIffEmittable(v, 0, indent + 1, showFloat);
    case VList(_) => ItemsOkIffEmittable(v, 0, indent + 1, showFloat);
    case _ =>
  }

  lemma {:induction false} EntriesOkIffEmittable(d: Value, i: nat, inner: nat, showFloat: F32 -> string)
    requires d.VDict?
    ensures FormatEntries(d, i, inner, showFloat).Ok? <==> EntriesEmittable(d, i)
    decreases d, 0, |d.entries| - i
  {
    if i < |d.entries| {
      var entry := d.entries[i];
      assert entry in d.entries;
      FormatOkIffEmittable(entry.0, inner, showFloat);
      FormatOkIffEmittable(entry.1, inner, showFloat);
      EntriesOkIffEmittable(d, i + 1, inner, showFloat);
    }
  }

  lemma {:induction false} ItemsOkIffEmittable(l: Value, i: nat, inner: nat, showFloat: F32 -> string)
    requires l.VList?
    ensures FormatItems(l, i, inner, showFloat).Ok? <==> ItemsEmittable(l, i)
    decreases l, 0, |l.items| - i
  {
    if i < |l.items| {
      FormatOkIffEmittable(l.items[i], inner, showFloat);
      ItemsOkIffEmittable(l, i + 1, inner, showFloat);
    }
  }

  /** An empty dict at depth 0 is `{`, a newline and `}`. */
  lemma EmptyDict(showFloat: F32 -> string)
    ensures Format(VDict([]), 0, showFloat) == Ok("{\n}")
  {
    assert Tabs(0) == "";
    assert "{" + "" + "\n" + "" + "}" == "{\n}";
  }

  /**
   * A dict's body is the bodies of its parts: the entries of `a + b` print as those of `a` followed
   * by those of `b`, each on its own line.
   */
  lemma {:induction false} EntriesAppend(a: Entries, b: Entries, i: nat, inner: nat, showFloat: F32 -> string)
    requires i <= |a|
    requires FormatEntries(VDict(a), i, inner, showFloat).Ok? && FormatEntries(VDict(b), 0, inner, showFloat).Ok?
    ensures FormatEntries(VDict(a + b), i, inner, showFloat) ==
              Ok(FormatEntries(VDict(a), i, inner, showFloat).value + FormatEntries(VDict(b), 0, inner, showFloat).value)
    decreases |a| - i
  {
    if i < |a| {
      EntriesAppend(a, b, i + 1, inner, showFloat);
      AppendStep(a, b, i, inner, showFloat);
    } else {
      ShiftedEntries(a, b, 0, inner, showFloat);
      EmptyRest(VDict(a), i, inner, showFloat);
      var bodyB := FormatEntries(VDict(b), 0, inner, showFloat).value;
      assert "" + bodyB == bodyB;
    }
  }

  /** One step of EntriesAppend: the entry at i < |a| is the same line in `a` and in `a + b`. */
  lemma AppendStep(a: Entries, b: Entries, i: nat, inner: nat, showFloat: F32 -> string)
    requires i < |a|
    requires FormatEntries(VDict(a), i, inner, showFloat).Ok? && FormatEntries(VDict(b), 0, inner, showFloat).Ok?
    requires FormatEntries(VDict(a + b), i + 1, inner, showFloat) ==
               Ok(FormatEntries(VDict(a), i + 1, inner, showFloat).value + FormatEntries(VDict(b), 0, inner, showFloat).value)
    ensures FormatEntries(VDict(a + b), i, inner, showFloat) ==
              Ok(FormatEntries(VDict(a), i, inner, showFloat).value + FormatEntries(VDict(b), 0, inner, showFloat).value)
  {
    assert (a + b)[i] == a[i];
    assert EntryText(VDict(a + b), i, inner, showFloat) == EntryText(VDict(a), i, inner, showFloat);
    var head := EntryText(VDict(a), i, inner, showFloat).value;
    var restA := FormatEntries(VDict(a), i + 1, inner, showFloat).value;
    var bodyB := FormatEntries(VDict(b), 0, inner, showFloat).value;
    assert head + (restA + bodyB) == (head + restA) + bodyB;
  }

  /** Past the last entry the body is empty. */
  lemma EmptyRest(d: Value, i: nat, inner: nat, showFloat: F32 -> string)
    requires d.VDict? && i >= |d.entries|
    ensures FormatEntries(d, i, inner, showFloat) == Ok("")
  {
  }

  /** The entries of `a + b` from position |a| + j are those of `b` from position j. */
  lemma {:induction false} ShiftedEntries(a: Entries, b: Entries, j: nat, inner: nat, showFloat: F32 -> string)
    ensures FormatEntries(VDict(a + b), |a| + j, inner, showFloat) == FormatEntries(VDict(b), j, inner, showFloat)
    decreases |b| - j
  {
    if j < |b| {
      assert (a + b)[|a| + j] == b[j];
      ShiftedEntries(a, b, j + 1, inner, showFloat);
    }
  }

  /** Each dict entry adds one line: a one-entry dict shows its key and value on a line one tab in. */
  lemma SingleEntry(k: Value, v: Value, indent: nat, showFloat: F32 -> string)
    requires Format(k, indent + 1, showFloat).Ok? && Format(v, indent + 1, showFloat).Ok?
    ensures Format(VDict([(k, v)]), indent, showFloat) ==
              Ok("{\n" + Tabs(indent + 1) + Format(k, indent + 1, showFloat).value + ": " +
                 Format(v, indent + 1, showFloat).value + ",\n" + Tabs(indent) + "}")
  {
    var d := VDict([(k, v)]);
    var key, value := Format(k, indent + 1, showFloat).value, Format(v, indent + 1, showFloat).value;
    assert d.entries[0] == (k, v);
    var line := "\n" + Tabs(indent + 1) + key + ": " + value + ",";
    assert EntryText(d, 0, indent + 1, showFloat) == Ok(line);
    EmptyRest(d, 1, indent + 1, showFloat);
    assert line + "" == line;
    assert FormatEntries(d, 0, indent + 1, showFloat) == Ok(line);
    assert Format(d, indent, showFloat) == Ok("{" + line + "\n" + Tabs(indent) + "}");
    OneLineRegroup(Tabs(indent + 1), key, value, Tabs(indent));
  }

  /** The text of a one-entry dict, regrouped. */
  lemma OneLineRegroup(inner: string, key: string, value: string, outer: string)
    ensures "{" + ("\n" + inner + key + ": " + value + ",") + "\n" + outer + "}" ==
            "{\n" + inner + key + ": " + value + ",\n" + outer + "}"
  {
    var open, line := "{" + "\n" + inner + key + ": " + value, "," + "\n" + outer + "}";
    assert "{" + ("\n" + inner + key + ": " + value + ",") + "\n" + outer + "}" == open + line;
    assert "{\n" + inner + key + ": " + value + ",\n" + outer + "}" == open + line;
  }

  /**
   * A list's body is the bodies of its parts: the items of `a + b` print as those of `a` followed
   * by those of `b`, each on its own line.
   */
  lemma {:induction false} ItemsAppend(a: seq<Value>, b: seq<Value>, i: nat, inner: nat, showFloat: F32 -> string)
    requires i <= |a|
    requires FormatItems(VList(a), i, inner, showFloat).Ok? && FormatItems(VList(b), 0, inner, showFloat).Ok?
    ensures FormatItems(VList(a + b), i, inner, showFloat) ==
              Ok(FormatItems(VList(a), i, inner, showFloat).value + FormatItems(VList(b), 0, inner, showFloat).value)
    decreases |a| - i
  {
    if i < |a| {
      ItemsAppend(a, b, i + 1, inner, showFloat);
      ItemAppendStep(a, b, i, inner, showFloat);
    } else {
      ShiftedItems(a, b, 0, inner, showFloat);
      EmptyItemsRest(VList(a), i, inner, showFloat);
      var bodyB := FormatItems(VList(b), 0, inner, showFloat).value;
      assert "" + bodyB == bodyB;
    }
  }

  /** One step of ItemsAppend: the item at i < |a| is the same line in `a` and in `a + b`. */
  lemma ItemAppendStep(a: seq<Value>, b: seq<Value>, i: nat, inner: nat, showFloat: F32 -> string)
    requires i < |a|
    requires FormatItems(VList(a), i, inner, showFloat).Ok? && FormatItems(VList(b), 0, inner, showFloat).Ok?
    requires FormatItems(VList(a + b), i + 1, inner, showFloat) ==
               Ok(FormatItems(VList(a), i + 1, inner, showFloat).value + FormatItems(VList(b), 0, inner, showFloat).value)
    ensures FormatItems(VList(a + b), i, inner, showFloat) ==
              Ok(FormatItems(VList(a), i, inner, showFloat).value + FormatItems(VList(b), 0, inner, showFloat).value)
  {
    assert VList(a + b).items[i] == a[i];
    var item := Format(a[i], inner, showFloat).value;
    var head := "\n" + Tabs(inner) + item + ",";
    var restA := FormatItems(VList(a), i + 1, inner, showFloat).value;
    var bodyB := FormatItems(VList(b), 0, inner, showFloat).value;
    assert FormatItems(VList(a), i, inner, showFloat) == Ok(head + restA);
    assert FormatItems(VList(a + b), i, inner, showFloat) == Ok(head + (restA + bodyB));
    assert head + (restA + bodyB) == (head + restA) + bodyB;
  }

  /** Past the last item the body is empty. */
  lemma EmptyItemsRest(l: Value, i: nat, inner: nat, showFloat: F32 -> string)
    requires l.VList? && i >= |l.items|
    ensures FormatItems(l, i, inner, showFloat) == Ok("")
  {
  }

  /** The items of `a + b` from position |a| + j are those of `b` from position j. */
  lemma {:induction false} ShiftedItems(a: seq<Value>, b: seq<Value>, j: nat, inner: nat, showFloat: F32 -> string)
    ensures FormatItems(VList(a + b), |a| + j, inner, showFloat) == FormatItems(VList(b), j, inner, showFloat)
    decreases |b| - j
  {
    if j < |b| {
      assert (a + b)[|a| + j] == b[j];
      ShiftedItems(a, b, j + 1, inner, showFloat);
    }
  }

  /** Each list item adds one line: a one-item list shows the item on a line one tab in. */
  lemma SingleItem(v: Value, indent: nat, showFloat: F32 -> string)
    requires Format(v, indent + 1, showFloat).Ok?
    ensures Format(VList([v]), indent, showFloat) ==
              Ok("[\n" + Tabs(indent + 1) + Format(v, indent + 1, showFloat).value + ",\n" + Tabs(indent) + "]")
  {
    var l := VList([v]);
    var item := Format(v, indent + 1, showFloat).value;
    assert l.items[0] == v;
    var line := "\n" + Tabs(indent + 1) + item + ",";
    EmptyItemsRest(l, 1, indent + 1, showFloat);
    assert line + "" == line;
    assert FormatItems(l, 0, indent + 1, showFloat) == Ok(line);
    assert Format(l, indent, showFloat) == Ok("[" + line + "\n" + Tabs(indent) + "]");
    OneItemRegroup(Tabs(indent + 1), item, Tabs(indent));
  }

  /** The text of a one-item list, regrouped. */
  lemma OneItemRegroup(inner: string, item: string, outer: string)
    ensures "[" + ("\n" + inner + item + ",") + "\n" + outer + "]" == "[\n" + inner + item + ",\n" + outer + "]"
  {
    var open, line := "[" + "\n" + inner + item, "," + "\n" + outer + "]";
    assert "[" + ("\n" + inner + item + ",") + "\n" + outer + "]" == open + line;
    assert "[\n" + inner + item + ",\n" + outer + "]" == open + line;
  }

  /** Scalars print the same at every depth; only brackets depend on the indent. */
  lemma ScalarIgnoresIndent(v: Value, i: nat, j: nat, showFloat: F32 -> string)
    requires !v.VDict? && !v.VList?
    ensures Format(v, i, showFloat) == Format(v, j, showFloat)
  {
  }

  /** format_fake_json of a dict or list, empty or not, opens and closes with matching brackets. */
  lemma Brackets(v: Value, indent: nat, showFloat: F32 -> string)
    requires (v.VDict? || v.VList?) && Format(v, indent, showFloat).Ok?
    ensures var t := Format(v, indent, showFloat).value;
            |t| >= indent + 2 &&
            (v.VDict? ==> t[0] == '{' && t[|t| - 1] == '}') &&
            (v.VList? ==> t[0] == '[' && t[|t| - 1] == ']') &&
            t[|t| - indent - 2..|t| - 1] == "\n" + Tabs(indent)
  {
  }

  /** None and tuples are refused with the name of their type. */
  lemma Refused(v: Value, indent: nat, showFloat: F32 -> string)
    requires v.VNone? || v.VTuple?
    ensures Format(v, indent, showFloat) == Err(Unformattable(if v.VNone? then "NoneType" else "tuple"))
  {
  }

  /** Strings are wrapped in single quotes with their text unchanged between them. */
  lemma Quoted(s: string, indent: nat, showFloat: F32 -> string)
    ensures var t := Format(VStr(s), indent, showFloat).value;
            Format(VStr(s), indent, showFloat).Ok? && |t| == |s| + 2 &&
            t[0] == '\'' && t[|t| - 1] == '\'' && t[1..|t| - 1] == s
  {
  }

  /** True and False print as their Python names, the way their int values do not. */
  lemma Bools(indent: nat, showFloat: F32 -> string)
    ensures Format(VBool(true), indent, showFloat) == Ok("True")
    ensures Format(VBool(false), indent, showFloat) == Ok("False")
    ensures Format(VInt(1), indent, showFloat) == Ok("1")
  {
    assert NatText(1, 10) == [DigitChar(1)];
  }
}
