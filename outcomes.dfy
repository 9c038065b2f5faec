/** Results, decode errors and the "decoded value plus next position" pair that every reader returns. */
module Outcomes {

  /** The dispatch table a type code was looked up in. */
  datatype Domain =
    | ComponentReaders     // read_component's table of five component kinds
    | SectionReaders       // the older Leaf variant's table of two section kinds
    | LevelObjectReaders   // the (name, type code) declaration table of an objlib
    | ObjlibReaders        // the objlib kind read right after the file kind

  /** Every way a decode can fail. Each one aborts the whole decode. */
  datatype Error =
    | Truncated                            // a read ran past the end of the buffer (or had a negative length)
    | InvalidText                          // string payload is not well-formed UTF-8
    | UnknownType(code: string, domain: Domain)  // type code not registered in the dispatch table
    | UnknownFileKind(kind: int)           // outer file kind other than 8
    | TraitTypeOutOfRange(traitType: int)  // trait type outside the 20 known values
    | UnsupportedTraitType(traitType: int) // valid trait type with no data point reader
    | EmptyTraitPath                       // `trait_path[0]` on an empty path
    | ComponentCount(count: nat)           // `[a, b] = read_components(...)` with count != 2
    | UnboundLocal                         // read_step returns a variable that was never assigned
    | ShortUnpack                          // struct '<h' unpack given the 4 bytes read_short reads
    | NotAMapping                          // `**x` in a dict display where x is None
    | Unformattable(typeName: string)      // the text emitter met a tuple or None

  datatype Result<+T> = Ok(value: T) | Err(error: Error) {
    predicate IsFailure() { Err? }
    function PropagateFailure<U>(): Result<U> requires Err? { Err(error) }
    function Extract(): T requires Ok? { value }
  }

  datatype Option<+T> = None | Some(value: T)

  /** A decoded value `v` together with the buffer position `next` just after it. */
  datatype Decoded<+T> = Decoded(v: T, next: nat)

  /** What a reader on buffer `s` from position `p` produces: a value and the next position, or an error. */
  type Parsed<+T> = Result<Decoded<T>>

  /** No value: what the readers of dropped fields yield. */
  type Unit = ()

  /** A successful reader stays inside the buffer and never moves backwards. */
  predicate Advances<T>(r: Parsed<T>, p: nat, len: nat) {
    r.Ok? ==> p <= r.value.next <= len
  }

  /** A reader consumed exactly `width` bytes when it succeeded. */
  predicate Consumes<T>(r: Parsed<T>, p: nat, width: nat) {
    r.Ok? ==> r.value.next == p + width
  }

  /**
   * The result `r` of an imperative reader, whose cursor ended at `pos`, agrees with
   * the pure reader's outcome `spec`: the same value and end position, or the same error.
   */
  predicate Follows<T(==)>(r: Result<T>, spec: Parsed<T>, pos: nat) {
    match spec
    case Ok(d) => r == Ok(d.v) && pos == d.next
    case Err(e) => r == Err(e)
  }
}
