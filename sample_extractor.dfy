/**
 * The two computations of the sample extractor that are not I/O: the 32-bit name hash that
 * turns a game path into a cache file name, and the scan that finds embedded file paths in a
 * binary blob (every span from a start query up to the next end query).
 */
module SampleExtractor {
  import opened Bytes
  import opened Outcomes
  import Utf8

  // ---------------------------------------------------------------------------
  // hash32: FNV-1a over code points, then a multiply / xor-shift finishing mix.
  // bv32 arithmetic wraps modulo 2^32 exactly as the numpy uint32 casts do.

  const FNV_BASIS: bv32 := 0x811c9dc5
  const FNV_PRIME: bv32 := 0x1000193

  /** ord(c) as a 32-bit value (code points stay below 0x110000, so nothing is lost). */
  function CodePoint(c: char): bv32 {
    c as bv32
  }

  /** One round of the accumulator loop: uint32(uint32(h ^ ord(c)) * 0x1000193). */
  function FnvStep(h: bv32, c: char): bv32 {
    (h ^ CodePoint(c)) * FNV_PRIME
  }

  /** The accumulator after running the loop over s from the value h. */
  function Fnv(h: bv32, s: string): bv32
    decreases |s|
  {
    if s == [] then h else Fnv(FnvStep(h, s[0]), s[1..])
  }

  /** The hash can be computed incrementally: hashing a + b continues from the state after a. */
  lemma {:induction false} FnvAppend(h: bv32, a: string, b: string)
    ensures Fnv(h, a + b) == Fnv(Fnv(h, a), b)
    decreases |a|
  {
    if a == [] {
      assert a + b == b;
    } else {
      assert (a + b)[0] == a[0];
      assert (a + b)[1..] == a[1..] + b;
      FnvAppend(FnvStep(h, a[0]), a[1..], b);
    }
  }

  /** The three finishing steps. */
  function Mix(h: bv32): bv32 {
    var a := h * 0x2001;
    var b := (a ^ (a >> 7)) * 9;
    (b ^ (b >> 17)) * 0x21
  }

  /** The numeric hash of a name: the loop runs over 'A' + name. */
  function Hash32Value(name: string): bv32 {
    Mix(Fnv(FNV_BASIS, "A" + name))
  }

  /** The accumulator as the Python int that hex() receives. */
  function Value(h: bv32): (n: nat)
    ensures n < TWO_32
    ensures (n == 0) == (h == 0)
  {
    h as int
  }

  lemma PowerOfSixteen()
    ensures Power(16, 8) == TWO_32
  {
    assert Power(16, 4) == 0x1_0000;
  }

  /** hex(h)[2:]: lowercase hex digits without prefix or padding, read back exactly by int(t, 16). */
  function HexText(n: nat): (t: string)
    requires n < TWO_32
    ensures 1 <= |t| <= 8
    ensures forall i :: 0 <= i < |t| ==> IsHexDigit(t[i])
    ensures (t[0] == '0') == (n == 0)
    ensures TextValue(t, 16) == n
  {
    HexDigits(n);
    NatText(n, 16)
  }

  /** The hex digits of a value below 2^32. */
  lemma HexDigits(n: nat)
    requires n < TWO_32
    ensures |NatText(n, 16)| <= 8
    ensures (NatText(n, 16)[0] == '0') == (n == 0)
    ensures TextValue(NatText(n, 16), 16) == n
  {
    PowerOfSixteen();
    NatTextLength(n, 16, 8, TWO_32);
    NatTextNoLeadingZero(n, 16);
    TextValueOfNatText(n, 16);
  }

  /** hash32(name). */
  function Hash32Text(name: string): string {
    HexText(Value(Hash32Value(name)))
  }

  /** The loop of hash32 as written, with the three finishing steps applied in place. */
  method Hash32(name: string) returns (t: string)
    ensures t == Hash32Text(name)
  {
    var s := "A" + name;
    var h := FNV_BASIS;
    var i := 0;
    while i < |s|
      invariant 0 <= i <= |s|
      invariant Fnv(h, s[i..]) == Fnv(FNV_BASIS, s)
      decreases |s| - i
    {
      assert s[i..][1..] == s[i + 1..];
      h := FnvStep(h, s[i]);
      i := i + 1;
    }
    assert s[i..] == [];
    h := Mix(h);
    t := HexText(Value(h));
  }

  /** The text and the numeric value of the hash determine each other. */
  lemma HexTextInjective(m: nat, n: nat)
    requires m < TWO_32 && n < TWO_32
    ensures (HexText(m) == HexText(n)) == (m == n)
  {
  }

  /** The empty name hashes to 0x023daada, shown as the 7 characters "23daada": no zero padding. */
  lemma EmptyNameHash()
    ensures Hash32Value("") == 0x023daada
    ensures Hash32Text("") == "23daada"
  {
    assert "A" + "" == "A";
    assert CodePoint('A') == 0x41;
    assert FnvStep(FNV_BASIS, 'A') == 0xc40bf6cc;
    assert Fnv(FNV_BASIS, "A") == 0xc40bf6cc;
    var a: bv32 := 0xc40bf6cc * 0x2001;
    assert a == 0x42e576cc;
    assert a ^ (a >> 7) == 0x4260bc21;
    var b: bv32 := 0x4260bc21 * 9;
    assert b == 0x55669d29;
    assert b ^ (b >> 17) == 0x5566b79a;
    assert Mix(0xc40bf6cc) == 0x023daada;
    var n := 0x023daada as int;
    assert NatText(n, 16) == NatText(n / 16, 16) + [DigitChar(n % 16)];
  }

  // ---------------------------------------------------------------------------
  // find_file_references: the span scan over the file's bytes.

  /** pat occurs in data at index i. */
  predicate MatchAt(data: seq<byte>, pat: seq<byte>, i: int) {
    0 <= i && i + |pat| <= |data| && data[i..i + |pat|] == pat
  }

  /** bytearray.find(pat, from) for from >= 0: the lowest match at or after from, or -1. */
  function Find(data: seq<byte>, pat: seq<byte>, from: nat): (r: int)
    ensures r == -1 || from <= r <= |data| - |pat|
    decreases |data| - from
  {
    if from + |pat| > |data| then -1
    else if data[from..from + |pat|] == pat then from
    else Find(data, pat, from + 1)
  }

  /** Find returns -1 or a match. */
  lemma {:induction false} FindFound(data: seq<byte>, pat: seq<byte>, from: nat)
    ensures Find(data, pat, from) == -1 || MatchAt(data, pat, Find(data, pat, from))
    decreases |data| - from
  {
    if from + |pat| <= |data| && data[from..from + |pat|] != pat {
      FindFound(data, pat, from + 1);
    }
  }

  /** Find returns the first match at or after from, and -1 only when there is none at all. */
  lemma {:induction false} FindFirst(data: seq<byte>, pat: seq<byte>, from: nat)
    ensures Find(data, pat, from) == -1 ==> forall i :: from <= i ==> !MatchAt(data, pat, i)
    ensures Find(data, pat, from) >= 0 ==> forall i :: from <= i < Find(data, pat, from) ==> !MatchAt(data, pat, i)
    decreases |data| - from
  {
    if from + |pat| <= |data| && data[from..from + |pat|] != pat {
      FindFirst(data, pat, from + 1);
    }
  }

  /** The bytes from a start match up to and including the end match after it. */
  datatype Span = Span(start: nat, end: nat)

  /**
   * What the loop visits: its spans in order, and whether it stopped on a start match with no
   * end match after it (bytearray.index raising ValueError) rather than on running out of starts.
   */
  datatype Scan = Scan(spans: seq<Span>, missingEnd: bool)

  /**
   * The loop from a start match at p (or from p < 0, which ends it). The end query is searched
   * from p + gap: the program as written uses gap 0, from the start index itself.
   */
  function ScanFrom(data: seq<byte>, startQ: seq<byte>, endQ: seq<byte>, gap: nat, p: int): Scan
    requires |endQ| > 0 && p <= |data|
    decreases if p < 0 then 0 else |data| + 1 - p
  {
    if p < 0 then Scan([], false)
    else
      var e := Find(data, endQ, p + gap);
      if e < 0 then Scan([], true)
      else
        var ext := e + |endQ|;
        var rest := ScanFrom(data, startQ, endQ, gap, Find(data, startQ, ext));
        Scan([Span(p, ext)] + rest.spans, rest.missingEnd)
  }

  /** The scan find_file_references performs on the encoded queries. */
  function Spans(data: seq<byte>, startQ: seq<byte>, endQ: seq<byte>): Scan
    requires |endQ| > 0
  {
    ScanFrom(data, startQ, endQ, 0, Find(data, startQ, 0))
  }

  /** Every span lies inside data. */
  predicate Inside(data: seq<byte>, spans: seq<Span>) {
    spans == [] || (spans[0].start <= spans[0].end <= |data| && Inside(data, spans[1..]))
  }

  /** The paths yielded for the spans: each span that is well-formed UTF-8, decoded; the rest skipped. */
  function Yielded(data: seq<byte>, spans: seq<Span>): (paths: seq<string>)
    requires Inside(data, spans)
    ensures |paths| <= |spans|
  {
    if spans == [] then []
    else
      var first := match Utf8.Decode(data[spans[0].start..spans[0].end])
        case None => []
        case Some(path) => [path];
      first + Yielded(data, spans[1..])
  }

  lemma {:induction false} YieldedAppend(data: seq<byte>, spans: seq<Span>, s: Span)
    requires Inside(data, spans) && s.start <= s.end <= |data|
    ensures Inside(data, spans + [s])
    ensures Yielded(data, spans + [s]) == Yielded(data, spans) + Yielded(data, [s])
    decreases |spans|
  {
    if spans != [] {
      assert (spans + [s])[1..] == spans[1..] + [s];
      YieldedAppend(data, spans[1..], s);
    }
  }

  /**
   * The scan in the loop's own shape: from path_index p, with the spans already visited; each
   * round appends one span and moves p to the next start match.
   */
  function ScanLoop(data: seq<byte>, startQ: seq<byte>, endQ: seq<byte>, gap: nat, p: int, visited: seq<Span>): Scan
    requires |endQ| > 0 && p <= |data|
    decreases if p < 0 then 0 else |data| + 1 - p
  {
    if p < 0 then Scan(visited, false)
    else
      var e := Find(data, endQ, p + gap);
      if e < 0 then Scan(visited, true)
      else
        var ext := e + |endQ|;
        ScanLoop(data, startQ, endQ, gap, Find(data, startQ, ext), visited + [Span(p, ext)])
  }

  /** The loop stops with no start match, or with no end match after its start. */
  lemma {:induction false} ScanLoopStop(data: seq<byte>, startQ: seq<byte>, endQ: seq<byte>, p: int, visited: seq<Span>)
    requires |endQ| > 0 && p <= |data|
    ensures p < 0 ==> ScanLoop(data, startQ, endQ, 0, p, visited) == Scan(visited, false)
    ensures p >= 0 && Find(data, endQ, p) < 0 ==> ScanLoop(data, startQ, endQ, 0, p, visited) == Scan(visited, true)
  {
  }

  /** Otherwise one round records the span up to the end match and goes on from the next start match. */
  lemma {:induction false} ScanLoopAdvance(data: seq<byte>, startQ: seq<byte>, endQ: seq<byte>, p: nat, visited: seq<Span>, ext: nat)
    requires |endQ| > 0 && p <= |data| && Find(data, endQ, p) >= 0
    requires ext == Find(data, endQ, p) + |endQ|
    ensures ScanLoop(data, startQ, endQ, 0, p, visited) == ScanLoop(data, startQ, endQ, 0, Find(data, startQ, ext), visited + [Span(p, ext)])
  {
  }

  /** The loop-shaped scan is the recursive one with the visited spans in front. */
  lemma {:induction false} ScanLoopIsScanFrom(data: seq<byte>, startQ: seq<byte>, endQ: seq<byte>, gap: nat, p: int, visited: seq<Span>)
    requires |endQ| > 0 && p <= |data|
    ensures ScanLoop(data, startQ, endQ, gap, p, visited)
      == Scan(visited + ScanFrom(data, startQ, endQ, gap, p).spans, ScanFrom(data, startQ, endQ, gap, p).missingEnd)
    decreases if p < 0 then 0 else |data| + 1 - p
  {
    if p < 0 {
      assert visited + [] == visited;
    } else {
      var e := Find(data, endQ, p + gap);
      if e < 0 {
        assert visited + [] == visited;
      } else {
        var ext := e + |endQ|;
        var q := Find(data, startQ, ext);
        ScanLoopIsScanFrom(data, startQ, endQ, gap, q, visited + [Span(p, ext)]);
        assert (visited + [Span(p, ext)]) + ScanFrom(data, startQ, endQ, gap, q).spans
          == visited + ([Span(p, ext)] + ScanFrom(data, startQ, endQ, gap, q).spans);
      }
    }
  }

  /** The try block: the span's bytes decoded and yielded, or nothing on UnicodeDecodeError. */
  method DecodeTarget(data: seq<byte>, s: Span) returns (found: seq<string>)
    requires s.start <= s.end <= |data|
    ensures Inside(data, [s]) && found == Yielded(data, [s])
  {
    var target := data[s.start..s.end];
    var decoded := Utf8.Decode(target);
    if decoded.Some? {
      found := [decoded.value];
    } else {
      found := [];
    }
  }

  /** The while loop of find_file_references over the encoded queries. */
  method ScanReferences(data: seq<byte>, startQ: seq<byte>, endQ: seq<byte>)
    returns (paths: seq<string>, spans: seq<Span>, missingEnd: bool)
    requires |endQ| > 0
    ensures Scan(spans, missingEnd) == Spans(data, startQ, endQ)
    ensures Inside(data, spans) && paths == Yielded(data, spans)
  {
    var pathIndex := Find(data, startQ, 0);
    paths, spans, missingEnd := [], [], false;
    ghost var scan := Spans(data, startQ, endQ);
    ScanLoopIsScanFrom(data, startQ, endQ, 0, pathIndex, []);
    assert [] + scan.spans == scan.spans;
    while pathIndex >= 0
      invariant pathIndex <= |data|
      invariant Inside(data, spans) && paths == Yielded(data, spans)
      invariant scan == ScanLoop(data, startQ, endQ, 0, pathIndex, spans)
      decreases if pathIndex < 0 then 0 else |data| + 1 - pathIndex
    {
      var e := Find(data, endQ, pathIndex);
      if e < 0 {
        ScanLoopStop(data, startQ, endQ, pathIndex, spans);
        missingEnd := true;
        return;
      }
      var ext := e + |endQ|;
      var found := DecodeTarget(data, Span(pathIndex, ext));
      YieldedAppend(data, spans, Span(pathIndex, ext));
      ScanLoopAdvance(data, startQ, endQ, pathIndex, spans, ext);
      paths := paths + found;
      spans := spans + [Span(pathIndex, ext)];
      pathIndex := Find(data, startQ, ext);
    }
    ScanLoopStop(data, startQ, endQ, pathIndex, spans);
  }

  /**
   * find_file_references(file, start_query, end_query), the generator run to completion: the
   * paths it yields, the spans it visits, and whether it then raised ValueError.
   */
  method FindFileReferences(data: seq<byte>, startQuery: string, endQuery: string)
    returns (paths: seq<string>, spans: seq<Span>, missingEnd: bool)
    requires endQuery != []
    ensures Scan(spans, missingEnd) == Spans(data, Utf8.Encode(startQuery), Utf8.Encode(endQuery))
    ensures Inside(data, spans) && paths == Yielded(data, spans)
  {
    paths, spans, missingEnd := ScanReferences(data, Utf8.Encode(startQuery), Utf8.Encode(endQuery));
  }

  // ---------------------------------------------------------------------------
  // What the scan promises.

  /**
   * A span begins at a start match, ends with an end match, and that end match is the first one
   * at or after start + gap.
   */
  predicate SpanMatches(data: seq<byte>, startQ: seq<byte>, endQ: seq<byte>, gap: nat, s: Span) {
    && MatchAt(data, startQ, s.start)
    && s.start + gap + |endQ| <= s.end <= |data|
    && MatchAt(data, endQ, s.end - |endQ|)
    && (forall i :: s.start + gap <= i < s.end - |endQ| ==> !MatchAt(data, endQ, i))
  }

  /** Every one of spans is made as SpanMatches says. */
  predicate AllSpansMatch(data: seq<byte>, startQ: seq<byte>, endQ: seq<byte>, gap: nat, spans: seq<Span>) {
    forall k :: 0 <= k < |spans| ==> SpanMatches(data, startQ, endQ, gap, spans[k])
  }

  /** The first span of a scan from a start match p is made as SpanMatches says. */
  lemma {:induction false} FirstSpanMatches(data: seq<byte>, startQ: seq<byte>, endQ: seq<byte>, gap: nat, p: nat)
    requires MatchAt(data, startQ, p) && Find(data, endQ, p + gap) >= 0
    ensures SpanMatches(data, startQ, endQ, gap, Span(p, Find(data, endQ, p + gap) + |endQ|))
  {
    FindFound(data, endQ, p + gap);
    FindFirst(data, endQ, p + gap);
  }

  /** Every span of a scan from a start match is made as SpanMatches says; with gap 0 the end match may lie inside the start match. */
  lemma {:induction false} SpansMatch(data: seq<byte>, startQ: seq<byte>, endQ: seq<byte>, gap: nat, p: int)
    requires |endQ| > 0 && (p < 0 || MatchAt(data, startQ, p))
    ensures AllSpansMatch(data, startQ, endQ, gap, ScanFrom(data, startQ, endQ, gap, p).spans)
    decreases if p < 0 then 0 else |data| + 1 - p
  {
    if p >= 0 && Find(data, endQ, p + gap) >= 0 {
      var e := Find(data, endQ, p + gap);
      var q := Find(data, startQ, e + |endQ|);
      FindFound(data, startQ, e + |endQ|);
      SpansMatch(data, startQ, endQ, gap, q);
      FirstSpanMatches(data, startQ, endQ, gap, p);
      AllSpansMatchCons(data, startQ, endQ, gap, Span(p, e + |endQ|), ScanFrom(data, startQ, endQ, gap, q).spans,
                        ScanFrom(data, startQ, endQ, gap, p).spans);
    }
  }

  /** A matching span in front of matching spans. */
  lemma {:induction false} AllSpansMatchCons(data: seq<byte>, startQ: seq<byte>, endQ: seq<byte>, gap: nat, s: Span, rest: seq<Span>, spans: seq<Span>)
    requires SpanMatches(data, startQ, endQ, gap, s) && AllSpansMatch(data, startQ, endQ, gap, rest)
    requires spans == [s] + rest
    ensures AllSpansMatch(data, startQ, endQ, gap, spans)
  {
    forall k | 1 <= k < |spans|
      ensures SpanMatches(data, startQ, endQ, gap, spans[k])
    {
      assert spans[k] == rest[k - 1];
    }
  }

  /**
   * spans come one after another from p: the first starts at p, each is non-empty, and each next
   * one starts at the first start match at or after the previous one's end.
   */
  predicate Chained(data: seq<byte>, startQ: seq<byte>, p: int, spans: seq<Span>) {
    && (spans != [] ==> spans[0].start == p)
    && (forall k :: 0 <= k < |spans| ==> spans[k].start < spans[k].end)
    && (forall k :: 0 <= k < |spans| - 1 ==> spans[k + 1].start == Find(data, startQ, spans[k].end))
    && (forall k :: 0 <= k < |spans| - 1 ==> spans[k].end <= spans[k + 1].start)
  }

  /**
   * The spans come out ascending and disjoint, and each next start is the first start match at
   * or after the previous span's end, whether or not that span decoded.
   */
  lemma {:induction false} SpansOrdered(data: seq<byte>, startQ: seq<byte>, endQ: seq<byte>, gap: nat, p: int)
    requires |endQ| > 0 && p <= |data|
    ensures Chained(data, startQ, p, ScanFrom(data, startQ, endQ, gap, p).spans)
    decreases if p < 0 then 0 else |data| + 1 - p
  {
    if p >= 0 {
      var e := Find(data, endQ, p + gap);
      if e >= 0 {
        var q := Find(data, startQ, e + |endQ|);
        SpansOrdered(data, startQ, endQ, gap, q);
        ChainedCons(data, startQ, q, Span(p, e + |endQ|), ScanFrom(data, startQ, endQ, gap, q).spans,
                    ScanFrom(data, startQ, endQ, gap, p).spans);
      }
    }
  }

  /** A span in front of spans chained from the first start match after its end. */
  lemma {:induction false} ChainedCons(data: seq<byte>, startQ: seq<byte>, q: int, s: Span, rest: seq<Span>, spans: seq<Span>)
    requires Chained(data, startQ, q, rest) && q == Find(data, startQ, s.end)
    requires s.start < s.end && (rest != [] ==> s.end <= q)
    requires spans == [s] + rest
    ensures Chained(data, startQ, s.start, spans)
  {
    forall k | 0 <= k < |spans| - 1
      ensures spans[k + 1].start == Find(data, startQ, spans[k].end)
      ensures spans[k].end <= spans[k + 1].start
    {
      if k > 0 {
        assert spans[k] == rest[k - 1] && spans[k + 1] == rest[k];
      }
    }
  }

  /** Where the last start search of a scan from p landed: p itself, or the search from the last span's end. */
  function LastStart(data: seq<byte>, startQ: seq<byte>, spans: seq<Span>, p: int): int {
    if spans == [] then p else Find(data, startQ, spans[|spans| - 1].end)
  }

  /** q is a start match position (q >= 0) with no end match at or after q + gap. */
  predicate StartWithoutEnd(data: seq<byte>, startQ: seq<byte>, endQ: seq<byte>, gap: nat, q: int) {
    q >= 0 && Find(data, endQ, q + gap) < 0
  }

  /**
   * The scan stops with ValueError exactly when the last start match it reaches (the first one
   * at or after the last span's end, or at p when there is no span) has no end match after it.
   */
  lemma {:induction false} MissingEndExactly(data: seq<byte>, startQ: seq<byte>, endQ: seq<byte>, gap: nat, p: int)
    requires |endQ| > 0 && p <= |data|
    ensures ScanFrom(data, startQ, endQ, gap, p).missingEnd ==
      StartWithoutEnd(data, startQ, endQ, gap, LastStart(data, startQ, ScanFrom(data, startQ, endQ, gap, p).spans, p))
    decreases if p < 0 then 0 else |data| + 1 - p
  {
    if p >= 0 {
      var e := Find(data, endQ, p + gap);
      if e >= 0 {
        var q := Find(data, startQ, e + |endQ|);
        MissingEndExactly(data, startQ, endQ, gap, q);
        var rest := ScanFrom(data, startQ, endQ, gap, q).spans;
        var spans := ScanFrom(data, startQ, endQ, gap, p).spans;
        assert spans == [Span(p, e + |endQ|)] + rest;
        assert spans[|spans| - 1] == if rest == [] then Span(p, e + |endQ|) else rest[|rest| - 1];
        assert LastStart(data, startQ, spans, p) == LastStart(data, startQ, rest, q);
      } else {
        assert ScanFrom(data, startQ, endQ, gap, p) == Scan([], true);
      }
    } else {
      assert ScanFrom(data, startQ, endQ, gap, p) == Scan([], false);
    }
  }

  /** The program's span bytes always begin at a start match and end with the end query. */
  lemma SpanBytesAsWritten(data: seq<byte>, startQ: seq<byte>, endQ: seq<byte>, k: nat)
    requires |endQ| > 0
    requires k < |Spans(data, startQ, endQ).spans|
    ensures var s := Spans(data, startQ, endQ).spans[k];
      && SpanMatches(data, startQ, endQ, 0, s)
      && data[s.start..s.end][s.end - s.start - |endQ|..] == endQ
  {
    FindFound(data, startQ, 0);
    SpansMatch(data, startQ, endQ, 0, Find(data, startQ, 0));
    var s := Spans(data, startQ, endQ).spans[k];
    assert data[s.start..s.end][s.end - s.start - |endQ|..] == data[s.end - |endQ|..s.end];
  }

  /**
   * As written, the end query is searched from the start index, so an end query occurring inside
   * the start query cuts the path short: start query "abc", end query "b" and data "abc" give the
   * single span "ab", which does not begin with the start query.
   */
  lemma EndInsideStart()
    ensures var data: seq<byte> := [0x61, 0x62, 0x63];
      var spans := Spans(data, Utf8.Encode("abc"), Utf8.Encode("b")).spans;
      spans == [Span(0, 2)] && data[0..2] == [0x61, 0x62] && !(|data[0..2]| >= 3)
  {
    var data: seq<byte> := [0x61, 0x62, 0x63];
    var startQ := Utf8.Encode("abc");
    var endQ := Utf8.Encode("b");
    assert Utf8.EncodeChar('b') == [0x62];
    assert endQ == [0x62];
    assert Utf8.Encode("c") == [0x63];
    assert Utf8.Encode("bc") == [0x62, 0x63];
    assert startQ == [0x61, 0x62, 0x63];
    assert Find(data, startQ, 0) == 0;
    assert data[0..1] != endQ;
    assert Find(data, endQ, 0) == 1;
    assert Find(data, startQ, 2) == -1;
  }

  /** The evidently intended scan: the end query is searched only after the whole start match. */
  function IntendedSpans(data: seq<byte>, startQ: seq<byte>, endQ: seq<byte>): Scan
    requires |endQ| > 0
  {
    ScanFrom(data, startQ, endQ, |startQ|, Find(data, startQ, 0))
  }

  /** With that correction every path's bytes begin with the start query and end with the end query. */
  lemma IntendedSpanBytes(data: seq<byte>, startQ: seq<byte>, endQ: seq<byte>, k: nat)
    requires |endQ| > 0
    requires k < |IntendedSpans(data, startQ, endQ).spans|
    ensures var s := IntendedSpans(data, startQ, endQ).spans[k];
      && s.start + |startQ| + |endQ| <= s.end <= |data|
      && data[s.start..s.end][..|startQ|] == startQ
      && data[s.start..s.end][s.end - s.start - |endQ|..] == endQ
  {
    FindFound(data, startQ, 0);
    SpansMatch(data, startQ, endQ, |startQ|, Find(data, startQ, 0));
    var s := IntendedSpans(data, startQ, endQ).spans[k];
    assert SpanMatches(data, startQ, endQ, |startQ|, s);
    assert data[s.start..s.end][..|startQ|] == data[s.start..s.start + |startQ|];
    assert data[s.start..s.end][s.end - s.start - |endQ|..] == data[s.end - |endQ|..s.end];
  }
}
