// The Annex B splitter (internal/call/annexb.go): a byte stream in the format of Annex B of
// ITU-T H.264 is scanned for start codes and cut into units of at most one coded slice each.
module AnnexB {
  import Sequences

  type Byte = b: int | 0 <= b < 256

  const SLICE: Byte := 1
  const IDR: Byte := 5
  const SEI: Byte := 6
  const SPS: Byte := 7
  const PPS: Byte := 8
  const DELIMITER: Byte := 9

  // The low five bits of a header byte.
  function KindOf(header: Byte): Byte {
    header % 32
  }

  // A start code found in the stream: where it begins and the type of the NAL unit behind it.
  datatype Start = Start(offset: nat, kind: Byte)

  predicate IsSlice(kind: Byte) {
    kind == SLICE || kind == IDR
  }

  // The types that open a new unit once the current one holds its slice.
  predicate Opens(kind: Byte) {
    kind == DELIMITER || kind == SPS || kind == PPS || kind == SEI || IsSlice(kind)
  }

  predicate Boundary(kind: Byte, hasSlice: bool) {
    hasSlice && Opens(kind)
  }

  // The three-byte prefix 00 00 01 stands at p and a header byte follows it.
  predicate Code(s: seq<Byte>, p: nat) {
    p + 3 < |s| && s[p] == 0 && s[p + 1] == 0 && s[p + 2] == 1
  }

  // The start that the code at p makes: a zero byte in front of it belongs to it.
  function StartAt(s: seq<Byte>, p: nat): Start
    requires Code(s, p)
  {
    Start(if p > 0 && s[p - 1] == 0 then p - 1 else p, KindOf(s[p + 3]))
  }

  // The starts of all codes at p or later, in order of position.
  function StartsFrom(s: seq<Byte>, p: nat): seq<Start>
    decreases |s| - p
  {
    if p + 3 >= |s| then []
    else (if Code(s, p) then [StartAt(s, p)] else []) + StartsFrom(s, p + 1)
  }

  function Starts(s: seq<Byte>): seq<Start> {
    StartsFrom(s, 0)
  }

  // The number of leading starts that stay in the current unit.
  function UnitLength(starts: seq<Start>, hasSlice: bool): (n: nat)
    ensures n <= |starts|
    ensures starts != [] && !hasSlice ==> n > 0
  {
    if starts == [] || (hasSlice && Opens(starts[0].kind)) then 0
    else 1 + UnitLength(starts[1..], hasSlice || IsSlice(starts[0].kind))
  }

  // Offsets ascend and lie inside the stream.
  ghost predicate Ascending(s: seq<Byte>, starts: seq<Start>) {
    && (forall i :: 0 <= i < |starts| ==> starts[i].offset < |s|)
    && (forall i, j :: 0 <= i < j < |starts| ==> starts[i].offset < starts[j].offset)
  }

  // Where the unit that holds the first n starts ends.
  ghost function EndOf(s: seq<Byte>, starts: seq<Start>, n: nat): nat {
    if n < |starts| then starts[n].offset else |s|
  }

  // The bytes from a to b; starts that ascend never ask for anything else.
  ghost function Part(s: seq<Byte>, a: nat, b: nat): seq<Byte> {
    if a <= b <= |s| then s[a..b] else []
  }

  ghost function Units(s: seq<Byte>, starts: seq<Start>): seq<seq<Byte>>
    decreases |starts|
  {
    if starts == [] then []
    else
      var n := UnitLength(starts, false);
      [Part(s, starts[0].offset, EndOf(s, starts, n))] + Units(s, starts[n..])
  }

  // ---- The scanner ----

  // The starts found so far and those from i on are all.
  ghost predicate Scanned(s: seq<Byte>, i: nat, starts: seq<Start>) {
    starts + StartsFrom(s, i) == Starts(s)
  }

  // No code at i has its leading zero behind the scanner.
  ghost predicate NotInside(s: seq<Byte>, i: nat) {
    i > 0 && Code(s, i) ==> s[i - 1] != 0
  }

  method NalStarts(stream: seq<Byte>) returns (starts: seq<Start>)
    ensures starts == Starts(stream)
  {
    starts := [];
    var i := 0;
    while i + 3 < |stream| + 1
      invariant Scanned(stream, i, starts) && NotInside(stream, i)
    {
      var codeLen: nat;
      if i + 3 < |stream| && stream[i] == 0 && stream[i + 1] == 0 && stream[i + 2] == 0 && stream[i + 3] == 1 {
        codeLen := 4;
      } else if i + 2 < |stream| && stream[i] == 0 && stream[i + 1] == 0 && stream[i + 2] == 1 {
        codeLen := 3;
      } else {
        SkipsNoCode(stream, i, starts);
        i := i + 1;
        continue;
      }

      var header := i + codeLen;
      if header + 1 > |stream| {
        NothingPast(stream, i, codeLen);
        break;
      }
      TakesOneCode(stream, i, codeLen, starts);
      starts := starts + [Start(i, KindOf(stream[header]))];
      i := i + codeLen;
    }
  }

  lemma SkipsNoCode(s: seq<Byte>, i: nat, starts: seq<Start>)
    requires Scanned(s, i, starts) && !Found(s, i, 3) && !Found(s, i, 4)
    ensures Scanned(s, i + 1, starts) && NotInside(s, i + 1)
  {
    assert !Code(s, i);
    if i + 3 < |s| {
      assert StartsFrom(s, i) == [] + StartsFrom(s, i + 1);
    }
  }

  // A code of three or four bytes at i: the place where the scanner stops over it.
  ghost predicate Found(s: seq<Byte>, i: nat, codeLen: nat) {
    && (codeLen == 3 || codeLen == 4)
    && i + codeLen <= |s|
    && s[i] == 0 && s[i + 1] == 0 && s[i + codeLen - 1] == 1
    && (codeLen == 4 ==> s[i + 2] == 0)
  }

  lemma NothingPast(s: seq<Byte>, i: nat, codeLen: nat)
    requires Found(s, i, codeLen) && i + codeLen == |s|
    ensures StartsFrom(s, i) == []
  {
    assert i + 4 >= |s|;
    if i + 3 < |s| {
      assert !Code(s, i);
      assert StartsFrom(s, i + 1) == [];
    }
  }

  lemma NoCodeHere(s: seq<Byte>, p: nat)
    requires !Code(s, p)
    ensures StartsFrom(s, p) == StartsFrom(s, p + 1)
  {
    if p + 3 < |s| {
      assert StartsFrom(s, p) == [] + StartsFrom(s, p + 1);
    }
  }

  lemma TakesOneCode(s: seq<Byte>, i: nat, codeLen: nat, starts: seq<Start>)
    requires Found(s, i, codeLen) && i + codeLen < |s| && NotInside(s, i) && Scanned(s, i, starts)
    ensures Scanned(s, i + codeLen, starts + [Start(i, KindOf(s[i + codeLen]))]) && NotInside(s, i + codeLen)
  {
    var p, start := i + codeLen - 3, Start(i, KindOf(s[i + codeLen]));
    if codeLen == 4 {
      NoCodeHere(s, i);
    }
    assert Code(s, p) && StartAt(s, p) == start;
    NoCodeHere(s, p + 1);
    NoCodeHere(s, p + 2);
    assert StartsFrom(s, p) == [start] + StartsFrom(s, p + 1);
    Sequences.Regroup(starts, [start], StartsFrom(s, p + 3));
  }

  // ---- What a start is ----

  // Two codes never overlap, so their starts keep apart too.
  lemma CodesKeepApart(s: seq<Byte>, p: nat, q: nat)
    requires Code(s, p) && Code(s, q) && p < q
    ensures p + 3 <= StartAt(s, q).offset
  {
  }

  lemma {:induction false} StartsFromAreCodes(s: seq<Byte>, p: nat)
    ensures forall x :: x in StartsFrom(s, p) <==> exists q: nat :: q >= p && Code(s, q) && x == StartAt(s, q)
    decreases |s| - p
  {
    if p + 3 < |s| {
      StartsFromAreCodes(s, p + 1);
      var rest := StartsFrom(s, p + 1);
      forall x
        ensures x in StartsFrom(s, p) <==> exists q: nat :: q >= p && Code(s, q) && x == StartAt(s, q)
      {
        assert x in StartsFrom(s, p) <==> x in rest || (Code(s, p) && x == StartAt(s, p));
      }
    }
  }

  lemma {:induction false} StartsFromAscend(s: seq<Byte>, p: nat)
    ensures Ascending(s, StartsFrom(s, p))
    decreases |s| - p
  {
    if p + 3 < |s| {
      StartsFromAscend(s, p + 1);
      StartsFromAreCodes(s, p + 1);
      var rest := StartsFrom(s, p + 1);
      if Code(s, p) {
        forall i | 0 <= i < |rest|
          ensures StartAt(s, p).offset < rest[i].offset
        {
          assert rest[i] in rest;
          var q: nat :| q >= p + 1 && Code(s, q) && rest[i] == StartAt(s, q);
          CodesKeepApart(s, p, q);
        }
      }
    }
  }

  // One start for every code that a header byte follows, and none besides: different codes have
  // different starts, and the starts come in the order of the stream.
  lemma StartsAreTheCodes(s: seq<Byte>)
    ensures forall x :: x in Starts(s) <==> exists p: nat :: Code(s, p) && x == StartAt(s, p)
    ensures forall p: nat, q: nat :: Code(s, p) && Code(s, q) && p < q ==> StartAt(s, p).offset + 3 <= StartAt(s, q).offset
    ensures forall i, j :: 0 <= i < j < |Starts(s)| ==> Starts(s)[i].offset < Starts(s)[j].offset
  {
    StartsFromAreCodes(s, 0);
    StartsFromAscend(s, 0);
    forall p: nat, q: nat | Code(s, p) && Code(s, q) && p < q
      ensures StartAt(s, p).offset + 3 <= StartAt(s, q).offset
    {
      CodesKeepApart(s, p, q);
    }
  }

  // ---- The splitter ----

  // The units still to come when the current one began at from and the given starts are ahead.
  ghost function Rest(s: seq<Byte>, from: nat, starts: seq<Start>, hasSlice: bool): seq<seq<Byte>>
    decreases |starts|
  {
    if starts == [] then [Part(s, from, |s|)]
    else
      var nal := starts[0];
      if hasSlice && Opens(nal.kind) then
        [Part(s, from, nal.offset)] + Rest(s, nal.offset, starts[1..], IsSlice(nal.kind))
      else
        Rest(s, from, starts[1..], hasSlice || IsSlice(nal.kind))
  }

  // The current unit takes the first n starts, and the units of the others follow.
  ghost predicate FirstAndRest(s: seq<Byte>, from: nat, starts: seq<Start>, n: nat, rest: seq<seq<Byte>>) {
    n <= |starts| && rest == [Part(s, from, EndOf(s, starts, n))] + Units(s, starts[n..])
  }

  lemma {:induction false} RestIsUnits(s: seq<Byte>, from: nat, starts: seq<Start>, hasSlice: bool, rest: seq<seq<Byte>>)
    requires rest == Rest(s, from, starts, hasSlice)
    ensures FirstAndRest(s, from, starts, UnitLength(starts, hasSlice), rest)
    decreases |starts|
  {
    if starts == [] {
      assert starts[0..] == starts;
    } else {
      var nal, tail := starts[0], starts[1..];
      if hasSlice && Opens(nal.kind) {
        var more := Rest(s, nal.offset, tail, IsSlice(nal.kind));
        RestIsUnits(s, nal.offset, tail, IsSlice(nal.kind), more);
        RestAfterCut(s, from, starts, UnitLength(tail, IsSlice(nal.kind)), more, rest);
      } else {
        RestIsUnits(s, from, tail, hasSlice || IsSlice(nal.kind), rest);
        RestGoesOn(s, from, starts, UnitLength(starts, hasSlice), rest);
      }
    }
  }

  lemma RestGoesOn(s: seq<Byte>, from: nat, starts: seq<Start>, n: nat, rest: seq<seq<Byte>>)
    requires starts != [] && n > 0 && FirstAndRest(s, from, starts[1..], n - 1, rest)
    ensures FirstAndRest(s, from, starts, n, rest)
  {
    assert starts[1..][n - 1..] == starts[n..];
  }

  lemma RestAfterCut(s: seq<Byte>, from: nat, starts: seq<Start>, n: nat, more: seq<seq<Byte>>, rest: seq<seq<Byte>>)
    requires starts != [] && rest == [Part(s, from, starts[0].offset)] + more
    requires n == UnitLength(starts[1..], IsSlice(starts[0].kind)) && FirstAndRest(s, starts[0].offset, starts[1..], n, more)
    ensures FirstAndRest(s, from, starts, 0, rest)
  {
    UnitsFromTail(s, starts);
    assert starts[0..] == starts;
  }

  lemma UnitsFromTail(s: seq<Byte>, starts: seq<Start>)
    requires starts != []
    ensures var n, tail := UnitLength(starts[1..], IsSlice(starts[0].kind)), starts[1..];
      Units(s, starts) == [Part(s, starts[0].offset, EndOf(s, tail, n))] + Units(s, tail[n..])
  {
    var n := UnitLength(starts, false);
    assert starts[1..][n - 1..] == starts[n..];
  }

  // The units already cut, the current one and the starts from i on make up the whole split.
  ghost predicate Ahead(s: seq<Byte>, starts: seq<Start>, units: seq<seq<Byte>>, from: nat, i: nat, hasSlice: bool) {
    i <= |starts| && units + Rest(s, from, starts[i..], hasSlice) == Units(s, starts)
  }

  lemma StepAhead(s: seq<Byte>, starts: seq<Start>, units: seq<seq<Byte>>, from: nat, i: nat, hasSlice: bool)
    requires i < |starts| && Ahead(s, starts, units, from, i, hasSlice)
    ensures if hasSlice && Opens(starts[i].kind)
            then Ahead(s, starts, units + [Part(s, from, starts[i].offset)], starts[i].offset, i + 1, IsSlice(starts[i].kind))
            else Ahead(s, starts, units, from, i + 1, hasSlice || IsSlice(starts[i].kind))
  {
    var tail := starts[i..];
    assert tail[0] == starts[i] && tail[1..] == starts[i + 1..];
  }

  lemma StartAhead(s: seq<Byte>, starts: seq<Start>)
    requires starts != []
    ensures Ahead(s, starts, [], starts[0].offset, 0, false)
  {
    assert starts[0..] == starts;
    RestIsUnits(s, starts[0].offset, starts, false, Rest(s, starts[0].offset, starts, false));
  }

  lemma NothingAhead(s: seq<Byte>, starts: seq<Start>, units: seq<seq<Byte>>, from: nat, hasSlice: bool)
    requires Ahead(s, starts, units, from, |starts|, hasSlice)
    ensures units + [Part(s, from, |s|)] == Units(s, starts)
  {
    assert starts[|starts|..] == [];
  }

  lemma NoStartsNoUnits(s: seq<Byte>)
    ensures Units(s, []) == []
  {
  }

  method SplitAnnexB(stream: seq<Byte>) returns (units: seq<seq<Byte>>)
    ensures units == Units(stream, Starts(stream))
  {
    var starts := NalStarts(stream);
    StartsFromAscend(stream, 0);
    units := [];
    if |starts| == 0 {
      NoStartsNoUnits(stream);
      return;
    }
    var unitStart: nat := starts[0].offset;
    var hasSlice := false;
    StartAhead(stream, starts);
    for i := 0 to |starts|
      invariant i == 0 ==> !hasSlice
      invariant unitStart <= starts[if i == 0 then 0 else i - 1].offset
      invariant i < |starts| ==> Ahead(stream, starts, units, unitStart, i, hasSlice)
      invariant i == |starts| ==> units == Units(stream, starts)
    {
      var nal := starts[i];
      var end := |stream|;
      if i + 1 < |starts| {
        end := starts[i + 1].offset;
      }
      StepAhead(stream, starts, units, unitStart, i, hasSlice);
      if Boundary(nal.kind, hasSlice) && nal.offset > unitStart {
        units := units + [stream[unitStart..nal.offset]];
        unitStart := nal.offset;
        hasSlice := false;
      }
      if IsSlice(nal.kind) {
        hasSlice := true;
      }
      if i == |starts| - 1 && end > unitStart {
        NothingAhead(stream, starts, units, unitStart, hasSlice);
        units := units + [stream[unitStart..end]];
      }
    }
  }

  lemma LastUnit(s: seq<Byte>, starts: seq<Start>)
    requires starts != [] && UnitLength(starts, false) == |starts|
    ensures Units(s, starts) == [Part(s, starts[0].offset, |s|)]
  {
    assert Units(s, starts[|starts|..]) == [];
  }

  // ---- What a unit is ----

  function Concat(units: seq<seq<Byte>>): seq<Byte> {
    if units == [] then [] else units[0] + Concat(units[1..])
  }

  // Nothing that opens a new unit follows a slice; in particular there is at most one slice.
  ghost predicate OneSlice(starts: seq<Start>) {
    forall x, y :: x in starts && y in starts && x.offset < y.offset && IsSlice(x.kind) ==> !Opens(y.kind)
  }

  ghost predicate HasSlice(starts: seq<Start>) {
    exists x :: x in starts && IsSlice(x.kind)
  }

  lemma {:induction false} ConcatUnits(s: seq<Byte>, starts: seq<Start>)
    requires Ascending(s, starts) && starts != []
    ensures Concat(Units(s, starts)) == s[starts[0].offset..]
    decreases |starts|
  {
    var n := UnitLength(starts, false);
    var us := Units(s, starts);
    assert us[1..] == Units(s, starts[n..]);
    if n < |starts| {
      ConcatUnits(s, starts[n..]);
      assert s[starts[0].offset..] == s[starts[0].offset..starts[n].offset] + s[starts[n].offset..];
    } else {
      assert starts[n..] == [];
    }
  }

  // Before a slice was seen the leading starts of a unit hold at most one; after it, none.
  lemma {:induction false} LeadingStarts(starts: seq<Start>, hasSlice: bool)
    ensures var n := UnitLength(starts, hasSlice);
      && (hasSlice ==> forall j :: 0 <= j < n ==> !Opens(starts[j].kind))
      && (forall i, j :: 0 <= i < j < n && IsSlice(starts[i].kind) ==> !Opens(starts[j].kind))
      && (n < |starts| ==> Opens(starts[n].kind) && (hasSlice || exists i :: 0 <= i < n && IsSlice(starts[i].kind)))
  {
    var n := UnitLength(starts, hasSlice);
    if n > 0 {
      var tail := starts[1..];
      var seen := hasSlice || IsSlice(starts[0].kind);
      LeadingStarts(tail, seen);
      if n < |starts| && !hasSlice && !IsSlice(starts[0].kind) {
        var i :| 0 <= i < n - 1 && IsSlice(tail[i].kind);
        assert IsSlice(starts[i + 1].kind);
      }
      forall i, j | 0 <= i < j < n && IsSlice(starts[i].kind)
        ensures !Opens(starts[j].kind)
      {
        assert starts[j] == tail[j - 1];
        if i > 0 {
          assert starts[i] == tail[i - 1];
        }
      }
      if hasSlice {
        forall j | 0 <= j < n
          ensures !Opens(starts[j].kind)
        {
          if j > 0 {
            assert starts[j] == tail[j - 1];
          }
        }
      }
    }
  }

  lemma {:induction false} NoCut(starts: seq<Start>, hasSlice: bool)
    requires forall i, j :: 0 <= i < j < |starts| ==> starts[i].offset < starts[j].offset
    requires OneSlice(starts)
    requires hasSlice ==> forall x :: x in starts ==> !Opens(x.kind)
    ensures UnitLength(starts, hasSlice) == |starts|
  {
    if starts != [] {
      assert starts[0] in starts;
      NoCut(starts[1..], hasSlice || IsSlice(starts[0].kind));
    }
  }

  // A stretch of the stream that begins at one start and runs to a later one, or to the end.
  ghost predicate Stretch(s: seq<Byte>, a: nat, b: nat) {
    && a < b <= |s|
    && (exists x :: x in Starts(s) && x.offset == a)
    && (b == |s| || exists x :: x in Starts(s) && x.offset == b)
  }

  // A code of a stretch read on its own is a code of the stream, with the same start.
  lemma CodeOfStretch(s: seq<Byte>, a: nat, b: nat, q: nat)
    requires Stretch(s, a, b) && Code(s[a..b], q)
    ensures Code(s, a + q)
    ensures StartAt(s, a + q) == Start(a + StartAt(s[a..b], q).offset, StartAt(s[a..b], q).kind)
  {
    assert Code(s, a + q);
    if q == 0 {
      StartsAreTheCodes(s);
      var x :| x in Starts(s) && x.offset == a;
      var p: nat :| Code(s, p) && x == StartAt(s, p);
      if a < p {
        CodesKeepApart(s, a, p);
      }
    }
  }

  // The starts of a stretch read on its own are starts of the stream, moved to its beginning.
  lemma StretchStarts(s: seq<Byte>, a: nat, b: nat, y: Start)
    requires Stretch(s, a, b) && y in Starts(s[a..b])
    ensures Start(a + y.offset, y.kind) in Starts(s) && a + y.offset < b
  {
    StartsAreTheCodes(s[a..b]);
    var q: nat :| Code(s[a..b], q) && y == StartAt(s[a..b], q);
    CodeOfStretch(s, a, b, q);
    StartsAreTheCodes(s);
  }

  // A code that starts before b, where the stream ends or another code starts, ends there at the latest;
  // if only its header byte does not, then that byte is the zero of the next start code.
  lemma EndsBefore(s: seq<Byte>, b: nat, p: nat)
    requires b == |s| || exists x :: x in Starts(s) && x.offset == b
    requires Code(s, p) && StartAt(s, p).offset < b <= |s|
    ensures p + 3 <= b
    ensures p + 3 == b ==> b < |s| && s[b] == 0
  {
    if b < |s| {
      StartsAreTheCodes(s);
      var next :| next in Starts(s) && next.offset == b;
      var q: nat :| Code(s, q) && next == StartAt(s, q);
      if q < p {
        CodesKeepApart(s, q, p);
      } else if p < q {
        CodesKeepApart(s, p, q);
      }
    }
  }

  // A start of the stream inside a stretch is also seen in the stretch read on its own, unless its
  // header byte is the first byte of the next start code; then its type is 0 and it is the last one.
  lemma SeenInStretch(s: seq<Byte>, a: nat, b: nat, x: Start)
    requires Stretch(s, a, b) && x in Starts(s) && a <= x.offset < b
    ensures x.kind == 0 || Start(x.offset - a, x.kind) in Starts(s[a..b])
    ensures b == |s| ==> Start(x.offset - a, x.kind) in Starts(s[a..b])
    ensures Start(x.offset - a, x.kind) !in Starts(s[a..b])
            ==> forall z :: z in Starts(s) && x.offset < z.offset ==> b <= z.offset
  {
    StartsAreTheCodes(s);
    var p: nat :| Code(s, p) && x == StartAt(s, p);
    EndsBefore(s, b, p);
    if p + 3 < b {
      CodeInStretch(s, a, b, p);
    } else {
      assert KindOf(s[p + 3]) == 0;
      forall z | z in Starts(s) && x.offset < z.offset
        ensures b <= z.offset
      {
        var t: nat :| Code(s, t) && z == StartAt(s, t);
        if t < p {
          CodesKeepApart(s, t, p);
        } else {
          CodesKeepApart(s, p, t);
        }
      }
    }
  }

  lemma CodeInStretch(s: seq<Byte>, a: nat, b: nat, p: nat)
    requires a < b <= |s|
    requires Code(s, p) && a <= StartAt(s, p).offset && p + 3 < b
    ensures Start(StartAt(s, p).offset - a, KindOf(s[p + 3])) in Starts(s[a..b])
  {
    var u := s[a..b];
    assert Code(u, p - a);
    StartsAreTheCodes(u);
    assert StartAt(u, p - a) in Starts(u);
  }

  // What splitting promises of one unit u.
  ghost predicate WellCut(u: seq<Byte>) {
    && Starts(u) != [] && Starts(u)[0].offset == 0
    && OneSlice(Starts(u))
    && Units(u, Starts(u)) == [u]
  }

  // Nothing that opens a new unit follows a slice between a and b.
  ghost predicate OneSliceWithin(s: seq<Byte>, a: nat, b: nat) {
    forall x, y :: x in Starts(s) && y in Starts(s) && a <= x.offset < y.offset < b && IsSlice(x.kind) ==> !Opens(y.kind)
  }

  ghost predicate SliceWithin(s: seq<Byte>, a: nat, b: nat) {
    exists x :: x in Starts(s) && a <= x.offset < b && IsSlice(x.kind)
  }

  // A stretch whose starts hold at most one slice, nothing opening after it, and a slice if more
  // stream follows.
  ghost predicate Uncut(s: seq<Byte>, a: nat, b: nat) {
    Stretch(s, a, b) && OneSliceWithin(s, a, b) && (b < |s| ==> SliceWithin(s, a, b))
  }

  lemma SliceIsSeen(s: seq<Byte>, a: nat, b: nat, u: seq<Byte>)
    requires Stretch(s, a, b) && SliceWithin(s, a, b) && u == s[a..b]
    ensures HasSlice(Starts(u))
  {
    var x :| x in Starts(s) && a <= x.offset < b && IsSlice(x.kind);
    SeenInStretch(s, a, b, x);
    assert Start(x.offset - a, x.kind) in Starts(u);
  }

  lemma OneSliceIsSeen(s: seq<Byte>, a: nat, b: nat, u: seq<Byte>)
    requires Stretch(s, a, b) && OneSliceWithin(s, a, b) && u == s[a..b]
    ensures OneSlice(Starts(u))
  {
    forall x, y | x in Starts(u) && y in Starts(u) && x.offset < y.offset && IsSlice(x.kind)
      ensures !Opens(y.kind)
    {
      StretchStarts(s, a, b, x);
      StretchStarts(s, a, b, y);
      assert !Opens(Start(a + y.offset, y.kind).kind);
    }
  }

  // What holds one slice and begins with a start splits into itself.
  lemma OneSliceIsWellCut(u: seq<Byte>, starts: seq<Start>)
    requires starts == Starts(u) && starts != [] && starts[0].offset == 0 && OneSlice(starts)
    ensures WellCut(u)
  {
    StartsFromAscend(u, 0);
    NoCut(starts, false);
    LastUnit(u, starts);
    assert u[0..|u|] == u;
  }

  lemma StretchIsWellCut(s: seq<Byte>, a: nat, b: nat, u: seq<Byte>)
    requires Uncut(s, a, b) && u == s[a..b]
    ensures WellCut(u)
    ensures b < |s| ==> HasSlice(Starts(u))
  {
    var first :| first in Starts(s) && first.offset == a;
    FirstIsSeen(s, a, b, first);
    OneSliceIsSeen(s, a, b, u);
    OneSliceIsWellCut(u, Starts(u));
    if b < |s| {
      SliceIsSeen(s, a, b, u);
    }
  }

  lemma FirstIsSeen(s: seq<Byte>, a: nat, b: nat, first: Start)
    requires Stretch(s, a, b) && first in Starts(s) && first.offset == a
    requires b < |s| ==> SliceWithin(s, a, b)
    ensures Starts(s[a..b]) != [] && Starts(s[a..b])[0].offset == 0
  {
    var u := s[a..b];
    StartsAreTheCodes(s);
    StartsFromAscend(u, 0);
    var y := Start(0, first.kind);
    if b < |s| {
      var x :| x in Starts(s) && a <= x.offset < b && IsSlice(x.kind);
      if x.offset == a {
        SameOffset(s, x, first);
      }
    }
    SeenInStretch(s, a, b, first);
    assert y in Starts(u);
    var i :| 0 <= i < |Starts(u)| && Starts(u)[i] == y;
    assert Starts(u)[0].offset <= Starts(u)[i].offset;
  }

  lemma SameOffset(s: seq<Byte>, x: Start, y: Start)
    requires x in Starts(s) && y in Starts(s) && x.offset == y.offset
    ensures x == y
  {
    StartsFromAscend(s, 0);
  }

  // ---- Main results ----

  // A list of units in which each is well cut, each but the last holds a slice, and each but the
  // first opens with a type that needs a new unit.
  ghost predicate WellCutList(units: seq<seq<Byte>>) {
    && (forall u :: u in units ==> WellCut(u))
    && (forall k :: 0 < k < |units| ==> NeedsCut(units[k - 1], units[k]))
  }

  ghost predicate NeedsCut(u: seq<Byte>, next: seq<Byte>) {
    HasSlice(Starts(u)) && Starts(next) != [] && Opens(Starts(next)[0].kind)
  }

  ghost predicate BeginsWith(u: seq<Byte>, kind: Byte) {
    Starts(u) != [] && Starts(u)[0].kind == kind
  }

  // The unit that the start at index i begins, and the number of starts it takes.
  lemma UnitAt(s: seq<Byte>, all: seq<Start>, i: nat, starts: seq<Start>) returns (u: seq<Byte>, n: nat)
    requires all == Starts(s) && Ascending(s, all) && i < |all| && starts == all[i..]
    ensures 0 < n && i + n <= |all|
    ensures Units(s, starts) == [u] + Units(s, all[i + n..])
    ensures WellCut(u) && BeginsWith(u, all[i].kind)
    ensures i + n < |all| ==> HasSlice(Starts(u)) && Opens(all[i + n].kind)
  {
    n := UnitLength(starts, false);
    var a, b := starts[0].offset, EndOf(s, starts, n);
    UnitIsStretch(s, all, i, n, a, b);
    u := s[a..b];
    StretchBegins(s, a, b, all[i], u);
    NextOpens(starts);
    assert starts[n..] == all[i + n..];
  }

  lemma FirstUnit(s: seq<Byte>, all: seq<Start>, i: nat, units: seq<seq<Byte>>) returns (u: seq<Byte>, n: nat)
    requires all == Starts(s) && i < |all| && units == Units(s, all[i..])
    ensures 0 < n && i + n <= |all|
    ensures units == [u] + Units(s, all[i + n..])
    ensures WellCut(u) && BeginsWith(u, all[i].kind)
    ensures i + n < |all| ==> HasSlice(Starts(u)) && Opens(all[i + n].kind)
  {
    StartsFromAscend(s, 0);
    u, n := UnitAt(s, all, i, all[i..]);
  }

  lemma NextOpens(starts: seq<Start>)
    ensures var n := UnitLength(starts, false);
      n < |starts| ==> Opens(starts[n].kind)
  {
    LeadingStarts(starts, false);
  }

  // As StretchIsWellCut, for a stretch whose first start is known.
  lemma StretchBegins(s: seq<Byte>, a: nat, b: nat, first: Start, u: seq<Byte>)
    requires Uncut(s, a, b) && first in Starts(s) && first.offset == a && u == s[a..b]
    ensures WellCut(u) && BeginsWith(u, first.kind)
    ensures b < |s| ==> HasSlice(Starts(u))
  {
    StretchIsWellCut(s, a, b, u);
    var y := Starts(u)[0];
    StretchStarts(s, a, b, y);
    SameOffset(s, Start(a, y.kind), first);
  }

  // Well-cut units of which the first begins with the given type.
  ghost predicate WellCutFrom(units: seq<seq<Byte>>, kind: Byte) {
    WellCutList(units) && units != [] && BeginsWith(units[0], kind)
  }

  lemma OnlyUnit(u: seq<Byte>, kind: Byte, rest: seq<seq<Byte>>, units: seq<seq<Byte>>)
    requires WellCut(u) && BeginsWith(u, kind) && rest == [] && units == [u] + rest
    ensures WellCutFrom(units, kind)
  {
  }

  lemma UnitInFront(u: seq<Byte>, kind: Byte, rest: seq<seq<Byte>>, next: Byte, units: seq<seq<Byte>>)
    requires WellCut(u) && BeginsWith(u, kind) && HasSlice(Starts(u))
    requires WellCutFrom(rest, next) && Opens(next) && units == [u] + rest
    ensures WellCutFrom(units, kind)
  {
    assert NeedsCut(u, rest[0]);
    forall k | 0 < k < |units|
      ensures NeedsCut(units[k - 1], units[k])
    {
      if k > 1 {
        assert units[k - 1] == rest[k - 2] && units[k] == rest[k - 1];
        assert NeedsCut(rest[k - 2], rest[k - 1]);
      }
    }
  }

  // The units that the starts from i on begin.
  ghost function UnitsFrom(s: seq<Byte>, all: seq<Start>, i: nat): seq<seq<Byte>>
    requires i <= |all|
  {
    Units(s, all[i..])
  }

  lemma UnitAndRest(s: seq<Byte>, all: seq<Start>, i: nat) returns (u: seq<Byte>, next: nat)
    requires all == Starts(s) && i < |all|
    ensures i < next <= |all| && UnitsFrom(s, all, i) == [u] + UnitsFrom(s, all, next)
    ensures WellCut(u) && BeginsWith(u, all[i].kind)
    ensures if next < |all| then HasSlice(Starts(u)) && Opens(all[next].kind) else UnitsFrom(s, all, next) == []
  {
    var n: nat;
    u, n := FirstUnit(s, all, i, Units(s, all[i..]));
    next := i + n;
    NoStartsNoUnits(s);
  }

  lemma {:induction false} UnitsAreWellCut(s: seq<Byte>, all: seq<Start>, i: nat)
    requires all == Starts(s) && i < |all|
    ensures WellCutFrom(UnitsFrom(s, all, i), all[i].kind)
    decreases |all| - i
  {
    var u, next := UnitAndRest(s, all, i);
    var rest, units := UnitsFrom(s, all, next), UnitsFrom(s, all, i);
    if next == |all| {
      OnlyUnit(u, all[i].kind, rest, units);
    } else {
      UnitsAreWellCut(s, all, next);
      UnitInFront(u, all[i].kind, rest, all[next].kind, units);
    }
  }

  // The starts with an offset from a to b are those at the indices from i to i + n.
  lemma IndexWithin(s: seq<Byte>, all: seq<Start>, i: nat, n: nat, x: Start) returns (j: nat)
    requires Ascending(s, all) && i < |all| && x in all && all[i].offset <= x.offset
    requires x.offset < EndOf(s, all[i..], n)
    ensures i <= j < |all| && j < i + n && all[j] == x
  {
    j :| 0 <= j < |all| && all[j] == x;
  }

  // The unit ends at a later start, or with the stream.
  lemma UnitBounds(s: seq<Byte>, all: seq<Start>, i: nat, n: nat, b: nat)
    requires all == Starts(s) && Ascending(s, all) && i < |all|
    requires 0 < n <= |all| - i && b == EndOf(s, all[i..], n)
    ensures Stretch(s, all[i].offset, b) && (n < |all| - i <==> b < |s|)
  {
    assert all[i] in all;
    if i + n < |all| {
      assert all[i + n] in all;
    }
  }

  lemma UnitHasSlice(s: seq<Byte>, all: seq<Start>, i: nat, n: nat, a: nat, b: nat)
    requires all == Starts(s) && Ascending(s, all) && i < |all|
    requires n == UnitLength(all[i..], false) && a == all[i].offset && b == EndOf(s, all[i..], n) && n < |all| - i
    ensures SliceWithin(s, a, b)
  {
    var starts := all[i..];
    LeadingStarts(starts, false);
    var k :| 0 <= k < n && IsSlice(starts[k].kind);
    assert starts[k] == all[i + k] && all[i + k] in all && a <= all[i + k].offset < b;
  }

  lemma UnitHasOneSlice(s: seq<Byte>, all: seq<Start>, i: nat, n: nat, a: nat, b: nat)
    requires all == Starts(s) && Ascending(s, all) && i < |all|
    requires n == UnitLength(all[i..], false) && a == all[i].offset && b == EndOf(s, all[i..], n)
    ensures OneSliceWithin(s, a, b)
  {
    var starts := all[i..];
    LeadingStarts(starts, false);
    forall x, y | x in all && y in all && a <= x.offset < y.offset < b && IsSlice(x.kind)
      ensures !Opens(y.kind)
    {
      var j := IndexWithin(s, all, i, n, x);
      var k := IndexWithin(s, all, i, n, y);
      assert starts[j - i] == x && starts[k - i] == y;
    }
  }

  lemma UnitIsStretch(s: seq<Byte>, all: seq<Start>, i: nat, n: nat, a: nat, b: nat)
    requires all == Starts(s) && Ascending(s, all) && i < |all|
    requires n == UnitLength(all[i..], false) && a == all[i].offset && b == EndOf(s, all[i..], n)
    ensures Uncut(s, a, b)
  {
    UnitBounds(s, all, i, n, b);
    UnitHasOneSlice(s, all, i, n, a, b);
    if b < |s| {
      UnitHasSlice(s, all, i, n, a, b);
    }
  }

  // The whole law of the splitter. Its units concatenate to the stream from the first start code on
  // (and there is none when there is no start code); each unit read on its own begins with a start
  // code, holds at most one slice with nothing that opens a unit after it, and splits into itself;
  // and no cut could be left out, because each one stands between a slice and a type that must not
  // follow it.
  lemma SplitLaw(s: seq<Byte>)
    ensures var starts, units := Starts(s), Units(s, Starts(s));
      && (units == [] <==> starts == [])
      && (starts != [] ==> starts[0].offset < |s| && Concat(units) == s[starts[0].offset..])
      && WellCutList(units)
  {
    StartsFromAscend(s, 0);
    if Starts(s) != [] {
      ConcatUnits(s, Starts(s));
      assert Starts(s)[0..] == Starts(s);
      UnitsAreWellCut(s, Starts(s), 0);
    }
  }

  // ---- The law on bytes ----

  // The header byte of a coded slice: NAL unit type 1, or 5 for an IDR picture (the low five bits).
  predicate SliceByte(header: Byte) {
    header % 32 == 1 || header % 32 == 5
  }

  // The header byte of a type that begins a new unit after a slice: a slice, or types 6 to 9 (supplemental
  // information, the two parameter sets, the access unit delimiter).
  predicate OpeningByte(header: Byte) {
    SliceByte(header) || 6 <= header % 32 <= 9
  }

  // The unit begins with a start code of three or four bytes.
  predicate BeginsWithCode(u: seq<Byte>) {
    Code(u, 0) || (Code(u, 1) && u[0] == 0)
  }

  function FirstHeader(u: seq<Byte>): Byte
    requires BeginsWithCode(u)
  {
    if Code(u, 0) then u[3] else u[4]
  }

  ghost predicate OneSliceOfBytes(u: seq<Byte>) {
    forall p: nat, q: nat :: p < q && Code(u, p) && Code(u, q) && SliceByte(u[p + 3]) ==> !OpeningByte(u[q + 3])
  }

  ghost predicate SliceInBytes(u: seq<Byte>) {
    exists p: nat :: Code(u, p) && SliceByte(u[p + 3])
  }

  lemma FirstOnBytes(u: seq<Byte>)
    requires Starts(u) != [] && Starts(u)[0].offset == 0
    ensures BeginsWithCode(u) && KindOf(FirstHeader(u)) == Starts(u)[0].kind
  {
    StartsAreTheCodes(u);
    assert Starts(u)[0] in Starts(u);
  }

  lemma OneSliceOnBytes(u: seq<Byte>)
    requires OneSlice(Starts(u))
    ensures OneSliceOfBytes(u)
  {
    StartsAreTheCodes(u);
    forall p: nat, q: nat | p < q && Code(u, p) && Code(u, q) && SliceByte(u[p + 3])
      ensures !OpeningByte(u[q + 3])
    {
      assert StartAt(u, p) in Starts(u) && StartAt(u, q) in Starts(u);
    }
  }

  lemma SliceOnBytes(u: seq<Byte>)
    requires HasSlice(Starts(u))
    ensures SliceInBytes(u)
  {
    StartsAreTheCodes(u);
    var x :| x in Starts(u) && IsSlice(x.kind);
    var p: nat :| Code(u, p) && x == StartAt(u, p);
    assert SliceByte(u[p + 3]);
  }

  // The unit holds a slice and the next one begins with a type that must not follow it.
  ghost predicate MustCut(u: seq<Byte>, next: seq<Byte>) {
    SliceInBytes(u) && BeginsWithCode(next) && OpeningByte(FirstHeader(next))
  }

  lemma UnitOnBytes(u: seq<Byte>)
    requires WellCut(u)
    ensures BeginsWithCode(u) && OneSliceOfBytes(u)
  {
    FirstOnBytes(u);
    OneSliceOnBytes(u);
  }

  lemma CutOnBytes(u: seq<Byte>, next: seq<Byte>)
    requires NeedsCut(u, next) && WellCut(next)
    ensures MustCut(u, next)
  {
    SliceOnBytes(u);
    FirstOnBytes(next);
  }

  // The law of the splitter in terms of bytes alone: every unit begins with a start code, a slice in it is
  // followed by nothing that begins a new unit, and it ends where it must: it has a slice, and the next
  // unit begins with a type that begins a new one.
  lemma SplitLawOnBytes(s: seq<Byte>)
    ensures var units := Units(s, Starts(s));
      && (forall k :: 0 <= k < |units| ==> BeginsWithCode(units[k]) && OneSliceOfBytes(units[k]))
      && (forall k :: 0 < k < |units| ==> MustCut(units[k - 1], units[k]))
  {
    SplitLaw(s);
    UnitsOnBytes(Units(s, Starts(s)));
  }

  lemma UnitsOnBytes(units: seq<seq<Byte>>)
    requires WellCutList(units)
    ensures forall k :: 0 <= k < |units| ==> BeginsWithCode(units[k]) && OneSliceOfBytes(units[k])
    ensures forall k :: 0 < k < |units| ==> MustCut(units[k - 1], units[k])
  {
    forall k | 0 <= k < |units|
      ensures BeginsWithCode(units[k]) && OneSliceOfBytes(units[k])
      ensures k > 0 ==> MustCut(units[k - 1], units[k])
    {
      assert units[k] in units;
      UnitOnBytes(units[k]);
      if k > 0 {
        CutOnBytes(units[k - 1], units[k]);
      }
    }
  }
}
