/** Captured output of a launched action: reading a pipe up to a cap, and joining standard output
    and standard error into one bounded text. */
module Launch {
  import opened Utf8

  // -- Draining a pipe ----------------------------------------------------

  /** One answer of `read`; the end of the pipe is the end of the sequence. */
  datatype Read = Chunk(data: seq<byte>) | Interrupted | Fault

  datatype Drained = Kept(data: seq<byte>) | Broken

  function Min(a: nat, b: nat): nat { if a <= b then a else b }

  function SatSub(a: nat, b: nat): nat { if a <= b then 0 else a - b }

  /** Everything the child wrote. */
  function Written(pipe: seq<Read>): seq<byte> {
    if pipe == [] then []
    else
      var n := |pipe| - 1;
      Written(pipe[..n]) + if pipe[n].Chunk? then pipe[n].data else []
  }

  /** The pipe is read to its end however small the cap is; exactly the first `cap` bytes are kept
      for every way the bytes arrive, and any fault loses them all. */
  method ReadCappedPipe(pipe: seq<Read>, cap: nat) returns (r: Drained, consumed: nat)
    requires forall k | 0 <= k < |pipe| && pipe[k].Chunk? :: pipe[k].data != []
    ensures r.Broken? <==> Fault in pipe
    ensures r.Kept? ==> consumed == |pipe| && r.data == Written(pipe)[..Min(cap, |Written(pipe)|)]
    ensures r.Broken? ==> 0 < consumed <= |pipe| && pipe[consumed - 1] == Fault && Fault !in pipe[..consumed - 1]
  {
    var buf: seq<byte> := [];
    consumed := 0;
    while consumed < |pipe|
      invariant consumed <= |pipe| && Fault !in pipe[..consumed]
      invariant buf == Written(pipe[..consumed])[..Min(cap, |Written(pipe[..consumed])|)]
    {
      hide Written;
      var answer := pipe[consumed];
      WrittenGrows(pipe, consumed, cap);
      consumed := consumed + 1;
      match answer {
        case Interrupted =>
        case Fault => return Broken, consumed;
        case Chunk(data) =>
          var room := SatSub(cap, |buf|);
          if room > 0 {
            buf := buf + data[..Min(|data|, room)];
          }
      }
    }
    assert pipe[..|pipe|] == pipe;
    r := Kept(buf);
  }

  lemma WrittenGrows(pipe: seq<Read>, n: nat, cap: nat)
    requires n < |pipe|
    ensures var old', new', data := Written(pipe[..n]), Written(pipe[..n + 1]), if pipe[n].Chunk? then pipe[n].data
        else [];
      var kept := old'[..Min(cap, |old'|)];
      new'[..Min(cap, |new'|)] == kept + data[..Min(|data|, SatSub(cap, |kept|))]
  {
    assert pipe[..n + 1][..n] == pipe[..n];
  }

  // -- The bounded text ---------------------------------------------------

  /** A growing `String`; the ghost field holds its characters. */
  class Output {
    var text: seq<byte>
    ghost var chars: seq<Scalar>

    ghost predicate Valid() reads this { text == EncodeAll(chars) }

    constructor ()
      ensures Valid() && text == []
    {
      text, chars := [], [];
    }

    method PushNewline()
      requires Valid()
      modifies this
      ensures Valid() && text == old(text) + [10]
    {
      EncodeAppend(chars, [10]);
      text, chars := text + [10], chars + [10];
    }

    /** Append the longest whole-character prefix of the decoded bytes that fits under `cap`,
        counting what the text holds already. */
    method PushCapped(bytes: seq<byte>, cap: nat)
      requires Valid()
      modifies this
      ensures Valid()
      ensures text == old(text) + Cut(Lossy(bytes), SatSub(cap, |old(text)|))
    {
      if cap == 0 || bytes == [] { return; }
      ghost var cs := Lossy(bytes);
      var lossy := EncodeAll(Lossy(bytes));
      var room := SatSub(cap, |text|);
      EncodeAppend(chars, cs[..Fit(cs, room)]);
      FitIsLongest(cs, room, |cs|);
      EncodePrefix(cs, |cs|);
      assert cs[..|cs|] == cs;
      if |lossy| <= room {
        text := text + lossy;
      } else {
        var end := FloorBoundary(lossy, room, cs);
        text := text + lossy[..end];
      }
      chars := chars + cs[..Fit(cs, room)];
    }
  }

  /** The longest whole-character prefix of at most `room` bytes. */
  function Cut(cs: seq<Scalar>, room: nat): seq<byte> { EncodeAll(cs[..Fit(cs, room)]) }

  lemma {:induction false} EncodeAppend(a: seq<Scalar>, b: seq<Scalar>)
    ensures EncodeAll(a + b) == EncodeAll(a) + EncodeAll(b)
  {
    hide Encode;
    if a == [] {
      assert a + b == b;
    } else {
      EncodeAppend(a[1..], b);
      assert (a + b)[1..] == a[1..] + b;
    }
  }

  /** What the text holds before standard error is appended. */
  function Opening(stdout: seq<byte>, stderr: seq<byte>, cap: nat): seq<byte> {
    var kept := Cut(Lossy(stdout), cap);
    kept + if stderr != [] && kept != [] then [10] else []
  }

  /** The bytes of standard error that the code lets in: it subtracts the opening from the cap
      before the call, and the call subtracts it again. */
  function StderrRoom(opening: nat, cap: nat): nat { SatSub(SatSub(cap, opening), opening) }

  /** `run_launch`'s assembly; a broken pipe counts as empty output. */
  method Assemble(stdout: Drained, stderr: Drained, cap: nat) returns (output: seq<byte>)
    ensures var out := if stdout.Kept? then stdout.data else [];
      var err := if stderr.Kept? then stderr.data else [];
      var opening := Opening(out, err, cap);
      output == opening + Cut(Lossy(err), StderrRoom(|opening|, cap))
  {
    var out := if stdout.Kept? then stdout.data else [];
    var err := if stderr.Kept? then stderr.data else [];
    var combined := new Output();
    combined.PushCapped(out, cap);
    assert combined.text == Cut(Lossy(out), cap);
    if err != [] {
      if combined.text != [] { combined.PushNewline(); }
      var room := SatSub(cap, |combined.text|);
      combined.PushCapped(err, room);
    }
    output := combined.text;
  }

  // -- What the assembled text guarantees ---------------------------------

  lemma CutFits(cs: seq<Scalar>, room: nat)
    ensures |Cut(cs, room)| == Size(cs, Fit(cs, room)) <= room
  {
    FitIsLongest(cs, room, Fit(cs, room));
    EncodePrefix(cs, Fit(cs, room));
  }

  /** Main result: the output exceeds the cap by at most one byte, and by that one exactly when
      standard output alone fills a non-zero cap and standard error is not empty (the newline). */
  lemma OutputBound(out: seq<byte>, err: seq<byte>, cap: nat)
    ensures var opening := Opening(out, err, cap);
      var output := opening + Cut(Lossy(err), StderrRoom(|opening|, cap));
      && |output| <= cap + 1
      && (|output| == cap + 1 <==> cap > 0 && err != [] && |Cut(Lossy(out), cap)| == cap)
  {
    CutFits(Lossy(out), cap);
    CutFits(Lossy(err), StderrRoom(|Opening(out, err, cap)|, cap));
  }

  lemma EncodeNothing()
    ensures EncodeAll([]) == [] && EncodeAll([10]) == [10]
  {
    assert [10][1..] == [];
  }

  /** Main result: the output is well-formed text, so cutting never splits a character. */
  lemma OutputIsText(out: seq<byte>, err: seq<byte>, cap: nat)
    ensures var opening := Opening(out, err, cap);
      exists cs: seq<Scalar> :: opening + Cut(Lossy(err), StderrRoom(|opening|, cap)) == EncodeAll(cs)
  {
    hide Lossy, Encode, EncodeAll, Fit, StderrRoom;
    EncodeNothing();
    var a, e := Lossy(out), Lossy(err);
    var first := a[..Fit(a, cap)];
    var opening := Opening(out, err, cap);
    var newline: seq<Scalar> := if err != [] && EncodeAll(first) != [] then [10] else [];
    var last := e[..Fit(e, StderrRoom(|opening|, cap))];
    EncodeAppend(first, newline);
    EncodeAppend(first + newline, last);
    assert opening + Cut(e, StderrRoom(|opening|, cap)) == EncodeAll(first + newline + last);
  }

  /** What standard error would keep if the opening were subtracted once: the longest prefix that
      fits under the cap. It keeps that much if and only if no whole prefix of it needs more than
      the doubly reduced room while still fitting the cap. */
  lemma StderrKeepsItsShare(err: seq<byte>, opening: nat, cap: nat)
    ensures Cut(Lossy(err), StderrRoom(opening, cap)) == Cut(Lossy(err), SatSub(cap, opening))
      <==> forall m: nat | m <= |Lossy(err)| ::
             Size(Lossy(err), m) <= SatSub(cap, opening) ==> Size(Lossy(err), m) <= StderrRoom(opening, cap)
  {
    var cs := Lossy(err);
    var small, large := StderrRoom(opening, cap), SatSub(cap, opening);
    var a, b := Fit(cs, small), Fit(cs, large);
    forall m: nat | m <= |cs| ensures Size(cs, m) <= small <==> m <= a { FitIsLongest(cs, small, m); }
    forall m: nat | m <= |cs| ensures Size(cs, m) <= large <==> m <= b { FitIsLongest(cs, large, m); }
    CutFits(cs, small);
    CutFits(cs, large);
    assert Size(cs, a) <= small <= large;
    if a < b { SizeMonotone(cs, a, b); assert !(Size(cs, b) <= small); }
  }

  /** Main result: standard error is kept whole exactly when its decoded text fits the doubly reduced
      room; a single subtraction would keep it whole exactly when it fits the room left. */
  lemma StderrKeptWhole(err: seq<byte>, opening: nat, cap: nat)
    ensures var text := EncodeAll(Lossy(err));
      && (Cut(Lossy(err), StderrRoom(opening, cap)) == text <==> |text| <= StderrRoom(opening, cap))
      && (Cut(Lossy(err), SatSub(cap, opening)) == text <==> |text| <= SatSub(cap, opening))
      && (StderrRoom(opening, cap) == SatSub(cap, opening) <==> opening == 0 || cap <= opening)
  {
    CutWhole(Lossy(err), StderrRoom(opening, cap));
    CutWhole(Lossy(err), SatSub(cap, opening));
  }

  lemma CutWhole(cs: seq<Scalar>, room: nat)
    ensures Cut(cs, room) == EncodeAll(cs) <==> |EncodeAll(cs)| <= room
  {
    hide Encode;
    CutFits(cs, room);
    EncodePrefix(cs, |cs|);
    FitIsLongest(cs, room, |cs|);
    if |EncodeAll(cs)| <= room { assert cs[..|cs|] == cs; }
  }

  /** Main result: for ASCII text on standard error nothing is lost that a single subtraction would
      keep exactly when there is no opening, no room at all, or the whole text fits. */
  lemma AsciiKeepsItsShare(cs: seq<Scalar>, opening: nat, cap: nat)
    requires forall c | c in cs :: c < 0x80
    ensures var err := EncodeAll(cs);
      Cut(Lossy(err), StderrRoom(opening, cap)) == Cut(Lossy(err), SatSub(cap, opening))
      <==> opening == 0 || cap <= opening || |err| <= StderrRoom(opening, cap)
  {
    LossyRoundTrip(cs);
    AsciiSizes(cs, |cs|);
    EncodePrefix(cs, |cs|);
    AsciiCut(cs, StderrRoom(opening, cap));
    AsciiCut(cs, SatSub(cap, opening));
  }

  lemma AsciiCut(cs: seq<Scalar>, room: nat)
    requires forall c | c in cs :: c < 0x80
    ensures |Cut(cs, room)| == Min(|cs|, room)
    ensures Cut(cs, room) == EncodeAll(cs[..Min(|cs|, room)])
  {
    var n := Min(|cs|, room);
    CutFits(cs, room);
    AsciiSizes(cs, n);
    FitIsLongest(cs, room, n);
    if n < |cs| {
      AsciiSizes(cs, n + 1);
      FitIsLongest(cs, room, n + 1);
    }
  }

  lemma {:induction false} AsciiSizes(cs: seq<Scalar>, m: nat)
    requires (forall c | c in cs :: c < 0x80) && m <= |cs|
    ensures Size(cs, m) == m
    decreases m
  {
    if m > 0 {
      assert cs[0] in cs && forall c | c in cs[1..] :: c in cs;
      AsciiSizes(cs[1..], m - 1);
    }
  }

  /** From half the cap on, standard error is dropped whole, although up to half the cap is free. */
  lemma StderrDroppedFromHalf(err: seq<byte>, opening: nat, cap: nat)
    requires 2 * opening >= cap
    ensures Cut(Lossy(err), StderrRoom(opening, cap)) == []
  {
    CutFits(Lossy(err), 0);
  }

  /** Standard output "abcd", standard error "efghi", cap 10: five bytes of the cap are free, and
      the five bytes of standard error are lost. */
  lemma StderrLostExample()
    ensures var out: seq<byte>, err: seq<byte> := EncodeAll([97, 98, 99, 100]), EncodeAll([101, 102, 103, 104, 105]);
      var opening := Opening(out, err, 10);
      && |opening| == 5
      && Cut(Lossy(err), StderrRoom(|opening|, 10)) == []
      && Cut(Lossy(err), SatSub(10, |opening|)) == err
  {
    var a: seq<Scalar>, e: seq<Scalar> := [97, 98, 99, 100], [101, 102, 103, 104, 105];
    hide Encode, EncodeAll, Lossy, Cut;
    ShortAsciiKept(a, 10);
    ShortAsciiKept(e, 5);
    StderrDroppedFromHalf(EncodeAll(e), 5, 10);
  }

  lemma ShortAsciiKept(cs: seq<Scalar>, room: nat)
    requires (forall c | c in cs :: c < 0x80) && |cs| <= room
    ensures Cut(Lossy(EncodeAll(cs)), room) == EncodeAll(cs) && |EncodeAll(cs)| == |cs|
  {
    AsciiSizes(cs, |cs|);
    LossyRoundTrip(cs);
    EncodePrefix(cs, |cs|);
    FitIsLongest(cs, room, |cs|);
    assert cs[..|cs|] == cs;
  }

  // -- From the two pipes to the output -----------------------------------

  /** What is captured of one pipe; a fault loses it. */
  function Captured(pipe: seq<Read>, cap: nat): seq<byte> {
    if Fault in pipe then [] else Written(pipe)[..Min(cap, |Written(pipe)|)]
  }

  /** The recorded output: standard error is captured up to half the cap. */
  function Recorded(stdout: seq<Read>, stderr: seq<Read>, cap: nat): seq<byte> {
    var out, err := Captured(stdout, cap), Captured(stderr, cap / 2);
    var opening := Opening(out, err, cap);
    opening + Cut(Lossy(err), StderrRoom(|opening|, cap))
  }

  method RecordOutput(stdout: seq<Read>, stderr: seq<Read>, cap: nat) returns (output: seq<byte>)
    requires forall k | 0 <= k < |stdout| && stdout[k].Chunk? :: stdout[k].data != []
    requires forall k | 0 <= k < |stderr| && stderr[k].Chunk? :: stderr[k].data != []
    ensures output == Recorded(stdout, stderr, cap)
    ensures |output| <= cap + 1
    ensures exists cs: seq<Scalar> :: output == EncodeAll(cs)
  {
    hide Lossy, Cut, Opening, EncodeAll;
    var out, _ := ReadCappedPipe(stdout, cap);
    var err, _ := ReadCappedPipe(stderr, cap / 2);
    output := Assemble(out, err, cap);
    OutputBound(Captured(stdout, cap), Captured(stderr, cap / 2), cap);
    OutputIsText(Captured(stdout, cap), Captured(stderr, cap / 2), cap);
  }

  /** Main result: of a child that writes well-formed text, at most the cap to standard output and at
      most half of it to standard error, everything is recorded, for every chunking, exactly when
      standard error fits the cap less twice the bytes before it. */
  lemma BothKeptExactly(a: seq<Scalar>, e: seq<Scalar>, stdout: seq<Read>, stderr: seq<Read>, cap: nat)
    requires Fault !in stdout && Fault !in stderr && Written(stdout) == EncodeAll(a) && Written(stderr) == EncodeAll(e)
    requires |EncodeAll(a)| <= cap && |EncodeAll(e)| <= cap / 2
    ensures var opening := EncodeAll(a) + if EncodeAll(a) != [] && EncodeAll(e) != [] then [10] else [];
      Recorded(stdout, stderr, cap) == opening + EncodeAll(e) <==> |EncodeAll(e)| <= StderrRoom(|opening|, cap)
  {
    hide Lossy, EncodeAll, Encode, Cut;
    var out, err := EncodeAll(a), EncodeAll(e);
    var opening: seq<byte> := out + if out != [] && err != [] then [10] else [];
    assert out[..|out|] == out && err[..|err|] == err;
    LossyRoundTrip(a);
    LossyRoundTrip(e);
    CutWhole(a, cap);
    CutWhole(e, StderrRoom(|opening|, cap));
    assert Opening(out, err, cap) == opening;
    AppendCancels(opening, Cut(e, StderrRoom(|opening|, cap)), err);
  }

  lemma AppendCancels(a: seq<byte>, x: seq<byte>, y: seq<byte>)
    ensures a + x == a + y <==> x == y
  {
    assert (a + x)[|a|..] == x && (a + y)[|a|..] == y;
  }

  /** Main result: a child that writes at most `cap` bytes of well-formed text to standard output,
      in any chunks, and nothing to standard error, has exactly that text recorded. */
  lemma WholeOutputKept(cs: seq<Scalar>, stdout: seq<Read>, stderr: seq<Read>, cap: nat)
    requires Fault !in stdout && Written(stdout) == EncodeAll(cs) && |EncodeAll(cs)| <= cap && Written(stderr) == []
    ensures Recorded(stdout, stderr, cap) == EncodeAll(cs)
  {
    hide Lossy, Encode, Cut;
    var text := EncodeAll(cs);
    assert text[..|text|] == text;
    LossyRoundTrip(cs);
    CutWhole(cs, cap);
    NothingFromNothing(StderrRoom(|text|, cap));
  }

  lemma NothingFromNothing(room: nat)
    ensures Cut(Lossy([]), room) == []
  {
  }

  /** Main result: of ASCII output of any length, standard output is recorded up to the cap; then, after a
      newline if both parts are there, standard error up to half the cap and up to the cap less twice the
      bytes before it. */
  lemma AsciiRecorded(a: seq<Scalar>, e: seq<Scalar>, stdout: seq<Read>, stderr: seq<Read>, cap: nat)
    requires (forall c | c in a :: c < 0x80) && (forall c | c in e :: c < 0x80)
    requires Fault !in stdout && Fault !in stderr && Written(stdout) == EncodeAll(a) && Written(stderr) == EncodeAll(e)
    ensures var out := a[..Min(|a|, cap)];
      var err := e[..Min(|e|, cap / 2)];
      var before := |out| + if out != [] && err != [] then 1 else 0;
      var room := if 2 * before <= cap then cap - 2 * before else 0;
      Recorded(stdout, stderr, cap)
      == EncodeAll(out) + (if out != [] && err != [] then [10] else []) + EncodeAll(err[..Min(|err|, room)])
  {
    hide Lossy, EncodeAll, Encode, Cut, Captured, Opening, Written, Fit, Size;
    var out, err := a[..Min(|a|, cap)], e[..Min(|e|, cap / 2)];
    AsciiCaptured(a, stdout, cap);
    AsciiCaptured(e, stderr, cap / 2);
    AsciiOpening(out, err, cap);
    LossyRoundTrip(err);
    var before := |out| + if out != [] && err != [] then 1 else 0;
    AsciiCut(err, StderrRoom(before, cap));
  }

  lemma AsciiOpening(out: seq<Scalar>, err: seq<Scalar>, cap: nat)
    requires (forall c | c in out :: c < 0x80) && (forall c | c in err :: c < 0x80) && |out| <= cap
    ensures var opening := Opening(EncodeAll(out), EncodeAll(err), cap);
      && opening == EncodeAll(out) + (if out != [] && err != [] then [10] else [])
      && |opening| == |out| + if out != [] && err != [] then 1 else 0
  {
    hide Lossy, EncodeAll, Encode, Cut, Fit, Size;
    LossyRoundTrip(out);
    AsciiCut(out, cap);
    assert out[..Min(|out|, cap)] == out;
    AsciiLength(out);
    AsciiLength(err);
  }

  lemma AsciiCaptured(a: seq<Scalar>, pipe: seq<Read>, cap: nat)
    requires (forall c | c in a :: c < 0x80) && Fault !in pipe && Written(pipe) == EncodeAll(a)
    ensures Captured(pipe, cap) == EncodeAll(a[..Min(|a|, cap)])
    ensures forall c | c in a[..Min(|a|, cap)] :: c < 0x80
  {
    hide Encode, EncodeAll, Written, Size;
    var n := Min(|a|, cap);
    AsciiLength(a);
    AsciiSizes(a, n);
    EncodePrefix(a, n);
    assert forall i | 0 <= i < n :: a[..n][i] == a[i] && a[i] in a;
  }

  lemma AsciiLength(a: seq<Scalar>)
    requires forall c | c in a :: c < 0x80
    ensures |EncodeAll(a)| == |a|
  {
    hide Encode, EncodeAll, Size;
    AsciiSizes(a, |a|);
    EncodePrefix(a, |a|);
  }

  /** Of any standard error, whatever its bytes and length, at most the doubly reduced room is kept, and
      only of its first `cap / 2` bytes. */
  lemma StderrBounded(stdout: seq<Read>, stderr: seq<Read>, cap: nat)
    ensures var out, err := Captured(stdout, cap), Captured(stderr, cap / 2);
      var opening := Opening(out, err, cap);
      && |err| <= cap / 2
      && exists kept: seq<byte> ::
           Recorded(stdout, stderr, cap) == opening + kept && (kept == [] || |kept| + 2 * |opening| <= cap)
  {
    var out, err := Captured(stdout, cap), Captured(stderr, cap / 2);
    var opening := Opening(out, err, cap);
    CutFits(Lossy(err), StderrRoom(|opening|, cap));
    hide Lossy, Cut, EncodeAll;
    var kept := Cut(Lossy(err), StderrRoom(|opening|, cap));
    assert Recorded(stdout, stderr, cap) == opening + kept;
  }
}
