/** UTF-8 as the output code relies on it: encoding (section 3 of RFC 3629), character boundaries,
    lossy decoding, and cutting a text to a byte limit between characters. */
module Utf8 {

  type byte = x: int | 0 <= x < 256

  type Scalar = c: int | 0 <= c < 0xD800 || 0xE000 <= c < 0x11_0000

  const REPLACEMENT: Scalar := 0xFFFD

  /** Six low bits of a byte, and the continuation byte that carries six bits. */
  function Low6(b: byte): nat { b as int % 0x40 }

  function Continuation(n: nat): (b: byte)
    ensures IsContinuation(b) && Low6(b) == n % 0x40
  {
    0x80 + n % 0x40
  }

  function Lead(mark: nat, n: nat): byte
    requires mark + n < 256
  {
    mark + n
  }

  predicate IsContinuation(b: byte) { 0x80 <= b < 0xC0 }

  function Encode(c: Scalar): (r: seq<byte>)
    ensures 1 <= |r| <= 4
  {
    var d: nat := c / 0x40;                  // the digits of `c` in base 64
    var e: nat := d / 0x40;
    var f: nat := e / 0x40;
    assert f <= 4;
    if c < 0x80 then [Lead(0, c)]
    else if c < 0x800 then [Lead(0xC0, d), Continuation(c)]
    else if c < 0x1_0000 then [Lead(0xE0, e), Continuation(d), Continuation(c)]
    else [Lead(0xF0, f), Continuation(e), Continuation(d), Continuation(c)]
  }

  function EncodeAll(cs: seq<Scalar>): seq<byte> {
    if cs == [] then [] else Encode(cs[0]) + EncodeAll(cs[1..])
  }

  /** Bytes of the first `m` characters. */
  function Size(cs: seq<Scalar>, m: nat): nat
    requires m <= |cs|
  {
    if m == 0 then 0 else |Encode(cs[0])| + Size(cs[1..], m - 1)
  }

  /** `str::is_char_boundary`. */
  predicate IsBoundary(text: seq<byte>, i: nat) {
    i == 0 || i == |text| || (i < |text| && !IsContinuation(text[i]))
  }

  /** Only the first byte of a character is not a continuation byte. */
  lemma LeadAndTail(c: Scalar)
    ensures !IsContinuation(Encode(c)[0])
    ensures forall i | 0 < i < |Encode(c)| :: IsContinuation(Encode(c)[i])
  {
  }

  lemma {:induction false} EncodePrefix(cs: seq<Scalar>, m: nat)
    requires m <= |cs|
    ensures Size(cs, m) <= |EncodeAll(cs)| && EncodeAll(cs[..m]) == EncodeAll(cs)[..Size(cs, m)]
    ensures m == |cs| ==> Size(cs, m) == |EncodeAll(cs)|
    decreases m
  {
    if m > 0 {
      EncodePrefix(cs[1..], m - 1);
      assert cs[..m][1..] == cs[1..][..m - 1];
      var head := Encode(cs[0]);
      assert EncodeAll(cs)[..Size(cs, m)] == head + EncodeAll(cs[1..])[..Size(cs[1..], m - 1)];
    } else if cs != [] {
      assert cs[..m] == [];
    }
  }

  /** Some whole number of characters ends at byte `i`. */
  ghost predicate EndsAt(cs: seq<Scalar>, i: nat) { exists m: nat :: m <= |cs| && Size(cs, m) == i }

  lemma EndsAtTail(cs: seq<Scalar>, i: nat)
    requires cs != [] && i >= |Encode(cs[0])|
    ensures EndsAt(cs, i) <==> EndsAt(cs[1..], i - |Encode(cs[0])|)
  {
    hide Encode;
    var n := |Encode(cs[0])|;
    if EndsAt(cs[1..], i - n) {
      var m: nat :| m <= |cs[1..]| && Size(cs[1..], m) == i - n;
      assert Size(cs, m + 1) == i;
    }
    if EndsAt(cs, i) {
      var m: nat :| m <= |cs| && Size(cs, m) == i;
      assert Size(cs[1..], m - 1) == i - n;
    }
  }

  /** A byte position is a boundary exactly when a whole number of characters ends there. */
  lemma {:induction false} BoundaryIsPrefix(cs: seq<Scalar>, i: nat)
    requires i <= |EncodeAll(cs)|
    ensures IsBoundary(EncodeAll(cs), i) <==> EndsAt(cs, i)
    decreases |cs|
  {
    var text := EncodeAll(cs);
    if cs == [] || i == 0 {
      assert Size(cs, 0) == 0;
    } else {
      var head, rest := Encode(cs[0]), EncodeAll(cs[1..]);
      LeadAndTail(cs[0]);
      hide Encode;
      if i < |head| {
        forall m: nat | m <= |cs| ensures Size(cs, m) != i { if m > 0 { assert Size(cs, m) >= |head|; } }
      } else {
        BoundaryIsPrefix(cs[1..], i - |head|);
        EndsAtTail(cs, i);
        FirstByte(cs[1..]);
        assert i < |text| ==> text[i] == rest[i - |head|];
      }
    }
  }

  lemma FirstByte(cs: seq<Scalar>)
    ensures cs != [] ==> EncodeAll(cs) != [] && !IsContinuation(EncodeAll(cs)[0])
  {
    if cs != [] { LeadAndTail(cs[0]); }
  }

  // -- Cutting at a boundary ----------------------------------------------

  /** How many whole characters fit into `room` bytes. */
  function Fit(cs: seq<Scalar>, room: nat): (m: nat)
    ensures m <= |cs|
  {
    if cs == [] || |Encode(cs[0])| > room then 0 else 1 + Fit(cs[1..], room - |Encode(cs[0])|)
  }

  /** `Fit` is the longest prefix that fits. */
  lemma {:induction false} FitIsLongest(cs: seq<Scalar>, room: nat, m: nat)
    requires m <= |cs|
    ensures Size(cs, m) <= room <==> m <= Fit(cs, room)
    decreases m
  {
    if m > 0 {
      if |Encode(cs[0])| <= room {
        FitIsLongest(cs[1..], room - |Encode(cs[0])|, m - 1);
      }
    }
  }

  /** Walk down from `limit` to the closest boundary. */
  method FloorBoundary(text: seq<byte>, limit: nat, ghost cs: seq<Scalar>) returns (end: nat)
    requires text == EncodeAll(cs) && limit <= |text|
    ensures end == Size(cs, Fit(cs, limit)) && end <= limit
    ensures text[..end] == EncodeAll(cs[..Fit(cs, limit)])
  {
    end := limit;
    ghost var best := Size(cs, Fit(cs, limit));
    FitIsLongest(cs, limit, Fit(cs, limit));
    EncodePrefix(cs, Fit(cs, limit));
    BoundaryIsPrefix(cs, best);
    while end > 0 && !IsBoundary(text, end)
      invariant best <= end <= limit
    {
      end := end - 1;
    }
    BoundaryIsPrefix(cs, end);
    ghost var m: nat :| m <= |cs| && Size(cs, m) == end;
    FitIsLongest(cs, limit, m);
    SizeMonotone(cs, m, Fit(cs, limit));
  }

  lemma {:induction false} SizeMonotone(cs: seq<Scalar>, m: nat, n: nat)
    requires m <= n <= |cs|
    ensures Size(cs, m) <= Size(cs, n)
    ensures m < n ==> Size(cs, m) < Size(cs, n)
    decreases m
  {
    if m > 0 { SizeMonotone(cs[1..], m - 1, n - 1); }
  }

  /** "…" in UTF-8. */
  const ELLIPSIS: seq<byte> := [0xE2, 0x80, 0xA6]

  lemma EllipsisEncoded()
    ensures EncodeAll([0x2026]) == ELLIPSIS
  {
    assert [0x2026][1..] == [];
  }

  /** One character of each length (section 7 of RFC 3629 and its table of lengths). */
  lemma EncodeExamples()
    ensures Encode(0x41) == [0x41] && Encode(0x2262) == [0xE2, 0x89, 0xA2]
    ensures Encode(0x391) == [0xCE, 0x91] && Encode(0x233B4) == [0xF0, 0xA3, 0x8E, 0xB4]
  {
  }

  /** Error excerpts: unchanged when short, else the longest whole-character prefix and "…". */
  method TruncateUtf8(text: seq<byte>, max: nat, ghost cs: seq<Scalar>) returns (r: seq<byte>)
    requires text == EncodeAll(cs)
    ensures r == if |text| <= max then text else EncodeAll(cs[..Fit(cs, max)]) + EncodeAll([0x2026])
    ensures |r| <= if |text| <= max then max else max + 3
  {
    if |text| <= max { return text; }
    var end := FloorBoundary(text, max, cs);
    EllipsisEncoded();
    r := text[..end] + ELLIPSIS;
  }

  // -- Lossy decoding -----------------------------------------------------

  predicate ContinuesAt(b: seq<byte>, i: nat) { i < |b| && IsContinuation(b[i]) }

  /** The second byte allowed after a lead byte of a three- or four-byte character. */
  predicate SecondAllowed(lead: byte, second: byte) {
    if lead == 0xE0 then 0xA0 <= second < 0xC0
    else if lead == 0xED then 0x80 <= second < 0xA0
    else if lead == 0xF0 then 0x90 <= second < 0xC0
    else if lead == 0xF4 then 0x80 <= second < 0x90
    else IsContinuation(second)
  }

  predicate SecondAt(b: seq<byte>) { |b| > 1 && SecondAllowed(b[0], b[1]) }

  /** The next character and the bytes it takes; a maximal ill-formed piece reads as U+FFFD. */
  function DecodeOne(b: seq<byte>): (r: (Scalar, nat))
    requires b != []
    ensures 1 <= r.1 <= |b|
  {
    var lead: nat := b[0];
    if lead < 0x80 then (lead, 1)
    else if 0xC2 <= lead < 0xE0 then
      if ContinuesAt(b, 1) then ((lead - 0xC0) * 0x40 + Low6(b[1]), 2) else (REPLACEMENT, 1)
    else if 0xE0 <= lead < 0xF0 then
      if !SecondAt(b) then (REPLACEMENT, 1)
      else if !ContinuesAt(b, 2) then (REPLACEMENT, 2)
      else (((lead - 0xE0) * 0x40 + Low6(b[1])) * 0x40 + Low6(b[2]), 3)
    else if 0xF0 <= lead < 0xF5 then
      if !SecondAt(b) then (REPLACEMENT, 1)
      else if !ContinuesAt(b, 2) then (REPLACEMENT, 2)
      else if !ContinuesAt(b, 3) then (REPLACEMENT, 3)
      else ((((lead - 0xF0) * 0x40 + Low6(b[1])) * 0x40 + Low6(b[2])) * 0x40 + Low6(b[3]), 4)
    else (REPLACEMENT, 1)
  }

  /** `String::from_utf8_lossy`. */
  function Lossy(b: seq<byte>): seq<Scalar>
    decreases |b|
  {
    if b == [] then [] else var (c, n) := DecodeOne(b); [c] + Lossy(b[n..])
  }

  lemma DecodeEncode(c: Scalar, rest: seq<byte>)
    ensures DecodeOne(Encode(c) + rest) == (c, |Encode(c)|)
  {
  }

  /** A character cut short reads as one replacement character. */
  lemma DecodeCut(c: Scalar, k: nat)
    requires 0 < k < |Encode(c)|
    ensures DecodeOne(Encode(c)[..k]) == (REPLACEMENT, k)
  {
  }

  lemma LossyHead(c: Scalar, rest: seq<byte>)
    ensures Lossy(Encode(c) + rest) == [c] + Lossy(rest)
  {
    DecodeEncode(c, rest);
    hide Encode, DecodeOne;
    assert (Encode(c) + rest)[|Encode(c)|..] == rest;
  }

  lemma LossyCut(c: Scalar, k: nat)
    requires 0 < k < |Encode(c)|
    ensures Lossy(Encode(c)[..k]) == [REPLACEMENT]
  {
    DecodeCut(c, k);
    hide Encode, DecodeOne;
    assert Encode(c)[..k][k..] == [];
  }

  /** Main result: the first `k` bytes of a well-formed text decode to the characters that lie
      whole inside them, followed by one U+FFFD exactly when the cut splits a character. */
  lemma {:induction false} LossyPrefix(cs: seq<Scalar>, k: nat)
    requires k <= |EncodeAll(cs)|
    ensures var whole := cs[..Fit(cs, k)];
      Lossy(EncodeAll(cs)[..k]) == if IsBoundary(EncodeAll(cs), k) then whole else whole + [REPLACEMENT]
    decreases |cs|
  {
    hide Encode, DecodeOne, IsContinuation;
    var text := EncodeAll(cs);
    if cs == [] || k == 0 {
      hide EncodeAll;
      assert text[..k] == [] && cs[..Fit(cs, k)] == [];
    } else {
      var head, rest := Encode(cs[0]), EncodeAll(cs[1..]);
      LeadAndTail(cs[0]);
      assert text == head + rest;
      if k < |head| {
        hide EncodeAll, Lossy;
        assert text[..k] == head[..k] && cs[..Fit(cs, k)] == [];
        LossyCut(cs[0], k);
      } else {
        LossyPrefix(cs[1..], k - |head|);
        FirstByte(cs[1..]);
        hide EncodeAll, Lossy;
        assert text[..k] == head + rest[..k - |head|];
        LossyHead(cs[0], rest[..k - |head|]);
        assert cs[..Fit(cs, k)] == [cs[0]] + cs[1..][..Fit(cs[1..], k - |head|)];
        assert k < |text| ==> text[k] == rest[k - |head|];
      }
    }
  }

  /** Well-formed text survives decoding unchanged. */
  lemma LossyRoundTrip(cs: seq<Scalar>)
    ensures Lossy(EncodeAll(cs)) == cs
  {
    var text := EncodeAll(cs);
    LossyPrefix(cs, |text|);
    assert text[..|text|] == text;
    EncodePrefix(cs, |cs|);
    FitIsLongest(cs, |text|, |cs|);
  }

  // -- Ill-formed bytes ---------------------------------------------------

  /** Main result: decoding takes a whole well-formed character if one begins here; otherwise it gives one
      U+FFFD for the first byte and continuation bytes only, so that no character begins inside. */
  lemma DecodeOneIsRight(b: seq<byte>, c: Scalar)
    requires b != []
    ensures Encode(c) <= b ==> DecodeOne(b) == (c, |Encode(c)|)
    ensures var (d, n) := DecodeOne(b); Encode(d) == b[..n] || d == 0xFFFD
    ensures forall i | 0 < i < DecodeOne(b).1 :: IsContinuation(b[i])
  {
    if Encode(c) <= b {
      assert b == Encode(c) + b[|Encode(c)|..];
      DecodeEncode(c, b[|Encode(c)|..]);
    }
    DecodedIsEncoded(b);
  }

  lemma DecodedIsEncoded(b: seq<byte>)
    requires b != []
    ensures var (d, n) := DecodeOne(b); d == REPLACEMENT || Encode(d) == b[..n]
  {
    var lead: nat := b[0];
    if 0xC2 <= lead < 0xE0 {
      if ContinuesAt(b, 1) { TwoBytes(lead, b[1]); }
    } else if 0xE0 <= lead < 0xF0 {
      if SecondAt(b) && ContinuesAt(b, 2) { ThreeBytes(lead, b[1], b[2]); }
    } else if 0xF0 <= lead < 0xF5 {
      if SecondAt(b) && ContinuesAt(b, 2) && ContinuesAt(b, 3) { FourBytes(lead, b[1], b[2], b[3]); }
    }
  }

  lemma TwoBytes(a: byte, x: byte)
    requires 0xC2 <= a < 0xE0 && IsContinuation(x)
    ensures Encode((a - 0xC0) * 0x40 + Low6(x)) == [a, x]
  {
  }

  lemma ThreeBytes(a: byte, x: byte, y: byte)
    requires 0xE0 <= a < 0xF0 && SecondAllowed(a, x) && IsContinuation(y)
    ensures Encode(((a - 0xE0) * 0x40 + Low6(x)) * 0x40 + Low6(y)) == [a, x, y]
  {
  }

  lemma FourBytes(a: byte, x: byte, y: byte, z: byte)
    requires 0xF0 <= a < 0xF5 && SecondAllowed(a, x) && IsContinuation(y) && IsContinuation(z)
    ensures Encode((((a - 0xF0) * 0x40 + Low6(x)) * 0x40 + Low6(y)) * 0x40 + Low6(z)) == [a, x, y, z]
  {
    var e: nat := (a - 0xF0) * 0x40 + Low6(x);
    var d := e * 0x40 + Low6(y);
    var c := d * 0x40 + Low6(z);
    assert c / 0x40 == d && c % 0x40 == Low6(z);
    assert d / 0x40 == e && d % 0x40 == Low6(y);
    assert e / 0x40 == a - 0xF0 && e % 0x40 == Low6(x);
    assert 0x1_0000 <= c < 0x11_0000;
  }

  /** Bytes that do not continue a character do not change how those before them are read. */
  lemma DecodeLocal(b: seq<byte>, rest: seq<byte>)
    requires b != [] && (rest != [] ==> !IsContinuation(rest[0]))
    ensures DecodeOne(b + rest) == DecodeOne(b)
  {
    var all := b + rest;
    assert all[0] == b[0];
    assert forall i | 0 <= i < |b| :: all[i] == b[i];
    assert rest != [] ==> all[|b|] == rest[0];
  }

  /** Main result: whatever bytes come before it, a well-formed text is decoded whole. */
  lemma {:induction false} NothingLostAfter(b: seq<byte>, cs: seq<Scalar>)
    ensures Lossy(b + EncodeAll(cs)) == Lossy(b) + cs
    decreases |b|
  {
    var rest := EncodeAll(cs);
    if b == [] {
      assert b + rest == rest;
      LossyRoundTrip(cs);
    } else {
      FirstByte(cs);
      DecodeLocal(b, rest);
      hide DecodeOne, EncodeAll, Encode;
      var n := DecodeOne(b).1;
      assert (b + rest)[n..] == b[n..] + rest;
      NothingLostAfter(b[n..], cs);
    }
  }
}
