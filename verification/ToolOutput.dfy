/** The final guard on tool output: a byte ceiling that never splits a character. */
module ToolOutput {
  import opened Decimals

  const MAX_TOOL_RESULT_BYTES: nat := 64 * 1024
  /** A Rust string holds at most `isize::MAX` bytes. */
  const MAX_STRING_BYTES: nat := 0x7FFF_FFFF_FFFF_FFFF

  predicate IsContinuation(c: char) {
    0x80 <= c as int < 0xC0
  }

  predicate IsCharBoundary(s: string, i: nat) {
    i == 0 || i == |s| || (i < |s| && !IsContinuation(s[i]))
  }

  /** Whether `c` may follow the lead unit `b` (section 4 of RFC 3629: no overlong form, no surrogate, at most U+10FFFF). */
  predicate MaySecond(b: int, c: char) {
    var v := c as int;
    && 0x80 <= v < 0xC0
    && (b == 0xE0 ==> 0xA0 <= v)
    && (b == 0xED ==> v < 0xA0)
    && (b == 0xF0 ==> 0x90 <= v)
    && (b == 0xF4 ==> v < 0x90)
  }

  /** How many code units the first character takes; zero when there is no well-formed one. */
  function CharLen(s: string): nat
    requires s != []
  {
    var b := s[0] as int;
    if b < 0x80 then 1
    else if 0xC2 <= b <= 0xDF && |s| >= 2 && IsContinuation(s[1]) then 2
    else if 0xE0 <= b <= 0xEF && |s| >= 3 && MaySecond(b, s[1]) && IsContinuation(s[2]) then 3
    else if 0xF0 <= b <= 0xF4 && |s| >= 4 && MaySecond(b, s[1]) && IsContinuation(s[2]) && IsContinuation(s[3]) then 4
    else 0
  }

  predicate ValidUtf8(s: string) {
    s == [] || (CharLen(s) > 0 && ValidUtf8(s[CharLen(s)..]))
  }

  lemma {:induction false} ValidConcat(a: string, b: string)
    requires ValidUtf8(a) && ValidUtf8(b)
    ensures ValidUtf8(a + b)
  {
    if a == [] {
      assert a + b == b;
    } else {
      var k := CharLen(a);
      assert (a + b)[k..] == a[k..] + b;
      ValidConcat(a[k..], b);
    }
  }

  lemma FirstCharacter(s: string, i: nat)
    requires s != [] && CharLen(s) > 0 && 0 < i <= |s|
    ensures CharLen(s) <= i ==> CharLen(s[..i]) == CharLen(s)
    ensures i < CharLen(s) ==> IsContinuation(s[i])
  {
  }

  lemma {:induction false} SplitAtBoundary(s: string, i: nat)
    requires ValidUtf8(s) && i <= |s| && IsCharBoundary(s, i)
    ensures ValidUtf8(s[..i]) && ValidUtf8(s[i..])
  {
    if i == 0 {
      assert s[0..] == s;
    } else {
      var k := CharLen(s);
      FirstCharacter(s, i);
      SplitAtBoundary(s[k..], i - k);
      assert s[..i][k..] == s[k..][..i - k];
      assert s[k..][i - k..] == s[i..];
    }
  }

  /** No character is longer than four units, so no four units in a row continue one. */
  lemma {:induction false} BoundaryWithinFour(s: string, i: nat)
    requires ValidUtf8(s) && i + 4 <= |s|
    ensures exists j | i <= j < i + 4 :: !IsContinuation(s[j])
  {
    var k := CharLen(s);
    if i == 0 {
      assert !IsContinuation(s[0]);
    } else if i < k {
      assert k < |s| && s[k..][0] == s[k];
      assert CharLen(s[k..]) > 0 && !IsContinuation(s[k]);
    } else {
      BoundaryWithinFour(s[k..], i - k);
      var j :| i - k <= j < i - k + 4 && !IsContinuation(s[k..][j]);
      assert s[k + j] == s[k..][j];
    }
  }

  predicate IsAscii(s: string) {
    forall i | 0 <= i < |s| :: s[i] <= '\U{7F}'
  }

  lemma {:induction false} AsciiIsValid(s: string)
    requires IsAscii(s)
    ensures ValidUtf8(s)
  {
    if s != [] {
      AsciiIsValid(s[1..]);
    }
  }

  /** The marker's opening, with U+2026 as its three code units. */
  const MARKER_HEAD: string := "\n\n\U{E2}\U{80}\U{A6} "
  const OMITTED: string := " byte(s) omitted by the "
  const GUARD: string := "final tool-output guard. "
  const NARROW: string := "Narrow the request to "
  const INSPECT: string := "inspect the missing content.\n\n"
  const MARKER_TAIL: string := OMITTED + GUARD + NARROW + INSPECT

  function Marker(dropped: nat): string {
    MARKER_HEAD + Decimal(dropped) + MARKER_TAIL
  }

  lemma MarkerAdviceIsAscii()
    ensures IsAscii(NARROW) && IsAscii(INSPECT)
  {
  }

  lemma MarkerTailIsAscii()
    ensures IsAscii(MARKER_TAIL)
  {
    MarkerAdviceIsAscii();
    assert IsAscii(OMITTED);
    assert IsAscii(GUARD);
  }

  lemma AroundOneCharacterIsValid(before: string, character: string, after: string)
    requires IsAscii(before) && IsAscii(after)
    requires character != [] && CharLen(character) == |character|
    ensures ValidUtf8(before + character + after)
  {
    AsciiIsValid(before);
    AsciiIsValid(after);
    assert character[|character|..] == [];
    ValidConcat(before, character);
    ValidConcat(before + character, after);
  }

  lemma MarkerShapeIsValid(digits: string, tail: string)
    requires IsAscii(digits) && IsAscii(tail)
    ensures ValidUtf8(MARKER_HEAD + digits + tail)
  {
    var after := " " + digits + tail;
    AroundOneCharacterIsValid("\n\n", "\U{E2}\U{80}\U{A6}", after);
    assert MARKER_HEAD + digits + tail == "\n\n" + "\U{E2}\U{80}\U{A6}" + after;
  }

  lemma DecimalIsAscii(n: nat)
    ensures IsAscii(Decimal(n))
  {
    var digits := Decimal(n);
    assert forall i | 0 <= i < |digits| :: digits[i] in digits;
  }

  lemma MarkerIsValid(dropped: nat)
    ensures ValidUtf8(Marker(dropped))
  {
    DecimalIsAscii(dropped);
    MarkerTailIsAscii();
    MarkerShapeIsValid(Decimal(dropped), MARKER_TAIL);
  }

  lemma MarkerLength(dropped: nat)
    requires dropped <= MAX_STRING_BYTES
    ensures |Marker(dropped)| == 107 + |Decimal(dropped)| <= 126
  {
    Pow10Of19();
    NumeralFits(dropped, 19);
  }

  // ---- What the marker says.

  /** The run of digits a text begins with. */
  function LeadingDigits(s: string): (digits: string)
    ensures forall c | c in digits :: IsDigit(c)
  {
    if s == "" || !IsDigit(s[0]) then "" else [s[0]] + LeadingDigits(s[1..])
  }

  lemma {:induction false} DigitsBefore(digits: string, rest: string)
    requires (forall c | c in digits :: IsDigit(c)) && (rest == "" || !IsDigit(rest[0]))
    ensures LeadingDigits(digits + rest) == digits
  {
    if digits == "" {
      assert digits + rest == rest;
    } else {
      assert digits[0] in digits && (digits + rest)[1..] == digits[1..] + rest;
      DigitsBefore(digits[1..], rest);
    }
  }

  /** The count a reader finds at `at` in a truncated output. */
  function CountAt(output: string, at: nat): nat
    requires at <= |output|
  {
    Value(LeadingDigits(output[at..]))
  }

  /** Whoever reads the digits after the marker's opening reads the count it was made with. */
  lemma MarkerSaysHowMany(before: string, said: nat, after: string)
    ensures CountAt(before + Marker(said) + after, |before| + |MARKER_HEAD|) == said
  {
    MarkerTailBegins();
    DigitsInside(before, MARKER_HEAD, Decimal(said), MARKER_TAIL, after);
    ValueOfDecimal(said);
  }

  lemma MarkerTailBegins()
    ensures MARKER_TAIL != "" && !IsDigit(MARKER_TAIL[0])
  {
    assert MARKER_TAIL[0] == OMITTED[0];
  }

  lemma DigitsInside(before: string, head: string, digits: string, tail: string, after: string)
    requires (forall c | c in digits :: IsDigit(c)) && tail != "" && !IsDigit(tail[0])
    ensures LeadingDigits((before + (head + digits + tail) + after)[|before| + |head|..]) == digits
  {
    var s := before + (head + digits + tail) + after;
    assert s[|before| + |head|..] == digits + (tail + after);
    DigitsBefore(digits, tail + after);
  }

  function SaturatingSub(a: nat, b: nat): nat {
    if a < b then 0 else a - b
  }

  datatype BoundedOutput = BoundedOutput(output: string, originalBytes: nat, retainedBytes: nat)

  /**
    `out` is a prefix and a disjoint suffix of `s`, cut at character boundaries around a
    marker that says `said` bytes are missing, which is at most five short of the truth.
    The two ends kept are about equally long.
   */
  predicate IsTruncation(s: string, out: string, head: nat, tail: nat, said: nat) {
    && head <= tail <= |s|
    && IsCharBoundary(s, head) && IsCharBoundary(s, tail)
    && out == s[..head] + Marker(said) + s[tail..]
    && MAX_TOOL_RESULT_BYTES - 3 <= |out| <= MAX_TOOL_RESULT_BYTES
    && said <= tail - head <= said + 5
    && head - 3 <= |s| - tail <= head + 7
  }

  /** `out` is what the guard makes of `text`: the text itself while it is short enough, else a truncation of it. */
  ghost predicate IsBounded(text: string, out: string) {
    if |text| <= MAX_TOOL_RESULT_BYTES then out == text
    else exists head, tail, said :: IsTruncation(text, out, head, tail, said)
  }

  /** The two passes that size the marker: the second prints the bytes the first one's marker displaces. */
  method FitMarker(originalBytes: nat) returns (marker: string, retained: nat, ghost said: nat)
    requires MAX_TOOL_RESULT_BYTES < originalBytes <= MAX_STRING_BYTES
    ensures marker == Marker(said) && retained + |marker| == MAX_TOOL_RESULT_BYTES
    ensures said <= originalBytes - retained <= said + 2
  {
    marker, retained, said := "", MAX_TOOL_RESULT_BYTES, 0;
    for pass := 0 to 2
      invariant pass == 0 ==> retained == MAX_TOOL_RESULT_BYTES
      invariant pass > 0 ==> said <= originalBytes && marker == Marker(said)
      invariant pass > 0 ==> retained + |marker| == MAX_TOOL_RESULT_BYTES
      invariant pass == 1 ==> said == originalBytes - MAX_TOOL_RESULT_BYTES
      invariant pass == 2 ==> said <= originalBytes - retained <= said + 2
    {
      var dropped := SaturatingSub(originalBytes, retained);
      MarkerLength(dropped);
      if pass == 1 {
        MarkerLength(said);
        TwoMoreDigits(said, dropped - said);
      }
      marker, said := Marker(dropped), dropped;
      retained := SaturatingSub(MAX_TOOL_RESULT_BYTES, |marker|);
    }
  }

  lemma TruncationIsValid(s: string, out: string, head: nat, tail: nat, said: nat)
    requires ValidUtf8(s) && IsTruncation(s, out, head, tail, said)
    ensures ValidUtf8(out)
  {
    SplitAtBoundary(s, head);
    SplitAtBoundary(s, tail);
    MarkerIsValid(said);
    ValidConcat(s[..head], Marker(said));
    ValidConcat(s[..head] + Marker(said), s[tail..]);
  }

  method BoundToolOutput(output: string) returns (b: BoundedOutput)
    requires ValidUtf8(output) && |output| <= MAX_STRING_BYTES
    ensures b.originalBytes == |output| && b.retainedBytes == |b.output|
    ensures b.retainedBytes <= b.originalBytes && b.retainedBytes <= MAX_TOOL_RESULT_BYTES
    ensures ValidUtf8(b.output) && IsBounded(output, b.output)
  {
    var n := |output|;
    if n <= MAX_TOOL_RESULT_BYTES {
      return BoundedOutput(output, n, n);
    }
    var marker, retained, said := FitMarker(n);
    var head, tail := CutPoints(output, retained);
    var bounded := output[..head] + marker + output[tail..];
    assert IsTruncation(output, bounded, head, tail, said);
    TruncationIsValid(output, bounded, head, tail, said);
    b := BoundedOutput(bounded, n, |bounded|);
  }

  /** Where the kept prefix ends and the kept suffix starts: backwards, then forwards, to a character boundary. */
  method CutPoints(output: string, retained: nat) returns (head: nat, tail: nat)
    requires ValidUtf8(output) && retained <= |output|
    ensures head <= tail <= |output| && IsCharBoundary(output, head) && IsCharBoundary(output, tail)
    ensures retained / 2 - 3 <= head <= retained / 2
    ensures retained - 3 <= head + (|output| - tail) <= retained
  {
    head := retained / 2;
    while head > 0 && !IsCharBoundary(output, head)
      invariant 0 <= head <= retained / 2
      invariant forall j | head < j <= retained / 2 :: IsContinuation(output[j])
    {
      head := head - 1;
    }
    if head + 4 <= retained / 2 {
      BoundaryWithinFour(output, head + 1);
      assert false;
    }
    tail := SaturatingSub(|output|, SaturatingSub(retained, head));
    ghost var from := tail;
    while tail < |output| && !IsCharBoundary(output, tail)
      invariant from <= tail <= |output|
      invariant forall j | from <= j < tail :: IsContinuation(output[j])
    {
      tail := tail + 1;
    }
    if from + 4 <= tail {
      BoundaryWithinFour(output, from);
      assert false;
    }
  }
}
