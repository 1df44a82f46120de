/** Interval vocabulary: the size and quality enumerations, the interval
    value with its string parser, and the two operations the note arithmetic
    needs from it — the semitone count (`steps`) and inversion (`~`). */
module Intervals {
  import opened Common

  /** Simple interval sizes; the enum values are UNISON = 0 ... OCTAVE = 7. */
  datatype Size = Unison | Second | Third | Fourth | Fifth | Sixth | Seventh | Octave

  /** The five interval qualities, all distinct. */
  datatype Quality = Diminished | Minor | Perfect | Major | Augmented

  /** An interval is a (quality, size) pair; `Interval.from_attrs` is the
      constructor and stores any pair, and equality compares both fields. */
  datatype Interval = Interval(quality: Quality, size: Size)

  function SizeValue(s: Size): (v: nat)
    ensures v <= 7
  {
    match s
    case Unison => 0
    case Second => 1
    case Third => 2
    case Fourth => 3
    case Fifth => 4
    case Sixth => 5
    case Seventh => 6
    case Octave => 7
  }

  /** The member whose value is `v`. */
  function SizeMember(v: int): (s: Size)
    requires 0 <= v <= 7
    ensures SizeValue(s) == v
  {
    if v == 0 then Unison
    else if v == 1 then Second
    else if v == 2 then Third
    else if v == 3 then Fourth
    else if v == 4 then Fifth
    else if v == 5 then Sixth
    else if v == 6 then Seventh
    else Octave
  }

  /** `Size(v)`: a value with a member maps to it; any other value is reduced
      by `_missing_` to `v % 7 or 7`, so a compound size becomes its simple
      equivalent and is never a unison. */
  function SizeOf(v: int): (s: Size)
    ensures SizeValue(s) % 7 == v % 7
    ensures 0 <= v <= 7 ==> SizeValue(s) == v
    ensures !(0 <= v <= 7) ==> s != Unison
  {
    if 0 <= v <= 7 then SizeMember(v)
    else SizeMember(if v % 7 == 0 then 7 else v % 7)
  }

  /** Every member is `Size` of its own value. */
  lemma SizeOfValue(s: Size)
    ensures SizeOf(SizeValue(s)) == s
  {
  }

  /** `~size`: the size that completes it to an octave. */
  function InvertSize(s: Size): Size {
    SizeOf(7 - SizeValue(s))
  }

  lemma InvertSizePairs(s: Size)
    ensures SizeValue(s) + SizeValue(InvertSize(s)) == 7
    ensures InvertSize(InvertSize(s)) == s
    ensures s == Unison <==> InvertSize(s) == Octave
    ensures s == Second <==> InvertSize(s) == Seventh
    ensures s == Third <==> InvertSize(s) == Sixth
    ensures s == Fourth <==> InvertSize(s) == Fifth
  {
  }

  // ---------------------------------------------------------------------
  // Assumed behaviour of `interval.steps` and `~interval`: neither is defined
  // by the source files of this model, which only use them.

  /** Sizes whose natural form is perfect. */
  predicate IsPerfectClass(s: Size) {
    s == Unison || s == Fourth || s == Fifth || s == Octave
  }

  /** The 28 (quality, size) pairs that have a semitone count: perfect-class
      sizes take diminished, perfect or augmented; the others take
      diminished, minor, major or augmented. */
  predicate Legal(i: Interval) {
    if IsPerfectClass(i.size) then
      i.quality == Diminished || i.quality == Perfect || i.quality == Augmented
    else
      i.quality != Perfect
  }

  /** Semitones of the perfect or major form of each size. */
  function NaturalSteps(s: Size): int {
    match s
    case Unison => 0
    case Second => 2
    case Third => 4
    case Fourth => 5
    case Fifth => 7
    case Sixth => 9
    case Seventh => 11
    case Octave => 12
  }

  /** `interval.steps`: d1 = -1, P1 = 0, A1 = 1, d2 = 0, m2 = 1, ... P8 = 12, A8 = 13. */
  function Steps(i: Interval): int
    requires Legal(i)
  {
    NaturalSteps(i.size) +
      match i.quality
      case Perfect => 0
      case Major => 0
      case Augmented => 1
      case Minor => -1
      case Diminished => if IsPerfectClass(i.size) then -1 else -2
  }

  function InvertQuality(q: Quality): Quality {
    match q
    case Perfect => Perfect
    case Major => Minor
    case Minor => Major
    case Diminished => Augmented
    case Augmented => Diminished
  }

  /** `~interval`: the size is inverted and the quality mirrored. */
  function Inverse(i: Interval): Interval {
    Interval(InvertQuality(i.quality), InvertSize(i.size))
  }

  /** Inversion is an involution, keeps legality, and the two intervals
      together span exactly one octave. */
  lemma InverseSteps(i: Interval)
    ensures Inverse(Inverse(i)) == i
    ensures Legal(Inverse(i)) <==> Legal(i)
    ensures Legal(i) ==> Steps(i) + Steps(Inverse(i)) == 12
  {
    InvertSizePairs(i.size);
  }

  // ---------------------------------------------------------------------
  // Interval.from_string

  function QualityFromChar(c: char): Option<Quality> {
    if c == 'P' || c == 'p' then Some(Perfect)
    else if c == 'M' then Some(Major)
    else if c == 'm' then Some(Minor)
    else if c == 'd' || c == 'D' then Some(Diminished)
    else if c == 'A' || c == 'a' then Some(Augmented)
    else None
  }

  /** Canonical quality letter. */
  function QualityChar(q: Quality): char {
    match q
    case Perfect => 'P'
    case Major => 'M'
    case Minor => 'm'
    case Diminished => 'd'
    case Augmented => 'A'
  }

  /** `Interval.from_string`: the stripped text's first character is the
      quality and the rest its 1-based size. The size is converted and
      checked before the quality is looked up. A result carries the quality
      of the first character and the size `n - 1` of the 1-based number `n`
      that follows: exactly that size up to an octave, beyond it the simple
      size of the same degree, never a unison; an unknown quality is only reported
      once the size has passed. */
  function IntervalFromString(text: string): (r: Result<Interval>)
    ensures r.Ok? ==> |Strip(text)| > 0 && QualityFromChar(Strip(text)[0]) == Some(r.value.quality)
    ensures r.Ok? ==> var n := ParseInt(Strip(text)[1..]);
      && n.Some? && n.value >= 1
      && SizeValue(r.value.size) % 7 == (n.value - 1) % 7
      && (n.value <= 8 ==> SizeValue(r.value.size) == n.value - 1)
      && (n.value > 8 ==> r.value.size != Unison)
    ensures r == Err(UnrecognizedIntervalQuality) ==>
      |Strip(text)| > 0 && ParseInt(Strip(text)[1..]).Some? && ParseInt(Strip(text)[1..]).value >= 1
    ensures r.Err? ==>
      r.error in {EmptyText, InvalidIntervalString, InvalidIntervalSize, UnrecognizedIntervalQuality}
    ensures Strip(text) == [] ==> r == Err(EmptyText)
    ensures var s := Strip(text); |s| > 0 && ParseInt(s[1..]).None? ==> r == Err(InvalidIntervalString)
    ensures var s := Strip(text);
      |s| > 0 && ParseInt(s[1..]).Some? && ParseInt(s[1..]).value <= 0 ==> r == Err(InvalidIntervalSize)
    ensures var s := Strip(text);
      |s| > 0 && ParseInt(s[1..]).Some? && ParseInt(s[1..]).value >= 1 ==>
        (r.Ok? <==> QualityFromChar(s[0]).Some?)
  {
    var s := Strip(text);
    if |s| == 0 then Err(EmptyText)
    else
      match ParseInt(s[1..])
      case None => Err(InvalidIntervalString)
      case Some(n) =>
        if n <= 0 then Err(InvalidIntervalSize)
        else
          match QualityFromChar(s[0])
          case None => Err(UnrecognizedIntervalQuality)
          case Some(q) => Ok(Interval(q, SizeOf(n - 1)))
  }

  /** How a text that is already stripped parses. */
  lemma IntervalFromStrippedText(s: string, n: int, q: Quality)
    requires |s| > 0 && Strip(s) == s
    requires ParseInt(s[1..]) == Some(n) && n > 0
    requires QualityFromChar(s[0]) == Some(q)
    ensures IntervalFromString(s) == Ok(Interval(q, SizeOf(n - 1)))
  {
  }

  /** Parsing a quality letter followed by any positive size `n` gives that
      quality and the simple size of `n - 1`; a 1-based simple size comes
      back unchanged. */
  lemma {:induction false} IntervalTextRoundTrip(q: Quality, n: nat)
    requires n >= 1
    ensures IntervalFromString([QualityChar(q)] + NatToString(n)) == Ok(Interval(q, SizeOf(n - 1)))
    ensures n <= 8 ==> IntervalFromString([QualityChar(q)] + NatToString(n)) == Ok(Interval(q, SizeMember(n - 1)))
  {
    var digits := NatToString(n);
    var s := [QualityChar(q)] + digits;
    StripUnchanged(s);
    assert s[1..] == digits;
    NatToStringValue(n);
    ParseDigitText(digits);
    assert s[0] == QualityChar(q);
    QualityCharParses(q);
    IntervalFromStrippedText(s, n, q);
  }

  lemma QualityCharParses(q: Quality)
    ensures QualityFromChar(QualityChar(q)) == Some(q)
  {
  }

  /** Every quality letter the parser accepts, with its quality. */
  lemma QualityLetters(c: char, q: Quality)
    ensures QualityFromChar(c) == Some(q) <==>
      || (q == Perfect && (c == 'P' || c == 'p'))
      || (q == Major && c == 'M')
      || (q == Minor && c == 'm')
      || (q == Diminished && (c == 'd' || c == 'D'))
      || (q == Augmented && (c == 'A' || c == 'a'))
  {
  }

  /** Compound sizes reduce to simple ones, after surrounding white space is
      stripped. */
  lemma IntervalParseCompound()
    ensures IntervalFromString(" d10") == Ok(Interval(Diminished, Third))
  {
    assert " d10"[1..] == "d10";
    assert TrimStart(" d10") == TrimStart("d10");
    StripUnchanged("d10");
    assert "d10"[1..] == "10";
    ParseDigitText("10");
    IntervalFromStrippedText("d10", 10, Diminished);
  }

  lemma IntervalParseEleventh()
    ensures IntervalFromString("A11") == Ok(Interval(Augmented, Fourth))
  {
    StripUnchanged("A11");
    assert "A11"[1..] == "11";
    ParseDigitText("11");
    IntervalFromStrippedText("A11", 11, Augmented);
  }

  lemma IntervalParseSimple()
    ensures IntervalFromString("a8") == Ok(Interval(Augmented, Octave))
    ensures IntervalFromString("M5") == Ok(Interval(Major, Fifth))
  {
    IntervalParseAugmentedOctave();
    IntervalParseMajorFifth();
  }

  lemma IntervalParseAugmentedOctave()
    ensures IntervalFromString("a8") == Ok(Interval(Augmented, Octave))
  {
    StripUnchanged("a8");
    assert "a8"[1..] == "8";
    ParseDigitText("8");
    IntervalFromStrippedText("a8", 8, Augmented);
  }

  lemma IntervalParseMajorFifth()
    ensures IntervalFromString("M5") == Ok(Interval(Major, Fifth))
  {
    StripUnchanged("M5");
    assert "M5"[1..] == "5";
    ParseDigitText("5");
    IntervalFromStrippedText("M5", 5, Major);
  }

  /** The size is checked before the quality: 'Zx' reports the size. */
  lemma IntervalParseFailures()
    ensures IntervalFromString("P0") == Err(InvalidIntervalSize)
    ensures IntervalFromString("Z5") == Err(UnrecognizedIntervalQuality)
    ensures IntervalFromString("Zx") == Err(InvalidIntervalString)
  {
    IntervalParseZeroSize();
    IntervalParseUnknownQuality();
    IntervalParseNoSize();
  }

  lemma IntervalParseZeroSize()
    ensures IntervalFromString("P0") == Err(InvalidIntervalSize)
  {
    StripUnchanged("P0");
    assert "P0"[1..] == "0";
    ParseDigitText("0");
  }

  lemma IntervalParseUnknownQuality()
    ensures IntervalFromString("Z5") == Err(UnrecognizedIntervalQuality)
  {
    StripUnchanged("Z5");
    assert "Z5"[1..] == "5";
    ParseDigitText("5");
  }

  lemma IntervalParseNoSize()
    ensures IntervalFromString("Zx") == Err(InvalidIntervalString)
  {
    StripUnchanged("Zx");
    assert "Zx"[1..] == "x";
    StripUnchanged("x");
  }
}
