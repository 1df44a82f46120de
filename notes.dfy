/** Pitch spelling: letter names, accidentals, pitch classes (`NoteName`) and
    notes with an octave (`Note`), their text forms, their arithmetic with
    intervals, their ordering, and the interval `distance` between two notes. */
module Notes {
  import opened Common
  import opened Intervals

  // ---------------------------------------------------------------------
  // LetterName and Accidental

  /** The seven letters in definition order C, D, E, F, G, A, B. */
  datatype LetterName = C | D | E | F | G | A | B

  /** `steps_above_C`. */
  function LetterOffset(l: LetterName): int {
    match l
    case C => 0
    case D => 2
    case E => 4
    case F => 5
    case G => 7
    case A => 9
    case B => 11
  }

  /** Position of the letter in `[*LetterName]`. */
  function LetterIndex(l: LetterName): (k: int)
    ensures 0 <= k < 7
  {
    match l
    case C => 0
    case D => 1
    case E => 2
    case F => 3
    case G => 4
    case A => 5
    case B => 6
  }

  /** `letters[k]`. */
  function LetterAt(k: int): (l: LetterName)
    requires 0 <= k < 7
    ensures LetterIndex(l) == k
  {
    if k == 0 then C
    else if k == 1 then D
    else if k == 2 then E
    else if k == 3 then F
    else if k == 4 then G
    else if k == 5 then A
    else B
  }

  /** Letter offsets grow with the letter index, so both orders agree. */
  lemma LetterOffsetMonotone(l: LetterName, m: LetterName)
    ensures LetterIndex(l) < LetterIndex(m) <==> LetterOffset(l) < LetterOffset(m)
    ensures LetterIndex(l) == LetterIndex(m) <==> l == m
    ensures 0 <= LetterOffset(l) < 12
  {
  }

  /** The member name, which is also the canonical spelling. */
  function LetterChar(l: LetterName): char {
    match l
    case C => 'C'
    case D => 'D'
    case E => 'E'
    case F => 'F'
    case G => 'G'
    case A => 'A'
    case B => 'B'
  }

  /** `LetterName[name]`. */
  function LetterNamed(name: string): Option<LetterName> {
    if name == "C" then Some(C)
    else if name == "D" then Some(D)
    else if name == "E" then Some(E)
    else if name == "F" then Some(F)
    else if name == "G" then Some(G)
    else if name == "A" then Some(A)
    else if name == "B" then Some(B)
    else None
  }

  /** `LetterName.from_string`: strip, upper-case, look the name up. The
      stripped text upper-cases to the letter's own one-character name, and
      nothing else than an invalid letter can go wrong. */
  function LetterFromString(text: string): (r: Result<LetterName>)
    ensures r.Ok? ==> UpperString(Strip(text)) == [LetterChar(r.value)]
    ensures r.Err? ==> r.error == InvalidLetter
  {
    match LetterNamed(UpperString(Strip(text)))
    case None => Err(InvalidLetter)
    case Some(l) => Ok(l)
  }

  /** A single character names a letter exactly when it is that letter in
      either case. */
  lemma LetterFromChar(c: char, l: LetterName)
    ensures LetterFromString([c]) == Ok(l) <==>
      c == LetterChar(l) || c == (LetterChar(l) as int + 32) as char
  {
    if IsSpace(c) {
      assert TrimStart([c]) == TrimStart([]);
    } else {
      StripUnchanged([c]);
    }
  }

  lemma LetterFromCharFails(c: char)
    requires !('A' <= c <= 'G') && !('a' <= c <= 'g')
    ensures LetterFromString([c]) == Err(InvalidLetter)
  {
    if IsSpace(c) {
      assert TrimStart([c]) == TrimStart([]);
    } else {
      StripUnchanged([c]);
    }
  }

  datatype Accidental = DoubleFlat | Flat | Natural | Sharp | DoubleSharp

  function AccidentalOffset(a: Accidental): (o: int)
    ensures -2 <= o <= 2
  {
    match a
    case DoubleFlat => -2
    case Flat => -1
    case Natural => 0
    case Sharp => 1
    case DoubleSharp => 2
  }

  /** `Accidental(offset)`: only the offsets -2..2 have a member. */
  function AccidentalFromOffset(o: int): (r: Option<Accidental>)
    ensures r.Some? <==> -2 <= o <= 2
    ensures r.Some? ==> AccidentalOffset(r.value) == o
  {
    if o == -2 then Some(DoubleFlat)
    else if o == -1 then Some(Flat)
    else if o == 0 then Some(Natural)
    else if o == 1 then Some(Sharp)
    else if o == 2 then Some(DoubleSharp)
    else None
  }

  lemma AccidentalOffsetRoundTrip(a: Accidental)
    ensures AccidentalFromOffset(AccidentalOffset(a)) == Some(a)
  {
  }

  /** The ASCII spelling `__str__` uses. */
  function AccidentalText(a: Accidental): string {
    match a
    case DoubleFlat => "bb"
    case Flat => "b"
    case Natural => ""
    case Sharp => "#"
    case DoubleSharp => "x"
  }

  /** The musical-symbol glyph of an accidental; the natural sign stands
      for the natural. */
  function AccidentalGlyph(a: Accidental): string {
    match a
    case DoubleFlat => "\U{1D12B}"
    case Flat => "\U{266D}"
    case Natural => "\U{266E}"
    case Sharp => "\U{266F}"
    case DoubleSharp => "\U{1D12A}"
  }

  /** `Accidental.from_string`: the stripped text is looked up among the
      ASCII spellings and the five musical-symbol glyphs. A result is an
      accidental the stripped text spells, in either form. */
  function AccidentalFromString(text: string): (r: Result<Accidental>)
    ensures r.Ok? ==> Strip(text) == AccidentalText(r.value) || Strip(text) == AccidentalGlyph(r.value)
    ensures r.Err? ==> r.error == InvalidAccidental
  {
    var t := Strip(text);
    if t == "\U{1D12B}" || t == "bb" then Ok(DoubleFlat)
    else if t == "\U{266D}" || t == "b" then Ok(Flat)
    else if t == "\U{266E}" || t == "" then Ok(Natural)
    else if t == "\U{266F}" || t == "#" then Ok(Sharp)
    else if t == "\U{1D12A}" || t == "x" then Ok(DoubleSharp)
    else Err(InvalidAccidental)
  }

  /** Every glyph parses back to its accidental. */
  lemma AccidentalGlyphRoundTrip(a: Accidental)
    ensures AccidentalFromString(AccidentalGlyph(a)) == Ok(a)
  {
    StripUnchanged(AccidentalGlyph(a));
  }

  /** Every ASCII spelling parses back to its accidental. */
  lemma AccidentalTextRoundTrip(a: Accidental)
    ensures AccidentalFromString(AccidentalText(a)) == Ok(a)
  {
    StripUnchanged(AccidentalText(a));
  }

  /** No character of an accidental spelling can start an octave number. */
  lemma AccidentalTextNoOctaveChar(a: Accidental)
    ensures forall j :: 0 <= j < |AccidentalText(a)| ==> !IsOctaveChar(AccidentalText(a)[j])
  {
  }

  // ---------------------------------------------------------------------
  // NoteName

  /** A spelled pitch class. Equality compares letter and accidental. */
  datatype NoteName = NoteName(letter: LetterName, accidental: Accidental)

  /** `NoteName.pitch`, which is also its hash. */
  function NamePitch(n: NoteName): (p: int)
    ensures 0 <= p < 12
  {
    (LetterOffset(n.letter) + AccidentalOffset(n.accidental)) % 12
  }

  /** `NoteName.__str__`. */
  function NameToString(n: NoteName): (r: string)
    ensures |r| > 0 && r[0] == LetterChar(n.letter)
  {
    [LetterChar(n.letter)] + AccidentalText(n.accidental)
  }

  /** `NoteName.from_string`: the first stripped character is the letter, the
      rest (stripped again) the accidental. A result's letter is the first
      character in either case and its accidental is spelled by the rest. */
  function NameFromString(text: string): (r: Result<NoteName>)
    ensures r.Ok? ==> |Strip(text)| > 0 && Upper(Strip(text)[0]) == LetterChar(r.value.letter)
    ensures r.Ok? ==> var rest := Strip(Strip(text)[1..]);
      rest == AccidentalText(r.value.accidental) || rest == AccidentalGlyph(r.value.accidental)
    ensures r.Err? ==> r.error in {EmptyText, InvalidLetter, InvalidAccidental}
  {
    var s := Strip(text);
    if |s| == 0 then Err(EmptyText)
    else
      var letter :- LetterFromString([s[0]]);
      var accidental :- AccidentalFromString(s[1..]);
      StripUnchanged([s[0]]);
      Ok(NoteName(letter, accidental))
  }

  /** `str` then parse gives back the same note name. */
  lemma NameTextRoundTrip(n: NoteName)
    ensures NameFromString(NameToString(n)) == Ok(n)
  {
    var s := NameToString(n);
    assert s[|s| - 1] != ' ';
    StripUnchanged(s);
    LetterFromChar(LetterChar(n.letter), n.letter);
    assert s[1..] == AccidentalText(n.accidental);
    AccidentalTextRoundTrip(n.accidental);
  }

  // ---------------------------------------------------------------------
  // NoteName + Interval and NoteName - Interval

  /** `m` is a correct spelling of `n` moved up by `i`: the letter advances by
      the interval size and the pitch class by the interval's semitones. */
  predicate NameSpells(n: NoteName, i: Interval, m: NoteName) {
    && Legal(i)
    && LetterIndex(m.letter) == (LetterIndex(n.letter) + SizeValue(i.size)) % 7
    && NamePitch(m) == (NamePitch(n) + Steps(i)) % 12
  }

  /** `min(offset, offset - 12, key=abs)` for an offset in 0..11; the tie at 6
      keeps the first argument. */
  function NearestOffset(o: int): (r: int)
    requires 0 <= o < 12
    ensures -5 <= r <= 6 && (r - o) % 12 == 0
  {
    if o <= 6 then o else o - 12
  }

  /** Moving by `offset` from `letter` lands where moving by `steps` from
      `pitch` does, once `offset` agrees with `steps - (letter - pitch)`. */
  lemma AddModulo(letter: int, pitch: int, steps: int, offset: int)
    requires (offset - (steps - (letter - pitch)) % 12) % 12 == 0
    ensures (letter + offset) % 12 == (pitch + steps) % 12
  {
  }

  /** An offset congruent to `steps - (letter - pitch)` agrees modulo 12 with
      any accidental offset that moves `letter` to where `steps` moves `pitch`. */
  lemma OffsetsAgree(letter: int, pitch: int, steps: int, offset: int, a: int)
    requires (offset - (steps - (letter - pitch)) % 12) % 12 == 0
    requires (letter + a) % 12 == (pitch + steps) % 12
    ensures (offset - a) % 12 == 0
  {
  }

  /** Going forward by `d` from `x` to `y` and then forward by `k - d`
      returns to `x`, for the two moduli the model uses (letters and
      semitones). */
  lemma ReturnModulo(x: int, y: int, d: int, e: int, k: int)
    requires k == 7 || k == 12
    requires 0 <= x < k && y == (x + d) % k && d + e == k
    ensures (y + e) % k == x
  {
  }

  lemma AddModulus(x: int, k: int)
    requires k == 7 || k == 12
    ensures (x + k) % k == x % k
  {
  }

  /** Two offsets in the window -5..6 that agree modulo 12 are equal. */
  lemma WindowUnique(x: int, y: int)
    requires -5 <= x <= 6 && -5 <= y <= 6 && (x - y) % 12 == 0
    ensures x == y
  {
  }

  /** `NoteName.__add__`. The semitone count of an illegal interval is
      undefined; an accidental outside double-flat..double-sharp fails. */
  function AddInterval(n: NoteName, i: Interval): (r: Result<NoteName>)
    ensures r.Ok? ==> NameSpells(n, i, r.value)
    ensures !Legal(i) ==> r == Err(UndefinedSteps)
    ensures Legal(i) && r.Err? ==> r.error == AccidentalOutOfRange
  {
    if !Legal(i) then Err(UndefinedSteps)
    else
      var letter := LetterAt((LetterIndex(n.letter) + SizeValue(i.size)) % 7);
      var distance := LetterOffset(letter) - NamePitch(n);
      var offset := NearestOffset((Steps(i) - distance) % 12);
      match AccidentalFromOffset(offset)
      case None => Err(AccidentalOutOfRange)
      case Some(a) =>
        AddModulo(LetterOffset(letter), NamePitch(n), Steps(i), offset);
        Ok(NoteName(letter, a))
  }

  /** The addition finds every correct spelling: whenever some note name
      spells `n + i`, the addition returns exactly that one. */
  lemma AddIntervalComplete(n: NoteName, i: Interval, m: NoteName)
    requires NameSpells(n, i, m)
    ensures AddInterval(n, i) == Ok(m)
  {
    var letter := LetterAt((LetterIndex(n.letter) + SizeValue(i.size)) % 7);
    LetterOffsetMonotone(letter, m.letter);
    assert letter == m.letter;
    var distance := LetterOffset(letter) - NamePitch(n);
    var offset := NearestOffset((Steps(i) - distance) % 12);
    var a := AccidentalOffset(m.accidental);
    OffsetsAgree(LetterOffset(letter), NamePitch(n), Steps(i), offset, a);
    WindowUnique(offset, a);
    AccidentalOffsetRoundTrip(m.accidental);
  }

  /** `NoteName - Interval` is `NoteName + ~Interval`. */
  function SubtractInterval(n: NoteName, i: Interval): (r: Result<NoteName>)
    ensures r.Ok? ==> Legal(i)
    ensures r.Ok? ==> LetterIndex(r.value.letter) == (LetterIndex(n.letter) - SizeValue(i.size)) % 7
    ensures r.Ok? ==> NamePitch(r.value) == (NamePitch(n) - Steps(i)) % 12
  {
    var r := AddInterval(n, Inverse(i));
    if r.Ok? then
      SubtractionSpells(n, i, r.value);
      r
    else
      r
  }

  /** A name that the inverse of `i` spells from `n` lies `i` below `n`. */
  lemma SubtractionSpells(n: NoteName, i: Interval, m: NoteName)
    requires NameSpells(n, Inverse(i), m)
    ensures Legal(i)
    ensures LetterIndex(m.letter) == (LetterIndex(n.letter) - SizeValue(i.size)) % 7
    ensures NamePitch(m) == (NamePitch(n) - Steps(i)) % 12
  {
    InverseSteps(i);
    InvertSizePairs(i.size);
    AddModulus(LetterIndex(n.letter) - SizeValue(i.size), 7);
    AddModulus(NamePitch(n) - Steps(i), 12);
  }

  /** `(n + i) - i == n` whenever `n + i` is defined. */
  lemma AddThenSubtract(n: NoteName, i: Interval)
    requires AddInterval(n, i).Ok?
    ensures SubtractInterval(AddInterval(n, i).value, i) == Ok(n)
  {
    var m := AddInterval(n, i).value;
    InverseSpellsBack(n, i, m);
    AddIntervalComplete(m, Inverse(i), n);
  }

  /** If `i` spells `m` from `n`, its inverse spells `n` from `m`. */
  lemma InverseSpellsBack(n: NoteName, i: Interval, m: NoteName)
    requires NameSpells(n, i, m)
    ensures NameSpells(m, Inverse(i), n)
  {
    InverseSteps(i);
    InvertSizePairs(i.size);
    ReturnModulo(LetterIndex(n.letter), LetterIndex(m.letter), SizeValue(i.size), SizeValue(InvertSize(i.size)), 7);
    ReturnModulo(NamePitch(n), NamePitch(m), Steps(i), Steps(Inverse(i)), 12);
  }

  /** `(n - i) + i == n` whenever `n - i` is defined. */
  lemma SubtractThenAdd(n: NoteName, i: Interval)
    requires SubtractInterval(n, i).Ok?
    ensures AddInterval(SubtractInterval(n, i).value, i) == Ok(n)
  {
    InverseSteps(i);
    AddThenSubtract(n, Inverse(i));
  }

  /** `n - i` is `m` exactly when `m + i` is `n`: subtraction finds the one
      name `i` below `n`, and fails exactly when no such name exists. */
  lemma SubtractMeansAdd(n: NoteName, i: Interval, m: NoteName)
    ensures SubtractInterval(n, i) == Ok(m) <==> AddInterval(m, i) == Ok(n)
  {
    if SubtractInterval(n, i) == Ok(m) {
      SubtractThenAdd(n, i);
    }
    if AddInterval(m, i) == Ok(n) {
      AddThenSubtract(m, i);
    }
  }

  /** Adding a perfect unison never changes the note name. */
  lemma AddPerfectUnison(n: NoteName)
    ensures AddInterval(n, Interval(Perfect, Unison)) == Ok(n)
  {
    AddIntervalComplete(n, Interval(Perfect, Unison), n);
  }

  /** Adding `intervals[j]` to `root` is the first addition that fails. */
  predicate FirstFailure(root: NoteName, intervals: seq<Interval>, j: int, e: Error) {
    && 0 <= j < |intervals|
    && AddInterval(root, intervals[j]) == Err(e)
    && forall k {:trigger AddInterval(root, intervals[k])} :: 0 <= k < j ==> AddInterval(root, intervals[k]).Ok?
  }

  /** `[root + i for i in intervals]`: the first failing addition fails the
      whole list. */
  function AddEach(root: NoteName, intervals: seq<Interval>): (r: Result<seq<NoteName>>)
    ensures r.Ok? ==> |r.value| == |intervals|
  {
    if intervals == [] then Ok([])
    else
      var first :- AddInterval(root, intervals[0]);
      var rest :- AddEach(root, intervals[1..]);
      Ok([first] + rest)
  }

  /** Each name of a successful list is the sum with its interval. */
  lemma {:induction false} AddEachAt(root: NoteName, intervals: seq<Interval>, j: int)
    requires AddEach(root, intervals).Ok? && 0 <= j < |intervals|
    ensures AddInterval(root, intervals[j]) == Ok(AddEach(root, intervals).value[j])
  {
    if j > 0 {
      AddEachAt(root, intervals[1..], j - 1);
    }
  }

  /** A list whose every addition succeeds is the list of the results. */
  lemma {:induction false} AddEachSucceeds(root: NoteName, intervals: seq<Interval>, names: seq<NoteName>)
    requires |names| == |intervals|
    requires forall j :: 0 <= j < |intervals| ==> AddInterval(root, intervals[j]) == Ok(names[j])
    ensures AddEach(root, intervals) == Ok(names)
  {
    if intervals != [] {
      forall j | 0 <= j < |intervals| - 1
        ensures AddInterval(root, intervals[1..][j]) == Ok(names[1..][j])
      {
        assert intervals[1..][j] == intervals[j + 1] && names[1..][j] == names[j + 1];
      }
      AddEachSucceeds(root, intervals[1..], names[1..]);
      assert AddInterval(root, intervals[0]) == Ok(names[0]);
      assert names == [names[0]] + names[1..];
    }
  }

  /** A failed list reports the first failing addition. */
  lemma {:induction false} AddEachFailure(root: NoteName, intervals: seq<Interval>)
    requires AddEach(root, intervals).Err?
    ensures exists j :: FirstFailure(root, intervals, j, AddEach(root, intervals).error)
  {
    var e := AddEach(root, intervals).error;
    if AddInterval(root, intervals[0]).Err? {
      assert FirstFailure(root, intervals, 0, e);
    } else {
      AddEachFailure(root, intervals[1..]);
      var j :| FirstFailure(root, intervals[1..], j, e);
      assert FirstFailure(root, intervals, j + 1, e);
    }
  }

  /** A first failing interval fails the whole list with its error. */
  lemma {:induction false} AddEachFails(root: NoteName, intervals: seq<Interval>, j: int, e: Error)
    requires FirstFailure(root, intervals, j, e)
    ensures AddEach(root, intervals) == Err(e)
  {
    if j == 0 {
      AddEachHeadFails(root, intervals, e);
    } else {
      FirstFailureTail(root, intervals, j, e);
      AddEachFails(root, intervals[1..], j - 1, e);
      AddEachTailFails(root, intervals, j, e);
    }
  }

  lemma AddEachHeadFails(root: NoteName, intervals: seq<Interval>, e: Error)
    requires FirstFailure(root, intervals, 0, e)
    ensures AddEach(root, intervals) == Err(e)
  {
  }

  lemma AddEachTailFails(root: NoteName, intervals: seq<Interval>, j: int, e: Error)
    requires FirstFailure(root, intervals, j, e) && j > 0 && AddEach(root, intervals[1..]) == Err(e)
    ensures AddEach(root, intervals) == Err(e)
  {
    assert AddInterval(root, intervals[0]).Ok?;
  }

  /** A first failure past the head is a first failure of the tail. */
  lemma FirstFailureTail(root: NoteName, intervals: seq<Interval>, j: int, e: Error)
    requires FirstFailure(root, intervals, j, e) && j > 0
    ensures AddInterval(root, intervals[0]).Ok? && FirstFailure(root, intervals[1..], j - 1, e)
  {
    assert AddInterval(root, intervals[0]).Ok?;
    forall k | 0 <= k < j - 1
      ensures AddInterval(root, intervals[1..][k]).Ok?
    {
      assert intervals[1..][k] == intervals[k + 1];
      assert AddInterval(root, intervals[k + 1]).Ok?;
    }
    assert intervals[1..][j - 1] == intervals[j];
  }

  /** How key and chord symbols read the accidental after the letter: a
      leading 'bb' is a double flat; otherwise a first character that is an
      accidental on its own is consumed; otherwise the note is natural and
      nothing is consumed. */
  function SplitAccidental(rest: string): (r: (Accidental, string))
    ensures |r.1| <= |rest| && r.1 == rest[|rest| - |r.1|..]
  {
    if |rest| >= 2 && rest[..2] == "bb" then (DoubleFlat, rest[2..])
    else if |rest| == 0 then (Natural, rest)
    else
      match AccidentalFromString([rest[0]])
      case Ok(a) => (a, rest[1..])
      case Err(_) => (Natural, rest)
  }

  /** The ASCII spelling of an accidental followed by a text that cannot
      extend it splits back into the two. */
  lemma SplitAccidentalText(a: Accidental, tail: string)
    requires tail != [] && AccidentalFromString([tail[0]]).Err? && tail[0] != 'b'
    ensures SplitAccidental(AccidentalText(a) + tail) == (a, tail)
  {
    var s := AccidentalText(a) + tail;
    match a
    case DoubleFlat =>
      assert s[..2] == "bb" && s[2..] == tail;
    case Flat =>
      assert s[1] == tail[0] && s[..2][1] == s[1];
      assert s[..2] != "bb" && [s[0]] == "b" && s[1..] == tail;
      AccidentalTextRoundTrip(Flat);
    case Natural =>
      assert s == tail;
    case Sharp =>
      assert [s[0]] == "#" && s[1..] == tail;
      AccidentalTextRoundTrip(Sharp);
    case DoubleSharp =>
      assert [s[0]] == "x" && s[1..] == tail;
      AccidentalTextRoundTrip(DoubleSharp);
  }

  // ---------------------------------------------------------------------
  // Note

  /** A spelled note with an octave number (C4 is middle C). Equality
      compares the three fields. */
  datatype Note = Note(letter: LetterName, accidental: Accidental, octave: int)

  /** `Note.pitch`, the MIDI key number (C-1 = 0), also the note's hash. No
      range is enforced. */
  function NotePitch(n: Note): int {
    (n.octave + 1) * 12 + LetterOffset(n.letter) + AccidentalOffset(n.accidental)
  }

  /** A note's pitch reduced modulo 12 is the pitch of its note name, and the
      pitch grows by 12 per octave. */
  lemma NotePitchClass(n: Note)
    ensures NotePitch(n) % 12 == NamePitch(NoteName(n.letter, n.accidental))
    ensures NotePitch(n.(octave := n.octave + 1)) == NotePitch(n) + 12
  {
  }

  /** Enharmonic spellings share a pitch (and hash) but are different notes. */
  lemma PitchExamples()
    ensures NotePitch(Note(C, Natural, 4)) == 60
    ensures NotePitch(Note(D, DoubleFlat, 4)) == 60
    ensures NotePitch(Note(B, Sharp, 3)) == 60
    ensures NotePitch(Note(C, Natural, -1)) == 0
    ensures NamePitch(NoteName(C, DoubleSharp)) == 2
    ensures NamePitch(NoteName(B, DoubleSharp)) == 1
    ensures NamePitch(NoteName(A, Flat)) == 8
  {
  }

  /** Number of letter steps above C-0: `7 * octave + letter index`. */
  function Position(n: Note): int {
    7 * n.octave + LetterIndex(n.letter)
  }

  /** `Note.__str__`. */
  function NoteToString(n: Note): (r: string)
    ensures |r| > 0 && r[0] == LetterChar(n.letter) && IsDigit(r[|r| - 1])
  {
    NameToString(NoteName(n.letter, n.accidental)) + IntToString(n.octave)
  }

  /** Characters that end the accidental and start the octave number. */
  predicate IsOctaveChar(c: char) {
    c == '+' || c == '-' || IsDigit(c)
  }

  /** The first index at or after `from` holding an octave character, or
      `|s|` when there is none. */
  function FirstOctaveIndex(s: string, from: nat): (j: nat)
    requires from <= |s|
    ensures from <= j <= |s|
    ensures j < |s| ==> IsOctaveChar(s[j])
    ensures forall k :: from <= k < j ==> !IsOctaveChar(s[k])
    decreases |s| - from
  {
    if from == |s| || IsOctaveChar(s[from]) then from else FirstOctaveIndex(s, from + 1)
  }

  /** `Note.from_string`: after stripping, the first character is the letter,
      the characters up to the first sign or digit are the accidental, and
      the remainder is the octave. A missing letter, a missing octave, an
      unknown accidental and a malformed octave fail, in that order. */
  function NoteFromString(text: string): (r: Result<Note>)
    ensures r.Ok? ==> |Strip(text)| > 0 && Upper(Strip(text)[0]) == LetterChar(r.value.letter)
    ensures r.Ok? ==> var s := Strip(text); var j := FirstOctaveIndex(s, 1);
      && j < |s|
      && (Strip(s[1..j]) == AccidentalText(r.value.accidental) || Strip(s[1..j]) == AccidentalGlyph(r.value.accidental))
      && ParseInt(s[j..]) == Some(r.value.octave)
    ensures r.Err? ==> r.error in {EmptyText, InvalidLetter, MissingOctave, InvalidAccidental, InvalidInteger}
  {
    var s := Strip(text);
    if |s| == 0 then Err(EmptyText)
    else
      var letter :- LetterFromString([s[0]]);
      var j := FirstOctaveIndex(s, 1);
      if j == |s| then Err(MissingOctave)
      else
        var accidental :- AccidentalFromString(s[1..j]);
        match ParseInt(s[j..])
        case None => Err(InvalidInteger)
        case Some(octave) =>
          StripUnchanged([s[0]]);
          Ok(Note(letter, accidental, octave))
  }

  /** The stream-consuming parser: characters are appended to the accidental
      text until one of `+-0123456789` starts the octave. */
  method ParseNote(text: string) returns (r: Result<Note>)
    ensures r == NoteFromString(text)
  {
    var s := Strip(text);
    if |s| == 0 {
      return Err(EmptyText);
    }
    var letter := LetterFromString([s[0]]);
    if letter.Err? {
      return Err(letter.error);
    }
    var accidentalText := "";
    var i := 1;
    while i < |s| && !IsOctaveChar(s[i])
      invariant 1 <= i <= |s|
      invariant accidentalText == s[1..i]
      invariant FirstOctaveIndex(s, i) == FirstOctaveIndex(s, 1)
    {
      accidentalText := accidentalText + [s[i]];
      i := i + 1;
    }
    if i == |s| {
      return Err(MissingOctave);
    }
    var octaveText := s[i..];
    var accidental := AccidentalFromString(accidentalText);
    if accidental.Err? {
      return Err(accidental.error);
    }
    var octave := ParseInt(octaveText);
    if octave.None? {
      return Err(InvalidInteger);
    }
    return Ok(Note(letter.value, accidental.value, octave.value));
  }

  /** `str` then parse gives back the same note, negative octaves included. */
  lemma NoteTextRoundTrip(n: Note)
    ensures NoteFromString(NoteToString(n)) == Ok(n)
  {
    var acc := AccidentalText(n.accidental);
    var oct := IntToString(n.octave);
    var s := NoteToString(n);
    assert s == [LetterChar(n.letter)] + acc + oct;
    StripUnchanged(s);
    LetterFromChar(LetterChar(n.letter), n.letter);
    var j := 1 + |acc|;
    AccidentalTextNoOctaveChar(n.accidental);
    assert forall k :: 1 <= k < j ==> s[k] == acc[k - 1];
    assert s[j] == oct[0];
    assert FirstOctaveIndex(s, 1) == j;
    assert s[1..j] == acc;
    AccidentalTextRoundTrip(n.accidental);
    assert s[j..] == oct;
    ParseIntToString(n.octave);
  }

  /** 'bb-20' is B flat in octave -20. */
  lemma NegativeOctaveExample()
    ensures NoteFromString("bb-20") == Ok(Note(B, Flat, -20))
  {
    NegativeOctaveLetter();
    NegativeOctaveAccidental();
    NegativeOctaveNumber();
    NoteFromParts("bb-20", 2, Note(B, Flat, -20));
  }

  lemma NegativeOctaveLetter()
    ensures Strip("bb-20") == "bb-20" && LetterFromString(["bb-20"[0]]) == Ok(B)
  {
    StripUnchanged("bb-20");
    LetterFromChar('b', B);
  }

  lemma NegativeOctaveAccidental()
    ensures FirstOctaveIndex("bb-20", 1) == 2 && AccidentalFromString("bb-20"[1..2]) == Ok(Flat)
  {
    assert "bb-20"[1..2] == AccidentalText(Flat);
    AccidentalTextRoundTrip(Flat);
  }

  lemma NegativeOctaveNumber()
    ensures ParseInt("bb-20"[2..]) == Some(-20)
  {
    assert "bb-20"[2..] == "-" + "20";
    ParseNegativeDigitText("20");
    assert DigitsValue("20") == 20;
  }

  /** A stripped text whose letter, accidental text and octave text parse
      is the note they spell. */
  lemma NoteFromParts(s: string, j: nat, n: Note)
    requires |s| > 0 && Strip(s) == s
    requires LetterFromString([s[0]]) == Ok(n.letter)
    requires 1 <= j < |s| && FirstOctaveIndex(s, 1) == j
    requires AccidentalFromString(s[1..j]) == Ok(n.accidental)
    requires ParseInt(s[j..]) == Some(n.octave)
    ensures NoteFromString(s) == Ok(n)
  {
  }

  // ---------------------------------------------------------------------
  // Ordering

  /** `Note.__lt__`: lexicographic on (octave, letter offset, accidental
      offset), a comparison of spellings rather than of pitches. */
  predicate NoteLess(a: Note, b: Note) {
    || a.octave < b.octave
    || (a.octave == b.octave && LetterOffset(a.letter) < LetterOffset(b.letter))
    || (a.octave == b.octave && a.letter == b.letter
        && AccidentalOffset(a.accidental) < AccidentalOffset(b.accidental))
  }

  /** `<` is a strict total order whose equality is field-wise equality. */
  lemma NoteLessTotalOrder(a: Note, b: Note, c: Note)
    ensures !NoteLess(a, a)
    ensures NoteLess(a, b) && NoteLess(b, c) ==> NoteLess(a, c)
    ensures NoteLess(a, b) || a == b || NoteLess(b, a)
    ensures !(NoteLess(a, b) && NoteLess(b, a))
  {
    LetterOffsetMonotone(a.letter, b.letter);
  }

  /** Ordering and equality follow spelling, not pitch. */
  lemma SpellingNotPitch()
    ensures NoteLess(Note(C, Sharp, 4), Note(D, DoubleFlat, 4))
    ensures NotePitch(Note(C, Sharp, 4)) > NotePitch(Note(D, DoubleFlat, 4))
    ensures Note(E, Natural, 2) != Note(F, Flat, 2)
    ensures NotePitch(Note(E, Natural, 2)) == NotePitch(Note(F, Flat, 2))
    ensures NoteLess(Note(B, Sharp, 3), Note(C, Flat, 4))
    ensures NotePitch(Note(B, Sharp, 3)) > NotePitch(Note(C, Flat, 4))
    ensures NoteLess(Note(D, Natural, 7), Note(C, Natural, 8))
  {
  }

  // ---------------------------------------------------------------------
  // Note + Interval and Note - Interval

  /** `m` spells `n` moved up by `i`: `size` letter steps and exactly
      `steps` semitones higher. */
  predicate NoteSpellsUp(n: Note, i: Interval, m: Note) {
    && Legal(i)
    && Position(m) == Position(n) + SizeValue(i.size)
    && NotePitch(m) == NotePitch(n) + Steps(i)
  }

  /** `m` spells `n` moved down by `i`. */
  predicate NoteSpellsDown(n: Note, i: Interval, m: Note) {
    && Legal(i)
    && Position(m) == Position(n) - SizeValue(i.size)
    && NotePitch(m) == NotePitch(n) - Steps(i)
  }

  /** The note with letter `letters[t % 7]` in octave `octave + t / 7`
      (`divmod(t, 7)`, which floors). */
  function ShiftedNatural(octave: int, t: int): (m: Note)
    ensures m.accidental == Natural && Position(m) == 7 * octave + t
  {
    Note(LetterAt(t % 7), Natural, octave + t / 7)
  }

  /** `Note.__add__`. */
  function AddToNote(n: Note, i: Interval): (r: Result<Note>)
    ensures r.Ok? ==> NoteSpellsUp(n, i, r.value)
    ensures !Legal(i) ==> r == Err(UndefinedSteps)
    ensures Legal(i) && r.Err? ==> r.error == AccidentalOutOfRange
  {
    if !Legal(i) then Err(UndefinedSteps)
    else
      var natural := ShiftedNatural(n.octave, LetterIndex(n.letter) + SizeValue(i.size));
      var offset := Steps(i) - (NotePitch(natural) - NotePitch(n));
      match AccidentalFromOffset(offset)
      case None => Err(AccidentalOutOfRange)
      case Some(a) => Ok(natural.(accidental := a))
  }

  /** `Note.__sub__`. */
  function SubFromNote(n: Note, i: Interval): (r: Result<Note>)
    ensures r.Ok? ==> NoteSpellsDown(n, i, r.value)
    ensures !Legal(i) ==> r == Err(UndefinedSteps)
    ensures Legal(i) && r.Err? ==> r.error == AccidentalOutOfRange
  {
    if !Legal(i) then Err(UndefinedSteps)
    else
      var natural := ShiftedNatural(n.octave, LetterIndex(n.letter) - SizeValue(i.size));
      var offset := (NotePitch(n) - NotePitch(natural)) - Steps(i);
      match AccidentalFromOffset(offset)
      case None => Err(AccidentalOutOfRange)
      case Some(a) => Ok(natural.(accidental := a))
  }

  /** The letter position fixes the letter and the octave. */
  lemma PositionDetermines(m: Note, p: Note)
    requires Position(m) == Position(p)
    ensures m.letter == p.letter && m.octave == p.octave
  {
    LetterOffsetMonotone(m.letter, p.letter);
  }

  /** Whenever some note spells `n + i`, the addition returns it. */
  lemma AddToNoteComplete(n: Note, i: Interval, m: Note)
    requires NoteSpellsUp(n, i, m)
    ensures AddToNote(n, i) == Ok(m)
  {
    var natural := ShiftedNatural(n.octave, LetterIndex(n.letter) + SizeValue(i.size));
    PositionDetermines(natural, m);
    AccidentalOffsetRoundTrip(m.accidental);
  }

  /** Whenever some note spells `n - i`, the subtraction returns it. */
  lemma SubFromNoteComplete(n: Note, i: Interval, m: Note)
    requires NoteSpellsDown(n, i, m)
    ensures SubFromNote(n, i) == Ok(m)
  {
    var natural := ShiftedNatural(n.octave, LetterIndex(n.letter) - SizeValue(i.size));
    PositionDetermines(natural, m);
    AccidentalOffsetRoundTrip(m.accidental);
  }

  /** `(n + i) - i == n` whenever `n + i` succeeds. */
  lemma NoteAddThenSubtract(n: Note, i: Interval)
    requires AddToNote(n, i).Ok?
    ensures SubFromNote(AddToNote(n, i).value, i) == Ok(n)
  {
    SubFromNoteComplete(AddToNote(n, i).value, i, n);
  }

  /** `(n - i) + i == n` whenever `n - i` succeeds. */
  lemma NoteSubtractThenAdd(n: Note, i: Interval)
    requires SubFromNote(n, i).Ok?
    ensures AddToNote(SubFromNote(n, i).value, i) == Ok(n)
  {
    AddToNoteComplete(SubFromNote(n, i).value, i, n);
  }

  /** Adding to a note moves its note name the same way. */
  lemma AddToNoteName(n: Note, i: Interval)
    requires AddToNote(n, i).Ok?
    ensures AddInterval(NoteName(n.letter, n.accidental), i)
      == Ok(NoteName(AddToNote(n, i).value.letter, AddToNote(n, i).value.accidental))
  {
    var m := AddToNote(n, i).value;
    NotePitchClass(n);
    NotePitchClass(m);
    LetterStep(m.octave, LetterIndex(m.letter), n.octave, LetterIndex(n.letter), SizeValue(i.size));
    ModOfSum(NotePitch(n), Steps(i));
    AddIntervalComplete(NoteName(n.letter, n.accidental), i, NoteName(m.letter, m.accidental));
  }

  /** A letter index `x` reached by `s` letter steps from index `y`. */
  lemma LetterStep(a: int, x: int, b: int, y: int, s: int)
    requires 0 <= x < 7 && 7 * a + x == 7 * b + y + s
    ensures x == (y + s) % 7
  {
  }

  lemma ModOfSum(p: int, d: int)
    ensures (p + d) % 12 == (p % 12 + d) % 12
  {
  }

  /** Octaves carry across B-C in both directions, and a result may need a
      double sharp. */
  lemma NoteArithmeticExamples()
    ensures AddToNote(Note(E, Flat, 3), Interval(Minor, Sixth)) == Ok(Note(C, Flat, 4))
    ensures AddToNote(Note(B, Sharp, 4), Interval(Perfect, Fifth)) == Ok(Note(F, DoubleSharp, 5))
    ensures SubFromNote(Note(C, Sharp, 2), Interval(Major, Third)) == Ok(Note(A, Natural, 1))
  {
    MinorSixthAboveEFlat();
    FifthAboveBSharp();
    MajorThirdBelowCSharp();
  }

  lemma MinorSixthAboveEFlat()
    ensures AddToNote(Note(E, Flat, 3), Interval(Minor, Sixth)) == Ok(Note(C, Flat, 4))
  {
    AddToNoteComplete(Note(E, Flat, 3), Interval(Minor, Sixth), Note(C, Flat, 4));
  }

  lemma FifthAboveBSharp()
    ensures AddToNote(Note(B, Sharp, 4), Interval(Perfect, Fifth)) == Ok(Note(F, DoubleSharp, 5))
  {
    AddToNoteComplete(Note(B, Sharp, 4), Interval(Perfect, Fifth), Note(F, DoubleSharp, 5));
  }

  lemma MajorThirdBelowCSharp()
    ensures SubFromNote(Note(C, Sharp, 2), Interval(Major, Third)) == Ok(Note(A, Natural, 1))
  {
    SubFromNoteComplete(Note(C, Sharp, 2), Interval(Major, Third), Note(A, Natural, 1));
  }

  /** A triple sharp has no accidental: B double-sharp up an augmented
      fourth fails. */
  lemma AccidentalOutOfRangeExample()
    ensures AddToNote(Note(B, DoubleSharp, 4), Interval(Augmented, Fourth)) == Err(AccidentalOutOfRange)
    ensures AddInterval(NoteName(B, DoubleSharp), Interval(Augmented, Fourth)) == Err(AccidentalOutOfRange)
  {
    TripleSharpName();
    TripleSharpNote();
  }

  lemma TripleSharpName()
    ensures AddInterval(NoteName(B, DoubleSharp), Interval(Augmented, Fourth)) == Err(AccidentalOutOfRange)
  {
  }

  lemma TripleSharpNote()
    ensures AddToNote(Note(B, DoubleSharp, 4), Interval(Augmented, Fourth)) == Err(AccidentalOutOfRange)
  {
  }

  // ---------------------------------------------------------------------
  // distance

  /** The quality table of `distance`: semitones modulo 12 per size. */
  function QualityTable(s: Size, semitones: int): Option<Quality> {
    match s
    case Unison | Octave =>
      if semitones == 11 then Some(Diminished)
      else if semitones == 0 then Some(Perfect)
      else if semitones == 1 then Some(Augmented)
      else None
    case Second =>
      if semitones == 0 then Some(Diminished)
      else if semitones == 1 then Some(Minor)
      else if semitones == 2 then Some(Major)
      else if semitones == 3 then Some(Augmented)
      else None
    case Third =>
      if semitones == 2 then Some(Diminished)
      else if semitones == 3 then Some(Minor)
      else if semitones == 4 then Some(Major)
      else if semitones == 5 then Some(Augmented)
      else None
    case Fourth =>
      if semitones == 4 then Some(Diminished)
      else if semitones == 5 then Some(Perfect)
      else if semitones == 6 then Some(Augmented)
      else None
    case Fifth =>
      if semitones == 6 then Some(Diminished)
      else if semitones == 7 then Some(Perfect)
      else if semitones == 8 then Some(Augmented)
      else None
    case Sixth =>
      if semitones == 7 then Some(Diminished)
      else if semitones == 8 then Some(Minor)
      else if semitones == 9 then Some(Major)
      else if semitones == 10 then Some(Augmented)
      else None
    case Seventh =>
      if semitones == 9 then Some(Diminished)
      else if semitones == 10 then Some(Minor)
      else if semitones == 11 then Some(Major)
      else if semitones == 0 then Some(Augmented)
      else None
  }

  /** The table agrees with the semitone counts: it lists a quality for a size
      exactly when that pair is legal and spans that many semitones modulo 12. */
  lemma QualityTableSteps(q: Quality, s: Size, semitones: int)
    requires 0 <= semitones < 12
    ensures QualityTable(s, semitones) == Some(q)
      <==> Legal(Interval(q, s)) && Steps(Interval(q, s)) % 12 == semitones
  {
  }

  /** `sorted((a, b))`: stable, ordered by `<`. */
  function Sorted(a: Note, b: Note): (Note, Note) {
    if NoteLess(b, a) then (b, a) else (a, b)
  }

  /** The note name a note spells. */
  function NameOf(n: Note): NoteName {
    NoteName(n.letter, n.accidental)
  }

  /** The interval from `low` up to `high` once the two are sorted: the
      letter distance (plus 7 across an octave boundary) gives the size and
      the semitones modulo 12 pick the quality from the table. */
  function Measure(low: Note, high: Note): (r: Result<Interval>)
    ensures r.Ok? ==> Legal(r.value)
    ensures r.Err? ==> r.error == QualityNotInTable
  {
    var size, semitones := SizeSpan(low, high), SemitoneSpan(low, high);
    match QualityTable(size, semitones)
    case None => Err(QualityNotInTable)
    case Some(q) =>
      QualityTableSteps(q, size, semitones);
      Ok(Interval(q, size))
  }

  /** The letter distance from `low` up to `high`, plus 7 across an octave
      boundary. */
  function LetterSpan(low: Note, high: Note): int {
    LetterIndex(high.letter) + (if low.octave != high.octave then 7 else 0) - LetterIndex(low.letter)
  }

  /** The size `distance` reads off the letter distance. */
  function SizeSpan(low: Note, high: Note): Size {
    SizeOf(LetterSpan(low, high))
  }

  /** The semitones from `low` up to `high`, modulo 12. */
  function SemitoneSpan(low: Note, high: Note): (r: int)
    ensures 0 <= r < 12
  {
    (NotePitch(high) - NotePitch(low)) % 12
  }

  /** The measured interval is one that spells the higher note's name from
      the lower one's, and when the table has no entry no interval does. */
  lemma MeasureNames(low: Note, high: Note)
    ensures Measure(low, high).Ok? ==> NameSpells(NameOf(low), Measure(low, high).value, NameOf(high))
    ensures Measure(low, high).Err? ==> forall i :: !NameSpells(NameOf(low), i, NameOf(high))
  {
    if Measure(low, high).Ok? {
      MeasuredSpells(low, high);
    } else {
      forall i | NameSpells(NameOf(low), i, NameOf(high))
        ensures false
      {
        SpelledIsMeasured(low, high, i);
      }
    }
  }

  lemma MeasuredSpells(low: Note, high: Note)
    requires Measure(low, high).Ok?
    ensures NameSpells(NameOf(low), Measure(low, high).value, NameOf(high))
  {
    var size, semitones := SizeSpan(low, high), SemitoneSpan(low, high);
    NotePitchClass(low);
    NotePitchClass(high);
    LetterCongruence(LetterIndex(low.letter), LetterIndex(high.letter), SizeValue(size), LetterSpan(low, high));
    var i := Measure(low, high).value;
    assert QualityTable(size, semitones) == Some(i.quality) && i.size == size;
    QualityTableSteps(i.quality, size, semitones);
    PitchCongruence(NotePitch(low), NotePitch(high), Steps(i));
  }

  /** An interval that spells the higher name from the lower one has a
      table entry, so the measurement succeeds. */
  lemma SpelledIsMeasured(low: Note, high: Note, i: Interval)
    requires NameSpells(NameOf(low), i, NameOf(high))
    ensures Measure(low, high).Ok?
  {
    var size, semitones := SizeSpan(low, high), SemitoneSpan(low, high);
    NotePitchClass(low);
    NotePitchClass(high);
    LetterCongruence(LetterIndex(low.letter), LetterIndex(high.letter), SizeValue(size), LetterSpan(low, high));
    LetterCongruenceBack(LetterIndex(low.letter), LetterIndex(high.letter), SizeValue(i.size));
    SizesCongruent(i.size, size);
    PitchCongruenceBack(NotePitch(low), NotePitch(high), Steps(i));
    UnisonOctaveTable(semitones);
    QualityTableSteps(i.quality, i.size, semitones);
  }

  lemma LetterCongruence(x: int, y: int, sv: int, diff: int)
    requires 0 <= y < 7
    requires diff == y - x || diff == y + 7 - x
    requires sv % 7 == diff % 7
    ensures (x + sv) % 7 == y
  {
  }

  lemma LetterCongruenceBack(x: int, y: int, sv: int)
    requires y == (x + sv) % 7
    ensures sv % 7 == (y - x) % 7 && sv % 7 == (y + 7 - x) % 7
  {
  }

  lemma PitchCongruence(low: int, high: int, steps: int)
    requires steps % 12 == (high - low) % 12
    ensures (low % 12 + steps) % 12 == high % 12
  {
  }

  lemma PitchCongruenceBack(low: int, high: int, steps: int)
    requires high % 12 == (low % 12 + steps) % 12
    ensures steps % 12 == (high - low) % 12
  {
  }

  /** Sizes that agree modulo 7 are equal or are the unison and the octave. */
  lemma SizesCongruent(s: Size, t: Size)
    requires SizeValue(s) % 7 == SizeValue(t) % 7
    ensures s == t || ((s == Unison || s == Octave) && (t == Unison || t == Octave))
  {
  }

  /** `distance(a, b)`: the simple interval from the lower note to the higher. */
  function Distance(a: Note, b: Note): (r: Result<Interval>)
    ensures r.Ok? ==> Legal(r.value)
    ensures r.Err? ==> r.error == QualityNotInTable
  {
    var (low, high) := Sorted(a, b);
    Measure(low, high)
  }

  /** `distance` does not depend on argument order. */
  lemma DistanceSymmetric(a: Note, b: Note)
    ensures Distance(a, b) == Distance(b, a)
  {
    NoteLessTotalOrder(a, b, a);
  }

  /** Measuring from a note to the note an interval above it gives back the
      interval, except the diminished unison, whose result sorts below the
      start and is measured as an augmented unison. */
  lemma DistanceOfSum(n: Note, i: Interval)
    requires AddToNote(n, i).Ok?
    requires i != Interval(Diminished, Unison)
    ensures Distance(n, AddToNote(n, i).value) == Ok(i)
  {
    var m := AddToNote(n, i).value;
    var s := SizeValue(i.size);
    LetterOffsetMonotone(n.letter, m.letter);
    if s == 0 {
      PositionDetermines(m, n);
    }
    OctaveCarry(m.octave, LetterIndex(m.letter), n.octave, LetterIndex(n.letter), s);
    assert !NoteLess(m, n);
    assert Sorted(n, m) == (n, m);
    SizeOfValue(i.size);
    QualityTableSteps(i.quality, i.size, Steps(i) % 12);
  }

  /** `s` letter steps (at most an octave) carry into the next octave at most
      once, and the letter distance, counted across that carry, is `s`. */
  lemma OctaveCarry(a: int, x: int, b: int, y: int, s: int)
    requires 0 <= x < 7 && 0 <= y < 7 && 0 <= s <= 7
    requires 7 * a + x == 7 * b + y + s
    ensures a == b || a == b + 1
    ensures x + (if a != b then 7 else 0) - y == s
  {
  }

  lemma DiminishedUnisonSum()
    ensures AddToNote(Note(C, Natural, 4), Interval(Diminished, Unison)) == Ok(Note(C, Flat, 4))
  {
    AddToNoteComplete(Note(C, Natural, 4), Interval(Diminished, Unison), Note(C, Flat, 4));
  }

  lemma DiminishedUnisonDistance()
    ensures Distance(Note(C, Natural, 4), Note(C, Flat, 4)) == Ok(Interval(Augmented, Unison))
  {
  }

  /** A compound distance is reduced to a simple one. */
  lemma CompoundDistance()
    ensures Distance(Note(C, Natural, 4), Note(E, Natural, 5)) == Ok(Interval(Major, Third))
  {
    assert SizeOf(9) == Third;
  }

  /** Notes an octave apart are measured as an octave, not a unison. */
  lemma OctaveDistance()
    ensures Distance(Note(G, Natural, 3), Note(G, Natural, 4)) == Ok(Interval(Perfect, Octave))
  {
  }

  /** B#3 sorts below Cb4 although it sounds a semitone higher; no second
      spans 11 semitones, so the table has no entry. */
  lemma MissingTableEntry()
    ensures Distance(Note(B, Sharp, 3), Note(C, Flat, 4)) == Err(QualityNotInTable)
  {
    assert SizeOf(1) == Second;
  }

  // ---------------------------------------------------------------------
  // NoteName - NoteName

  /** `NoteName - NoteName`: both names are placed in octave 0, the first is
      raised an octave when it sorts below the second, and the distance is
      measured. The result is the interval that takes `b` to `a`. */
  method NameDifference(a: NoteName, b: NoteName) returns (r: Result<Interval>)
    ensures r.Ok? ==> AddInterval(b, r.value) == Ok(a)
    ensures r.Err? ==> forall i :: AddInterval(b, i) != Ok(a)
    ensures r.Ok? && a.letter == b.letter ==>
      (r.value.size == Octave <==> AccidentalOffset(a.accidental) < AccidentalOffset(b.accidental))
  {
    var n1 := Note(a.letter, a.accidental, 0);
    var n2 := Note(b.letter, b.accidental, 0);
    if NoteLess(n1, n2) {
      n1 := n1.(octave := n1.octave + 1);
    }
    r := Distance(n1, n2);
    NoteLessTotalOrder(n1, n2, n1);
    assert Sorted(n1, n2) == (n2, n1);
    assert r == Measure(n2, n1);
    MeasureNames(n2, n1);
    assert NameOf(n1) == a && NameOf(n2) == b;
    if r.Ok? {
      AddIntervalComplete(b, r.value, a);
    } else {
      forall i | AddInterval(b, i) == Ok(a)
        ensures NameSpells(b, i, a)
      {
      }
    }
  }

  /** G - G# is a diminished octave: G sorts below G# and is raised. */
  method OctaveDifferenceExample() returns (up: Result<Interval>)
    ensures up == Ok(Interval(Diminished, Octave))
  {
    up := NameDifference(NoteName(G, Natural), NoteName(G, Sharp));
    AddIntervalComplete(NoteName(G, Sharp), Interval(Diminished, Octave), NoteName(G, Natural));
    OctaveFromGSharpToG(up.value);
  }

  /** C - B is a minor second. */
  method SecondDifferenceExample() returns (down: Result<Interval>)
    ensures down == Ok(Interval(Minor, Second))
  {
    down := NameDifference(NoteName(C, Natural), NoteName(B, Natural));
    AddIntervalComplete(NoteName(B, Natural), Interval(Minor, Second), NoteName(C, Natural));
    SecondFromBToC(down.value);
  }

  /** The only octave that spells G from G sharp is the diminished one. */
  lemma OctaveFromGSharpToG(i: Interval)
    requires NameSpells(NoteName(G, Sharp), i, NoteName(G, Natural)) && i.size == Octave
    ensures i == Interval(Diminished, Octave)
  {
  }

  /** The only interval that spells C from B is the minor second. */
  lemma SecondFromBToC(i: Interval)
    requires NameSpells(NoteName(B, Natural), i, NoteName(C, Natural))
    ensures i == Interval(Minor, Second)
  {
  }

  /** The unison and octave rows of the table are identical. */
  lemma UnisonOctaveTable(semitones: int)
    ensures QualityTable(Unison, semitones) == QualityTable(Octave, semitones)
  {
  }
}
