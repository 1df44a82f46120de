/** Keys: the seven modes as interval patterns, scale degrees, a key's scale,
    membership by spelling, degree lookup and the key-name parser. */
module Keys {
  import opened Common
  import opened Intervals
  import opened Notes

  /** The seven modes; `MAJOR` is the same member as `IONIAN` and `MINOR` the
      same member as `AEOLIAN`. */
  datatype Mode = Ionian | Dorian | Phrygian | Lydian | Mixolydian | Aeolian | Locrian

  /** The interval pattern of each mode, from the tonic. */
  function ModeIntervals(m: Mode): (r: seq<Interval>)
    ensures |r| == 7 && r[0] == Interval(Perfect, Unison)
    ensures forall j :: 0 <= j < 7 ==> Legal(r[j]) && SizeValue(r[j].size) == j
  {
    var P1 := Interval(Perfect, Unison);
    var m2 := Interval(Minor, Second);
    var M2 := Interval(Major, Second);
    var m3 := Interval(Minor, Third);
    var M3 := Interval(Major, Third);
    var P4 := Interval(Perfect, Fourth);
    var A4 := Interval(Augmented, Fourth);
    var d5 := Interval(Diminished, Fifth);
    var P5 := Interval(Perfect, Fifth);
    var m6 := Interval(Minor, Sixth);
    var M6 := Interval(Major, Sixth);
    var m7 := Interval(Minor, Size.Seventh);
    var M7 := Interval(Major, Size.Seventh);
    match m
    case Ionian => [P1, M2, M3, P4, P5, M6, M7]
    case Dorian => [P1, M2, m3, P4, P5, M6, m7]
    case Phrygian => [P1, m2, m3, P4, P5, m6, m7]
    case Lydian => [P1, M2, M3, A4, P5, M6, M7]
    case Mixolydian => [P1, M2, M3, P4, P5, M6, m7]
    case Aeolian => [P1, M2, m3, P4, P5, m6, m7]
    case Locrian => [P1, m2, m3, P4, d5, m6, m7]
  }

  /** The seven semitone gaps of a mode: from each degree to the next, and
      from the seventh degree up to the octave. */
  function StepPattern(m: Mode): (r: seq<int>)
    ensures |r| == 7
  {
    var s := ModeIntervals(m);
    seq(7, j requires 0 <= j < 7 => (if j < 6 then Steps(s[j + 1]) else 12) - Steps(s[j]))
  }

  /** Whole and half steps of the major scale. */
  const MajorPattern: seq<int> := [2, 2, 1, 2, 2, 2, 1]

  /** Position of the mode in the cycle of diatonic modes. */
  function ModeRotation(m: Mode): (k: int)
    ensures 0 <= k < 7
  {
    match m
    case Ionian => 0
    case Dorian => 1
    case Phrygian => 2
    case Lydian => 3
    case Mixolydian => 4
    case Aeolian => 5
    case Locrian => 6
  }

  /** Every mode is diatonic: its step pattern is the major pattern started
      on another degree. */
  lemma ModeIsRotation(m: Mode)
    ensures StepPattern(m) == MajorPattern[ModeRotation(m)..] + MajorPattern[..ModeRotation(m)]
  {
    if ModeRotation(m) < 3 {
      EarlyModeIsRotation(m);
    } else {
      LateModeIsRotation(m);
    }
  }

  lemma EarlyModeIsRotation(m: Mode)
    requires ModeRotation(m) < 3
    ensures StepPattern(m) == MajorPattern[ModeRotation(m)..] + MajorPattern[..ModeRotation(m)]
  {
  }

  lemma LateModeIsRotation(m: Mode)
    requires ModeRotation(m) >= 3
    ensures StepPattern(m) == MajorPattern[ModeRotation(m)..] + MajorPattern[..ModeRotation(m)]
  {
  }

  /** `Mode[name]`, aliases included. */
  function ModeFromName(name: string): Option<Mode> {
    if name == "MAJOR" || name == "IONIAN" then Some(Ionian)
    else if name == "DORIAN" then Some(Dorian)
    else if name == "PHRYGIAN" then Some(Phrygian)
    else if name == "LYDIAN" then Some(Lydian)
    else if name == "MIXOLYDIAN" then Some(Mixolydian)
    else if name == "MINOR" || name == "AEOLIAN" then Some(Aeolian)
    else if name == "LOCRIAN" then Some(Locrian)
    else None
  }

  /** The canonical member name. */
  function ModeName(m: Mode): (r: string)
    ensures |r| > 0 && forall j :: 0 <= j < |r| ==> IsUpperAscii(r[j])
  {
    match m
    case Ionian => "MAJOR"
    case Dorian => "DORIAN"
    case Phrygian => "PHRYGIAN"
    case Lydian => "LYDIAN"
    case Mixolydian => "MIXOLYDIAN"
    case Aeolian => "MINOR"
    case Locrian => "LOCRIAN"
  }

  lemma ModeNameRoundTrip(m: Mode)
    ensures ModeFromName(ModeName(m)) == Some(m)
  {
  }

  // ---------------------------------------------------------------------
  // Degree

  /** Scale degrees; FIRST..SIXTH are aliases of TONIC..SUBMEDIANT. */
  datatype Degree = Tonic | Supertonic | Mediant | Subdominant | Dominant | Submediant
                  | LeadingTone | Subtonic | Seventh

  /** The `auto()` values 1..9 in declaration order. */
  function DegreeValue(d: Degree): (v: int)
    ensures 1 <= v <= 9
  {
    match d
    case Tonic => 1
    case Supertonic => 2
    case Mediant => 3
    case Subdominant => 4
    case Dominant => 5
    case Submediant => 6
    case LeadingTone => 7
    case Subtonic => 8
    case Seventh => 9
  }

  /** `Degree(n)`: a value 1..9 names its member; `_missing_` rejects values
      below 1 and indexes past its seven-entry list for values of 10 or more. */
  function DegreeFromInt(n: int): (r: Result<Degree>)
    ensures r.Ok? <==> 1 <= n <= 9
    ensures r.Ok? ==> DegreeValue(r.value) == n
    ensures n < 1 ==> r == Err(InvalidScaleDegree)
    ensures n > 9 ==> r == Err(DegreeIndexOutOfRange)
  {
    if n < 1 then Err(InvalidScaleDegree)
    else if n == 1 then Ok(Tonic)
    else if n == 2 then Ok(Supertonic)
    else if n == 3 then Ok(Mediant)
    else if n == 4 then Ok(Subdominant)
    else if n == 5 then Ok(Dominant)
    else if n == 6 then Ok(Submediant)
    else if n == 7 then Ok(LeadingTone)
    else if n == 8 then Ok(Subtonic)
    else if n == 9 then Ok(Degree.Seventh)
    else Err(DegreeIndexOutOfRange)
  }

  /** `Degree(7)` is the leading tone, not the seventh. */
  lemma DegreeSevenIsLeadingTone()
    ensures DegreeFromInt(7) == Ok(LeadingTone)
    ensures DegreeFromInt(9) == Ok(Degree.Seventh)
  {
  }

  // ---------------------------------------------------------------------
  // Key

  /** A key; equality compares tonic and mode. */
  datatype Key = Key(tonic: NoteName, mode: Mode)

  /** `[*key]`: the tonic plus each interval of the mode, in order. */
  function Scale(k: Key): (r: Result<seq<NoteName>>)
    ensures r.Ok? ==> |r.value| == 7 && r.value[0] == k.tonic
  {
    AddPerfectUnison(k.tonic);
    AddEach(k.tonic, ModeIntervals(k.mode))
  }

  /** `n in key`: the scale is generated lazily and compared by spelling
      until a member equals `n`; a failing addition before that fails. */
  function Contains(k: Key, n: NoteName): Result<bool> {
    Search(k.tonic, ModeIntervals(k.mode), n)
  }

  function Search(root: NoteName, intervals: seq<Interval>, n: NoteName): Result<bool> {
    if intervals == [] then Ok(false)
    else
      var member :- AddInterval(root, intervals[0]);
      if member == n then Ok(true) else Search(root, intervals[1..], n)
  }

  /** When the whole list can be generated, the search answers membership. */
  lemma {:induction false} SearchMembership(root: NoteName, intervals: seq<Interval>, n: NoteName)
    requires AddEach(root, intervals).Ok?
    ensures Search(root, intervals, n) == Ok(n in AddEach(root, intervals).value)
  {
    if intervals != [] {
      SearchMembership(root, intervals[1..], n);
    }
  }

  /** A found member is `root + i` for an interval of the list. */
  lemma {:induction false} SearchFound(root: NoteName, intervals: seq<Interval>, n: NoteName)
    requires Search(root, intervals, n) == Ok(true)
    ensures exists j :: 0 <= j < |intervals| && AddInterval(root, intervals[j]) == Ok(n)
  {
    if AddInterval(root, intervals[0]) != Ok(n) {
      SearchFound(root, intervals[1..], n);
      var j :| 0 <= j < |intervals| - 1 && AddInterval(root, intervals[1..][j]) == Ok(n);
      assert AddInterval(root, intervals[j + 1]) == Ok(n);
    }
  }

  /** Membership is by spelling: it agrees with the scale whenever the scale
      exists, and the tonic always belongs to its key. */
  lemma ContainsMembership(k: Key, n: NoteName)
    ensures Scale(k).Ok? ==> Contains(k, n) == Ok(n in Scale(k).value)
    ensures Contains(k, k.tonic) == Ok(true)
    ensures Contains(k, n) == Ok(true) ==>
      exists j :: 0 <= j < 7 && AddInterval(k.tonic, ModeIntervals(k.mode)[j]) == Ok(n)
  {
    if Scale(k).Ok? {
      SearchMembership(k.tonic, ModeIntervals(k.mode), n);
    }
    AddPerfectUnison(k.tonic);
    if Contains(k, n) == Ok(true) {
      SearchFound(k.tonic, ModeIntervals(k.mode), n);
    }
  }

  /** The scale of D major, spelled with F sharp and C sharp. */
  lemma DMajorScale()
    ensures Scale(Key(NoteName(D, Natural), Ionian)) == Ok([
      NoteName(D, Natural), NoteName(E, Natural), NoteName(F, Sharp), NoteName(G, Natural),
      NoteName(A, Natural), NoteName(B, Natural), NoteName(C, Sharp)])
  {
    var names := [
      NoteName(D, Natural), NoteName(E, Natural), NoteName(F, Sharp), NoteName(G, Natural),
      NoteName(A, Natural), NoteName(B, Natural), NoteName(C, Sharp)];
    var intervals := ModeIntervals(Ionian);
    forall j | 0 <= j < 7
      ensures AddInterval(NoteName(D, Natural), intervals[j]) == Ok(names[j])
    {
      AddIntervalComplete(NoteName(D, Natural), intervals[j], names[j]);
    }
    AddEachSucceeds(NoteName(D, Natural), intervals, names);
  }

  /** C sharp is in D major. */
  lemma ContainsExample()
    ensures Contains(Key(NoteName(D, Natural), Ionian), NoteName(C, Sharp)) == Ok(true)
    ensures Contains(Key(NoteName(D, Natural), Ionian), NoteName(C, Natural)) == Ok(false)
  {
    DMajorScale();
    ContainsMembership(Key(NoteName(D, Natural), Ionian), NoteName(C, Sharp));
    ContainsMembership(Key(NoteName(D, Natural), Ionian), NoteName(C, Natural));
  }

  /** `key[degree]`: the whole scale is built first; seven degrees are scale
      positions, the subtonic and the leading tone lie a major and a minor
      second below the tonic whatever the mode. */
  function GetDegree(k: Key, d: Degree): Result<NoteName> {
    var notes :- Scale(k);
    match d
    case Tonic => Ok(notes[0])
    case Supertonic => Ok(notes[1])
    case Mediant => Ok(notes[2])
    case Subdominant => Ok(notes[3])
    case Dominant => Ok(notes[4])
    case Submediant => Ok(notes[5])
    case Seventh => Ok(notes[6])
    case Subtonic => SubtractInterval(k.tonic, Interval(Major, Second))
    case LeadingTone => SubtractInterval(k.tonic, Interval(Minor, Second))
  }

  /** Scale position of the seven degrees that have one. */
  function DegreePosition(d: Degree): (j: int)
    requires d != Subtonic && d != LeadingTone
    ensures 0 <= j < 7
  {
    match d
    case Tonic => 0
    case Supertonic => 1
    case Mediant => 2
    case Subdominant => 3
    case Dominant => 4
    case Submediant => 5
    case Seventh => 6
  }

  /** What each degree means: a failing scale fails every lookup with its
      own error; over a spelled scale, a positional degree is the scale note
      at its position, which is the tonic moved by the mode's interval for
      that position (so the tonic degree is the tonic), and the subtonic and
      leading tone are the tonic less a major and a minor second, whatever
      the scale. With `SubtractMeansAdd` those two are the names a major or
      minor second below the tonic, and fail exactly when none exists. */
  lemma GetDegreeMeaning(k: Key, d: Degree)
    ensures Scale(k).Err? ==> GetDegree(k, d) == Err(Scale(k).error)
    ensures d == Tonic && Scale(k).Ok? ==> GetDegree(k, d) == Ok(k.tonic)
    ensures d != Subtonic && d != LeadingTone && Scale(k).Ok? ==>
      GetDegree(k, d) == Ok(Scale(k).value[DegreePosition(d)])
    ensures d != Subtonic && d != LeadingTone && Scale(k).Ok? ==>
      AddInterval(k.tonic, ModeIntervals(k.mode)[DegreePosition(d)]) == GetDegree(k, d)
    ensures d == Subtonic && Scale(k).Ok? ==>
      GetDegree(k, d) == SubtractInterval(k.tonic, Interval(Major, Second))
    ensures d == LeadingTone && Scale(k).Ok? ==>
      GetDegree(k, d) == SubtractInterval(k.tonic, Interval(Minor, Second))
  {
    if d != Subtonic && d != LeadingTone && Scale(k).Ok? {
      AddEachAt(k.tonic, ModeIntervals(k.mode), DegreePosition(d));
    }
  }

  /** In the modes with a major seventh the leading tone is the seventh
      degree; in the others the subtonic is. */
  lemma SeventhDegreeCoincides(k: Key)
    requires Scale(k).Ok?
    ensures (k.mode == Ionian || k.mode == Lydian) ==> GetDegree(k, LeadingTone) == GetDegree(k, Degree.Seventh)
    ensures !(k.mode == Ionian || k.mode == Lydian) ==> GetDegree(k, Subtonic) == GetDegree(k, Degree.Seventh)
  {
    if k.mode == Ionian || k.mode == Lydian {
      SeventhBelowTonic(k, Interval(Minor, Second), LeadingTone);
    } else {
      SeventhBelowTonic(k, Interval(Major, Second), Subtonic);
    }
  }

  /** The degree a second `i` below the tonic is the seventh degree when the
      mode's seventh is the inverse of `i`. */
  lemma SeventhBelowTonic(k: Key, i: Interval, d: Degree)
    requires Scale(k).Ok?
    requires (d == LeadingTone && i == Interval(Minor, Second)) || (d == Subtonic && i == Interval(Major, Second))
    requires ModeIntervals(k.mode)[6] == Inverse(i)
    ensures GetDegree(k, d) == GetDegree(k, Degree.Seventh)
  {
    AddEachAt(k.tonic, ModeIntervals(k.mode), 6);
    assert GetDegree(k, Degree.Seventh) == AddInterval(k.tonic, ModeIntervals(k.mode)[6]);
    assert GetDegree(k, d) == AddInterval(k.tonic, Inverse(i));
  }

  /** The scale of B major, with five sharps. */
  lemma BMajorScale()
    ensures Scale(Key(NoteName(B, Natural), Ionian)) == Ok([
      NoteName(B, Natural), NoteName(C, Sharp), NoteName(D, Sharp), NoteName(E, Natural),
      NoteName(F, Sharp), NoteName(G, Sharp), NoteName(A, Sharp)])
  {
    var names := [
      NoteName(B, Natural), NoteName(C, Sharp), NoteName(D, Sharp), NoteName(E, Natural),
      NoteName(F, Sharp), NoteName(G, Sharp), NoteName(A, Sharp)];
    var intervals := ModeIntervals(Ionian);
    forall j | 0 <= j < 7
      ensures AddInterval(NoteName(B, Natural), intervals[j]) == Ok(names[j])
    {
      AddIntervalComplete(NoteName(B, Natural), intervals[j], names[j]);
    }
    AddEachSucceeds(NoteName(B, Natural), intervals, names);
  }

  /** B major: the leading tone is A sharp and the subtonic A. */
  lemma DegreeExamples()
    ensures GetDegree(Key(NoteName(B, Natural), Ionian), LeadingTone) == Ok(NoteName(A, Sharp))
    ensures GetDegree(Key(NoteName(B, Natural), Ionian), Subtonic) == Ok(NoteName(A, Natural))
  {
    var k := Key(NoteName(B, Natural), Ionian);
    BMajorScale();
    SecondsBelowB();
    DegreesBelowTonic(k);
  }

  /** Once the scale exists, the subtonic and the leading tone are the
      tonic less a major and a minor second. */
  lemma DegreesBelowTonic(k: Key)
    requires Scale(k).Ok?
    ensures GetDegree(k, Subtonic) == SubtractInterval(k.tonic, Interval(Major, Second))
    ensures GetDegree(k, LeadingTone) == SubtractInterval(k.tonic, Interval(Minor, Second))
  {
  }

  /** A minor and a major second below B. */
  lemma SecondsBelowB()
    ensures SubtractInterval(NoteName(B, Natural), Interval(Minor, Second)) == Ok(NoteName(A, Sharp))
    ensures SubtractInterval(NoteName(B, Natural), Interval(Major, Second)) == Ok(NoteName(A, Natural))
  {
    SeventhsAboveB();
    assert Inverse(Interval(Minor, Second)) == Interval(Major, Size.Seventh);
    assert Inverse(Interval(Major, Second)) == Interval(Minor, Size.Seventh);
  }

  /** A major and a minor seventh above B. */
  lemma SeventhsAboveB()
    ensures AddInterval(NoteName(B, Natural), Interval(Major, Size.Seventh)) == Ok(NoteName(A, Sharp))
    ensures AddInterval(NoteName(B, Natural), Interval(Minor, Size.Seventh)) == Ok(NoteName(A, Natural))
  {
    MajorSeventhAboveB();
    MinorSeventhAboveB();
  }

  lemma MajorSeventhAboveB()
    ensures AddInterval(NoteName(B, Natural), Interval(Major, Size.Seventh)) == Ok(NoteName(A, Sharp))
  {
    AddIntervalComplete(NoteName(B, Natural), Interval(Major, Size.Seventh), NoteName(A, Sharp));
  }

  lemma MinorSeventhAboveB()
    ensures AddInterval(NoteName(B, Natural), Interval(Minor, Size.Seventh)) == Ok(NoteName(A, Natural))
  {
    AddIntervalComplete(NoteName(B, Natural), Interval(Minor, Size.Seventh), NoteName(A, Natural));
  }

  // ---------------------------------------------------------------------
  // Key.from_string

  /** `str.removeprefix('-')`. */
  function DropDash(s: string): (r: string)
    ensures s != [] && s[0] == '-' ==> r == s[1..]
    ensures (s == [] || s[0] != '-') ==> r == s
  {
    if s != [] && s[0] == '-' then s[1..] else s
  }

  /** The mode token of a key name: empty means major after an upper-case
      letter and minor after a lower-case one; 'M' and 'm' are
      case-sensitive; other tokens are upper-cased and looked up. */
  function ModeFromToken(token: string, upperLetter: bool): (r: Result<Mode>)
    ensures r.Err? ==> r.error == InvalidMode
  {
    if token == "" then Ok(if upperLetter then Ionian else Aeolian)
    else if token == "M" then Ok(Ionian)
    else if token == "m" then Ok(Aeolian)
    else
      match ModeFromName(UpperString(token))
      case None => Err(InvalidMode)
      case Some(m) => Ok(m)
  }

  /** Every canonical mode name is a token for its mode, whatever the case of
      the tonic letter (`upperLetter`, which only an empty token consults). */
  lemma ModeNameToken(m: Mode, upperLetter: bool)
    ensures ModeFromToken(ModeName(m), upperLetter) == Ok(m)
  {
    var name := ModeName(m);
    assert |name| >= 5;
    UpperStringUnchanged(name);
    ModeNameRoundTrip(m);
  }

  /** Mode tokens are looked up without regard to letter case: any text whose
      upper case is a mode name or alias reads as that mode, and apart from
      the three special tokens '', 'M' and 'm' nothing else does. */
  lemma ModeTokenAnyCase(t: string, m: Mode, upperLetter: bool)
    ensures ModeFromName(UpperString(t)) == Some(m) ==> ModeFromToken(t, upperLetter) == Ok(m)
    ensures t != "" && t != "M" && t != "m" ==>
      (ModeFromToken(t, upperLetter) == Ok(m) <==> ModeFromName(UpperString(t)) == Some(m))
  {
    if t == "m" {
      assert UpperString(t) == "M";
    }
  }

  /** 'dorian' and 'Dorian' both name the Dorian mode, and 'Minor' is the
      Aeolian mode. */
  lemma ModeTokenExamples()
    ensures ModeFromToken("dorian", true) == Ok(Dorian)
    ensures ModeFromToken("Dorian", false) == Ok(Dorian)
    ensures ModeFromToken("Minor", true) == Ok(Aeolian)
  {
    DorianToken("dorian", true);
    DorianToken("Dorian", false);
    MinorToken();
  }

  lemma DorianToken(t: string, upperLetter: bool)
    requires t == "dorian" || t == "Dorian"
    ensures ModeFromToken(t, upperLetter) == Ok(Dorian)
  {
    assert UpperString(t) == "DORIAN";
    ModeTokenAnyCase(t, Dorian, upperLetter);
  }

  lemma MinorToken()
    ensures ModeFromToken("Minor", true) == Ok(Aeolian)
  {
    assert UpperString("Minor") == "MINOR";
    ModeTokenAnyCase("Minor", Aeolian, true);
  }

  /** `Key.from_string`: a letter, an optional accidental, then a mode token
      from which one leading '-' and surrounding white space are removed.
      The tonic's letter is the first character in either case; an
      unrecognised accidental is never an error (the tonic is then natural
      and the character is left to the mode token). The tonic's accidental
      is the one split off after the letter, and the key parses exactly when
      the letter and the mode token that remains do. */
  function KeyFromString(text: string): (r: Result<Key>)
    ensures r.Ok? ==> |Strip(text)| > 0 && Upper(Strip(text)[0]) == LetterChar(r.value.tonic.letter)
    ensures var s := Strip(text);
      r.Ok? ==> var split := SplitAccidental(s[1..]);
        && r.value.tonic.accidental == split.0
        && ModeFromToken(Strip(DropDash(split.1)), IsUpperAscii(s[0])) == Ok(r.value.mode)
    ensures var s := Strip(text);
      |s| > 0 && LetterFromString([s[0]]).Ok? ==>
        (r.Ok? <==> ModeFromToken(Strip(DropDash(SplitAccidental(s[1..]).1)), IsUpperAscii(s[0])).Ok?)
    ensures var s := Strip(text); |s| > 0 && LetterFromString([s[0]]).Err? ==> r == Err(InvalidLetter)
    ensures Strip(text) == [] ==> r == Err(EmptyText)
    ensures r.Err? ==> r.error in {EmptyText, InvalidLetter, InvalidMode}
  {
    var s := Strip(text);
    if |s| == 0 then Err(EmptyText)
    else
      var letter :- LetterFromString([s[0]]);
      var split := SplitAccidental(s[1..]);
      var mode :- ModeFromToken(Strip(DropDash(split.1)), IsUpperAscii(s[0]));
      StripUnchanged([s[0]]);
      Ok(Key(NoteName(letter, split.0), mode))
  }

  /** An unknown mode name makes the whole key fail. */
  lemma KeyUnknownMode(s: string)
    requires s == "C foo"
    ensures KeyFromString(s) == Err(InvalidMode)
  {
    var rest := s[1..];
    assert rest == " foo";
    StripUnchanged(s);
    LetterFromChar(s[0], C);
    NoAccidentalThenFoo(rest);
  }

  lemma NoAccidentalThenFoo(rest: string)
    requires rest == " foo"
    ensures ModeFromToken(Strip(DropDash(SplitAccidental(rest).1)), true) == Err(InvalidMode)
  {
    var sp := [rest[0]];
    assert rest[..2] != "bb";
    assert Strip(sp) == [] by {
      assert IsSpace(sp[0]);
      assert TrimStart(sp) == TrimStart(sp[1..]);
    }
    assert AccidentalFromString(sp) == Ok(Natural);
    var split := SplitAccidental(rest);
    var tail := split.1;
    assert tail == rest[1..];
    assert DropDash(tail) == tail;
    StripUnchanged(tail);
    assert UpperString("foo") == "FOO";
  }

  /** Writing a key as its tonic, '-' and its mode name parses back. */
  lemma KeyTextRoundTrip(k: Key)
    ensures KeyFromString(NameToString(k.tonic) + "-" + ModeName(k.mode)) == Ok(k)
  {
    var name := ModeName(k.mode);
    var rest := AccidentalText(k.tonic.accidental) + ("-" + name);
    var s := NameToString(k.tonic) + "-" + name;
    assert s == [LetterChar(k.tonic.letter)] + rest;
    assert IsUpperAscii(s[|s| - 1]);
    StripUnchanged(s);
    LetterFromChar(LetterChar(k.tonic.letter), k.tonic.letter);
    assert s[1..] == rest;
    DashedModeSplits(k.tonic.accidental, k.mode);
    ModeNameToken(k.mode, IsUpperAscii(s[0]));
    KeyFromParts(s, k.tonic.letter, k.tonic.accidental, "-" + name, k.mode);
  }

  /** After the accidental, '-' and a mode name are left for the mode token,
      which loses the dash. */
  lemma DashedModeSplits(a: Accidental, m: Mode)
    ensures SplitAccidental(AccidentalText(a) + ("-" + ModeName(m))) == (a, "-" + ModeName(m))
    ensures Strip(DropDash("-" + ModeName(m))) == ModeName(m)
  {
    DashedModeAccidental(a, m);
    DashedModeName(m);
  }

  lemma DashedModeAccidental(a: Accidental, m: Mode)
    ensures SplitAccidental(AccidentalText(a) + ("-" + ModeName(m))) == (a, "-" + ModeName(m))
  {
    StripUnchanged("-");
    SplitAccidentalText(a, "-" + ModeName(m));
  }

  lemma DashedModeName(m: Mode)
    ensures Strip(DropDash("-" + ModeName(m))) == ModeName(m)
  {
    var name := ModeName(m);
    assert DropDash("-" + name) == name;
    StripUnchanged(name);
  }

  /** How an already stripped key name whose parts all parse is read. */
  lemma KeyFromParts(s: string, l: LetterName, a: Accidental, tail: string, m: Mode)
    requires |s| > 0 && Strip(s) == s && LetterFromString([s[0]]) == Ok(l)
    requires SplitAccidental(s[1..]) == (a, tail)
    requires ModeFromToken(Strip(DropDash(tail)), IsUpperAscii(s[0])) == Ok(m)
    ensures KeyFromString(s) == Ok(Key(NoteName(l, a), m))
  {
  }

  /** Key names with a spelled-out mode, in lower case, after a space or a
      dash. */
  lemma KeyParseNamedModes()
    ensures KeyFromString("Ab dorian") == Ok(Key(NoteName(A, Flat), Dorian))
    ensures KeyFromString("B-major") == Ok(Key(NoteName(B, Natural), Ionian))
    ensures KeyFromString("C#-minor") == Ok(Key(NoteName(C, Sharp), Aeolian))
  {
    KeyParseAFlatDorian("Ab dorian");
    KeyParseBMajor("B-major");
    KeyParseCSharpMinor("C#-minor");
  }

  lemma KeyParseAFlatDorian(s: string)
    requires s == "Ab dorian"
    ensures KeyFromString(s) == Ok(Key(NoteName(A, Flat), Dorian))
  {
    KeyLetterFact(s, A);
    FlatThenDorian(s[1..]);
    KeyFromParts(s, A, Flat, s[2..], Dorian);
  }

  /** The letter of a stripped key name that starts with an upper-case
      letter. */
  lemma KeyLetterFact(s: string, l: LetterName)
    requires |s| > 0 && s[0] == LetterChar(l) && !IsSpace(s[|s| - 1])
    ensures Strip(s) == s && LetterFromString([s[0]]) == Ok(l) && IsUpperAscii(s[0])
  {
    StripUnchanged(s);
    LetterFromChar(s[0], l);
  }

  lemma FlatThenDorian(rest: string)
    requires rest == "b dorian"
    ensures SplitAccidental(rest) == (Flat, rest[1..])
    ensures ModeFromToken(Strip(DropDash(rest[1..])), true) == Ok(Dorian)
  {
    AccidentalTextRoundTrip(Flat);
    assert rest[..2] == "b " && [rest[0]] == "b";
    SpaceThenDorian(rest[1..]);
  }

  lemma SpaceThenDorian(t: string)
    requires t == " dorian"
    ensures ModeFromToken(Strip(DropDash(t)), true) == Ok(Dorian)
  {
    assert DropDash(t) == t;
    assert TrimStart(t) == t[1..] == "dorian";
    StripUnchanged(t[1..]);
    DorianToken(t[1..], true);
  }

  lemma KeyParseBMajor(s: string)
    requires s == "B-major"
    ensures KeyFromString(s) == Ok(Key(NoteName(B, Natural), Ionian))
  {
    KeyLetterFact(s, B);
    NoAccidentalThenMajor(s[1..]);
    KeyFromParts(s, B, Natural, s[1..], Ionian);
  }

  lemma NoAccidentalThenMajor(rest: string)
    requires rest == "-major"
    ensures SplitAccidental(rest) == (Natural, rest)
    ensures ModeFromToken(Strip(DropDash(rest)), true) == Ok(Ionian)
  {
    assert rest[..2] == "-m" && [rest[0]] == "-";
    DashIsNoAccidental("-");
    DashThenMode(rest, "major", Ionian);
  }

  lemma KeyParseCSharpMinor(s: string)
    requires s == "C#-minor"
    ensures KeyFromString(s) == Ok(Key(NoteName(C, Sharp), Aeolian))
  {
    KeyLetterFact(s, C);
    SharpThenMinor(s[1..]);
    KeyFromParts(s, C, Sharp, s[2..], Aeolian);
  }

  lemma SharpThenMinor(rest: string)
    requires rest == "#-minor"
    ensures SplitAccidental(rest) == (Sharp, rest[1..])
    ensures ModeFromToken(Strip(DropDash(rest[1..])), true) == Ok(Aeolian)
  {
    var tail := rest[1..];
    assert rest == AccidentalText(Sharp) + tail;
    DashIsNoAccidental([tail[0]]);
    SplitAccidentalText(Sharp, tail);
    DashThenMode(tail, "minor", Aeolian);
  }

  lemma LowerModeName(name: string, m: Mode)
    requires (name == "major" && m == Ionian) || (name == "minor" && m == Aeolian)
    ensures ModeFromToken(name, true) == Ok(m)
  {
    if m == Ionian {
      assert UpperString(name) == "MAJOR";
    } else {
      assert UpperString(name) == "MINOR";
    }
    ModeTokenAnyCase(name, m, true);
  }

  /** A dash is not an accidental, so it is left for the mode token. */
  lemma DashIsNoAccidental(t: string)
    requires t == "-"
    ensures AccidentalFromString(t) == Err(InvalidAccidental)
  {
    StripUnchanged(t);
    assert t != "bb" && t != "b" && t != "" && t != "#" && t != "x";
    assert t[0] != "\U{1D12B}"[0] && t[0] != "\U{266D}"[0] && t[0] != "\U{266E}"[0];
    assert t[0] != "\U{266F}"[0] && t[0] != "\U{1D12A}"[0];
  }

  /** A dash and a lower-case mode name or alias read as that mode. */
  lemma DashThenMode(t: string, name: string, m: Mode)
    requires (name == "major" && m == Ionian) || (name == "minor" && m == Aeolian)
    requires t == "-" + name
    ensures ModeFromToken(Strip(DropDash(t)), true) == Ok(m)
  {
    assert DropDash(t) == name;
    StripUnchanged(name);
    LowerModeName(name, m);
  }

  /** Without a mode token the letter's case decides. */
  lemma KeyDefaultMode(l: LetterName)
    ensures KeyFromString([LetterChar(l)]) == Ok(Key(NoteName(l, Natural), Ionian))
    ensures KeyFromString([(LetterChar(l) as int + 32) as char]) == Ok(Key(NoteName(l, Natural), Aeolian))
  {
    BareLetterKey([LetterChar(l)], l);
    BareLetterKey([(LetterChar(l) as int + 32) as char], l);
  }

  lemma BareLetterKey(s: string, l: LetterName)
    requires s == [LetterChar(l)] || s == [(LetterChar(l) as int + 32) as char]
    ensures KeyFromString(s) == Ok(Key(NoteName(l, Natural), if IsUpperAscii(s[0]) then Ionian else Aeolian))
  {
    StripUnchanged(s);
    LetterFromChar(s[0], l);
    assert s[1..] == [];
  }
}
