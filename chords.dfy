/** Chords: the ten chord qualities as interval stacks, the chord-symbol
    parser with its alias table and slash bass, and a chord's note names as
    a rotated list. */
module Chords {
  import opened Common
  import opened Intervals
  import opened Notes

  /** The ten chord qualities: four triads and six seventh chords. */
  datatype ChordQuality =
    | MajorTriad | MinorTriad | DiminishedTriad | AugmentedTriad
    | MajorMinorSeventh | MajorSeventh | MinorSeventh | MinorMajorSeventh
    | DiminishedSeventh | HalfDiminishedSeventh

  predicate IsTriad(q: ChordQuality) {
    q == MajorTriad || q == MinorTriad || q == DiminishedTriad || q == AugmentedTriad
  }

  /** Intervals of each quality above the root. Every quality is a stack of
      thirds on a perfect unison: a triad has three members and a seventh
      chord four, the j-th an interval of size 2j above the root. */
  function QualityIntervals(q: ChordQuality): (r: seq<Interval>)
    ensures |r| == (if IsTriad(q) then 3 else 4)
    ensures r[0] == Interval(Perfect, Unison)
    ensures forall j :: 0 <= j < |r| ==> Legal(r[j]) && SizeValue(r[j].size) == 2 * j
  {
    var P1 := Interval(Perfect, Unison);
    var m3 := Interval(Minor, Third);
    var M3 := Interval(Major, Third);
    var d5 := Interval(Diminished, Fifth);
    var P5 := Interval(Perfect, Fifth);
    var A5 := Interval(Augmented, Fifth);
    var d7 := Interval(Diminished, Size.Seventh);
    var m7 := Interval(Minor, Size.Seventh);
    var M7 := Interval(Major, Size.Seventh);
    match q
    case MajorTriad => [P1, M3, P5]
    case MinorTriad => [P1, m3, P5]
    case DiminishedTriad => [P1, m3, d5]
    case AugmentedTriad => [P1, M3, A5]
    case MajorMinorSeventh => [P1, M3, P5, m7]
    case MajorSeventh => [P1, M3, P5, M7]
    case MinorSeventh => [P1, m3, P5, m7]
    case MinorMajorSeventh => [P1, m3, P5, M7]
    case DiminishedSeventh => [P1, m3, d5, d7]
    case HalfDiminishedSeventh => [P1, m3, d5, m7]
  }

  /** The ten interval lists are pairwise different, so no quality is an
      alias of another. */
  lemma QualityIntervalsInjective(q1: ChordQuality, q2: ChordQuality)
    ensures QualityIntervals(q1) == QualityIntervals(q2) <==> q1 == q2
  {
  }

  /** `Quality.from_string`: the stripped symbol is looked up, case
      sensitively, in the alias table. */
  function QualityFromSymbol(symbol: string): (r: Result<ChordQuality>)
    ensures r.Err? ==> r.error == InvalidChordSymbol
  {
    var t := Strip(symbol);
    if t == "M" || t == "maj" || t == "" then Ok(MajorTriad)
    else if t == "m" || t == "min" || t == "-" then Ok(MinorTriad)
    else if t == "dim" || t == "\U{BA}" || t == "o" then Ok(DiminishedTriad)
    else if t == "aug" || t == "+" then Ok(AugmentedTriad)
    else if t == "7" || t == "Mm7" then Ok(MajorMinorSeventh)
    else if t == "maj7" || t == "M7" || t == "\U{394}" || t == "\U{394}7" then Ok(MajorSeventh)
    else if t == "min7" || t == "m7" || t == "-7" then Ok(MinorSeventh)
    else if t == "mM7" || t == "-M7" || t == "-\U{394}7" || t == "minmaj7" then Ok(MinorMajorSeventh)
    else if t == "o7" || t == "\U{BA}7" || t == "dim7" then Ok(DiminishedSeventh)
    else if t == "\U{F8}" || t == "\U{F8}7" || t == "m7b5" || t == "m7\U{266D}5"
         || t == "min7b5" || t == "min7\U{266D}5" then Ok(HalfDiminishedSeventh)
    else Err(InvalidChordSymbol)
  }

  /** A canonical ASCII symbol for each quality, the first the alias table
      lists for it apart from the triads' long names. */
  function QualitySymbol(q: ChordQuality): string {
    match q
    case MajorTriad => "M"
    case MinorTriad => "m"
    case DiminishedTriad => "dim"
    case AugmentedTriad => "aug"
    case MajorMinorSeventh => "7"
    case MajorSeventh => "maj7"
    case MinorSeventh => "m7"
    case MinorMajorSeventh => "mM7"
    case DiminishedSeventh => "dim7"
    case HalfDiminishedSeventh => "m7b5"
  }

  /** Every canonical symbol is in the alias table under its own quality. */
  lemma QualitySymbolRoundTrip(q: ChordQuality)
    ensures QualityFromSymbol(QualitySymbol(q)) == Ok(q)
  {
    StripUnchanged(QualitySymbol(q));
  }

  /** The lookup is case sensitive, accepts the non-ASCII aliases, ignores
      surrounding white space and rejects unknown symbols. */
  lemma QualitySymbolExamples()
    ensures QualityFromSymbol("m") == Ok(MinorTriad)
    ensures QualityFromSymbol("M") == Ok(MajorTriad)
    ensures QualityFromSymbol("maj") == Ok(MajorTriad)
    ensures QualityFromSymbol("\U{394}") == Ok(MajorSeventh)
    ensures QualityFromSymbol("\U{F8}") == Ok(HalfDiminishedSeventh)
    ensures QualityFromSymbol(" m7 ") == Ok(MinorSeventh)
    ensures QualityFromSymbol("MAJ") == Err(InvalidChordSymbol)
  {
    ShortSymbols();
    GlyphSymbols();
    PaddedSymbol();
    UpperCaseSymbol();
  }

  lemma ShortSymbols()
    ensures QualityFromSymbol("m") == Ok(MinorTriad)
    ensures QualityFromSymbol("M") == Ok(MajorTriad)
    ensures QualityFromSymbol("maj") == Ok(MajorTriad)
  {
    StripUnchanged("m");
    StripUnchanged("M");
    StripUnchanged("maj");
  }

  lemma GlyphSymbols()
    ensures QualityFromSymbol("\U{394}") == Ok(MajorSeventh)
    ensures QualityFromSymbol("\U{F8}") == Ok(HalfDiminishedSeventh)
  {
    StripUnchanged("\U{394}");
    StripUnchanged("\U{F8}");
  }

  lemma PaddedSymbol()
    ensures QualityFromSymbol(" m7 ") == Ok(MinorSeventh)
  {
    assert TrimStart(" m7 ") == TrimStart("m7 ");
    assert TrimEnd("m7 ") == TrimEnd("m7");
    StripUnchanged("m7");
  }

  lemma UpperCaseSymbol()
    ensures QualityFromSymbol("MAJ") == Err(InvalidChordSymbol)
  {
    StripUnchanged("MAJ");
  }

  // ---------------------------------------------------------------------
  // Chord

  /** A chord as `from_attrs` builds it: any root, any interval list and
      any integer inversion. Equality compares the three fields. */
  datatype Chord = Chord(root: NoteName, quality: seq<Interval>, inversion: int)

  /** `notes[k:] + notes[:k]`: the list rotated left by `k`. Element `j`
      of the result is element `j + k` of the original, wrapping around
      past the end. */
  function Rotate<T>(s: seq<T>, k: int): (r: seq<T>)
    requires 0 <= k <= |s|
    ensures |r| == |s|
    ensures forall j :: 0 <= j < |s| - k ==> r[j] == s[j + k]
    ensures forall j :: |s| - k <= j < |s| ==> r[j] == s[j + k - |s|]
  {
    s[k..] + s[..k]
  }

  /** Element `j` of the rotated list is element `j + k` of the original,
      wrapping around past the end. */
  lemma RotateAt<T>(s: seq<T>, k: int, j: int)
    requires 0 <= k <= |s| && 0 <= j < |s|
    ensures j < |s| - k ==> Rotate(s, k)[j] == s[j + k]
    ensures j >= |s| - k ==> Rotate(s, k)[j] == s[j + k - |s|]
  {
  }

  /** Rotation reorders and keeps every element. */
  lemma RotatePermutes<T>(s: seq<T>, k: int)
    requires 0 <= k <= |s|
    ensures multiset(Rotate(s, k)) == multiset(s)
  {
    assert s == s[..k] + s[k..];
  }

  /** Rotating back by the complement restores the list. */
  lemma RotateInverse<T>(s: seq<T>, k: int)
    requires 0 <= k <= |s|
    ensures Rotate(Rotate(s, k), |s| - k) == s
  {
    var r := Rotate(s, k);
    var t := Rotate(r, |s| - k);
    forall j | 0 <= j < |s|
      ensures t[j] == s[j]
    {
      RotateAt(r, |s| - k, j);
      if j < k {
        RotateAt(s, k, j + |s| - k);
      } else {
        RotateAt(s, k, j - k);
      }
    }
  }

  /** `note_names`: each interval added to the root, then rotated left by
      the inversion modulo the number of intervals. The additions come
      first; an empty interval list then fails on the modulo. */
  function NoteNames(c: Chord): Result<seq<NoteName>> {
    var notes :- AddEach(c.root, c.quality);
    if |c.quality| == 0 then Err(ZeroDivision)
    else Ok(Rotate(notes, c.inversion % |c.quality|))
  }

  /** The note names are the root-position names, reordered: as many as the
      intervals and the same names with the same multiplicities. The list
      fails exactly when an addition fails or there are no intervals. */
  lemma NoteNamesMeaning(c: Chord)
    ensures AddEach(c.root, c.quality).Ok? && |c.quality| > 0 <==> NoteNames(c).Ok?
    ensures NoteNames(c).Ok? ==>
      && |NoteNames(c).value| == |c.quality|
      && multiset(NoteNames(c).value) == multiset(AddEach(c.root, c.quality).value)
    ensures AddEach(c.root, c.quality).Err? ==> NoteNames(c) == Err(AddEach(c.root, c.quality).error)
    ensures AddEach(c.root, c.quality).Ok? && |c.quality| == 0 ==> NoteNames(c) == Err(ZeroDivision)
  {
    if NoteNames(c).Ok? {
      RotatePermutes(AddEach(c.root, c.quality).value, c.inversion % |c.quality|);
    }
  }

  /** The j-th note name is the root moved by interval `(j + inversion) mod n`. */
  lemma NoteNamesMembers(c: Chord)
    requires NoteNames(c).Ok?
    ensures forall j :: 0 <= j < |c.quality| ==>
      AddInterval(c.root, c.quality[(j + c.inversion) % |c.quality|]) == Ok(NoteNames(c).value[j])
  {
    forall j | 0 <= j < |c.quality|
      ensures AddInterval(c.root, c.quality[(j + c.inversion) % |c.quality|]) == Ok(NoteNames(c).value[j])
    {
      NoteNameAt(c, j);
    }
  }

  lemma {:induction false} NoteNameAt(c: Chord, j: int)
    requires NoteNames(c).Ok? && 0 <= j < |c.quality|
    ensures AddInterval(c.root, c.quality[(j + c.inversion) % |c.quality|]) == Ok(NoteNames(c).value[j])
  {
    NoteNamesRotated(c);
    RotatedSource(AddEach(c.root, c.quality).value, NoteNames(c).value, |c.quality|, c.inversion, j);
    AddEachAt(c.root, c.quality, (j + c.inversion) % |c.quality|);
  }

  /** Where element `j` of a rotated list comes from, with its index in range. */
  lemma RotatedSource<T>(s: seq<T>, r: seq<T>, n: int, i: int, j: int)
    requires |s| == n && 0 <= j < n && r == Rotate(s, i % n)
    ensures 0 <= (j + i) % n < n && r[j] == s[(j + i) % n]
  {
    RotatedAt(s, i, j);
  }

  /** Successful note names are the root-position additions, rotated. */
  lemma NoteNamesRotated(c: Chord)
    requires NoteNames(c).Ok?
    ensures AddEach(c.root, c.quality).Ok? && |c.quality| > 0
    ensures NoteNames(c).value == Rotate(AddEach(c.root, c.quality).value, c.inversion % |c.quality|)
  {
  }

  /** Element `j` of a list rotated by `i mod n` is element `(j + i) mod n`. */
  lemma RotatedAt<T>(s: seq<T>, i: int, j: int)
    requires 0 <= j < |s|
    ensures Rotate(s, i % |s|)[j] == s[(j + i) % |s|]
  {
    ShiftedIndex(j, i, |s|);
    RotateAt(s, i % |s|, j);
  }

  /** `(j + i) mod n` is the index `j` is rotated from. */
  lemma ShiftedIndex(j: int, i: int, n: int)
    requires 0 <= j < n
    ensures j < n - i % n ==> (j + i) % n == j + i % n
    ensures j >= n - i % n ==> (j + i) % n == j + i % n - n
  {
    var k, d := i % n, i / n;
    assert i == n * d + k;
    if j < n - k {
      DivisionUnique(j + i, n, d, j + k);
    } else {
      assert n * (d + 1) == n * d + n;
      DivisionUnique(j + i, n, d + 1, j + k - n);
    }
  }

  /** Adding a multiple of `n` does not change a remainder modulo `n`. */
  lemma ModuloShift(x: int, q: int, n: int)
    requires n > 0
    ensures (x + n * q) % n == x % n
  {
    assert x + n * q == n * (x / n + q) + x % n;
    DivisionUnique(x + n * q, n, x / n + q, x % n);
  }

  /** Euclidean division has exactly one quotient and remainder. */
  lemma DivisionUnique(y: int, n: int, a: int, r: int)
    requires n > 0 && 0 <= r < n && y == n * a + r
    ensures y % n == r
  {
    var a', r' := y / n, y % n;
    assert n * (a - a') == r' - r;
    if a > a' {
      MultipleAtLeast(n, a - a');
    } else if a < a' {
      MultipleAtLeast(n, a' - a);
    }
  }

  lemma MultipleAtLeast(n: int, d: int)
    requires n > 0 && d >= 1
    ensures n * d >= n
  {
  }

  /** `len(chord)`, which goes through the note names: the number of
      intervals, or the note names' failure. */
  function ChordLength(c: Chord): (r: Result<nat>)
    ensures r.Ok? <==> NoteNames(c).Ok?
    ensures r.Ok? ==> r.value == |c.quality|
  {
    NoteNamesMeaning(c);
    var names :- NoteNames(c);
    Ok(|names|)
  }

  /** The inversion only matters modulo the number of intervals: inversions
      `i` and `i + n` give the same note names, yet they are different
      chords. */
  lemma InversionPeriodic(root: NoteName, q: seq<Interval>, i: int)
    requires |q| > 0
    ensures NoteNames(Chord(root, q, i + |q|)) == NoteNames(Chord(root, q, i))
    ensures Chord(root, q, i + |q|) != Chord(root, q, i)
  {
    ModuloShift(i, 1, |q|);
  }

  /** The lowest note: the root moved by the interval at the inversion. */
  lemma BassIsInvertedMember(c: Chord)
    requires NoteNames(c).Ok?
    ensures AddInterval(c.root, c.quality[c.inversion % |c.quality|]) == Ok(NoteNames(c).value[0])
  {
    NoteNamesMembers(c);
    assert (0 + c.inversion) % |c.quality| == c.inversion % |c.quality|;
  }

  // ---------------------------------------------------------------------
  // Chord.from_string

  /** `list.index`: the position of the first element equal to `x`. */
  function IndexOf<T(==)>(s: seq<T>, x: T): (r: Option<nat>)
    ensures r.Some? ==> r.value < |s| && s[r.value] == x && forall j :: 0 <= j < r.value ==> s[j] != x
    ensures r.None? <==> x !in s
  {
    if s == [] then None
    else if s[0] == x then Some(0)
    else match IndexOf(s[1..], x)
      case None => None
      case Some(i) => Some(i + 1)
  }

  /** `str.partition(sep)`: the text before the first `sep`, whether there
      was one, and the text after it. */
  function Partition(s: string, sep: char): (r: (string, bool, string))
    ensures r.1 ==> s == r.0 + [sep] + r.2
    ensures !r.1 ==> r.0 == s && r.2 == []
    ensures sep !in r.0
  {
    if s == [] then ([], false, [])
    else if s[0] == sep then ([], true, s[1..])
    else
      var p := Partition(s[1..], sep);
      ([s[0]] + p.0, p.1, p.2)
  }

  /** The quality text of a chord symbol: empty means a major triad after
      an upper-case letter and a minor triad after a lower-case one; any
      other text is looked up, whatever the letter's case. */
  function QualityToken(symbol: string, upperLetter: bool): (r: Result<ChordQuality>)
    ensures symbol != [] ==> r == QualityFromSymbol(symbol)
    ensures symbol == [] ==> r == Ok(if upperLetter then MajorTriad else MinorTriad)
  {
    if symbol != [] then QualityFromSymbol(symbol)
    else Ok(if upperLetter then MajorTriad else MinorTriad)
  }

  /** The inversion named by a slash bass: the first position of the bass
      among the root-position note names. It fails when the bass does not
      parse, when a note name cannot be spelled, or when the bass is not a
      member. */
  function SlashInversion(root: NoteName, intervals: seq<Interval>, bassText: string): (r: Result<nat>)
    ensures r.Ok? ==>
      && NoteNames(Chord(root, intervals, 0)).Ok?
      && r.value < |intervals|
      && NameFromString(bassText) == Ok(NoteNames(Chord(root, intervals, 0)).value[r.value])
      && forall j :: 0 <= j < r.value ==>
           Ok(NoteNames(Chord(root, intervals, 0)).value[j]) != NameFromString(bassText)
    ensures NameFromString(bassText).Ok? && NoteNames(Chord(root, intervals, 0)).Ok? ==>
      (r == Err(BassNotInChord) <==> NameFromString(bassText).value !in NoteNames(Chord(root, intervals, 0)).value)
  {
    NoteNamesMeaning(Chord(root, intervals, 0));
    var bass :- NameFromString(bassText);
    var names :- NoteNames(Chord(root, intervals, 0));
    match IndexOf(names, bass)
    case None => Err(BassNotInChord)
    case Some(i) => Ok(i)
  }

  /** `Chord.from_string`: a root letter, then 'bb' or one recognised
      accidental character, then a quality symbol and an optional slash
      bass. A parsed chord's root letter is the first character in either
      case, its intervals are one of the ten stacks of the table, and its
      inversion lies within them; without a slash it is in root position. */
  function ChordFromString(name: string): (r: Result<Chord>)
    ensures r.Ok? ==> |Strip(name)| > 0 && Upper(Strip(name)[0]) == LetterChar(r.value.root.letter)
    ensures r.Ok? ==> exists q :: r.value.quality == QualityIntervals(q)
    ensures r.Ok? ==> |r.value.quality| >= 3 && r.value.quality[0] == Interval(Perfect, Unison)
    ensures r.Ok? ==> 0 <= r.value.inversion < |r.value.quality|
    ensures r.Ok? && '/' !in Strip(name) ==> r.value.inversion == 0
    ensures Strip(name) == [] ==> r == Err(EmptyText)
  {
    var s := Strip(name);
    if |s| == 0 then Err(EmptyText)
    else
      var letter :- LetterFromString([s[0]]);
      StripUnchanged([s[0]]);
      var split := SplitAccidental(s[1..]);
      var parts := Partition(split.1, '/');
      var r := ChordFromParts(NoteName(letter, split.0), IsUpperAscii(s[0]), parts.0, parts.1, parts.2);
      if r.Ok? then
        var q := QualityToken(parts.0, IsUpperAscii(s[0])).value;
        assert r.value.quality == QualityIntervals(q);
        assert parts.1 ==> split.1[|parts.0|] == '/' && s[|s| - |split.1| + |parts.0|] == '/';
        r
      else r
  }

  /** The chord named by a root, the case of its letter, the quality text
      and the optional slash bass. */
  function ChordFromParts(root: NoteName, upperLetter: bool, symbol: string, slash: bool, bassText: string): (r: Result<Chord>)
    ensures r.Ok? ==> r.value.root == root && 0 <= r.value.inversion < |r.value.quality|
    ensures r.Ok? ==> QualityToken(symbol, upperLetter).Ok?
    ensures r.Ok? ==> r.value.quality == QualityIntervals(QualityToken(symbol, upperLetter).value)
    ensures r.Ok? && !slash ==> r.value.inversion == 0
    ensures r.Ok? && slash ==> SlashInversion(root, r.value.quality, bassText) == Ok(r.value.inversion)
    ensures QualityToken(symbol, upperLetter).Ok? ==>
      (r.Ok? <==> (!slash || SlashInversion(root, QualityIntervals(QualityToken(symbol, upperLetter).value), bassText).Ok?))
    ensures QualityToken(symbol, upperLetter).Err? ==> r == Err(QualityToken(symbol, upperLetter).error)
  {
    var quality :- QualityToken(symbol, upperLetter);
    var intervals := QualityIntervals(quality);
    var inversion :- if slash then SlashInversion(root, intervals, bassText) else Ok(0);
    Ok(Chord(root, intervals, inversion))
  }

  /** How a stripped chord name whose root parses is read. */
  lemma ReadChord(s: string, l: LetterName, a: Accidental, rest: string)
    requires |s| > 0 && Strip(s) == s && LetterFromString([s[0]]) == Ok(l)
    requires SplitAccidental(s[1..]) == (a, rest)
    ensures var parts := Partition(rest, '/');
      ChordFromString(s) == ChordFromParts(NoteName(l, a), IsUpperAscii(s[0]), parts.0, parts.1, parts.2)
  {
  }

  /** Inverting a chord to its slash bass puts that bass lowest. */
  lemma SlashBassIsLowest(root: NoteName, intervals: seq<Interval>, bassText: string)
    requires SlashInversion(root, intervals, bassText).Ok?
    ensures var c := Chord(root, intervals, SlashInversion(root, intervals, bassText).value);
      NoteNames(c).Ok? && NameFromString(bassText) == Ok(NoteNames(c).value[0])
  {
    var i := SlashInversion(root, intervals, bassText).value;
    var names := NoteNames(Chord(root, intervals, 0)).value;
    var c := Chord(root, intervals, i);
    DivisionUnique(i, |intervals|, 0, i);
    assert names == AddEach(root, intervals).value;
    assert NoteNames(c).value == Rotate(names, i);
  }

  /** Partition splits at a separator when the text before it has none. */
  lemma {:induction false} PartitionAt(a: string, b: string, sep: char)
    requires sep !in a
    ensures Partition(a + [sep] + b, sep) == (a, true, b)
  {
    if a != [] {
      assert (a + [sep] + b)[1..] == a[1..] + [sep] + b;
      PartitionAt(a[1..], b, sep);
      assert [a[0]] + a[1..] == a;
    } else {
      assert (a + [sep] + b)[1..] == b;
    }
  }

  /** Partition of a text without the separator keeps it whole. */
  lemma {:induction false} PartitionNone(a: string, sep: char)
    requires sep !in a
    ensures Partition(a, sep) == (a, false, [])
  {
    if a != [] {
      PartitionNone(a[1..], sep);
    }
  }

  // ---------------------------------------------------------------------
  // Examples

  /** Root-position names of a quality on a root, given each member. */
  lemma StackNames(root: NoteName, q: ChordQuality, names: seq<NoteName>)
    requires |names| == |QualityIntervals(q)|
    requires forall j :: 0 <= j < |names| ==> NameSpells(root, QualityIntervals(q)[j], names[j])
    ensures AddEach(root, QualityIntervals(q)) == Ok(names)
  {
    var intervals := QualityIntervals(q);
    forall j | 0 <= j < |names|
      ensures AddInterval(root, intervals[j]) == Ok(names[j])
    {
      AddIntervalComplete(root, intervals[j], names[j]);
    }
    AddEachSucceeds(root, intervals, names);
  }

  /** The C major triad is C, E, G; in first inversion E, G, C. */
  lemma CMajorNames()
    ensures NoteNames(Chord(NoteName(C, Natural), QualityIntervals(MajorTriad), 0)) ==
      Ok([NoteName(C, Natural), NoteName(E, Natural), NoteName(G, Natural)])
    ensures NoteNames(Chord(NoteName(C, Natural), QualityIntervals(MajorTriad), 1)) ==
      Ok([NoteName(E, Natural), NoteName(G, Natural), NoteName(C, Natural)])
  {
    var names := [NoteName(C, Natural), NoteName(E, Natural), NoteName(G, Natural)];
    StackNames(NoteName(C, Natural), MajorTriad, names);
    assert Rotate(names, 0) == names;
    assert Rotate(names, 1) == [NoteName(E, Natural), NoteName(G, Natural), NoteName(C, Natural)];
  }

  /** The diminished seventh on F is F, A flat, C flat, E double flat. */
  lemma DiminishedSeventhNames()
    ensures NoteNames(Chord(NoteName(F, Natural), QualityIntervals(DiminishedSeventh), 0)) ==
      Ok([NoteName(F, Natural), NoteName(A, Flat), NoteName(C, Flat), NoteName(E, DoubleFlat)])
  {
    var names := [NoteName(F, Natural), NoteName(A, Flat), NoteName(C, Flat), NoteName(E, DoubleFlat)];
    StackNames(NoteName(F, Natural), DiminishedSeventh, names);
    assert Rotate(names, 0) == names;
  }

  /** A diminished seventh on F flat needs E triple flat, so it has no
      note names. */
  lemma UnspellableChord()
    ensures NoteNames(Chord(NoteName(F, Flat), QualityIntervals(DiminishedSeventh), 0)) == Err(AccidentalOutOfRange)
  {
    var intervals := QualityIntervals(DiminishedSeventh);
    var root := NoteName(F, Flat);
    FFlatDiminishedSeventh();
    assert FirstFailure(root, intervals, 3, AccidentalOutOfRange);
    AddEachFails(root, intervals, 3, AccidentalOutOfRange);
  }

  /** F flat plus the intervals of a diminished seventh: the last sum
      would be E triple flat. */
  lemma FFlatDiminishedSeventh()
    ensures AddInterval(NoteName(F, Flat), QualityIntervals(DiminishedSeventh)[0]).Ok?
    ensures AddInterval(NoteName(F, Flat), QualityIntervals(DiminishedSeventh)[1]).Ok?
    ensures AddInterval(NoteName(F, Flat), QualityIntervals(DiminishedSeventh)[2]).Ok?
    ensures AddInterval(NoteName(F, Flat), QualityIntervals(DiminishedSeventh)[3]) == Err(AccidentalOutOfRange)
  {
    DiminishedSeventhIntervals();
    AddIntervalComplete(NoteName(F, Flat), Interval(Perfect, Unison), NoteName(F, Flat));
    FFlatThirdAndFifth();
    FFlatDiminishedSeventhAbove();
  }

  lemma DiminishedSeventhIntervals()
    ensures QualityIntervals(DiminishedSeventh) == [Interval(Perfect, Unison), Interval(Minor, Third),
      Interval(Diminished, Fifth), Interval(Diminished, Size.Seventh)]
  {
  }

  /** F flat plus a minor third and a diminished fifth. */
  lemma FFlatThirdAndFifth()
    ensures AddInterval(NoteName(F, Flat), Interval(Minor, Third)) == Ok(NoteName(A, DoubleFlat))
    ensures AddInterval(NoteName(F, Flat), Interval(Diminished, Fifth)) == Ok(NoteName(C, DoubleFlat))
  {
    FFlatMinorThird();
    AddIntervalComplete(NoteName(F, Flat), Interval(Diminished, Fifth), NoteName(C, DoubleFlat));
  }

  lemma FFlatMinorThird()
    ensures AddInterval(NoteName(F, Flat), Interval(Minor, Third)) == Ok(NoteName(A, DoubleFlat))
  {
    AddIntervalComplete(NoteName(F, Flat), Interval(Minor, Third), NoteName(A, DoubleFlat));
  }

  /** A diminished seventh above F flat would be E triple flat. */
  lemma FFlatDiminishedSeventhAbove()
    ensures AddInterval(NoteName(F, Flat), Interval(Diminished, Size.Seventh)) == Err(AccidentalOutOfRange)
  {
  }

  /** A slash bass selects the inversion: 'Cmaj/E' is C major in first
      inversion. */
  lemma FirstInversionExample()
    ensures ChordFromString("Cmaj/E") == Ok(Chord(NoteName(C, Natural), QualityIntervals(MajorTriad), 1))
  {
    FirstInversionParts();
    FirstInversionFromParts(NoteName(C, Natural), "maj", "E");
  }

  lemma FirstInversionFromParts(root: NoteName, symbol: string, bassText: string)
    requires root == NoteName(C, Natural) && symbol == "maj" && bassText == "E"
    ensures ChordFromParts(root, true, symbol, true, bassText) == Ok(Chord(root, QualityIntervals(MajorTriad), 1))
  {
    QualitySymbolExamples();
    BassParses(E, MajorTriad, 1);
  }

  lemma FirstInversionParts()
    ensures ChordFromString("Cmaj/E") == ChordFromParts(NoteName(C, Natural), true, "maj", true, "E")
  {
    var s := "Cmaj/E";
    assert s == [s[0]] + "maj" + "/" + "E";
    assert s[0] == LetterChar(C) && s[|s| - 1] == 'E';
    assert '/' !in "maj";
    StripUnchanged("m");
    assert AccidentalFromString(["maj"[0]]).Err?;
    SlashParts(s, C, "maj", "E");
  }

  /** 'C/D' fails because D is not in the C major triad. */
  lemma BassNotInChordExample()
    ensures ChordFromString("C/D") == Err(BassNotInChord)
  {
    var s := "C/D";
    assert s == [s[0]] + "" + "/" + "D";
    assert s[0] == LetterChar(C) && s[|s| - 1] == 'D';
    SlashParts(s, C, "", "D");
    MissingBassParts();
  }

  lemma MissingBassParts()
    ensures ChordFromParts(NoteName(C, Natural), true, "", true, "D") == Err(BassNotInChord)
  {
    BassParses(D, MajorTriad, 1);
  }

  /** What a natural bass letter selects in the C major triad. */
  lemma BassParses(l: LetterName, q: ChordQuality, i: nat)
    requires q == MajorTriad && ((l == E && i == 1) || l == D)
    ensures l == E ==> SlashInversion(NoteName(C, Natural), QualityIntervals(q), [LetterChar(l)]) == Ok(i)
    ensures l == D ==> SlashInversion(NoteName(C, Natural), QualityIntervals(q), [LetterChar(l)]) == Err(BassNotInChord)
  {
    CMajorNames();
    NameTextRoundTrip(NoteName(l, Natural));
    assert NameToString(NoteName(l, Natural)) == [LetterChar(l)];
  }

  /** A stripped name whose root is a natural upper-case letter, followed by
      a symbol and a slash bass. */
  lemma SlashParts(s: string, l: LetterName, symbol: string, bassText: string)
    requires |s| > 0 && s == [s[0]] + symbol + "/" + bassText
    requires s[0] == LetterChar(l) && IsUpperAscii(s[0]) && !IsSpace(s[|s| - 1]) && '/' !in symbol
    requires symbol != [] ==> symbol[0] != 'b' && AccidentalFromString([symbol[0]]).Err?
    ensures ChordFromString(s) == ChordFromParts(NoteName(l, Natural), true, symbol, true, bassText)
  {
    StripUnchanged(s);
    LetterFromChar(s[0], l);
    assert s[1..] == symbol + "/" + bassText;
    SlashRest(symbol, bassText);
    ReadChord(s, l, Natural, symbol + "/" + bassText);
  }

  /** After a natural root, a symbol and a slash bass split into their parts. */
  lemma SlashRest(symbol: string, bassText: string)
    requires '/' !in symbol
    requires symbol != [] ==> symbol[0] != 'b' && AccidentalFromString([symbol[0]]).Err?
    ensures SplitAccidental(symbol + "/" + bassText) == (Natural, symbol + "/" + bassText)
    ensures Partition(symbol + "/" + bassText, '/') == (symbol, true, bassText)
  {
    var rest := symbol + "/" + bassText;
    assert rest == symbol + ['/'] + bassText;
    StripUnchanged("/");
    SplitAccidentalText(Natural, rest);
    PartitionAt(symbol, bassText, '/');
  }

  /** An accidental spelled on its own is consumed whole. */
  lemma SplitAccidentalAlone(a: Accidental)
    ensures SplitAccidental(AccidentalText(a)) == (a, [])
  {
    AccidentalTextRoundTrip(a);
  }

  /** A stripped name without a slash: letter, accidental, symbol. */
  lemma PlainParts(s: string, l: LetterName, a: Accidental, symbol: string)
    requires |s| > 0 && s == [s[0]] + AccidentalText(a) + symbol
    requires s[0] == LetterChar(l) || s[0] == (LetterChar(l) as int + 32) as char
    requires !IsSpace(s[|s| - 1]) && '/' !in symbol
    requires symbol != [] ==> symbol[0] != 'b' && AccidentalFromString([symbol[0]]).Err?
    ensures ChordFromString(s) == ChordFromParts(NoteName(l, a), IsUpperAscii(s[0]), symbol, false, [])
  {
    StripUnchanged(s);
    LetterFromChar(s[0], l);
    assert s[1..] == AccidentalText(a) + symbol;
    PlainRest(a, symbol);
    ReadChord(s, l, a, symbol);
  }

  /** After the letter, an accidental and a symbol without a slash split
      into the accidental and the whole symbol. */
  lemma PlainRest(a: Accidental, symbol: string)
    requires '/' !in symbol
    requires symbol != [] ==> symbol[0] != 'b' && AccidentalFromString([symbol[0]]).Err?
    ensures SplitAccidental(AccidentalText(a) + symbol) == (a, symbol)
    ensures Partition(symbol, '/') == (symbol, false, [])
  {
    if symbol == [] {
      assert AccidentalText(a) + symbol == AccidentalText(a);
      SplitAccidentalAlone(a);
    } else {
      SplitAccidentalText(a, symbol);
    }
    PartitionNone(symbol, '/');
  }

  /** A bare letter names a root-position triad: major when the letter is
      upper case and minor when it is lower case. */
  lemma BareLetterChord(l: LetterName)
    ensures ChordFromString([LetterChar(l)]) ==
      Ok(Chord(NoteName(l, Natural), QualityIntervals(MajorTriad), 0))
    ensures ChordFromString([(LetterChar(l) as int + 32) as char]) ==
      Ok(Chord(NoteName(l, Natural), QualityIntervals(MinorTriad), 0))
  {
    BareLetterParts([LetterChar(l)], l);
    BareLetterParts([(LetterChar(l) as int + 32) as char], l);
  }

  lemma BareLetterParts(s: string, l: LetterName)
    requires s == [LetterChar(l)] || s == [(LetterChar(l) as int + 32) as char]
    ensures ChordFromString(s) ==
      Ok(Chord(NoteName(l, Natural), QualityIntervals(if IsUpperAscii(s[0]) then MajorTriad else MinorTriad), 0))
  {
    assert s == [s[0]] + AccidentalText(Natural) + [];
    PlainParts(s, l, Natural, []);
  }

  /** Root spellings: a lower-case letter alone is a minor triad, 'bb' is
      read as a double flat before any symbol, a single 'b' after the letter
      is a flat, and a non-empty symbol ignores the letter's case. */
  lemma RootSpellingExamples()
    ensures ChordFromString("e#") == Ok(Chord(NoteName(E, Sharp), QualityIntervals(MinorTriad), 0))
    ensures ChordFromString("Abb+") == Ok(Chord(NoteName(A, DoubleFlat), QualityIntervals(AugmentedTriad), 0))
    ensures ChordFromString("bbminmaj7") == Ok(Chord(NoteName(B, Flat), QualityIntervals(MinorMajorSeventh), 0))
    ensures ChordFromString("a7") == Ok(Chord(NoteName(A, Natural), QualityIntervals(MajorMinorSeventh), 0))
  {
    LowerSharpParts();
    DoubleFlatParts();
    FlatParts();
    LowerSeventhParts();
    SymbolAliasExamples();
  }

  lemma LowerSharpParts()
    ensures ChordFromString("e#") == ChordFromParts(NoteName(E, Sharp), false, "", false, [])
  {
    var s := "e#";
    assert s == [s[0]] + AccidentalText(Sharp) + "";
    PlainParts(s, E, Sharp, "");
  }

  lemma DoubleFlatParts()
    ensures ChordFromString("Abb+") == ChordFromParts(NoteName(A, DoubleFlat), true, "+", false, [])
  {
    var s := "Abb+";
    assert s == [s[0]] + AccidentalText(DoubleFlat) + "+";
    StripUnchanged("+");
    PlainParts(s, A, DoubleFlat, "+");
  }

  lemma FlatParts()
    ensures ChordFromString("bbminmaj7") == ChordFromParts(NoteName(B, Flat), false, "minmaj7", false, [])
  {
    var s := "bbminmaj7";
    assert s == [s[0]] + AccidentalText(Flat) + "minmaj7";
    StripUnchanged("m");
    assert '/' !in "minmaj7";
    PlainParts(s, B, Flat, "minmaj7");
  }

  lemma LowerSeventhParts()
    ensures ChordFromString("a7") == ChordFromParts(NoteName(A, Natural), false, "7", false, [])
  {
    var s := "a7";
    assert s == [s[0]] + AccidentalText(Natural) + "7";
    StripUnchanged("7");
    PlainParts(s, A, Natural, "7");
  }

  /** Alias lookups used by the root examples. */
  lemma SymbolAliasExamples()
    ensures QualityFromSymbol("+") == Ok(AugmentedTriad)
    ensures QualityFromSymbol("minmaj7") == Ok(MinorMajorSeventh)
    ensures QualityFromSymbol("7") == Ok(MajorMinorSeventh)
  {
    StripUnchanged("+");
    StripUnchanged("minmaj7");
    StripUnchanged("7");
  }
}
