# fugo — a verified model of a symbolic music-theory library

fugo is a small Python library of music-theory values. It provides:

- letter names and accidentals, spelled note names (pitch classes) and notes with an octave;
- intervals and their string parser;
- keys in seven modes with scale degrees;
- chord qualities, chord symbols with slash-bass inversions, and chord note names;
- the classification of two-voice motion;
- exact rational durations, meters, and a clock that turns a running total of durations into a score position (measure, beat, pulse).

This project restates each of those operations in Dafny, one module per source file:

- `Common`: `Result`/`Option`, the error kinds, and Python's `str.strip`, `str.upper` and `int()` as far as the library relies on them.
- `Intervals`, `Notes`, `Keys`, `Chords`, `Motions`, `Durations`, `Meters`, `Times`.

Each module proves what the library promises about its operations:

- parsers and printers round-trip;
- adding and subtracting an interval undo each other and step the letter and the pitch by the interval's size and semitones;
- `distance` is symmetric and agrees with interval addition;
- chord note names are a rotation, and so a permutation, of the root-position members;
- the six motion kinds partition the direction pairs;
- a score position reconstructs its total, and every in-range position is the position of its own offset.

Python exceptions become `Err` values of one `Error` enumeration. The error kind is the one the source raises first.

Imperative parts of the source stay imperative:

- The character-stream loop of `Note.from_string` is the method `Notes.ParseNote`. It is proved equal to the function `Notes.NoteFromString`.
- `NoteName - NoteName` bumps an octave in place. It is the method `Notes.NameDifference`.
- The clock is the class `Times.Clock`, with a mutable running total.

Two operations are used by the note arithmetic but are not in the source files this model covers: the semitone count `interval.steps` and the inversion `~interval` (only its size half, `Size.__invert__`, is). The model fixes them as follows:

- `Intervals.Steps` is the conventional table on the 28 legal (quality, size) pairs: d1 = -1, P1 = 0, A1 = 1, d2 = 0, m2 = 1, … P8 = 12, A8 = 13.
- `Intervals.Inverse` inverts the size and swaps major/minor and diminished/augmented.

Arithmetic with a pair that has no semitone count, such as `M5`, which parses, fails with `UndefinedSteps`.

## Model

| member | source | states |
|---|---|---|
| Common.TrimStartDrops | fugo/note.py:30 | trimming the front removes a run of whitespace and keeps the rest of the text unchanged |
| Common.TrimEndDrops | fugo/note.py:30 | trimming the back removes a run of whitespace and keeps the rest of the text unchanged |
| Common.StripRemovesSpace | fugo/note.py:30 | `str.strip()` returns the text less a prefix and a suffix of characters that Python's `str.isspace` accepts, and (by `Strip`'s own contract) the result starts and ends with non-space, so it is the widest such slice |
| Common.StripUnchanged | fugo/note.py:152 | text without outer whitespace is its own strip |
| Common.UpperString | fugo/key.py:146 | upper-casing keeps the length and maps every character |
| Common.UpperStringUnchanged | fugo/key.py:146 | upper-case ASCII text is unchanged by upper-casing |
| Common.IntToString | fugo/note.py:214 | `str(int)` is non-empty, ends in a digit and holds only digits and a sign |
| Common.NatToStringValue | fugo/note.py:214 | the decimal text of a natural number is digit text whose value is that number |
| Common.ParseDigitText | fugo/interval/interval.py:74-77 | `int()` of digit text (with single underscores) is its value |
| Common.ParseNegativeDigitText | fugo/note.py:304 | `int()` of `-` followed by digit text is the negated value |
| Common.ParseIntToString | fugo/note.py:214 | `ParseInt`: `int(str(n)) == n` for every integer, negative ones included |
| Intervals.SizeValue | fugo/interval/internals.py:6-16 | each `Size` carries a value between 0 (unison) and 7 (octave) |
| Intervals.SizeMember | fugo/interval/internals.py:6-16 | the values 0..7 each name a size carrying that value |
| Intervals.SizeOf | fugo/interval/internals.py:18-21 | `Size(v)` keeps 0..7 and reduces any other value modulo 7 to second..octave, never unison |
| Intervals.SizeOfValue | fugo/interval/internals.py:18-21 | looking up a size's own value gives the size back |
| Intervals.InvertSizePairs | fugo/interval/internals.py:23-24 | `~s` sums with `s` to 7, is an involution, and pairs unison/octave, second/seventh, third/sixth, fourth/fifth |
| Intervals.InverseSteps | fugo/note.py:137-140 | interval inversion is an involution, keeps legality, and a legal interval and its inverse span exactly 12 semitones |
| Intervals.IntervalTextRoundTrip | fugo/interval/interval.py:71-103 | quality letter then 1-based size parses back, and sizes 1..8 give the size member directly |
| Intervals.IntervalFromString | fugo/interval/interval.py:38-103 | a parsed interval has the quality of the first character and, for the 1-based number n after it, exactly size n - 1 up to an octave and beyond it the simple size of the same degree, never a unison; empty text fails as empty, a size text that is not an integer as an invalid interval string and a size <= 0 as an invalid size, and once the size passed the text parses exactly when its first character is a quality letter |
| Intervals.QualityCharParses | fugo/interval/interval.py:84-100 | every quality's canonical letter maps back to it |
| Intervals.QualityLetters | fugo/interval/interval.py:84-100 | the letter table exactly: P/p, M, m, d/D, A/a and nothing else |
| Intervals.IntervalParseCompound | tests/test_interval.py:5-16 | ' d10' is a diminished third |
| Intervals.IntervalParseEleventh | tests/test_interval.py:5-16 | 'A11' is an augmented fourth |
| Intervals.IntervalParseSimple | fugo/interval/interval.py:95-103 | 'a8' is an augmented octave, and 'M5' parses with no legality check |
| Intervals.IntervalParseFailures | fugo/interval/interval.py:74-100 | 'P0' fails on the size, 'Z5' on the quality, and 'Zx' on the size text before the quality is looked at |
| Notes.LetterIndex | fugo/note.py:117-118 | the position of a letter in C..B lies in 0..6 |
| Notes.LetterAt | fugo/note.py:120 | every index 0..6 names a letter at that index |
| Notes.LetterOffsetMonotone | fugo/note.py:12-19 | letter order and semitone-offset order agree, and offsets lie in 0..11 |
| Notes.LetterFromChar | fugo/note.py:27-32 | a one-character letter parses case-insensitively to exactly the letter it names |
| Notes.LetterFromString | fugo/note.py:27-32 | a parsed letter is the one whose name the stripped text upper-cases to, and the only failure is an invalid letter |
| Notes.LetterFromCharFails | fugo/note.py:31-32 | a character outside A-G and a-g is an invalid letter |
| Notes.AccidentalOffset | fugo/note.py:35-45 | accidental offsets lie in -2..+2 |
| Notes.AccidentalFromOffset | fugo/note.py:125 | `Accidental(offset)` exists iff the offset is in -2..+2 and carries that offset |
| Notes.AccidentalOffsetRoundTrip | fugo/note.py:35-45 | offset then lookup gives the accidental back |
| Notes.AccidentalTextRoundTrip | fugo/note.py:50-68 | each printed accidental ('bb', 'b', '', '#', 'x') parses back to itself |
| Notes.AccidentalFromString | fugo/note.py:50-68 | a parsed accidental is one the stripped text spells, as ASCII or as its glyph, and the only failure is an invalid accidental |
| Notes.AccidentalGlyphRoundTrip | fugo/note.py:50-68 | each of the five glyphs parses back to its accidental |
| Notes.AccidentalTextNoOctaveChar | fugo/note.py:283-297 | no printed accidental contains a sign or digit, so it cannot end the accidental early |
| Notes.NamePitch | fugo/note.py:168-170 | a note name's pitch class lies in 0..11 |
| Notes.NameToString | fugo/note.py:99-111 | the printed name starts with the letter |
| Notes.NameTextRoundTrip | fugo/note.py:150-157 | printing a note name and parsing it back gives the same name |
| Notes.NameFromString | fugo/note.py:150-157 | a parsed name takes its letter from the first character in either case and its accidental from what the rest spells; it fails only on empty text, the letter or the accidental |
| Notes.NearestOffset | fugo/note.py:123-124 | `min(o, o - 12, key=abs)` lies in -5..6 and is congruent to o |
| Notes.AddInterval | fugo/note.py:116-127 | a success advances the letter by the size mod 7 and the pitch by the steps mod 12; an illegal interval fails with UndefinedSteps, a legal one only on an out-of-range accidental |
| Notes.AddIntervalComplete | fugo/note.py:116-127 | every note name that spells n + i this way is the result, so addition fails only when no spelling exists |
| Notes.SubtractInterval | fugo/note.py:137-140 | `n - i` is `n + ~i`: letter back by the size mod 7, pitch down by the steps mod 12 |
| Notes.SubtractionSpells | fugo/note.py:137-140 | a name the inverse interval spells from `n` lies the interval below `n`, by letters and by pitch, and the interval is legal |
| Notes.AddThenSubtract | fugo/note.py:116-140 | `(n + i) - i == n` whenever `n + i` succeeds |
| Notes.InverseSpellsBack | fugo/note.py:116-140 | if `i` spells `m` from `n`, then `~i` spells `n` from `m` |
| Notes.SubtractThenAdd | fugo/note.py:116-140 | `(n - i) + i == n` whenever `n - i` succeeds |
| Notes.SubtractMeansAdd | fugo/note.py:116-140 | `n - i == m` exactly when `m + i == n`, so subtraction fails exactly when no name lies `i` below `n` |
| Notes.AddPerfectUnison | fugo/note.py:116-127 | adding P1 leaves every note name unchanged |
| Notes.AddEach | fugo/chord.py:137 | the list comprehension: a successful list has as many names as intervals |
| Notes.AddEachAt | fugo/chord.py:137 | each name of a successful list is the root plus the interval at the same position |
| Notes.AddEachSucceeds | fugo/chord.py:137 | when every sum succeeds the comprehension is exactly those sums |
| Notes.AddEachFailure | fugo/chord.py:137 | a failing comprehension reports the error of its first failing interval |
| Notes.AddEachFails | fugo/chord.py:137 | conversely, a first failing interval fails the comprehension with its error |
| Notes.SplitAccidental | fugo/key.py:124-133 | the tonic's accidental takes 'bb' or one recognised character, and the rest is a suffix of the input |
| Notes.SplitAccidentalText | fugo/key.py:124-133 | a printed accidental followed by text that starts with no accidental splits back into the two |
| Notes.NotePitchClass | fugo/note.py:308-318 | the MIDI number 12·(octave + 1) + letter + accidental reduces to the name's pitch class and rises by 12 per octave |
| Notes.PitchExamples | tests/test_note.py:17-27 | C4, Dbb4 and B#3 are 60, C-1 is 0; Cx, Bx, Ab are pitch classes 2, 1, 8 |
| Notes.NoteToString | fugo/note.py:203-216 | a printed note starts with the letter and ends in a digit |
| Notes.FirstOctaveIndex | fugo/note.py:283-289 | the first sign or digit at or after a position, or the end |
| Notes.ParseNote | fugo/note.py:270-306 | the stream-consuming loop returns exactly `NoteFromString` |
| Notes.NoteFromString | fugo/note.py:270-306 | a parsed note takes its letter from the first character, its accidental from the text before the first sign or digit and its octave from the integer after; the five failures are empty text, letter, missing octave, accidental and integer |
| Notes.NoteTextRoundTrip | fugo/note.py:203-216 | printing a note and parsing it back gives the same note, negative octaves included |
| Notes.NegativeOctaveExample | tests/test_note.py:5-14 | 'bb-20' is B flat in octave -20 |
| Notes.NoteLessTotalOrder | fugo/note.py:218-224 | `<` on notes is a strict total order whose equality is field-wise equality |
| Notes.SpellingNotPitch | tests/test_note.py:30-38 | order and equality follow spelling: C#4 < Dbb4 though its pitch is higher, E2 != Fb2 at equal pitch |
| Notes.ShiftedNatural | fugo/note.py:232-237 | `divmod(index + size, 7)` gives the letter and octave of the natural note that many letter steps up |
| Notes.AddToNote | fugo/note.py:229-241 | a success is the right letter and octave with pitch raised by exactly the steps; errors as for note names |
| Notes.SubFromNote | fugo/note.py:243-255 | a success is the right letter and octave with pitch lowered by exactly the steps; errors as for note names |
| Notes.AddToNoteComplete | fugo/note.py:229-241 | every note that spells n + i is the result |
| Notes.SubFromNoteComplete | fugo/note.py:243-255 | every note that spells n - i is the result |
| Notes.NoteAddThenSubtract | fugo/note.py:229-255 | `(n + i) - i == n` whenever `n + i` succeeds |
| Notes.NoteSubtractThenAdd | fugo/note.py:229-255 | `(n - i) + i == n` whenever `n - i` succeeds |
| Notes.AddToNoteName | fugo/note.py:116-127 | adding to a note and adding to its name agree on the name |
| Notes.NoteArithmeticExamples | tests/test_note.py:41-84 | Eb3 + m6 = Cb4, B#4 + P5 = Fx5, C#2 - M3 = A1 |
| Notes.AccidentalOutOfRangeExample | fugo/note.py:240 | Bx + A4 needs a triple sharp and fails, for notes and for note names |
| Notes.QualityTableSteps | fugo/note.py:358-403 | the distance table gives quality q for a size and count exactly when (q, size) is legal and spans that many semitones mod 12 |
| Notes.UnisonOctaveTable | fugo/note.py:359-368 | unison and octave share one row of the table |
| Notes.Measure | fugo/note.py:344-406 | the measured interval is legal; the only failure is a count missing from the table |
| Notes.MeasureNames | fugo/note.py:344-406 | a measured interval spells the high name from the low one, and a failure means that no interval does |
| Notes.MeasuredSpells | fugo/note.py:344-406 | a successful measurement spells the high name from the low one |
| Notes.SpelledIsMeasured | fugo/note.py:344-406 | an interval that spells the high name from the low one forces the quality table to have an entry |
| Notes.Distance | fugo/note.py:321-406 | `distance` returns a legal interval or fails only with a missing table entry |
| Notes.DistanceSymmetric | fugo/note.py:335 | `distance(a, b) == distance(b, a)` |
| Notes.DistanceOfSum | fugo/note.py:321-406 | the distance from n to n + i is i for every interval except the diminished unison |
| Notes.DiminishedUnisonSum | fugo/note.py:229-241 | C4 + d1 = Cb4 |
| Notes.DiminishedUnisonDistance | fugo/note.py:335-362 | distance(C4, Cb4) is an augmented unison, because the notes are sorted first |
| Notes.CompoundDistance | fugo/note.py:349-352 | distance(C4, E5) reduces to a major third |
| Notes.OctaveDistance | fugo/note.py:349-368 | distance(G3, G4) is a perfect octave |
| Notes.MissingTableEntry | fugo/note.py:404 | distance(B#3, Cb4) is a second of 11 semitones, absent from the table, and fails |
| Notes.NameDifference | fugo/note.py:141-146 | `a - b` on note names returns an interval that takes b to a and fails only when none does; for one letter the result is an octave exactly when a has the lower accidental, because a is then raised an octave |
| Notes.OctaveDifferenceExample | fugo/note.py:141-146 | G - G# bumps G an octave up and gives a diminished octave |
| Notes.SecondDifferenceExample | fugo/note.py:141-146 | C - B gives a minor second |
| Keys.ModeIntervals | fugo/key.py:10-28 | each mode has 7 legal intervals, starting at P1, whose sizes are unison..seventh in order |
| Keys.ModeIsRotation | fugo/key.py:10-28 | every mode's step pattern is a rotation of the major pattern |
| Keys.ModeName | fugo/key.py:10-19 | every mode name is non-empty upper-case ASCII |
| Keys.ModeNameRoundTrip | fugo/key.py:146-150 | looking up a mode's own name finds the mode |
| Keys.DegreeValue | fugo/key.py:31-51 | degree values lie in 1..9 |
| Keys.DegreeFromInt | fugo/key.py:53-68 | `Degree(n)` succeeds iff 1 <= n <= 9 and has value n; n < 1 is an invalid degree, n > 9 indexes past the list |
| Keys.DegreeSevenIsLeadingTone | fugo/key.py:41-68 | `Degree(7)` is the leading tone and `Degree(9)` the seventh |
| Keys.Scale | fugo/key.py:97-98 | a scale has seven notes and starts with the tonic |
| Keys.SearchMembership | fugo/key.py:97-98 | the lazy search answers membership by spelling in the scale |
| Keys.SearchFound | fugo/key.py:97-98 | a found note is the tonic plus one of the mode intervals |
| Keys.ContainsMembership | fugo/key.py:97-98 | `Contains`: `n in key` is spelling membership in the scale, the tonic is always in, and a member is a sum from the tonic |
| Keys.DMajorScale | tests/test_key.py:21-25 | D major is D E F# G A B C# |
| Keys.ContainsExample | tests/test_key.py:21-25 | C# is in D major and C is not |
| Keys.DegreePosition | fugo/key.py:104-110 | tonic..submediant and seventh pick scale positions 0..6 |
| Keys.GetDegreeMeaning | fugo/key.py:100-115 | `GetDegree` (`key[degree]`): a failing scale fails every lookup with its error; over a spelled scale the seven positional degrees are the scale notes at their positions (the tonic moved by the mode interval), and the subtonic and leading tone are exactly the tonic less M2 and m2 |
| Keys.SeventhDegreeCoincides | fugo/key.py:104-112 | in major and Lydian the seventh is the leading tone, in the other modes it is the subtonic |
| Keys.SeventhBelowTonic | fugo/key.py:110-112 | a seventh-degree interval that inverts the step below the tonic yields the same note as that step |
| Keys.BMajorScale | tests/test_key.py:28-37 | B major is B C# D# E F# G# A# |
| Keys.DegreeExamples | tests/test_key.py:28-37 | in B major the leading tone is A# and the subtonic is A |
| Keys.SeventhsAboveB | tests/test_key.py:28-37 | B + M7 = A# and B + m7 = A |
| Keys.ModeFromToken | fugo/key.py:138-150 | a mode token fails only as an invalid mode |
| Keys.ModeNameToken | fugo/key.py:145-150 | a mode's canonical name reads back as that mode whatever the case of the tonic letter, which only an empty token consults |
| Keys.ModeTokenAnyCase | fugo/key.py:145-150 | any text whose upper case is a mode name or alias reads as that mode, and apart from the tokens '', 'M' and 'm' no other text does |
| Keys.ModeTokenExamples | fugo/key.py:145-150 | 'dorian' and 'Dorian' are Dorian and 'Minor' is Aeolian |
| Keys.KeyTextRoundTrip | fugo/key.py:117-152 | tonic, dash, mode name parses back to the key |
| Keys.KeyFromString | fugo/key.py:117-152 | a parsed key's tonic letter is the first character in either case, its accidental the one split off after the letter, and its mode the one the remaining token names; with a valid letter the key parses exactly when that token is a mode; an unknown accidental is never an error, so the only failures are empty text, the letter and the mode |
| Keys.KeyUnknownMode | fugo/key.py:145-150 | 'C foo' fails as an invalid mode |
| Keys.KeyParseNamedModes | tests/test_key.py:12-14 | 'Ab dorian' is A flat Dorian, 'B-major' is B major and 'C#-minor' is C sharp minor |
| Keys.DashedModeSplits | fugo/key.py:124-136 | after a printed accidental the dashed mode name is left whole, and dropping the dash gives the name |
| Keys.KeyDefaultMode | fugo/key.py:138-140 | a bare upper-case letter is major and a bare lower-case letter is minor |
| Chords.QualityIntervals | fugo/chord.py:10-25 | triads have 3 intervals and sevenths 4, all starting at P1 and stacked in thirds of legal intervals |
| Chords.QualityIntervalsInjective | fugo/chord.py:10-25 | the ten qualities have ten different interval lists |
| Chords.QualitySymbolRoundTrip | fugo/chord.py:27-68 | each quality's canonical symbol parses back to it |
| Chords.QualityFromSymbol | fugo/chord.py:27-68 | an unknown symbol fails as an invalid chord symbol and in no other way |
| Chords.QualitySymbolExamples | fugo/chord.py:29-68 | 'm', 'M', 'maj', 'Δ', 'ø' and ' m7 ' resolve by alias; 'MAJ' is not an alias and fails |
| Chords.SymbolAliasExamples | fugo/chord.py:29-68 | '+', 'minmaj7' and '7' are the augmented, minor-major seventh and dominant seventh qualities |
| Chords.Rotate | fugo/chord.py:140-141 | `s[k:] + s[:k]` keeps the length, and element j of the result is element j + k of the list, wrapping around past the end |
| Chords.RotatePermutes | fugo/chord.py:140-141 | a rotation is a permutation |
| Chords.RotateInverse | fugo/chord.py:140-141 | rotating by k then by length - k gives the list back |
| Chords.NoteNamesMeaning | fugo/chord.py:133-141 | `NoteNames`: note names exist iff every member is spellable and the quality is non-empty; they are a rotation, and a permutation, of the root-position names |
| Chords.NoteNamesMembers | fugo/chord.py:133-141 | the j-th note name is the root plus interval (j + inversion) mod length |
| Chords.ChordLength | fugo/chord.py:84-85 | `len(chord)` exists iff the note names do and equals the number of intervals |
| Chords.InversionPeriodic | fugo/chord.py:71-75 | inversions k and k + length give the same note names but unequal chords |
| Chords.BassIsInvertedMember | fugo/chord.py:133-141 | the first note name is the root plus the interval selected by the inversion |
| Chords.IndexOf | fugo/chord.py:119 | `list.index` finds the first occurrence and fails iff the value is absent |
| Chords.Partition | fugo/chord.py:110 | `str.partition('/')` splits at the first separator or returns the whole text |
| Chords.PartitionAt | fugo/chord.py:110 | text without the separator, the separator and anything after it partition back into those parts |
| Chords.PartitionNone | fugo/chord.py:110 | text without the separator partitions to itself |
| Chords.SlashInversion | fugo/chord.py:117-119 | the inversion is the first position of the bass among the root-position names, and a non-member bass fails |
| Chords.SlashBassIsLowest | fugo/chord.py:117-119 | after a slash inversion the chord's first note name is the bass |
| Chords.ChordFromString | fugo/chord.py:90-123 | a parsed chord's root letter is the text's first character in either case, its intervals are one of the table's ten stacks, its inversion lies within them and is 0 when the text has no slash; empty text fails |
| Chords.ChordFromParts | fugo/chord.py:108-123 | the chord keeps the root and takes the token's quality; without a slash its inversion is 0, with one it is the bass's index among the root-position names; with a valid quality it parses exactly when there is no slash or the bass is a member, and a bad symbol fails with the symbol's error |
| Chords.BareLetterChord | fugo/chord.py:112-115 | a bare upper-case letter is its major triad and a bare lower-case letter its minor triad, in root position |
| Chords.StackNames | fugo/chord.py:137 | names that spell each member of a quality are its root-position names |
| Chords.CMajorNames | tests/test_chord.py:47-65 | C major is C E G, and its first inversion is E G C |
| Chords.DiminishedSeventhNames | tests/test_chord.py:60 | F diminished seventh is F Ab Cb Ebb |
| Chords.UnspellableChord | fugo/note.py:125 | Fb diminished seventh would need a triple flat and fails |
| Chords.FirstInversionExample | tests/test_chord.py:8 | 'Cmaj/E' is C major in first inversion |
| Chords.BassNotInChordExample | fugo/chord.py:119 | 'C/D' fails because D is not in C major |
| Chords.BassParses | fugo/chord.py:117-119 | E is position 1 of C major and D is not a member |
| Chords.SlashParts | fugo/chord.py:90-123 | a letter, a symbol and a slash bass parse through the parts |
| Chords.SplitAccidentalAlone | fugo/chord.py:97-106 | a printed accidental alone splits to itself and nothing |
| Chords.PlainParts | fugo/chord.py:90-123 | letter, accidental and symbol without a slash parse through the parts |
| Chords.RootSpellingExamples | tests/test_chord.py:5-44 | 'e#' is E# minor, 'Abb+' Abb augmented, 'bbminmaj7' Bb minor-major seventh, 'a7' A dominant seventh |
| Motions.DirectionByPosition | fugo/motion.py:107-117 | `DirectionOf` (`Direction.from_notes`): a voice moves up or down iff its (octave, letter) position rises or falls, and stays iff octave and letter are equal |
| Motions.DirectionAntisymmetric | fugo/motion.py:107-117 | swapping the two notes reverses the direction |
| Motions.Classify | fugo/motion.py:56-75 | each of the six motions holds exactly in its case of the direction pair and the parallel flag, so the fallback is unreachable |
| Motions.ClassifySymmetries | fugo/motion.py:56-71 | classification ignores which voice is which and the direction of time |
| Motions.FromBeats | fugo/motion.py:23-75 | the motion is the classification of the two directions with parallel = equal distance sizes; it fails iff a distance fails |
| Motions.FromBeatsSymmetries | fugo/motion.py:23-75 | swapping voices or swapping beats gives the same motion |
| Motions.Motions | fugo/motion.py:98-99 | equal-length voices of n beats give n - 1 motions, the k-th from beats k and k + 1 |
| Motions.MotionsFailure | fugo/motion.py:98-99 | the fold fails iff some adjacent pair of beats fails |
| Motions.FailingBeat | fugo/motion.py:98-99 | a failed fold has a failing adjacent pair of beats |
| Motions.MotionsSucceed | fugo/motion.py:98-99 | when every adjacent pair succeeds the fold returns exactly those motions |
| Motions.AnalyzeMotion | fugo/motion.py:78-99 | equal voices give the fold; unequal voices fail, with the strict-zip error once the common prefix succeeds |
| Motions.ShortVoices | tests/test_motion.py:45-47 | no beats or one beat give no motions, and unequal voices fail |
| Motions.ParallelExample | tests/test_motion.py:12 | (F3, Ab4) to (E3, G4) is parallel |
| Motions.AntiparallelExample | tests/test_motion.py:13 | (F3, Ab4) to (E3, G5) is antiparallel |
| Motions.SimilarExample | tests/test_motion.py:14 | (F3, Ab4) to (E3, C4) is similar |
| Motions.ContraryExample | tests/test_motion.py:15 | (F3, Ab4) to (E3, C5) is contrary |
| Motions.ObliqueExample | tests/test_motion.py:16 | (F3, G4) to (E3, G4) is oblique |
| Motions.NoMotionExample | tests/test_motion.py:17 | an unchanged pair (F3, G4) has no motion |
| Motions.ParallelFifthsExample | fugo/motion.py:44-49 | (A4, E5) to (B4, F#5) is parallel |
| Motions.AccidentalOnlyExample | fugo/motion.py:109-117 | C5 to C#5 does not move; a pair whose distance is not in the table fails |
| Motions.AnalysisExample | tests/test_motion.py:24-42 | the twelve-beat example yields its eleven listed motions |
| Motions.ExampleMotionsHold | tests/test_motion.py:24-42 | the fold over the twelve-beat example gives the listed motions |
| Durations.ConstantsHalve | fugo/duration.py:70-74 | whole, half, quarter, eighth and sixteenth each halve the one before |
| Durations.Floor | fugo/duration.py:49-67 | the floor is the greatest integer not above the value |
| Durations.Div | fugo/duration.py:43-44 | `/` fails iff the divisor is zero, and the quotient times the divisor is the dividend |
| Durations.Inverses | fugo/duration.py:25-44 | `Add`, `Sub`, `Mul` and `Div`: subtraction undoes addition and division undoes multiplication |
| Durations.DivMod | fugo/duration.py:61-63 | `divmod` fails iff the divisor is zero; a = q·b + r with r in [0, b) for b > 0 and in (b, 0] for b < 0 |
| Durations.DivModUnique | fugo/duration.py:61-63 | any q, r with a = q·b + r and 0 <= r < b are the `divmod` result |
| Durations.FloorDiv | fugo/duration.py:49-50 | `//` fails iff the divisor is zero and is the quotient of `divmod` |
| Durations.Mod | fugo/duration.py:55-56 | `%` fails iff the divisor is zero and is the remainder of `divmod` |
| Durations.OperatorExamples | tests/test_duration.py:5-9 | Q + Q = H, W - Q - Q = H, 4·S = Q, E / 2 = S, (H + E) % H = E |
| Meters.Split | fugo/meter.py:15 | `str.split('/')` gives at least one part and no part contains '/' |
| Meters.SplitJoin | fugo/meter.py:15 | the parts of `str.split('/')` joined back with '/' give the text again, so together with `Split`'s contract the parts are exactly the slash-free runs between separators |
| Meters.SplitNone | fugo/meter.py:15 | text without '/' is one part |
| Meters.SplitTwo | fugo/meter.py:15 | two slash-free texts around one '/' split into those two |
| Meters.SplitThree | fugo/meter.py:15 | any three separator-free texts around two separators split into those three |
| Meters.MeterFromString | fugo/meter.py:13-16 | a meter parses iff the text splits on '/' into exactly two integer parts, and holds those integers without a range check; the only errors are a bad integer and too few or too many parts |
| Meters.MeterTextRoundTrip | fugo/meter.py:13-16 | beats, '/', division parse back to the meter, negative values included |
| Meters.MeterExamples | tests/test_meter.py:4-12 | '2/2', '3/4' and '7/8' parse |
| Meters.SingleDigitMeter | fugo/meter.py:13-16 | two digits around '/' parse to those digits |
| Meters.MeterErrorExamples | fugo/meter.py:15 | '4' has too few parts, '4/4/4' too many, and '4/4/x' fails on the third integer first |
| Times.TimeAt | fugo/time.py:28-35 | `Clock.time` fails iff beats or division is zero, and always with a division by zero |
| Times.Clock.Now | fugo/time.py:28-35 | the clock fails to read exactly when beats or division is zero, and otherwise reads a position whose offset is the running total |
| Times.BeatTime | fugo/time.py:33-35 | the measure is one past the measure quotient; the remainder counted in beats equals beat - 1 plus a pulse in [0, 1), and the beat is at least 1 when that count is not negative |
| Times.TimeBounds | fugo/time.py:32-35 | a non-negative total under a positive meter has measure >= 1, 1 <= beat <= beats and 0 <= pulse < 1 |
| Times.TimeReconstructs | fugo/time.py:30-35 | total = (measure - 1)·beats/division + (beat - 1 + pulse)/division |
| Times.TimeAtOffset | fugo/time.py:30-35 | every in-range position is the position of its own offset, so positions and offsets correspond one to one |
| Times.Reads | fugo/time.py:28-35 | the clock reads an in-range position at that position's offset |
| Times.Clock.constructor | fugo/time.py:20-22 | a new clock holds its meter and a zero total |
| Times.Clock.CommonTime | fugo/time.py:20 | the default meter is 4/4 |
| Times.Clock.Tick | fugo/time.py:24-26 | `tick` adds the duration to the total, keeps the meter and returns the new position |
| Times.FourFourScenario | tests/test_time.py:7-27 | in 4/4, ticks of W, H, Q, E, S, E read (1,1), (2,1), (2,3), (2,4), (2,4,½), (2,4,¾), (3,1,¼) |
| Times.SixEightScenario | tests/test_time.py:30-53 | in 6/8, ticks of W+H, W, H, Q, E, S, E read (1,1), (3,1), (4,3), (5,1), (5,3), (5,4), (5,4,½), (5,5,½) |

## Left out

- `interval.steps` and `~interval` are not part of this model's sources. They are fixed by the assumptions stated above, and the tables in tests/test_note.py and tests/test_note_name.py agree with them.
- The accidental glyphs (double flat, flat, natural, sharp, double sharp) are modelled as the Unicode characters U+1D12B, U+266D, U+266E, U+266F and U+1D12A. The glyph bytes themselves are not decoded.
- Chords.QualityFromSymbol: the symbols º, Δ, ø and ♭ are modelled as U+00BA, U+0394, U+00F8 and U+266D.
- Common.ParseInt: only ASCII digits are accepted. Python's `int()` also accepts other Unicode decimal digits.
- Common.UpperString: upper-casing covers ASCII and the dotless i, the only non-ASCII character whose upper form can spell a mode name. Full Unicode case mapping is left out.
- Chord.bass, Chord.intervals and Chord.figures are not part of this model's sources.
- Interval addition and a quality/size legality check do not exist in the library. An illegal pair parses, and arithmetic with it fails with `UndefinedSteps`.
- `__repr__`, `Interval.__str__` and `Motion.__repr__` are cosmetic and left out.
- Hashes are left out: `Note` and `NoteName` hash to their pitch, and `Chord` hashes to the constant 0. They only affect Python containers.
- The `@overload`/`match` dispatch of the `__init__` methods is not modelled. The two paths are the string parsers and the datatype constructors (`from_attrs`).
- `Fraction` internals (normalisation, float interoperation) are left out, and durations are Dafny reals.
- Durations.Add: the reflected operators (`__radd__`, `__rsub__` and the rest) are the same exact operations on reals and are not modelled separately. Add, Sub and Mul are exact real arithmetic with no contract of their own; `Durations.Inverses` and `Durations.OperatorExamples` state what they satisfy.
- Python `Meter` is a mutable dataclass. The model treats it as a value, so aliasing of a meter between clocks is not captured.
- Motions.AnalyzeMotion: the iterables passed to `analyze_motion` are modelled as finite sequences.
- Times.Clock.Tick: the running total starts as the integer 0 in the source. The model starts at the real 0.0, which compares and computes the same.
