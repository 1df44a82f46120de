/** Voice motion: the direction one voice moves between two beats, the
    classification of two voices' motion, and the analysis of two whole
    voices beat by beat. */
module Motions {
  import opened Common
  import opened Intervals
  import opened Notes

  datatype Direction = Up | Down | Unmoved

  /** The six kinds of motion; `NoMotion` is the source's `Motion.NONE`. */
  datatype Motion = Parallel | Antiparallel | Similar | Contrary | Oblique | NoMotion

  /** `Direction.from_notes`: compares (octave, letter offset above C)
      lexicographically; accidentals play no part. */
  function DirectionOf(a: Note, b: Note): Direction {
    var o1, s1 := a.octave, LetterOffset(a.letter);
    var o2, s2 := b.octave, LetterOffset(b.letter);
    if o1 < o2 || (o1 == o2 && s1 < s2) then Up
    else if o1 > o2 || (o1 == o2 && s1 > s2) then Down
    else Unmoved
  }

  /** The direction is the order of the two notes' staff positions (seven
      per octave), so a voice that only changes accidental does not move. */
  lemma DirectionByPosition(a: Note, b: Note)
    ensures DirectionOf(a, b) == Up <==> Position(a) < Position(b)
    ensures DirectionOf(a, b) == Down <==> Position(a) > Position(b)
    ensures DirectionOf(a, b) == Unmoved <==> a.octave == b.octave && a.letter == b.letter
  {
    LetterOffsetMonotone(a.letter, b.letter);
  }

  function Reverse(d: Direction): Direction {
    match d
    case Up => Down
    case Down => Up
    case Unmoved => Unmoved
  }

  /** Going back from the second note to the first reverses the direction. */
  lemma DirectionAntisymmetric(a: Note, b: Note)
    ensures DirectionOf(b, a) == Reverse(DirectionOf(a, b))
  {
  }

  /** The match of `Motion.from_beats` on the two voices' directions. It is
      exhaustive, so the source's fallback branch cannot be reached. */
  function Classify(d1: Direction, d2: Direction, parallel: bool): (r: Motion)
    ensures r == NoMotion <==> d1 == Unmoved && d2 == Unmoved
    ensures r == Oblique <==> (d1 == Unmoved) != (d2 == Unmoved)
    ensures r == Parallel <==> d1 != Unmoved && d1 == d2 && parallel
    ensures r == Similar <==> d1 != Unmoved && d1 == d2 && !parallel
    ensures r == Antiparallel <==> d1 != Unmoved && d2 != Unmoved && d1 != d2 && parallel
    ensures r == Contrary <==> d1 != Unmoved && d2 != Unmoved && d1 != d2 && !parallel
  {
    match (d1, d2)
    case (Unmoved, Unmoved) => NoMotion
    case (Unmoved, _) => Oblique
    case (_, Unmoved) => Oblique
    case (Up, Up) => if parallel then Parallel else Similar
    case (Down, Down) => if parallel then Parallel else Similar
    case (Up, Down) => if parallel then Antiparallel else Contrary
    case (Down, Up) => if parallel then Antiparallel else Contrary
  }

  /** The classification does not depend on which voice is called first,
      nor on the direction of time. */
  lemma ClassifySymmetries(d1: Direction, d2: Direction, parallel: bool)
    ensures Classify(d2, d1, parallel) == Classify(d1, d2, parallel)
    ensures Classify(Reverse(d1), Reverse(d2), parallel) == Classify(d1, d2, parallel)
  {
  }

  /** `Motion.from_beats`: the parallel flag compares the sizes of the two
      beats' intervals, both measured before the directions are looked at,
      so a distance outside the quality table fails even when nothing
      moves. `beat.0` is in the first voice and `beat.1` in the second. */
  function FromBeats(beat1: (Note, Note), beat2: (Note, Note)): (r: Result<Motion>)
    ensures r.Err? <==> Distance(beat1.0, beat1.1).Err? || Distance(beat2.0, beat2.1).Err?
    ensures r.Err? ==> r.error == QualityNotInTable
    ensures r.Ok? ==> r.value == Classify(DirectionOf(beat1.0, beat2.0), DirectionOf(beat1.1, beat2.1),
      Distance(beat1.0, beat1.1).value.size == Distance(beat2.0, beat2.1).value.size)
  {
    var i1 :- Distance(beat1.0, beat1.1);
    var i2 :- Distance(beat2.0, beat2.1);
    Ok(Classify(DirectionOf(beat1.0, beat2.0), DirectionOf(beat1.1, beat2.1), i1.size == i2.size))
  }

  /** Swapping the voices, or reading the two beats backwards, gives the
      same motion. */
  lemma FromBeatsSymmetries(beat1: (Note, Note), beat2: (Note, Note))
    ensures FromBeats((beat1.1, beat1.0), (beat2.1, beat2.0)) == FromBeats(beat1, beat2)
    ensures FromBeats(beat2, beat1) == FromBeats(beat1, beat2)
  {
    DistanceSymmetric(beat1.0, beat1.1);
    DistanceSymmetric(beat2.0, beat2.1);
    DirectionAntisymmetric(beat1.0, beat2.0);
    DirectionAntisymmetric(beat1.1, beat2.1);
    ClassifySymmetries(DirectionOf(beat1.0, beat2.0), DirectionOf(beat1.1, beat2.1),
      Distance(beat1.0, beat1.1).Ok? && Distance(beat2.0, beat2.1).Ok? &&
      Distance(beat1.0, beat1.1).value.size == Distance(beat2.0, beat2.1).value.size);
  }

  // ---------------------------------------------------------------------
  // analyze_motion

  /** The motions between successive beats of two voices of the same
      length; the first failing beat pair fails the whole list. */
  function Motions(v1: seq<Note>, v2: seq<Note>): (r: Result<seq<Motion>>)
    requires |v1| == |v2|
    ensures r.Ok? ==> |r.value| == if |v1| < 2 then 0 else |v1| - 1
    ensures r.Ok? ==> forall k :: 0 <= k < |r.value| ==>
      FromBeats((v1[k], v2[k]), (v1[k + 1], v2[k + 1])) == Ok(r.value[k])
    ensures r.Err? ==> r.error == QualityNotInTable
    decreases |v1|
  {
    if |v1| < 2 then Ok([])
    else
      var first :- FromBeats((v1[0], v2[0]), (v1[1], v2[1]));
      var rest :- Motions(v1[1..], v2[1..]);
      Ok([first] + rest)
  }

  /** The list fails exactly when some pair of successive beats does. */
  lemma MotionsFailure(v1: seq<Note>, v2: seq<Note>)
    requires |v1| == |v2|
    ensures Motions(v1, v2).Err? <==>
      exists k :: 0 <= k < |v1| - 1 && FromBeats((v1[k], v2[k]), (v1[k + 1], v2[k + 1])).Err?
  {
    if Motions(v1, v2).Err? {
      FailingBeat(v1, v2);
    } else {
      forall k | 0 <= k < |v1| - 1
        ensures FromBeats((v1[k], v2[k]), (v1[k + 1], v2[k + 1])).Ok?
      {
        assert FromBeats((v1[k], v2[k]), (v1[k + 1], v2[k + 1])) == Ok(Motions(v1, v2).value[k]);
      }
    }
  }

  /** A failed list has a failing pair of successive beats. */
  lemma {:induction false} FailingBeat(v1: seq<Note>, v2: seq<Note>)
    requires |v1| == |v2| && Motions(v1, v2).Err?
    ensures exists k :: 0 <= k < |v1| - 1 && FromBeats((v1[k], v2[k]), (v1[k + 1], v2[k + 1])).Err?
    decreases |v1|
  {
    if FromBeats((v1[0], v2[0]), (v1[1], v2[1])).Ok? {
      FailingBeat(v1[1..], v2[1..]);
      var k :| 0 <= k < |v1| - 2 &&
        FromBeats((v1[1..][k], v2[1..][k]), (v1[1..][k + 1], v2[1..][k + 1])).Err?;
      assert FromBeats((v1[k + 1], v2[k + 1]), (v1[k + 2], v2[k + 2])).Err?;
    }
  }

  /** `analyze_motion`: the voices are zipped strictly and paired beat by
      beat. The motions of the beats both voices have are computed before
      the length mismatch is noticed, so a failing pair among them wins
      over the mismatch. */
  function AnalyzeMotion(v1: seq<Note>, v2: seq<Note>): (r: Result<seq<Motion>>)
    ensures |v1| == |v2| ==> r == Motions(v1, v2)
    ensures |v1| != |v2| ==> r.Err?
    ensures |v1| != |v2| ==> var n := if |v1| < |v2| then |v1| else |v2|;
      (r == Err(UnequalVoices) <==> Motions(v1[..n], v2[..n]).Ok?)
  {
    var n := if |v1| < |v2| then |v1| else |v2|;
    assert |v1| == |v2| ==> v1[..n] == v1 && v2[..n] == v2;
    var motions :- Motions(v1[..n], v2[..n]);
    if |v1| != |v2| then Err(UnequalVoices) else Ok(motions)
  }

  /** Two voices whose every successive pair classifies give the list of
      those classifications. */
  lemma {:induction false} MotionsSucceed(v1: seq<Note>, v2: seq<Note>, ms: seq<Motion>)
    requires |v1| == |v2| >= 1 && |ms| == |v1| - 1
    requires forall k :: 0 <= k < |ms| ==> FromBeats((v1[k], v2[k]), (v1[k + 1], v2[k + 1])) == Ok(ms[k])
    ensures Motions(v1, v2) == Ok(ms)
    decreases |v1|
  {
    if |v1| >= 2 {
      MotionsSucceed(v1[1..], v2[1..], ms[1..]);
      assert FromBeats((v1[0], v2[0]), (v1[1], v2[1])) == Ok(ms[0]);
      assert [ms[0]] + ms[1..] == ms;
    }
  }

  /** Fewer than two beats have no motion between them. */
  lemma ShortVoices(a: Note, b: Note)
    ensures AnalyzeMotion([], []) == Ok([])
    ensures AnalyzeMotion([a], [b]) == Ok([])
    ensures AnalyzeMotion([a], []) == Err(UnequalVoices)
  {
  }

  // ---------------------------------------------------------------------
  // Examples

  /** With both distances known, the motion is their classification. */
  lemma FromMeasuredBeats(beat1: (Note, Note), beat2: (Note, Note), i1: Interval, i2: Interval)
    requires Distance(beat1.0, beat1.1) == Ok(i1) && Distance(beat2.0, beat2.1) == Ok(i2)
    ensures FromBeats(beat1, beat2) == Ok(Classify(DirectionOf(beat1.0, beat2.0), DirectionOf(beat1.1, beat2.1), i1.size == i2.size))
  {
  }

  // Distances the examples below rely on.

  lemma DistanceF3AFlat4()
    ensures Distance(Note(F, Natural, 3), Note(A, Flat, 4)) == Ok(Interval(Minor, Third))
  {
  }

  lemma DistanceE3G4()
    ensures Distance(Note(E, Natural, 3), Note(G, Natural, 4)) == Ok(Interval(Minor, Third))
  {
  }

  lemma DistanceE3G5()
    ensures Distance(Note(E, Natural, 3), Note(G, Natural, 5)) == Ok(Interval(Minor, Third))
  {
  }

  lemma DistanceE3C4()
    ensures Distance(Note(E, Natural, 3), Note(C, Natural, 4)) == Ok(Interval(Minor, Sixth))
  {
  }

  lemma DistanceE3C5()
    ensures Distance(Note(E, Natural, 3), Note(C, Natural, 5)) == Ok(Interval(Minor, Sixth))
  {
  }

  lemma DistanceF3G4()
    ensures Distance(Note(F, Natural, 3), Note(G, Natural, 4)) == Ok(Interval(Major, Second))
  {
  }

  lemma DistanceA4E5()
    ensures Distance(Note(A, Natural, 4), Note(E, Natural, 5)) == Ok(Interval(Perfect, Fifth))
  {
  }

  lemma DistanceB4FSharp5()
    ensures Distance(Note(B, Natural, 4), Note(F, Sharp, 5)) == Ok(Interval(Perfect, Fifth))
  {
  }

  lemma DistanceC5FSharp4()
    ensures Distance(Note(C, Natural, 5), Note(F, Sharp, 4)) == Ok(Interval(Diminished, Fifth))
  {
  }

  lemma DistanceCSharp5FSharp4()
    ensures Distance(Note(C, Sharp, 5), Note(F, Sharp, 4)) == Ok(Interval(Perfect, Fifth))
  {
  }

  lemma DistanceD5G4()
    ensures Distance(Note(D, Natural, 5), Note(G, Natural, 4)) == Ok(Interval(Perfect, Fifth))
  {
  }

  lemma DistanceB4GSharp4()
    ensures Distance(Note(B, Natural, 4), Note(G, Sharp, 4)) == Ok(Interval(Minor, Third))
  {
  }

  lemma DistanceC5A4()
    ensures Distance(Note(C, Natural, 5), Note(A, Natural, 4)) == Ok(Interval(Minor, Third))
  {
  }

  lemma DistanceD5E4()
    ensures Distance(Note(D, Natural, 5), Note(E, Natural, 4)) == Ok(Interval(Minor, Seventh))
  {
  }

  lemma DistanceE5E4()
    ensures Distance(Note(E, Natural, 5), Note(E, Natural, 4)) == Ok(Interval(Perfect, Octave))
  {
  }

  lemma DistanceF5A4()
    ensures Distance(Note(F, Natural, 5), Note(A, Natural, 4)) == Ok(Interval(Minor, Sixth))
  {
  }

  lemma DistanceC6E4()
    ensures Distance(Note(C, Natural, 6), Note(E, Natural, 4)) == Ok(Interval(Minor, Sixth))
  {
  }

  lemma DistanceA4D4()
    ensures Distance(Note(A, Natural, 4), Note(D, Natural, 4)) == Ok(Interval(Perfect, Fifth))
  {
  }

  lemma DistanceE5A3()
    ensures Distance(Note(E, Natural, 5), Note(A, Natural, 3)) == Ok(Interval(Perfect, Fifth))
  {
  }

  /** F3 and A flat 4 moving down to E3 and G4 keep a tenth: parallel. */
  lemma ParallelExample()
    ensures FromBeats((Note(F, Natural, 3), Note(A, Flat, 4)), (Note(E, Natural, 3), Note(G, Natural, 4))) == Ok(Parallel)
  {
    DistanceF3AFlat4();
    DistanceE3G4();
    FromMeasuredBeats((Note(F, Natural, 3), Note(A, Flat, 4)), (Note(E, Natural, 3), Note(G, Natural, 4)),
      Interval(Minor, Third), Interval(Minor, Third));
  }

  /** With the upper voice leaping an octave higher the motion is
      antiparallel. */
  lemma AntiparallelExample()
    ensures FromBeats((Note(F, Natural, 3), Note(A, Flat, 4)), (Note(E, Natural, 3), Note(G, Natural, 5))) == Ok(Antiparallel)
  {
    DistanceF3AFlat4();
    DistanceE3G5();
    FromMeasuredBeats((Note(F, Natural, 3), Note(A, Flat, 4)), (Note(E, Natural, 3), Note(G, Natural, 5)),
      Interval(Minor, Third), Interval(Minor, Third));
  }

  /** Both voices down, into a different interval: similar. */
  lemma SimilarExample()
    ensures FromBeats((Note(F, Natural, 3), Note(A, Flat, 4)), (Note(E, Natural, 3), Note(C, Natural, 4))) == Ok(Similar)
  {
    DistanceF3AFlat4();
    DistanceE3C4();
    FromMeasuredBeats((Note(F, Natural, 3), Note(A, Flat, 4)), (Note(E, Natural, 3), Note(C, Natural, 4)),
      Interval(Minor, Third), Interval(Minor, Sixth));
  }

  /** Opposite directions into a different interval: contrary. */
  lemma ContraryExample()
    ensures FromBeats((Note(F, Natural, 3), Note(A, Flat, 4)), (Note(E, Natural, 3), Note(C, Natural, 5))) == Ok(Contrary)
  {
    DistanceF3AFlat4();
    DistanceE3C5();
    FromMeasuredBeats((Note(F, Natural, 3), Note(A, Flat, 4)), (Note(E, Natural, 3), Note(C, Natural, 5)),
      Interval(Minor, Third), Interval(Minor, Sixth));
  }

  /** One voice holds: oblique. */
  lemma ObliqueExample()
    ensures FromBeats((Note(F, Natural, 3), Note(G, Natural, 4)), (Note(E, Natural, 3), Note(G, Natural, 4))) == Ok(Oblique)
  {
    DistanceF3G4();
    DistanceE3G4();
    FromMeasuredBeats((Note(F, Natural, 3), Note(G, Natural, 4)), (Note(E, Natural, 3), Note(G, Natural, 4)),
      Interval(Major, Second), Interval(Minor, Third));
  }

  /** Neither voice moves: no motion. */
  lemma NoMotionExample()
    ensures FromBeats((Note(F, Natural, 3), Note(G, Natural, 4)), (Note(F, Natural, 3), Note(G, Natural, 4))) == Ok(NoMotion)
  {
    DistanceF3G4();
    FromMeasuredBeats((Note(F, Natural, 3), Note(G, Natural, 4)), (Note(F, Natural, 3), Note(G, Natural, 4)),
      Interval(Major, Second), Interval(Major, Second));
  }

  /** A and E moving up to B and F sharp keep a fifth: parallel. */
  lemma ParallelFifthsExample()
    ensures FromBeats((Note(A, Natural, 4), Note(E, Natural, 5)), (Note(B, Natural, 4), Note(F, Sharp, 5))) == Ok(Parallel)
  {
    DistanceA4E5();
    DistanceB4FSharp5();
    FromMeasuredBeats((Note(A, Natural, 4), Note(E, Natural, 5)), (Note(B, Natural, 4), Note(F, Sharp, 5)),
      Interval(Perfect, Fifth), Interval(Perfect, Fifth));
  }

  /** A sharp moving to a flat on the same letter is no motion, yet the
      distance is still measured and can fail: B sharp 3 against C flat 4
      has no entry in the quality table. */
  lemma AccidentalOnlyExample()
    ensures DirectionOf(Note(C, Natural, 5), Note(C, Sharp, 5)) == Unmoved
    ensures FromBeats((Note(B, Sharp, 3), Note(C, Flat, 4)), (Note(B, Sharp, 3), Note(C, Flat, 4))) == Err(QualityNotInTable)
  {
    MissingTableEntry();
  }

  /** The two voices of the analysis example, beat by beat. */
  function UpperVoice(): seq<Note> {
    [Note(C, Natural, 5), Note(C, Sharp, 5), Note(D, Natural, 5), Note(B, Natural, 4),
     Note(C, Natural, 5), Note(D, Natural, 5), Note(E, Natural, 5), Note(F, Natural, 5),
     Note(C, Natural, 6), Note(A, Natural, 4), Note(E, Natural, 5), Note(E, Natural, 5)]
  }

  function LowerVoice(): seq<Note> {
    [Note(F, Sharp, 4), Note(F, Sharp, 4), Note(G, Natural, 4), Note(G, Sharp, 4),
     Note(A, Natural, 4), Note(E, Natural, 4), Note(E, Natural, 4), Note(A, Natural, 4),
     Note(E, Natural, 4), Note(D, Natural, 4), Note(A, Natural, 3), Note(A, Natural, 3)]
  }

  function ExampleMotions(): seq<Motion> {
    [NoMotion, Parallel, Oblique, Parallel, Contrary, Oblique,
     Similar, Antiparallel, Similar, Antiparallel, NoMotion]
  }

  /** Eleven motions between twelve beats. */
  lemma AnalysisExample()
    ensures AnalyzeMotion(UpperVoice(), LowerVoice()) == Ok(ExampleMotions())
  {
    ExampleMotionsHold();
  }

  lemma ExampleMotionsHold()
    ensures Motions(UpperVoice(), LowerVoice()) == Ok(ExampleMotions())
  {
    var v1, v2, ms := UpperVoice(), LowerVoice(), ExampleMotions();
    forall k | 0 <= k < 11
      ensures FromBeats((v1[k], v2[k]), (v1[k + 1], v2[k + 1])) == Ok(ms[k])
    {
      if k == 0 { Beat0(k); } else if k == 1 { Beat1(k); } else if k == 2 { Beat2(k); }
      else if k == 3 { Beat3(k); } else if k == 4 { Beat4(k); } else if k == 5 { Beat5(k); }
      else if k == 6 { Beat6(k); } else if k == 7 { Beat7(k); } else if k == 8 { Beat8(k); }
      else if k == 9 { Beat9(k); } else { Beat10(k); }
    }
    MotionsSucceed(v1, v2, ms);
  }

  /** The motion between beat `k` and beat `k + 1` of the example is the
      `k`-th expected one. */
  predicate BeatClassifies(k: int)
    requires 0 <= k < 11
  {
    var v1, v2 := UpperVoice(), LowerVoice();
    FromBeats((v1[k], v2[k]), (v1[k + 1], v2[k + 1])) == Ok(ExampleMotions()[k])
  }

  lemma Beat0(k: int)
    requires k == 0
    ensures BeatClassifies(k)
  {
    DistanceC5FSharp4();
    DistanceCSharp5FSharp4();
    FromMeasuredBeats((Note(C, Natural, 5), Note(F, Sharp, 4)), (Note(C, Sharp, 5), Note(F, Sharp, 4)),
      Interval(Diminished, Fifth), Interval(Perfect, Fifth));
  }

  lemma Beat1(k: int)
    requires k == 1
    ensures BeatClassifies(k)
  {
    DistanceCSharp5FSharp4();
    DistanceD5G4();
    FromMeasuredBeats((Note(C, Sharp, 5), Note(F, Sharp, 4)), (Note(D, Natural, 5), Note(G, Natural, 4)),
      Interval(Perfect, Fifth), Interval(Perfect, Fifth));
  }

  lemma Beat2(k: int)
    requires k == 2
    ensures BeatClassifies(k)
  {
    DistanceD5G4();
    DistanceB4GSharp4();
    FromMeasuredBeats((Note(D, Natural, 5), Note(G, Natural, 4)), (Note(B, Natural, 4), Note(G, Sharp, 4)),
      Interval(Perfect, Fifth), Interval(Minor, Third));
  }

  lemma Beat3(k: int)
    requires k == 3
    ensures BeatClassifies(k)
  {
    DistanceB4GSharp4();
    DistanceC5A4();
    FromMeasuredBeats((Note(B, Natural, 4), Note(G, Sharp, 4)), (Note(C, Natural, 5), Note(A, Natural, 4)),
      Interval(Minor, Third), Interval(Minor, Third));
  }

  lemma Beat4(k: int)
    requires k == 4
    ensures BeatClassifies(k)
  {
    DistanceC5A4();
    DistanceD5E4();
    FromMeasuredBeats((Note(C, Natural, 5), Note(A, Natural, 4)), (Note(D, Natural, 5), Note(E, Natural, 4)),
      Interval(Minor, Third), Interval(Minor, Seventh));
  }

  lemma Beat5(k: int)
    requires k == 5
    ensures BeatClassifies(k)
  {
    DistanceD5E4();
    DistanceE5E4();
    FromMeasuredBeats((Note(D, Natural, 5), Note(E, Natural, 4)), (Note(E, Natural, 5), Note(E, Natural, 4)),
      Interval(Minor, Seventh), Interval(Perfect, Octave));
  }

  lemma Beat6(k: int)
    requires k == 6
    ensures BeatClassifies(k)
  {
    DistanceE5E4();
    DistanceF5A4();
    FromMeasuredBeats((Note(E, Natural, 5), Note(E, Natural, 4)), (Note(F, Natural, 5), Note(A, Natural, 4)),
      Interval(Perfect, Octave), Interval(Minor, Sixth));
  }

  lemma Beat7(k: int)
    requires k == 7
    ensures BeatClassifies(k)
  {
    DistanceF5A4();
    DistanceC6E4();
    FromMeasuredBeats((Note(F, Natural, 5), Note(A, Natural, 4)), (Note(C, Natural, 6), Note(E, Natural, 4)),
      Interval(Minor, Sixth), Interval(Minor, Sixth));
  }

  lemma Beat8(k: int)
    requires k == 8
    ensures BeatClassifies(k)
  {
    DistanceC6E4();
    DistanceA4D4();
    FromMeasuredBeats((Note(C, Natural, 6), Note(E, Natural, 4)), (Note(A, Natural, 4), Note(D, Natural, 4)),
      Interval(Minor, Sixth), Interval(Perfect, Fifth));
  }

  lemma Beat9(k: int)
    requires k == 9
    ensures BeatClassifies(k)
  {
    DistanceA4D4();
    DistanceE5A3();
    FromMeasuredBeats((Note(A, Natural, 4), Note(D, Natural, 4)), (Note(E, Natural, 5), Note(A, Natural, 3)),
      Interval(Perfect, Fifth), Interval(Perfect, Fifth));
  }

  lemma Beat10(k: int)
    requires k == 10
    ensures BeatClassifies(k)
  {
    DistanceE5A3();
    FromMeasuredBeats((Note(E, Natural, 5), Note(A, Natural, 3)), (Note(E, Natural, 5), Note(A, Natural, 3)),
      Interval(Perfect, Fifth), Interval(Perfect, Fifth));
  }
}
