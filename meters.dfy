/** Meters: a time signature as a (beats, division) pair and its
    `beats/division` parser. */
module Meters {
  import opened Common

  /** A meter; no range is enforced on either number. Equality compares
      both fields. */
  datatype Meter = Meter(beats: int, division: int)

  /** `str.split(sep)`: the pieces between separators; always at least one,
      and none contains the separator. */
  function Split(s: string, sep: char): (r: seq<string>)
    ensures |r| >= 1
    ensures forall k :: 0 <= k < |r| ==> sep !in r[k]
    decreases |s|
  {
    if s == [] then [[]]
    else
      var rest := Split(s[1..], sep);
      if s[0] == sep then [[]] + rest
      else [[s[0]] + rest[0]] + rest[1..]
  }

  /** `sep.join(parts)`: the pieces with one separator between neighbours. */
  function Join(parts: seq<string>, sep: char): string {
    if |parts| == 0 then []
    else if |parts| == 1 then parts[0]
    else parts[0] + [sep] + Join(parts[1..], sep)
  }

  /** Splitting loses nothing: joining the pieces with the separator gives
      the text back. */
  lemma {:induction false} SplitJoin(s: string, sep: char)
    ensures Join(Split(s, sep), sep) == s
    decreases |s|
  {
    if s != [] {
      var rest := Split(s[1..], sep);
      var split := Split(s, sep);
      SplitJoin(s[1..], sep);
      assert Join(rest, sep) == s[1..];
      if s[0] == sep {
        assert split == [[]] + rest;
        assert split[1..] == rest;
        assert Join(split, sep) == [sep] + s[1..];
      } else if |rest| == 1 {
        assert split == [[s[0]] + rest[0]];
        assert Join(split, sep) == [s[0]] + s[1..];
      } else {
        assert split == [[s[0]] + rest[0]] + rest[1..];
        assert split[1..] == rest[1..];
        assert Join(rest, sep) == rest[0] + [sep] + Join(rest[1..], sep);
        assert Join(split, sep) == [s[0]] + rest[0] + [sep] + Join(rest[1..], sep);
      }
      assert [s[0]] + s[1..] == s;
    }
  }

  /** Text without the separator is a single piece. */
  lemma {:induction false} SplitNone(a: string, sep: char)
    requires sep !in a
    ensures Split(a, sep) == [a]
    decreases |a|
  {
    if a != [] {
      SplitNone(a[1..], sep);
      assert [a[0]] + a[1..] == a;
    }
  }

  /** Two pieces joined by one separator split back into the two. */
  lemma {:induction false} SplitTwo(a: string, b: string, sep: char)
    requires sep !in a && sep !in b
    ensures Split(a + [sep] + b, sep) == [a, b]
    decreases |a|
  {
    var s := a + [sep] + b;
    if a == [] {
      assert s[1..] == b;
      SplitNone(b, sep);
    } else {
      assert s[1..] == a[1..] + [sep] + b;
      SplitTwo(a[1..], b, sep);
      assert [a[0]] + a[1..] == a;
    }
  }

  /** `Meter.from_string`: `top, bottom = map(int, s.split('/'))`. The
      conversions run piece by piece as the unpacking pulls them, so a bad
      number among the first three pieces is reported before the count:
      one piece is too few, and a third piece is converted before being
      refused as one too many. */
  function MeterFromString(s: string): (r: Result<Meter>)
    ensures r.Ok? ==> |Split(s, '/')| == 2
    ensures r.Ok? ==> ParseInt(Split(s, '/')[0]) == Some(r.value.beats)
    ensures r.Ok? ==> ParseInt(Split(s, '/')[1]) == Some(r.value.division)
    ensures |Split(s, '/')| == 2 && ParseInt(Split(s, '/')[0]).Some? && ParseInt(Split(s, '/')[1]).Some? ==> r.Ok?
    ensures r.Err? ==> r.error in {InvalidInteger, NotEnoughParts, TooManyParts}
  {
    var parts := Split(s, '/');
    match ParseInt(parts[0])
    case None => Err(InvalidInteger)
    case Some(top) =>
      if |parts| < 2 then Err(NotEnoughParts)
      else
        match ParseInt(parts[1])
        case None => Err(InvalidInteger)
        case Some(bottom) =>
          if |parts| == 2 then Ok(Meter(top, bottom))
          else if ParseInt(parts[2]).None? then Err(InvalidInteger)
          else Err(TooManyParts)
  }

  /** Writing a meter as `beats/division` parses back to it, whatever the
      two numbers are. */
  lemma MeterTextRoundTrip(m: Meter)
    ensures MeterFromString(IntToString(m.beats) + "/" + IntToString(m.division)) == Ok(m)
  {
    var a, b := IntToString(m.beats), IntToString(m.division);
    assert a + "/" + b == a + ['/'] + b;
    SplitTwo(a, b, '/');
    ParseIntToString(m.beats);
    ParseIntToString(m.division);
  }

  /** Common meters parse. */
  lemma MeterExamples()
    ensures MeterFromString("2/2") == Ok(Meter(2, 2))
    ensures MeterFromString("3/4") == Ok(Meter(3, 4))
    ensures MeterFromString("7/8") == Ok(Meter(7, 8))
  {
    SingleDigitMeter(2, 2);
    SingleDigitMeter(3, 4);
    SingleDigitMeter(7, 8);
  }

  lemma SingleDigitMeter(b: nat, d: nat)
    requires b < 10 && d < 10
    ensures MeterFromString([DigitChar(b), '/', DigitChar(d)]) == Ok(Meter(b, d))
  {
    assert [DigitChar(b), '/', DigitChar(d)] == IntToString(b) + "/" + IntToString(d);
    MeterTextRoundTrip(Meter(b, d));
  }

  /** A missing or extra part fails, and a bad third part is reported as a
      bad number rather than as one part too many. */
  lemma MeterErrorExamples()
    ensures MeterFromString("4") == Err(NotEnoughParts)
    ensures MeterFromString("4/4/4") == Err(TooManyParts)
    ensures MeterFromString("4/4/x") == Err(InvalidInteger)
  {
    MeterOnePart();
    MeterThreeParts();
  }

  lemma MeterOnePart()
    ensures MeterFromString("4") == Err(NotEnoughParts)
  {
    SplitNone("4", '/');
  }

  lemma MeterThreeParts()
    ensures MeterFromString("4/4/4") == Err(TooManyParts)
    ensures MeterFromString("4/4/x") == Err(InvalidInteger)
  {
    ParseDigitText("4");
    SplitThree("4", "4", "4", '/');
    SplitThree("4", "4", "x", '/');
    assert "4/4/4" == "4" + ['/'] + "4" + ['/'] + "4";
    assert "4/4/x" == "4" + ['/'] + "4" + ['/'] + "x";
    StripUnchanged("x");
  }

  /** Three slash-free texts around two separators split into the three. */
  lemma {:induction false} SplitThree(a: string, b: string, c: string, sep: char)
    requires sep !in a && sep !in b && sep !in c
    ensures Split(a + [sep] + b + [sep] + c, sep) == [a, b, c]
    decreases |a|
  {
    var s := a + [sep] + b + [sep] + c;
    if a == [] {
      assert s[1..] == b + [sep] + c;
      SplitTwo(b, c, sep);
    } else {
      assert s[1..] == a[1..] + [sep] + b + [sep] + c;
      SplitThree(a[1..], b, c, sep);
      assert [a[0]] + a[1..] == a;
    }
  }
}
