/** Durations: exact rational lengths relative to a whole note, closed under
    the arithmetic operators, with floor division, modulo and divmod. */
module Durations {
  import opened Common

  /** A duration is an exact rational number of whole notes. */
  type Duration = real

  const Whole: Duration := 1.0
  const Half: Duration := 0.5
  const Quarter: Duration := 0.25
  const Eighth: Duration := 0.125
  const Sixteenth: Duration := 0.0625

  /** Each constant is half the one before it. */
  lemma ConstantsHalve()
    ensures Half == Whole / 2.0 && Quarter == Half / 2.0
    ensures Eighth == Quarter / 2.0 && Sixteenth == Eighth / 2.0
  {
  }

  /** `math.floor` of a rational. */
  function Floor(x: real): (r: int)
    ensures r as real <= x < r as real + 1.0
  {
    x.Floor
  }

  function Add(a: Duration, b: Duration): Duration { a + b }
  function Sub(a: Duration, b: Duration): Duration { a - b }
  function Mul(a: Duration, b: Duration): Duration { a * b }

  /** `/`: fails on a zero divisor. */
  function Div(a: Duration, b: Duration): (r: Result<Duration>)
    ensures r.Err? <==> b == 0.0
    ensures r.Err? ==> r.error == ZeroDivision
    ensures r.Ok? ==> r.value * b == a
  {
    if b == 0.0 then Err(ZeroDivision) else Ok(a / b)
  }

  /** Subtraction undoes addition and division undoes multiplication. */
  lemma Inverses(a: Duration, b: Duration)
    ensures Sub(Add(a, b), b) == a
    ensures Add(Sub(a, b), b) == a
    ensures b != 0.0 ==> Div(Mul(a, b), b) == Ok(a)
  {
    if b != 0.0 {
      var x := Div(Mul(a, b), b).value;
      assert (x - a) * b == 0.0;
      Cancel(x - a, b);
    }
  }

  lemma Cancel(x: real, b: real)
    requires b != 0.0 && x * b == 0.0
    ensures x == 0.0
  {
  }

  /** `divmod`: the floor of the quotient, as a plain integer, and the
      remainder as a duration. */
  function DivMod(a: Duration, b: Duration): (r: Result<(int, Duration)>)
    ensures r.Err? <==> b == 0.0
    ensures r.Err? ==> r.error == ZeroDivision
    ensures r.Ok? ==> a == r.value.0 as real * b + r.value.1
    ensures r.Ok? && b > 0.0 ==> 0.0 <= r.value.1 < b
    ensures r.Ok? && b < 0.0 ==> b < r.value.1 <= 0.0
  {
    if b == 0.0 then Err(ZeroDivision)
    else
      var q := Floor(a / b);
      RemainderBounds(a, b, q);
      Ok((q, a - q as real * b))
  }

  /** `q <= a/b < q + 1` puts `a - q*b` between 0 and `b`. */
  lemma RemainderBounds(a: real, b: real, q: int)
    requires b != 0.0 && q as real <= a / b < q as real + 1.0
    ensures b > 0.0 ==> 0.0 <= a - q as real * b < b
    ensures b < 0.0 ==> b < a - q as real * b <= 0.0
  {
    var x := a / b;
    assert a == x * b;
    var lo, hi := x - q as real, q as real + 1.0 - x;
    assert a - q as real * b == lo * b;
    assert b - (a - q as real * b) == hi * b;
    if b > 0.0 {
      ScaleOrder(lo, b);
      ScaleOrder(hi, b);
    } else {
      ScaleOrder(lo, -b);
      ScaleOrder(hi, -b);
      assert lo * b == -(lo * -b);
      assert hi * b == -(hi * -b);
    }
  }

  lemma ScaleOrder(d: real, b: real)
    requires b > 0.0
    ensures d >= 0.0 ==> d * b >= 0.0
    ensures d > 0.0 ==> d * b > 0.0
  {
  }

  /** The quotient and remainder of `divmod` are the only ones with the
      remainder in range. */
  lemma DivModUnique(a: Duration, b: Duration, q: int, r: Duration)
    requires b > 0.0 && a == q as real * b + r && 0.0 <= r < b
    ensures DivMod(a, b) == Ok((q, r))
  {
    var q', r' := DivMod(a, b).value.0, DivMod(a, b).value.1;
    QuotientsAgree(q, q', b, r, r');
  }

  /** Two splits of one value with remainders in `[0, b)` have the same
      quotient. */
  lemma QuotientsAgree(q: int, q': int, b: real, r: real, r': real)
    requires b > 0.0 && 0.0 <= r < b && 0.0 <= r' < b
    requires q as real * b + r == q' as real * b + r'
    ensures q == q'
  {
    assert (q - q') as real * b == r' - r;
    if q > q' {
      ScaleOrder((q - q') as real - 1.0, b);
    } else if q < q' {
      ScaleOrder((q' - q) as real - 1.0, b);
    }
  }

  /** `//`: the quotient of `divmod`, wrapped back as a duration. */
  function FloorDiv(a: Duration, b: Duration): (r: Result<Duration>)
    ensures r.Err? <==> b == 0.0
    ensures r.Ok? ==> r.value == DivMod(a, b).value.0 as real
  {
    if b == 0.0 then Err(ZeroDivision) else Ok(Floor(a / b) as real)
  }

  /** `%`: the remainder of `divmod`. */
  function Mod(a: Duration, b: Duration): (r: Result<Duration>)
    ensures r.Err? <==> b == 0.0
    ensures r.Ok? ==> r.value == DivMod(a, b).value.1
  {
    if b == 0.0 then Err(ZeroDivision) else Ok(a - Floor(a / b) as real * b)
  }

  /** The operator laws stated by example: two quarters make a half, a
      whole less two quarters is a half, four sixteenths make a quarter,
      half an eighth is a sixteenth, and a half and an eighth modulo a half
      leaves the eighth. */
  lemma OperatorExamples()
    ensures Add(Quarter, Quarter) == Half
    ensures Sub(Sub(Whole, Quarter), Quarter) == Half
    ensures Mul(4.0, Sixteenth) == Quarter
    ensures Div(Eighth, 2.0) == Ok(Sixteenth)
    ensures Mod(Add(Half, Eighth), Half) == Ok(Eighth)
  {
    DivModUnique(Half + Eighth, Half, 1, Eighth);
  }
}
