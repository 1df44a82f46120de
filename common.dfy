/** Shared vocabulary: failure-carrying results, the error kinds the library
    raises, and the handful of Python string built-ins the parsers rely on
    (`str.strip`, `str.upper`, `int(str)`, `str(int)`). */
module Common {

  datatype Option<+T> = None | Some(value: T)

  /** Every way an operation of the library can fail. */
  datatype Error =
    | EmptyText                   // indexing or unpacking an empty string
    | InvalidLetter               // LetterName.from_string
    | InvalidAccidental           // Accidental.from_string
    | MissingOctave               // Note.from_string without a trailing number
    | InvalidInteger              // int() of a malformed text
    | InvalidIntervalString       // Interval.from_string, size not an integer
    | InvalidIntervalSize         // Interval.from_string, size <= 0
    | UnrecognizedIntervalQuality // Interval.from_string, unknown quality letter
    | UndefinedSteps              // semitone count asked of an illegal quality/size pair
    | AccidentalOutOfRange        // Accidental(offset) outside double-flat..double-sharp
    | QualityNotInTable           // distance(): semitone count missing from the table
    | InvalidMode                 // Key.from_string, unknown mode name
    | InvalidScaleDegree          // Degree(n) with n < 1
    | DegreeIndexOutOfRange       // Degree(n) with n >= 10
    | InvalidChordSymbol          // chord Quality.from_string
    | BassNotInChord              // slash bass that is not a chord member
    | ZeroDivision                // division or modulo by zero
    | UnequalVoices               // zip(..., strict=True) on voices of unequal length
    | NotEnoughParts              // unpacking fewer than two values
    | TooManyParts                // unpacking more than two values

  datatype Result<+T> = Ok(value: T) | Err(error: Error) {
    predicate IsFailure() { Err? }
    function PropagateFailure<U>(): Result<U> requires Err? { Err(error) }
    function Extract(): T requires Ok? { value }
  }

  // ---------------------------------------------------------------------
  // str.strip()

  /** The characters Python's `str.isspace` accepts. */
  predicate IsSpace(c: char) {
    var n := c as int;
    || n == 32 || 9 <= n <= 13 || 28 <= n <= 31
    || n == 0x85 || n == 0xA0 || n == 0x1680 || 0x2000 <= n <= 0x200A
    || n == 0x2028 || n == 0x2029 || n == 0x202F || n == 0x205F || n == 0x3000
  }

  function TrimStart(s: string): (r: string)
    ensures |r| <= |s|
    ensures r == [] || !IsSpace(r[0])
  {
    if |s| > 0 && IsSpace(s[0]) then TrimStart(s[1..]) else s
  }

  function TrimEnd(s: string): (r: string)
    ensures |r| <= |s|
    ensures r == [] || !IsSpace(r[|r| - 1])
    ensures r != [] ==> r[0] == s[0]
  {
    if |s| > 0 && IsSpace(s[|s| - 1]) then TrimEnd(s[..|s| - 1]) else s
  }

  /** `str.strip()` with no argument. */
  function Strip(s: string): (r: string)
    ensures r == [] || (!IsSpace(r[0]) && !IsSpace(r[|r| - 1]))
  {
    TrimEnd(TrimStart(s))
  }

  lemma StripUnchanged(s: string)
    requires s == [] || (!IsSpace(s[0]) && !IsSpace(s[|s| - 1]))
    ensures Strip(s) == s
  {
  }

  /** Trimming the front removes a run of whitespace and keeps the rest. */
  lemma {:induction false} TrimStartDrops(s: string)
    ensures TrimStart(s) == s[|s| - |TrimStart(s)|..]
    ensures forall k :: 0 <= k < |s| - |TrimStart(s)| ==> IsSpace(s[k])
  {
    if |s| > 0 && IsSpace(s[0]) {
      TrimStartDrops(s[1..]);
      forall k | 0 <= k < |s| - |TrimStart(s)|
        ensures IsSpace(s[k])
      {
        if k > 0 {
          assert s[k] == s[1..][k - 1];
        }
      }
    }
  }

  /** Trimming the back removes a run of whitespace and keeps the rest. */
  lemma {:induction false} TrimEndDrops(s: string)
    ensures TrimEnd(s) == s[..|TrimEnd(s)|]
    ensures forall k :: |TrimEnd(s)| <= k < |s| ==> IsSpace(s[k])
  {
    if |s| > 0 && IsSpace(s[|s| - 1]) {
      TrimEndDrops(s[..|s| - 1]);
      forall k | |TrimEnd(s)| <= k < |s|
        ensures IsSpace(s[k])
      {
        if k < |s| - 1 {
          assert s[k] == s[..|s| - 1][k];
        }
      }
    }
  }

  /** `str.strip()` is the text less a whitespace prefix and a whitespace
      suffix; with the ends `Strip` guarantees to be non-space, that slice is
      the widest such one. */
  lemma StripRemovesSpace(s: string)
    ensures var i := |s| - |TrimStart(s)|;
      && i + |Strip(s)| <= |s|
      && Strip(s) == s[i..i + |Strip(s)|]
      && (forall k :: 0 <= k < i ==> IsSpace(s[k]))
      && (forall k :: i + |Strip(s)| <= k < |s| ==> IsSpace(s[k]))
  {
    var t := TrimStart(s);
    var i := |s| - |t|;
    var r := Strip(s);
    TrimStartDrops(s);
    TrimEndDrops(t);
    assert r == TrimEnd(t) == t[..|r|];
    assert t[..|r|] == s[i..i + |r|];
    forall k | i + |r| <= k < |s|
      ensures IsSpace(s[k])
    {
      assert s[k] == t[k - i];
    }
  }

  // ---------------------------------------------------------------------
  // str.upper()

  /** Upper-case mapping of one character. ASCII letters and the dotless i
      (whose upper case is `I`) are mapped; no other character's upper case
      can take part in the names the library looks up. */
  function Upper(c: char): char {
    if 'a' <= c <= 'z' then (c as int - 32) as char
    else if c == '\U{131}' then 'I'
    else c
  }

  function UpperString(s: string): (r: string)
    ensures |r| == |s|
    ensures forall j :: 0 <= j < |s| ==> r[j] == Upper(s[j])
  {
    if s == [] then [] else [Upper(s[0])] + UpperString(s[1..])
  }

  predicate IsUpperAscii(c: char) { 'A' <= c <= 'Z' }

  /** Text that has no lower-case letter is its own upper case. */
  lemma {:induction false} UpperStringUnchanged(s: string)
    requires forall j :: 0 <= j < |s| ==> IsUpperAscii(s[j])
    ensures UpperString(s) == s
  {
    if s != [] {
      UpperStringUnchanged(s[1..]);
    }
  }

  // ---------------------------------------------------------------------
  // int(str) and str(int)

  predicate IsDigit(c: char) { '0' <= c <= '9' }

  function DigitValue(c: char): nat
    requires IsDigit(c)
  {
    c as int - '0' as int
  }

  function DigitChar(d: nat): char
    requires d < 10
  {
    ('0' as int + d) as char
  }

  /** Digits, each underscore standing between two digits: `digit ('_'? digit)*`. */
  predicate IsDigitText(t: string) {
    && |t| > 0
    && IsDigit(t[0])
    && IsDigit(t[|t| - 1])
    && (forall j :: 0 <= j < |t| ==> IsDigit(t[j]) || t[j] == '_')
    && (forall j :: 0 <= j < |t| - 1 && t[j] == '_' ==> IsDigit(t[j + 1]))
  }

  /** The number written by digits and underscores (underscores are skipped). */
  function DigitsValue(t: string): nat
    requires forall j :: 0 <= j < |t| ==> IsDigit(t[j]) || t[j] == '_'
  {
    if t == [] then 0
    else
      var last := t[|t| - 1];
      if last == '_' then DigitsValue(t[..|t| - 1])
      else DigitsValue(t[..|t| - 1]) * 10 + DigitValue(last)
  }

  /** Python's `int(text)`: surrounding white space, an optional sign, then
      digits. `None` stands for the ValueError. */
  function ParseInt(text: string): Option<int> {
    var t := Strip(text);
    if |t| > 0 && (t[0] == '-' || t[0] == '+') then
      if IsDigitText(t[1..]) then
        var v: int := DigitsValue(t[1..]);
        Some(if t[0] == '-' then -v else v)
      else None
    else if IsDigitText(t) then Some(DigitsValue(t))
    else None
  }

  function NatToString(n: nat): (r: string)
    ensures |r| > 0
    ensures forall j :: 0 <= j < |r| ==> IsDigit(r[j])
  {
    if n < 10 then [DigitChar(n)] else NatToString(n / 10) + [DigitChar(n % 10)]
  }

  /** Python's `str(n)` for an integer. */
  function IntToString(n: int): (r: string)
    ensures |r| > 0 && (IsDigit(r[0]) || r[0] == '-') && IsDigit(r[|r| - 1])
    ensures forall j :: 0 <= j < |r| ==> IsDigit(r[j]) || r[j] == '-'
  {
    if n < 0 then "-" + NatToString(-n) else NatToString(n)
  }

  lemma {:induction false} NatToStringValue(n: nat)
    ensures IsDigitText(NatToString(n))
    ensures DigitsValue(NatToString(n)) == n
  {
    if n >= 10 {
      NatToStringValue(n / 10);
      var s := NatToString(n);
      assert s[..|s| - 1] == NatToString(n / 10);
    }
  }

  lemma ParseDigitText(t: string)
    requires IsDigitText(t)
    ensures ParseInt(t) == Some(DigitsValue(t) as int)
  {
    StripUnchanged(t);
  }

  lemma ParseNegativeDigitText(t: string)
    requires IsDigitText(t)
    ensures ParseInt("-" + t) == Some(-(DigitsValue(t) as int))
  {
    var m := "-" + t;
    assert m[0] == '-' && m[|m| - 1] == t[|t| - 1];
    StripUnchanged(m);
    assert m[1..] == t;
  }

  /** `int(str(n)) == n`. */
  lemma {:induction false} ParseIntToString(n: int)
    ensures ParseInt(IntToString(n)) == Some(n)
  {
    if n < 0 {
      NatToStringValue(-n);
      ParseNegativeDigitText(NatToString(-n));
    } else {
      NatToStringValue(n);
      ParseDigitText(NatToString(n));
    }
  }
}
