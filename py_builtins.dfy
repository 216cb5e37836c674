/**
 The few Python built-ins whose behaviour the monitored plugin relies on:
 three-valued results (True / False / None) with Python's truthiness and `== False`,
 dynamically typed configuration values, `str.partition`, `str(int)` and the
 conversion of a numeral text to a number.
 */
module PyBuiltins {
  import opened Wrappers

  /** A Python value that is one of `True`, `False` or `None`. */
  datatype PyBool = PyTrue | PyFalse | PyNone {
    /** `bool(x)`: only `True` is truthy; `None` is falsy. */
    predicate Truthy() {
      this == PyTrue
    }

    /** `x == False`: `None == False` is false in Python. */
    predicate EqualsFalse() {
      this == PyFalse
    }
  }

  /** A dynamically typed parameter: the integer 0 of a fresh object, or a configuration string. */
  datatype PyValue = PyInt(i: int) | PyStr(s: string)

  /** `sep` occurs in `s` starting at position `i`. */
  predicate OccursAt(s: string, sep: string, i: nat) {
    i + |sep| <= |s| && s[i..i + |sep|] == sep
  }

  lemma OccursAtTail(s: string, sep: string, j: nat)
    requires |s| > 0
    ensures OccursAt(s[1..], sep, j) <==> OccursAt(s, sep, j + 1)
  {
    if j + 1 + |sep| <= |s| {
      assert s[1..][j..j + |sep|] == s[j + 1..j + 1 + |sep|];
    }
  }

  /** The position of the first occurrence of `sep` in `s`, if any. */
  function FirstOccurrence(s: string, sep: string): (r: Option<nat>)
    ensures r.Some? ==> OccursAt(s, sep, r.value)
    ensures r.Some? ==> forall j: nat :: j < r.value ==> !OccursAt(s, sep, j)
    ensures r.None? ==> forall j: nat :: !OccursAt(s, sep, j)
    decreases |s|
  {
    if |s| < |sep| then None
    else if s[..|sep|] == sep then Some(0)
    else
      assert !OccursAt(s, sep, 0) by {
        assert s[0..|sep|] == s[..|sep|];
      }
      var rest := FirstOccurrence(s[1..], sep);
      assert forall j: nat :: OccursAt(s[1..], sep, j) <==> OccursAt(s, sep, j + 1) by {
        forall j: nat ensures OccursAt(s[1..], sep, j) <==> OccursAt(s, sep, j + 1) {
          OccursAtTail(s, sep, j);
        }
      }
      assert forall j: nat :: j > 0 ==> (OccursAt(s, sep, j) <==> OccursAt(s[1..], sep, j - 1));
      match rest
      case None => None
      case Some(i) => Some(i + 1)
  }

  /**
   `s.partition(sep)`: the text before the first occurrence of `sep`, the separator
   itself and the text after it; `(s, "", "")` when `sep` does not occur.
   Python raises `ValueError` for an empty separator.
   */
  function Partition(s: string, sep: string): (r: (string, string, string))
    requires sep != []
    ensures r.0 + r.1 + r.2 == s
    ensures r.1 == sep || (r.1 == [] && r.2 == [])
    ensures r.1 == sep ==> OccursAt(s, sep, |r.0|)
    ensures forall j: nat :: j < |r.0| ==> !OccursAt(s, sep, j)
  {
    match FirstOccurrence(s, sep)
    case None => (s, [], [])
    case Some(i) =>
      assert s == s[..i] + sep + s[i + |sep|..];
      (s[..i], sep, s[i + |sep|..])
  }

  /** `s.partition(sep)[2]`. */
  function TextAfter(s: string, sep: string): string
    requires sep != []
  {
    Partition(s, sep).2
  }

  /** When `sep` does not occur in `prefix`, everything after the separator that follows it is the tail. */
  lemma TextAfterFirstSeparator(prefix: string, sep: string, tail: string)
    requires sep != []
    requires forall j: nat :: !OccursAt(prefix + sep, sep, j) || j >= |prefix|
    ensures TextAfter(prefix + sep + tail, sep) == tail
  {
    var s := prefix + sep + tail;
    assert OccursAt(s, sep, |prefix|) by {
      assert s[|prefix|..|prefix| + |sep|] == sep;
    }
    forall j: nat | j < |prefix|
      ensures !OccursAt(s, sep, j)
    {
      assert !OccursAt(prefix + sep, sep, j);
      if j + |sep| <= |prefix + sep| {
        assert s[j..j + |sep|] == (prefix + sep)[j..j + |sep|];
      }
    }
    var r := Partition(s, sep);
    assert |r.0| == |prefix|;
    assert r.0 + r.1 == prefix + sep;
  }

  predicate IsDigit(c: char) {
    '0' <= c <= '9'
  }

  predicate AllDigits(s: string) {
    forall i :: 0 <= i < |s| ==> IsDigit(s[i])
  }

  function DigitChar(d: nat): char
    requires d < 10
  {
    (('0' as int) + d) as char
  }

  /** The decimal digits of `n`, most significant first, without leading zeros. */
  function NatToDigits(n: nat): (r: string)
    ensures r != [] && AllDigits(r)
    ensures n > 0 ==> r[0] != '0'
    ensures |r| > 1 ==> r[0] != '0'
    decreases n
  {
    if n < 10 then [DigitChar(n)] else NatToDigits(n / 10) + [DigitChar(n % 10)]
  }

  /** `str(n)` for a Python `int`. */
  function IntToString(n: int): string {
    if n < 0 then "-" + NatToDigits(-n) else NatToDigits(n)
  }

  /** The number a string of decimal digits denotes. */
  function DigitsValue(s: string): nat
    requires AllDigits(s)
  {
    if s == [] then 0 else DigitsValue(s[..|s| - 1]) * 10 + (s[|s| - 1] as int - '0' as int)
  }

  /**
   The number a sign-and-digits numeral denotes: an optional sign followed by decimal
   digits. Every other text gives `None`, which the model reads as the conversion raising;
   `np.float64` also accepts decimal points, exponents, blanks, underscores, `inf` and `nan`.
   */
  function ParseNumeral(s: string): Option<int> {
    if |s| >= 2 && s[0] == '-' && AllDigits(s[1..]) then Some(0 - DigitsValue(s[1..]) as int)
    else if |s| >= 2 && s[0] == '+' && AllDigits(s[1..]) then Some(DigitsValue(s[1..]))
    else if |s| >= 1 && AllDigits(s) then Some(DigitsValue(s))
    else None
  }

  lemma {:induction false} DigitsRoundTrip(n: nat)
    ensures DigitsValue(NatToDigits(n)) == n
    decreases n
  {
    if n >= 10 {
      var s := NatToDigits(n);
      assert s[..|s| - 1] == NatToDigits(n / 10);
      DigitsRoundTrip(n / 10);
    }
  }

  /** Converting `str(n)` back to a number gives `n`. */
  lemma IntToStringRoundTrip(n: int)
    ensures ParseNumeral(IntToString(n)) == Some(n)
  {
    if n < 0 {
      var s := IntToString(n);
      assert s[1..] == NatToDigits(-n);
      assert |s| >= 2 && s[0] == '-' && AllDigits(s[1..]);
      DigitsRoundTrip(-n);
    } else {
      var s := NatToDigits(n);
      assert |s| >= 1 && AllDigits(s) && !IsDigit('-') && !IsDigit('+');
      DigitsRoundTrip(n);
    }
  }
}
