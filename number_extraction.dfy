/**
 * Number extraction (extract_number in app.py).
 *
 * The hosted model answers with loosely formatted fields such as "4/10 (High)"
 * or "128 BPM". A number passes through unchanged; text is searched for the
 * first run of decimal digits (the regular expression \d+), whose value is
 * returned, or 0 when there is no digit at all. A minus sign in text is not
 * part of a digit run, so text never yields a negative number.
 */
module NumberExtraction {
  import opened Wrappers

  /** A field of the parsed answer: a JSON integer or a piece of text. */
  datatype Value = Num(n: int) | Str(s: string)

  predicate IsDigit(c: char) {
    '0' <= c <= '9'
  }

  function DigitValue(c: char): (d: nat)
    requires IsDigit(c)
    ensures d < 10
  {
    c as int - '0' as int
  }

  function DigitChar(d: nat): (c: char)
    requires d < 10
    ensures IsDigit(c) && DigitValue(c) == d
  {
    ('0' as int + d) as char
  }

  predicate AllDigits(s: string) {
    forall k :: 0 <= k < |s| ==> IsDigit(s[k])
  }

  predicate HasDigit(s: string) {
    exists k :: 0 <= k < |s| && IsDigit(s[k])
  }

  /** The value of a decimal numeral, most significant digit first (Python's int on a digit string). */
  function DigitsValue(s: string): nat
    requires AllDigits(s)
  {
    if s == [] then 0 else 10 * DigitsValue(s[..|s| - 1]) + DigitValue(s[|s| - 1])
  }

  /** The decimal rendering of n, without leading zeros (Python's str on a non-negative int). */
  function Decimal(n: nat): (s: string)
    ensures |s| >= 1 && AllDigits(s)
  {
    if n < 10 then [DigitChar(n)] else Decimal(n / 10) + [DigitChar(n % 10)]
  }

  /**
   * s[i..j] is the first maximal run of digits in s: no digit before i, only
   * digits from i to j, and no digit at j. This is the leftmost, greedy match
   * of \d+.
   */
  ghost predicate IsFirstRun(s: string, i: int, j: int) {
    && 0 <= i < j <= |s|
    && (forall k :: 0 <= k < i ==> !IsDigit(s[k]))
    && (forall k :: i <= k < j ==> IsDigit(s[k]))
    && (j == |s| || !IsDigit(s[j]))
  }

  /** The first position at or after `from` that holds a digit, or |s|. */
  function SkipNonDigits(s: string, from: nat): (k: nat)
    requires from <= |s|
    ensures from <= k <= |s|
    ensures forall m :: from <= m < k ==> !IsDigit(s[m])
    ensures k < |s| ==> IsDigit(s[k])
    decreases |s| - from
  {
    if from == |s| || IsDigit(s[from]) then from else SkipNonDigits(s, from + 1)
  }

  /** The first position at or after `from` that does not hold a digit, or |s|. */
  function SkipDigits(s: string, from: nat): (k: nat)
    requires from <= |s|
    ensures from <= k <= |s|
    ensures forall m :: from <= m < k ==> IsDigit(s[m])
    ensures k < |s| ==> !IsDigit(s[k])
    decreases |s| - from
  {
    if from == |s| || !IsDigit(s[from]) then from else SkipDigits(s, from + 1)
  }

  /** The bounds of the match of re.search(r'\d+', s), if there is one. */
  function FirstRun(s: string): (r: Option<(nat, nat)>)
    ensures r.None? <==> !HasDigit(s)
    ensures r.Some? ==> IsFirstRun(s, r.value.0, r.value.1)
  {
    var i := SkipNonDigits(s, 0);
    if i == |s| then None else Some((i, SkipDigits(s, i)))
  }

  /** extract_number: a number is returned as it is, text yields its first digit run or 0. */
  function ExtractNumber(v: Value): (r: int)
    ensures v.Num? ==> r == v.n
    ensures v.Str? ==> r >= 0
    ensures v.Str? && !HasDigit(v.s) ==> r == 0
  {
    match v
    case Num(n) => n
    case Str(s) =>
      match FirstRun(s)
      case None => 0
      case Some((i, j)) => DigitsValue(s[i..j])
  }

  /** A string has at most one first maximal digit run. */
  lemma FirstRunUnique(s: string, i: int, j: int, i': int, j': int)
    requires IsFirstRun(s, i, j) && IsFirstRun(s, i', j')
    ensures i == i' && j == j'
  {
    assert IsDigit(s[i]) && IsDigit(s[i']);
    assert i == i';
    assert j < |s| ==> !IsDigit(s[j]);
    assert j' < |s| ==> !IsDigit(s[j']);
  }

  /** Text yields exactly the value of its first maximal digit run. */
  lemma ExtractNumberIsFirstRun(s: string, i: int, j: int)
    requires IsFirstRun(s, i, j)
    ensures AllDigits(s[i..j])
    ensures ExtractNumber(Str(s)) == DigitsValue(s[i..j])
  {
    assert IsDigit(s[i]);
    var r := FirstRun(s);
    FirstRunUnique(s, i, j, r.value.0, r.value.1);
  }

  /** Reading back a rendered number gives the number (int(str(n)) == n). */
  lemma {:induction false} DecimalRoundTrip(n: nat)
    ensures DigitsValue(Decimal(n)) == n
  {
    if n >= 10 {
      DecimalRoundTrip(n / 10);
      var s := Decimal(n);
      assert s[..|s| - 1] == Decimal(n / 10);
    }
  }

  /**
   * A number written among text, with no digit before it and no digit right
   * after it, is what extraction returns: "128 BPM" gives 128.
   */
  lemma ExtractNumberOfRendered(before: string, n: nat, after: string)
    requires !HasDigit(before)
    requires after == [] || !IsDigit(after[0])
    ensures ExtractNumber(Str(before + Decimal(n) + after)) == n
  {
    var d := Decimal(n);
    var s := before + d + after;
    var i, j := |before|, |before| + |d|;
    forall k | 0 <= k < i ensures !IsDigit(s[k]) {
      assert s[k] == before[k];
    }
    forall k | i <= k < j ensures IsDigit(s[k]) {
      assert s[k] == d[k - i];
    }
    assert j < |s| ==> s[j] == after[0];
    assert IsFirstRun(s, i, j);
    ExtractNumberIsFirstRun(s, i, j);
    assert s[i..j] == d;
    DecimalRoundTrip(n);
  }

  /**
   * Once text holds a digit and ends in a non-digit, whatever follows it does
   * not change the extracted number.
   */
  lemma TextAfterFirstRunIgnored(s: string, t: string)
    requires HasDigit(s) && !IsDigit(s[|s| - 1])
    ensures ExtractNumber(Str(s + t)) == ExtractNumber(Str(s))
  {
    var r := FirstRun(s);
    var i, j := r.value.0, r.value.1;
    var st := s + t;
    assert j < |s|;
    forall k | 0 <= k <= j ensures st[k] == s[k] { }
    assert IsFirstRun(st, i, j);
    ExtractNumberIsFirstRun(st, i, j);
    ExtractNumberIsFirstRun(s, i, j);
    assert st[i..j] == s[i..j];
  }

  /** Worked examples from the docstring of extract_number and beyond: "4/10 (High)" gives 4, "128 BPM" gives 128, "-5" gives 5. */
  lemma ExtractNumberTextExamples()
    ensures ExtractNumber(Str("4/10 (High)")) == 4
    ensures ExtractNumber(Str("128 BPM")) == 128
    ensures ExtractNumber(Str("-5")) == 5
  {
    var high := "4/10 (High)";
    assert !IsDigit(high[1]);
    ExtractNumberIsFirstRun(high, 0, 1);
    assert high[0..1] == "4";
    var bpm := "128 BPM";
    assert !IsDigit(bpm[3]);
    ExtractNumberIsFirstRun(bpm, 0, 3);
    var n := bpm[0..3];
    assert n == "128" && n[..2] == "12" && n[..2][..1] == "1";
    var neg := "-5";
    assert !IsDigit(neg[0]);
    ExtractNumberIsFirstRun(neg, 1, 2);
    assert neg[1..2] == "5";
  }

  /** Text without a digit gives 0, a number keeps its sign: "N/A" and "" give 0, the number -5 gives -5. */
  lemma ExtractNumberDefaultExamples()
    ensures ExtractNumber(Str("N/A")) == 0
    ensures ExtractNumber(Str("")) == 0
    ensures ExtractNumber(Num(-5)) == -5
  {
    var na := "N/A";
    assert !IsDigit(na[0]) && !IsDigit(na[1]) && !IsDigit(na[2]);
  }
}
