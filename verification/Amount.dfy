/** Exact credit amounts: internal/platform/amount.go. */
module Amount {
  import opened Numbers
  import opened Decimal
  import opened Wrappers

  const UNITS_PER_CREDIT: nat := 500_000

  datatype AmountError = Invalid | NotRepresentable | OutOfRange
  type Parsed = Result<nat, AmountError>

  /** Position of the first dot, or the length when there is none. */
  function Dot(text: string): (i: nat)
    ensures i <= |text|
    ensures i < |text| ==> text[i] == '.'
    ensures forall k :: 0 <= k < i ==> text[k] != '.'
  {
    if text == "" || text[0] == '.' then 0 else 1 + Dot(text[1..])
  }

  function Whole(text: string): string { text[..Dot(text)] }

  function Fraction(text: string): string {
    if Dot(text) == |text| then "" else text[Dot(text) + 1..]
  }

  /** The accepted grammar: digits, optionally a dot and one to six digits. */
  predicate WellFormed(text: string) {
    && Whole(text) != ""
    && (Dot(text) < |text| ==> 0 < |Fraction(text)| <= 6)
    && AllDigits(Whole(text)) && AllDigits(Fraction(text))
  }

  /** A fraction string in millionths. */
  function Scaled(fraction: string): nat
    requires AllDigits(fraction) && |fraction| <= 6
  {
    Value(fraction) * Pow10(6 - |fraction|)
  }

  /** The exact value of an amount, in millionths of a credit. */
  function Micros(text: string): nat
    requires WellFormed(text)
  {
    Value(Whole(text)) * 1_000_000 + Scaled(Fraction(text))
  }

  /** What ParseAmount answers, stated on the exact value of the text. */
  function ParseSpec(text: string): Parsed {
    if !WellFormed(text) then Err(Invalid) else Judge(Value(Whole(text)), Micros(text))
  }

  /** The verdict on a well-formed amount, from its whole credits and its total in micros. */
  function Judge(whole: nat, micros: nat): Parsed {
    if whole > MAX_UINT64 then Err(OutOfRange)
    else if micros % 2 != 0 then Err(NotRepresentable)
    else if micros / 2 > MAX_INT64 then Err(OutOfRange)
    else if micros == 0 then Err(Invalid)
    else Ok(micros / 2)
  }

  /** Drops trailing zeros, as strings.TrimRight(s, "0"). */
  function TrimZeros(s: string): string {
    if s != "" && s[|s| - 1] == '0' then TrimZeros(s[..|s| - 1]) else s
  }

  function SixDigits(n: nat): (s: string)
    requires n < 1_000_000
    ensures |s| == 6 && AllDigits(s) && Value(s) == n
  {
    assert Pow10(6) == 1_000_000;
    DigitsBound(n, 6);
    ValueConcat(Zeros(6 - |Digits(n)|), Digits(n));
    ValueOfZeros(6 - |Digits(n)|);
    ValueOfDigits(n);
    Zeros(6 - |Digits(n)|) + Digits(n)
  }

  function FormatMagnitude(n: nat): string {
    var whole := Digits(n / UNITS_PER_CREDIT);
    var fraction := n % UNITS_PER_CREDIT * 2;
    if fraction == 0 then whole else whole + "." + TrimZeros(SixDigits(fraction))
  }

  function FormatSpec(units: int): string {
    if units < 0 then "-" + FormatMagnitude(-units) else FormatMagnitude(units)
  }

  // ---------------------------------------------------------------- the code

  lemma ScaledSnoc(fraction: string, i: nat)
    requires AllDigits(fraction) && i < |fraction|
    ensures Value(fraction[..i + 1]) == Value(fraction[..i]) * 10 + DigitValue(fraction[i])
  {
    assert fraction[..i + 1] == fraction[..i] + [fraction[i]];
    ValueSnoc(fraction[..i], fraction[i]);
  }

  lemma Pow10Small(k: nat)
    requires k <= 6
    ensures Pow10(k) <= 1_000_000
    decreases 6 - k
  {
    assert Pow10(6) == 1_000_000;
    if k < 6 { Pow10Small(k + 1); }
  }

  /** Every intermediate of the loop below fits: it never exceeds a million. */
  lemma {:induction false} ScaledPrefixBound(s: string, k: nat)
    requires AllDigits(s) && |s| + k <= 6
    ensures Value(s) * Pow10(k) < 1_000_000
  {
    ValueConcat(s, Zeros(k));
    ValueOfZeros(k);
    ValueBound(s + Zeros(k));
    Pow10Small(|s| + k);
  }

  /** The division guard is the multiplication it avoids. */
  lemma RangeGuard(w: nat, f: nat)
    requires f <= MAX_INT64
    ensures w > (MAX_INT64 - f) / UNITS_PER_CREDIT <==> w * UNITS_PER_CREDIT + f > MAX_INT64
  {
    var q := (MAX_INT64 - f) / UNITS_PER_CREDIT;
    assert q * UNITS_PER_CREDIT <= MAX_INT64 - f < (q + 1) * UNITS_PER_CREDIT;
  }

  method HasOnlyDigits(part: string) returns (ok: bool)
    ensures ok == AllDigits(part)
  {
    for i := 0 to |part|
      invariant forall k :: 0 <= k < i ==> IsDigit(part[k])
    {
      if part[i] < '0' || part[i] > '9' {
        return false;
      }
    }
    return true;
  }

  /** The digit and padding loops, in wrap-checked 64-bit arithmetic. */
  method FractionMicros(fraction: string) returns (micros: uint64)
    requires AllDigits(fraction) && |fraction| <= 6
    ensures micros as int == Scaled(fraction) < 1_000_000
  {
    micros := 0;
    for i := 0 to |fraction|
      invariant micros as int == Value(fraction[..i])
    {
      ScaledPrefixBound(fraction[..i + 1], 0);
      ScaledSnoc(fraction, i);
      micros := micros * 10 + DigitValue(fraction[i]) as uint64;
    }
    assert fraction[..|fraction|] == fraction;
    for i := |fraction| to 6
      invariant micros as int == Value(fraction) * Pow10(i - |fraction|)
    {
      ScaledPrefixBound(fraction, i + 1 - |fraction|);
      Regroup(Value(fraction), Pow10(i - |fraction|));
      micros := micros * 10;
    }
    ScaledPrefixBound(fraction, 6 - |fraction|);
  }

  method ParseAmount(text: string) returns (r: Parsed)
    ensures r == ParseSpec(text)
  {
    var whole, fraction, hasDot := Whole(text), Fraction(text), Dot(text) < |text|;
    if whole == "" || (hasDot && (fraction == "" || |fraction| > 6)) {
      return Err(Invalid);
    }
    var wholeOk := HasOnlyDigits(whole);
    var fractionOk := HasOnlyDigits(fraction);
    if !wholeOk || !fractionOk {
      return Err(Invalid);
    }
    if Value(whole) > MAX_UINT64 {
      return Err(OutOfRange);
    }
    var w := Value(whole) as uint64;
    var micros := FractionMicros(fraction);
    if micros % 2 != 0 {
      return Err(NotRepresentable);
    }
    var fits, units := Combine(w, micros / 2);
    if !fits {
      return Err(OutOfRange);
    }
    if units == 0 {
      return Err(Invalid);
    }
    r := Ok(units as int);
  }

  /** Whole credits and half-micros together, guarded by division so that nothing wraps. */
  method Combine(w: uint64, f: uint64) returns (fits: bool, units: uint64)
    requires f < 500_000
    ensures fits == (w as int * UNITS_PER_CREDIT + f as int <= MAX_INT64)
    ensures fits ==> units as int == w as int * UNITS_PER_CREDIT + f as int
  {
    RangeGuard(w as int, f as int);
    if w > (0x7FFF_FFFF_FFFF_FFFF - f) / 500_000 {
      return false, 0;
    }
    return true, w * 500_000 + f;
  }

  method Magnitude(units: int64) returns (n: uint64)
    ensures n as int == if units < 0 then -(units as int) else units as int
  {
    if units < 0 {
      n := (-(units + 1)) as uint64 + 1;
    } else {
      n := units as uint64;
    }
  }

  method FormatAmount(units: int64) returns (text: string)
    ensures text == FormatSpec(units as int)
  {
    var n := Magnitude(units);
    text := FormatUnsigned(n);
    if units < 0 {
      text := "-" + text;
    }
  }

  method FormatUnsigned(n: uint64) returns (text: string)
    ensures text == FormatMagnitude(n as int)
  {
    var whole := Digits((n / 500_000) as int);
    var fraction := n % 500_000 * 2;
    if fraction == 0 {
      return whole;
    }
    text := whole + "." + TrimZeros(SixDigits(fraction as int));
  }

  // ------------------------------------------------------------ what it means

  lemma {:induction false} TrimKeepsValue(s: string)
    requires AllDigits(s) && |s| <= 6
    ensures TrimZeros(s) <= s && Scaled(TrimZeros(s)) == Scaled(s)
  {
    if s != "" && s[|s| - 1] == '0' {
      var h := s[..|s| - 1];
      TrimKeepsValue(h);
      Regroup(Value(h), Pow10(6 - |s|));
    }
  }

  lemma {:induction false} TrimZeroValue(s: string)
    requires AllDigits(s) && TrimZeros(s) == ""
    ensures Value(s) == 0
  {
    if s != "" { TrimZeroValue(s[..|s| - 1]); }
  }

  lemma CutAt(whole: string, fraction: string)
    requires AllDigits(whole)
    ensures Whole(whole) == whole && Fraction(whole) == ""
    ensures Whole(whole + "." + fraction) == whole && Fraction(whole + "." + fraction) == fraction
  {
    var t := whole + "." + fraction;
    assert t[|whole|] == '.';
    assert forall k :: 0 <= k < |whole| ==> t[k] == whole[k];
    assert Dot(t) == |whole|;
    assert Dot(whole) == |whole|;
  }

  /** The printed text is well formed and denotes exactly n atomic units. */
  lemma FormatExact(n: nat)
    ensures WellFormed(FormatMagnitude(n)) && Micros(FormatMagnitude(n)) == 2 * n
    ensures Whole(FormatMagnitude(n)) == Digits(n / UNITS_PER_CREDIT)
    ensures Fraction(FormatMagnitude(n)) == TrimZeros(SixDigits(n % UNITS_PER_CREDIT * 2))
            || (n % UNITS_PER_CREDIT == 0 && Fraction(FormatMagnitude(n)) == "")
  {
    var whole, fr := Digits(n / UNITS_PER_CREDIT), n % UNITS_PER_CREDIT * 2;
    ValueOfDigits(n / UNITS_PER_CREDIT);
    var six := SixDigits(fr);
    TrimKeepsValue(six);
    CutAt(whole, TrimZeros(six));
    if fr != 0 && TrimZeros(six) == "" { TrimZeroValue(six); }
    assert Scaled(six) == fr by { assert Pow10(0) == 1; }
  }

  /** Acceptance is exactly: a well-formed text worth a positive, representable number of units. */
  lemma {:induction false} AcceptedExactly(text: string, u: nat)
    ensures ParseSpec(text) == Ok(u) <==> WellFormed(text) && Micros(text) == 2 * u && 0 < u <= MAX_INT64
  {
    if WellFormed(text) {
      WholeWithinMicros(text);
      JudgedExactly(Value(Whole(text)), Micros(text), u);
    }
  }

  lemma JudgedExactly(whole: nat, micros: nat, u: nat)
    requires whole * 1_000_000 <= micros
    ensures Judge(whole, micros) == Ok(u) <==> micros == 2 * u && 0 < u <= MAX_INT64
    ensures Judge(whole, micros) == Err(OutOfRange) <==>
              micros > 2 * MAX_INT64 && (whole > MAX_UINT64 || micros % 2 == 0)
  {
  }

  lemma {:induction false} WholeWithinMicros(text: string)
    requires WellFormed(text)
    ensures Value(Whole(text)) * 1_000_000 <= Micros(text)
  {
  }

  /** Out of range is answered exactly when the whole part leaves 64 bits, or an even value leaves int64. */
  lemma {:induction false} OutOfRangeExactly(text: string)
    ensures ParseSpec(text) == Err(OutOfRange) <==>
              WellFormed(text) && Micros(text) > 2 * MAX_INT64
              && (Value(Whole(text)) > MAX_UINT64 || Micros(text) % 2 == 0)
  {
    if WellFormed(text) {
      WholeWithinMicros(text);
      JudgedExactly(Value(Whole(text)), Micros(text), 0);
    }
  }

  /** Reading one more digit. */
  lemma {:induction false} Append(s: string, v: nat, c: char, d: nat, more: string)
    requires AllDigits(s) && Value(s) == v && IsDigit(c) && DigitValue(c) == d && more == s + [c]
    ensures AllDigits(more) && Value(more) == v * 10 + d
  {
    ValueSnoc(s, c);
  }

  lemma {:induction false} ReadWhole()
    ensures AllDigits("18446744073709") && Value("18446744073709") == 18_446_744_073_709
  {
    Append("", 0, '1', 1, "1");
    Append("1", 1, '8', 8, "18");
    Append("18", 18, '4', 4, "184");
    Append("184", 184, '4', 4, "1844");
    Append("1844", 1_844, '6', 6, "18446");
    Append("18446", 18_446, '7', 7, "184467");
    Append("184467", 184_467, '4', 4, "1844674");
    Append("1844674", 1_844_674, '4', 4, "18446744");
    Append("18446744", 18_446_744, '0', 0, "184467440");
    Append("184467440", 184_467_440, '7', 7, "1844674407");
    Append("1844674407", 1_844_674_407, '3', 3, "18446744073");
    Append("18446744073", 18_446_744_073, '7', 7, "184467440737");
    Append("184467440737", 184_467_440_737, '0', 0, "1844674407370");
    Append("1844674407370", 1_844_674_407_370, '9', 9, "18446744073709");
  }

  lemma {:induction false} ReadFraction()
    ensures AllDigits("551615") && Value("551615") == 551_615
  {
    Append("", 0, '5', 5, "5");
    Append("5", 5, '5', 5, "55");
    Append("55", 55, '1', 1, "551");
    Append("551", 551, '6', 6, "5516");
    Append("5516", 5_516, '1', 1, "55161");
    Append("55161", 55_161, '5', 5, "551615");
  }

  /** An amount above int64 that is not answered out of range: its last micro is odd. */
  lemma {:induction false} OddAmountNotRepresentable()
    ensures var text := "18446744073709" + "." + "551615";
            WellFormed(text) && Micros(text) > 2 * MAX_INT64 && ParseSpec(text) == Err(NotRepresentable)
  {
    ReadWhole();
    ReadFraction();
    CutAt("18446744073709", "551615");
    DotInside("18446744073709", "551615");
    assert Pow10(0) == 1;
  }

  lemma {:induction false} DotInside(whole: string, fraction: string)
    requires AllDigits(whole) && Whole(whole + "." + fraction) == whole
    ensures Dot(whole + "." + fraction) == |whole|
  {
  }

  /** Parsing what was printed gives the same amount back, for every positive int64. */
  lemma ParseOfFormat(u: nat)
    requires 0 < u <= MAX_INT64
    ensures ParseSpec(FormatSpec(u)) == Ok(u)
  {
    FormatExact(u);
    AcceptedExactly(FormatSpec(u), u);
  }

  lemma {:induction false} TrimShortest(s: string, f: string)
    requires AllDigits(s) && |s| == 6 && AllDigits(f) && |f| <= 6
    requires Scaled(s) == Scaled(f)
    ensures TrimZeros(s) <= f
    decreases |f|
  {
    var padded := f + Zeros(6 - |f|);
    ValueConcat(f, Zeros(6 - |f|));
    ValueOfZeros(6 - |f|);
    assert Pow10(0) == 1;
    ValueInjective(s, padded);
    TrimOfPadded(f, 6 - |f|);
  }

  lemma {:induction false} TrimOfPadded(f: string, k: nat)
    ensures TrimZeros(f + Zeros(k)) <= f
  {
    if k == 0 {
      assert f + Zeros(0) == f;
      TrimPrefix(f);
    } else {
      assert (f + Zeros(k))[..|f| + k - 1] == f + Zeros(k - 1);
      TrimOfPadded(f, k - 1);
    }
  }

  lemma {:induction false} TrimPrefix(s: string)
    ensures TrimZeros(s) <= s
  {
    if s != "" && s[|s| - 1] == '0' { TrimPrefix(s[..|s| - 1]); }
  }

  /** Texts of equal exact value have equal whole and fraction parts. */
  lemma SameValueSameParts(a: string, b: string)
    requires WellFormed(a) && WellFormed(b) && Micros(a) == Micros(b)
    ensures Value(Whole(a)) == Value(Whole(b)) && Scaled(Fraction(a)) == Scaled(Fraction(b))
  {
    ScaledPrefixBound(Fraction(a), 6 - |Fraction(a)|);
    ScaledPrefixBound(Fraction(b), 6 - |Fraction(b)|);
  }

  /** A text is its whole part, then a dot and its fraction when it has one. */
  lemma Rebuild(text: string)
    requires WellFormed(text)
    ensures text == if Fraction(text) == "" then Whole(text) else Whole(text) + "." + Fraction(text)
    ensures |text| == |Whole(text)| + (if Fraction(text) == "" then 0 else 1 + |Fraction(text)|)
  {
  }

  /** Printing what was parsed gives the one shortest text of the same exact value. */
  lemma FormatOfParseShortest(text: string)
    requires ParseSpec(text).Ok?
    ensures var canonical := FormatSpec(ParseSpec(text).value);
            && ParseSpec(canonical) == ParseSpec(text)
            && |canonical| <= |text|
            && (|canonical| == |text| ==> canonical == text)
  {
    var u := ParseSpec(text).value;
    var canonical := FormatSpec(u);
    ParseOfFormat(u);
    FormatExact(u);
    SameValueSameParts(canonical, text);
    Rebuild(text);
    Rebuild(canonical);
    DigitsShortest(Whole(text));
    ValueOfDigits(u / UNITS_PER_CREDIT);
    assert |Whole(canonical)| <= |Whole(text)|;
    assert Fraction(canonical) <= Fraction(text) by {
      if Fraction(canonical) != "" {
        var six := SixDigits(u % UNITS_PER_CREDIT * 2);
        TrimKeepsValue(six);
        TrimShortest(six, Fraction(text));
      }
    }
    if |canonical| == |text| {
      ValueInjective(Whole(canonical), Whole(text));
    }
  }
}
