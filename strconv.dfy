/**
 * The part of Go's integer types and strconv package that the nullable
 * integers rely on: the 32-bit integer types, strconv.ParseInt(s, 10, 32),
 * which reads their JSON text, and strconv.FormatInt(n, 10), which is what
 * json.Marshal writes for an integer.
 */
module Strconv {
  import opened Wrappers

  const MinInt32 := -0x8000_0000
  const MaxInt32 := 0x7FFF_FFFF
  const MaxUint32 := 0xFFFF_FFFF
  /** 2^32: the number of uint32 values, the modulus of a conversion to uint32. */
  const Uint32Modulus := 0x1_0000_0000

  /** Go's int32. */
  newtype int32 = x: int | -0x8000_0000 <= x < 0x8000_0000

  /** Go's uint32. */
  newtype uint32 = x: int | 0 <= x < 0x1_0000_0000

  /** The two errors ParseInt reports: text that is not a decimal integer, and
      a decimal integer that does not fit the requested width. */
  datatype NumError = ErrSyntax(text: string) | ErrRange(text: string)

  predicate IsDigit(c: char) {
    '0' <= c <= '9'
  }

  predicate AllDigits(s: string) {
    forall i :: 0 <= i < |s| ==> IsDigit(s[i])
  }

  function DigitChar(d: nat): char
    requires d < 10
  {
    ('0' as int + d) as char
  }

  /** The number a run of decimal digits spells, leading zeros allowed. */
  function DecimalValue(s: string): nat
    requires AllDigits(s)
  {
    if s == [] then 0
    else DecimalValue(s[..|s| - 1]) * 10 + (s[|s| - 1] as int - '0' as int)
  }

  /** The decimal digits of n, without leading zeros: the first digit is 0
      only for n == 0, and then it is the only one. */
  function Digits(n: nat): (s: string)
    ensures s != [] && AllDigits(s)
    ensures DecimalValue(s) == n
    ensures s[0] == '0' <==> n == 0
    ensures |s| == 1 <==> n < 10
  {
    if n < 10 then [DigitChar(n)]
    else
      var s := Digits(n / 10) + [DigitChar(n % 10)];
      assert s[..|s| - 1] == Digits(n / 10);
      s
  }

  /** An integer as JSON writes it (section 6 of RFC 8259): an optional minus
      sign, never a plus sign, then digits with no leading zero. */
  predicate IsJsonInteger(s: string) {
    IsDecimalText(s) && s[0] != '+' && (|Unsigned(s)| > 1 ==> Unsigned(s)[0] != '0')
  }

  /** strconv.FormatInt(n, 10): the JSON integer text whose value is n, with
      a minus sign exactly when n is negative. */
  function FormatInt(n: int): (s: string)
    ensures IsJsonInteger(s) && SignedValue(s) == n
    ensures s[0] == '-' <==> n < 0
  {
    if n < 0 then
      var s := "-" + Digits(-n);
      assert Unsigned(s) == Digits(-n);
      s
    else Digits(n)
  }

  /** The text after an optional leading sign. */
  function Unsigned(s: string): string {
    if s != [] && (s[0] == '+' || s[0] == '-') then s[1..] else s
  }

  /** Base-10 integer text: an optional '+' or '-' and at least one digit. */
  predicate IsDecimalText(s: string) {
    Unsigned(s) != [] && AllDigits(Unsigned(s))
  }

  function SignedValue(s: string): int
    requires IsDecimalText(s)
  {
    var m: int := DecimalValue(Unsigned(s));
    if s[0] == '-' then -m else m
  }

  /** The digits at the front of s, up to the first character that is not
      a digit. */
  function LeadingDigits(s: string): (p: string)
    ensures |p| <= |s| && p == s[..|p|] && AllDigits(p)
    ensures |p| < |s| ==> !IsDigit(s[|p|])
    ensures AllDigits(s) ==> p == s
  {
    if s == [] || !IsDigit(s[0]) then []
    else [s[0]] + LeadingDigits(s[1..])
  }

  /** Reading s digit by digit from the front, the running value passes the
      largest uint32 before any character that is not a digit is met. */
  ghost predicate Overflows(s: string) {
    exists k :: 0 <= k <= |s| && AllDigits(s[..k]) && DecimalValue(s[..k]) > MaxUint32
  }

  /** A prefix of a run of digits spells no more than the whole run. */
  lemma {:induction false} PrefixValue(s: string, k: nat)
    requires AllDigits(s) && k <= |s|
    ensures DecimalValue(s[..k]) <= DecimalValue(s)
    decreases |s|
  {
    if k < |s| {
      var t := s[..|s| - 1];
      assert t[..k] == s[..k];
      PrefixValue(t, k);
    } else {
      assert s[..k] == s;
    }
  }

  /** The running value overflows exactly when the leading digits spell more
      than the largest uint32. */
  lemma OverflowsLeadingDigits(s: string)
    ensures Overflows(s) <==> DecimalValue(LeadingDigits(s)) > MaxUint32
  {
    var p := LeadingDigits(s);
    if DecimalValue(p) > MaxUint32 {
      assert s[..|p|] == p;
    } else {
      forall k | 0 <= k <= |s| && AllDigits(s[..k])
        ensures DecimalValue(s[..k]) <= MaxUint32
      {
        if k > |p| {
          assert false;
        }
        assert s[..k] == p[..k];
        PrefixValue(p, k);
      }
    }
  }

  /** strconv.ParseUint(s, 10, 32): the digits are read from the front; the
      first character that is not a digit is a syntax error unless the value
      read so far has already passed 2^32 - 1, which is a range error. Empty
      text is a syntax error. */
  function ParseUint32(s: string): (r: Result<nat, NumError>)
    ensures r.Success? <==> s != [] && AllDigits(s) && DecimalValue(s) <= MaxUint32
    ensures r.Success? ==> r.value == DecimalValue(s)
    ensures r.Failure? ==> (r.error == ErrRange(s) <==> Overflows(s))
    ensures r.Failure? ==> r.error == ErrSyntax(s) || r.error == ErrRange(s)
  {
    OverflowsLeadingDigits(s);
    if s == [] then Failure(ErrSyntax(s))
    else if DecimalValue(LeadingDigits(s)) > MaxUint32 then Failure(ErrRange(s))
    else if !AllDigits(s) then Failure(ErrSyntax(s))
    else Success(DecimalValue(s))
  }

  /** strconv.ParseInt(s, 10, 32): empty text is a syntax error; otherwise an
      optional sign is taken off and the rest read by ParseUint32, whose
      error kind is kept; a magnitude of 2^31 or more (more than 2^31 when
      negative) is a range error. */
  function ParseInt32(s: string): (r: Result<int32, NumError>)
    ensures r.Success? <==> IsDecimalText(s) && MinInt32 <= SignedValue(s) <= MaxInt32
    ensures r.Success? ==> r.value as int == SignedValue(s)
    ensures r.Failure? ==> (r.error == ErrSyntax(s) <==> !IsDecimalText(s) && !Overflows(Unsigned(s)))
    ensures r.Failure? ==> r.error == ErrSyntax(s) || r.error == ErrRange(s)
  {
    if s == [] then Failure(ErrSyntax(s))
    else
      var neg := s[0] == '-';
      match ParseUint32(Unsigned(s))
      case Failure(e) => if e.ErrRange? then Failure(ErrRange(s)) else Failure(ErrSyntax(s))
      case Success(m) =>
        var magnitude: int := m;
        if !neg && magnitude >= 0x8000_0000 then Failure(ErrRange(s))
        else if neg && magnitude > 0x8000_0000 then Failure(ErrRange(s))
        else Success((if neg then -magnitude else magnitude) as int32)
  }

  /** Appending one digit multiplies the value by ten and adds the digit. */
  lemma DecimalValueSnoc(t: string, c: char)
    requires AllDigits(t) && IsDigit(c)
    ensures AllDigits(t + [c])
    ensures DecimalValue(t + [c]) == DecimalValue(t) * 10 + (c as int - '0' as int)
  {
    assert (t + [c])[..|t|] == t;
  }

  /** The value of the digits 42949 (the first half of 2^32 - 1). */
  lemma ValueOf42949()
    ensures AllDigits("42949") && DecimalValue("42949") == 42949
  {
    assert DecimalValue("4") == 4 by { assert "4"[..0] == []; }
    DecimalValueSnoc("4", '2');
    assert "4" + ['2'] == "42";
    DecimalValueSnoc("42", '9');
    assert "42" + ['9'] == "429";
    DecimalValueSnoc("429", '4');
    assert "429" + ['4'] == "4294";
    DecimalValueSnoc("4294", '9');
    assert "4294" + ['9'] == "42949";
  }

  /** The value of the digits 429496729 (2^32 - 1 without its last digit). */
  lemma ValueOf429496729()
    ensures AllDigits("429496729") && DecimalValue("429496729") == 429496729
  {
    ValueOf42949();
    DecimalValueSnoc("42949", '6');
    assert "42949" + ['6'] == "429496";
    DecimalValueSnoc("429496", '7');
    assert "429496" + ['7'] == "4294967";
    DecimalValueSnoc("4294967", '2');
    assert "4294967" + ['2'] == "42949672";
    DecimalValueSnoc("42949672", '9');
    assert "42949672" + ['9'] == "429496729";
  }

  /** The leading digits of a run of digits followed by a non-digit are
      that run. */
  lemma {:induction false} LeadingDigitsBeforeNonDigit(d: string, c: char)
    requires AllDigits(d) && !IsDigit(c)
    ensures LeadingDigits(d + [c]) == d
  {
    if d != [] {
      assert (d + [c])[0] == d[0];
      assert (d + [c])[1..] == d[1..] + [c];
      LeadingDigitsBeforeNonDigit(d[1..], c);
      assert [d[0]] + d[1..] == d;
    }
  }

  /** Ten digits spelling 2^32 followed by a letter: the range error comes
      first, as in Go, although the text is not a number at all. */
  lemma RangeBeforeSyntax()
    ensures ParseInt32("4294967296x") == Failure(ErrRange("4294967296x"))
  {
    var over := "4294967296x";
    ValueOf429496729();
    DecimalValueSnoc("429496729", '6');
    assert "429496729" + ['6'] == over[..10];
    assert Unsigned(over) == over;
    assert Overflows(over);
  }

  /** The running value of "4294967295x" stops at 2^32 - 1, the limit. */
  lemma NoOverflowAtLimit()
    ensures !Overflows("4294967295x")
  {
    var under := "4294967295x";
    ValueOf429496729();
    DecimalValueSnoc("429496729", '5');
    assert "429496729" + ['5'] == under[..10];
    assert under == under[..10] + ['x'];
    LeadingDigitsBeforeNonDigit(under[..10], 'x');
    OverflowsLeadingDigits(under);
  }

  /** The digits of 2^32 - 1 followed by a letter: the value never passes
      the limit, so the letter is a syntax error. */
  lemma SyntaxBeforeRange()
    ensures ParseInt32("4294967295x") == Failure(ErrSyntax("4294967295x"))
  {
    var under := "4294967295x";
    NoOverflowAtLimit();
    assert Unsigned(under) == under;
    assert !IsDecimalText(under) by {
      assert !IsDigit(under[10]);
    }
  }

  /** Parsing what FormatInt writes gives the number back when it fits in 32
      signed bits, and a range error otherwise. */
  lemma ParseFormatInt(n: int)
    ensures ParseInt32(FormatInt(n)) ==
      if MinInt32 <= n <= MaxInt32 then Success(n as int32) else Failure(ErrRange(FormatInt(n)))
  {
  }
}
