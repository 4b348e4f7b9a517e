/**
 * Decimal integers as Go's standard library reads and writes them:
 * strconv.FormatInt / FormatUint, strconv.ParseInt(s, 10, 64) (which json.Number.Int64 calls),
 * and encoding/json's test of whether a string is a JSON number literal.
 */
module Numbers {
  import opened Wrappers
  import opened Errors

  const MinInt64: int := -0x8000_0000_0000_0000
  const MaxInt64: int := 0x7fff_ffff_ffff_ffff
  const MaxUint64: int := 0xffff_ffff_ffff_ffff

  type int64 = x: int | MinInt64 <= x <= MaxInt64
  type uint64 = x: int | 0 <= x <= MaxUint64

  predicate IsDigit(c: char) { '0' <= c <= '9' }

  predicate AllDigits(s: string) { forall i | 0 <= i < |s| :: IsDigit(s[i]) }

  function DigitValue(c: char): nat
    requires IsDigit(c)
  {
    c as int - '0' as int
  }

  function DigitChar(d: nat): (c: char)
    requires d < 10
    ensures IsDigit(c) && DigitValue(c) == d
  {
    ('0' as int + d) as char
  }

  /** The number denoted by the digits `s` read left to right after digits already worth `acc`. */
  function Accumulate(acc: nat, s: string): nat
    requires AllDigits(s)
    decreases |s|
  {
    if s == [] then acc else Accumulate(acc * 10 + DigitValue(s[0]), s[1..])
  }

  /** The number a string of decimal digits denotes (leading zeros allowed). */
  function DecimalValue(s: string): nat
    requires AllDigits(s)
  {
    Accumulate(0, s)
  }

  /** strconv.FormatUint(n, 10): the decimal digits of n, most significant first, no leading zero. */
  function FormatUint(n: nat): (r: string)
    ensures |r| > 0 && AllDigits(r)
    ensures r[0] == '0' <==> n == 0
    ensures n == 0 ==> r == "0"
    decreases n
  {
    if n < 10 then [DigitChar(n)] else FormatUint(n / 10) + [DigitChar(n % 10)]
  }

  /** strconv.FormatInt(n, 10): a '-' for negative numbers, then the digits of |n|. */
  function FormatInt(n: int): (r: string)
  {
    if n < 0 then "-" + FormatUint(-n) else FormatUint(n)
  }

  // ---------------------------------------------------------------------------------------------
  // Parsing

  /** What strconv hands back: a value (meaningful also on error) and the error, if any. */
  datatype Parsed = Parsed(value: int, err: Option<NumError>)

  /**
   * The digit loop of strconv.ParseUint(s, 10, 64) once `n` has been read: a non-digit is a
   * syntax error (value 0); a digit that would take the value past MaxUint64 stops the scan at
   * once with a range error and the value MaxUint64, whatever follows.
   */
  function ScanUint(s: string, n: nat): (r: Parsed)
    requires n <= MaxUint64
    ensures 0 <= r.value <= MaxUint64
    ensures r.err == Some(Syntax) ==> r.value == 0
    ensures r.err == Some(Range) ==> r.value == MaxUint64
    decreases |s|
  {
    if s == [] then Parsed(n, None)
    else if !IsDigit(s[0]) then Parsed(0, Some(Syntax))
    else if n * 10 + DigitValue(s[0]) > MaxUint64 then Parsed(MaxUint64, Some(Range))
    else ScanUint(s[1..], n * 10 + DigitValue(s[0]))
  }

  /** strconv.ParseUint(s, 10, 64). */
  function ParseUint64(s: string): (r: Parsed)
    ensures 0 <= r.value <= MaxUint64
    ensures r.err == Some(Syntax) ==> r.value == 0
    ensures r.err == Some(Range) ==> r.value == MaxUint64
  {
    if s == "" then Parsed(0, Some(Syntax)) else ScanUint(s, 0)
  }

  /**
   * strconv.ParseInt(s, 10, 64): an optional '+' or '-', then ParseUint on the rest. A syntax
   * error gives 0; a magnitude beyond int64 gives the nearest int64 bound with a range error.
   */
  function ParseInt64(s: string): (r: Parsed)
    ensures MinInt64 <= r.value <= MaxInt64
    ensures r.err == Some(Syntax) ==> r.value == 0
  {
    if s == "" then Parsed(0, Some(Syntax))
    else
      var neg := s[0] == '-';
      var u := ParseUint64(if s[0] == '+' || s[0] == '-' then s[1..] else s);
      if u.err == Some(Syntax) then Parsed(0, Some(Syntax))
      else if !neg && u.value > MaxInt64 then Parsed(MaxInt64, Some(Range))
      else if neg && u.value > -MinInt64 then Parsed(MinInt64, Some(Range))
      else Parsed(if neg then -u.value else u.value, None)
  }

  // ---------------------------------------------------------------------------------------------
  // Reference definition of an integer literal

  predicate IsSign(c: char) { c == '+' || c == '-' }

  /** An optional sign followed by at least one decimal digit. */
  predicate IsIntegerText(s: string)
  {
    if |s| > 0 && IsSign(s[0]) then |s| > 1 && AllDigits(s[1..]) else |s| > 0 && AllDigits(s)
  }

  /** The mathematical value of an integer literal. */
  function IntegerValue(s: string): int
    requires IsIntegerText(s)
  {
    if s[0] == '-' then 0 - DecimalValue(s[1..])
    else if s[0] == '+' then DecimalValue(s[1..])
    else DecimalValue(s)
  }

  // ---------------------------------------------------------------------------------------------
  // JSON number literals

  /** What is left of `s` after its leading run of digits. */
  function SkipDigits(s: string): (r: string)
    ensures |r| <= |s|
    decreases |s|
  {
    if s != [] && IsDigit(s[0]) then SkipDigits(s[1..]) else s
  }

  /** The exponent digits after 'e'/'E'; a lone sign is left in place so that the literal is refused. */
  function SkipExponent(t: string): string
  {
    if t != [] && IsSign(t[0]) then (if |t| == 1 then t else SkipDigits(t[1..])) else SkipDigits(t)
  }

  /**
   * encoding/json's isValidNumber: an optional '-', then '0' or a digit run not starting with
   * '0', then optionally '.' and digits, then optionally 'e'/'E', an optional sign and digits,
   * and nothing else.
   */
  predicate IsValidNumber(s: string)
  {
    var mantissa := if s != [] && s[0] == '-' then s[1..] else s;
    && s != []
    && mantissa != []
    && IsDigit(mantissa[0])
    && var afterInt := if mantissa[0] == '0' then mantissa[1..] else SkipDigits(mantissa[1..]);
       var afterFrac :=
         if |afterInt| >= 2 && afterInt[0] == '.' && IsDigit(afterInt[1]) then SkipDigits(afterInt[2..])
         else afterInt;
       var rest :=
         if |afterFrac| >= 2 && (afterFrac[0] == 'e' || afterFrac[0] == 'E') then SkipExponent(afterFrac[1..])
         else afterFrac;
       rest == []
  }

  // ---------------------------------------------------------------------------------------------
  // Lemmas

  lemma {:induction false} AccumulateSnoc(acc: nat, s: string, c: char)
    requires AllDigits(s) && IsDigit(c)
    ensures AllDigits(s + [c])
    ensures Accumulate(acc, s + [c]) == Accumulate(acc, s) * 10 + DigitValue(c)
    decreases |s|
  {
    assert AllDigits(s + [c]) by {
      forall i | 0 <= i < |s + [c]| ensures IsDigit((s + [c])[i]) {
        if i < |s| { assert (s + [c])[i] == s[i]; }
      }
    }
    if s == [] {
      assert s + [c] == [c];
    } else {
      assert (s + [c])[1..] == s[1..] + [c];
      AccumulateSnoc(acc * 10 + DigitValue(s[0]), s[1..], c);
    }
  }

  /** Reading the digits never decreases the value already accumulated. */
  lemma {:induction false} AccumulateAtLeast(acc: nat, s: string)
    requires AllDigits(s)
    ensures Accumulate(acc, s) >= acc
    decreases |s|
  {
    if s != [] {
      AccumulateAtLeast(acc * 10 + DigitValue(s[0]), s[1..]);
    }
  }

  /** FormatUint and DecimalValue are inverse: the rendering denotes the number rendered. */
  lemma {:induction false} DecimalValueOfFormat(n: nat)
    ensures DecimalValue(FormatUint(n)) == n
    decreases n
  {
    if n < 10 {
      var c := DigitChar(n);
      assert FormatUint(n) == [c];
      assert Accumulate(0, [c]) == Accumulate(DigitValue(c), [c][1..]);
      assert [c][1..] == [];
    } else {
      DecimalValueOfFormat(n / 10);
      AccumulateSnoc(0, FormatUint(n / 10), DigitChar(n % 10));
    }
  }

  /** FormatUint is one-to-one. */
  lemma FormatUintInjective(m: nat, n: nat)
    requires FormatUint(m) == FormatUint(n)
    ensures m == n
  {
    DecimalValueOfFormat(m);
    DecimalValueOfFormat(n);
  }

  /** The digit loop succeeds exactly on digit strings whose value fits in 64 bits, and then yields that value. */
  lemma {:induction false} ScanUintSpec(s: string, n: nat)
    requires n <= MaxUint64
    ensures ScanUint(s, n).err == None <==> AllDigits(s) && Accumulate(n, s) <= MaxUint64
    ensures ScanUint(s, n).err == None ==> ScanUint(s, n).value == Accumulate(n, s)
    decreases |s|
  {
    if s != [] {
      if IsDigit(s[0]) {
        var n' := n * 10 + DigitValue(s[0]);
        assert AllDigits(s) <==> AllDigits(s[1..]) by {
          if AllDigits(s[1..]) {
            forall i | 0 <= i < |s| ensures IsDigit(s[i]) {
              if i > 0 { assert s[i] == s[1..][i - 1]; }
            }
          }
          if AllDigits(s) {
            forall i | 0 <= i < |s[1..]| ensures IsDigit(s[1..][i]) {
              assert s[1..][i] == s[i + 1];
            }
          }
        }
        if n' > MaxUint64 {
          if AllDigits(s) { AccumulateAtLeast(n', s[1..]); }
        } else {
          ScanUintSpec(s[1..], n');
        }
      }
    }
  }

  /**
   * ParseInt64 succeeds exactly on integer literals whose value is an int64, and then returns
   * that value; on every other input it reports an error.
   */
  lemma ParseInt64Spec(s: string)
    ensures ParseInt64(s).err == None <==> IsIntegerText(s) && MinInt64 <= IntegerValue(s) <= MaxInt64
    ensures ParseInt64(s).err == None ==> ParseInt64(s).value == IntegerValue(s)
  {
    if s != "" {
      var neg := s[0] == '-';
      var digits := if IsSign(s[0]) then s[1..] else s;
      var u := ParseUint64(digits);
      match u.err {
        case None =>
        case Some(e) =>
          assert e == Syntax || u.value == MaxUint64;
          assert ParseInt64(s).err != None;
      }
      assert IsIntegerText(s) <==> digits != "" && AllDigits(digits);
      if digits != "" {
        assert u == ScanUint(digits, 0);
        ScanUintSpec(digits, 0);
        if AllDigits(digits) {
          assert IntegerValue(s) == if neg then 0 - DecimalValue(digits) else DecimalValue(digits);
          if u.err != None {
            assert DecimalValue(digits) > MaxUint64;
          }
        }
      }
    }
  }

  /** Decimal rendering round-trips through ParseInt64 for every int64. */
  lemma ParseFormatInt(n: int64)
    ensures ParseInt64(FormatInt(n)) == Parsed(n, None)
  {
    var s := FormatInt(n);
    if n < 0 {
      FormatIntNegative(n);
    } else {
      DecimalValueOfFormat(n);
      assert s == FormatUint(n);
      assert !IsSign(s[0]);
    }
    assert IsIntegerText(s) && IntegerValue(s) == n;
    ParseInt64Spec(s);
  }

  lemma FormatIntNegative(n: int)
    requires n < 0
    ensures IsIntegerText(FormatInt(n)) && IntegerValue(FormatInt(n)) == n
  {
    var d := FormatUint(-n);
    var s := "-" + d;
    assert FormatInt(n) == s;
    DecimalValueOfFormat(-n);
    assert s[0] == '-' && s[1..] == d;
  }

  lemma {:induction false} SkipAllDigits(s: string)
    requires AllDigits(s)
    ensures SkipDigits(s) == []
    decreases |s|
  {
    if s != [] {
      assert AllDigits(s[1..]) by {
        forall i | 0 <= i < |s[1..]| ensures IsDigit(s[1..][i]) { assert s[1..][i] == s[i + 1]; }
      }
      SkipAllDigits(s[1..]);
    }
  }

  /** Every rendering of an integer is a JSON number literal, so it is accepted bare or quoted. */
  lemma FormatIntIsValidNumber(n: int)
    ensures IsValidNumber(FormatInt(n))
  {
    var s := FormatInt(n);
    var digits := FormatUint(if n < 0 then -n else n);
    assert (if s[0] == '-' then s[1..] else s) == digits;
    assert AllDigits(digits[1..]) by {
      forall i | 0 <= i < |digits[1..]| ensures IsDigit(digits[1..][i]) { assert digits[1..][i] == digits[i + 1]; }
    }
    SkipAllDigits(digits[1..]);
    if digits[0] == '0' {
      assert digits == "0";
    }
  }
}
