/**
 * The scalar wrapper types: Object (a subscriber phone number), Time (Unix seconds on the wire),
 * Int (an integer that may arrive quoted) and the float32 values behind Coordinate.
 */
module Primitives {
  import opened Wrappers
  import opened Errors
  import opened Numbers
  import opened JsonValue
  import opened UrlValues

  // ---------------------------------------------------------------------------------------------
  // Object

  /** The digits of s, in order: every other character is dropped. */
  function Digits(s: string): (r: string)
    ensures AllDigits(r)
    ensures |r| <= |s|
    decreases |s|
  {
    if s == [] then []
    else (if IsDigit(s[0]) then [s[0]] else []) + Digits(s[1..])
  }

  /** A subscriber's phone number exactly as the caller or the service wrote it. */
  datatype Object = Object(raw: string)
  {
    /** Object.String: the clean form, which keeps only the digits of the raw text. */
    function String(): (r: string)
      ensures AllDigits(r) && |r| <= |raw|
    {
      Digits(raw)
    }

    /** Object.values: the single parameter `phone` holding the clean form. */
    function Values(): (m: Multimap)
      ensures m.Keys == {"phone"}
      ensures m["phone"] == [String()]
    {
      map["phone" := [String()]]
    }
  }

  /** Cleaning distributes over concatenation. */
  lemma {:induction false} DigitsConcat(a: string, b: string)
    ensures Digits(a + b) == Digits(a) + Digits(b)
    decreases |a|
  {
    if a == [] {
      assert a + b == b;
    } else {
      assert (a + b)[0] == a[0];
      assert (a + b)[1..] == a[1..] + b;
      DigitsConcat(a[1..], b);
    }
  }

  /** A digit string is its own clean form. */
  lemma {:induction false} DigitsOfDigitString(s: string)
    requires AllDigits(s)
    ensures Digits(s) == s
    decreases |s|
  {
    if s != [] {
      assert AllDigits(s[1..]) by {
        forall i | 0 <= i < |s[1..]| ensures IsDigit(s[1..][i]) { assert s[1..][i] == s[i + 1]; }
      }
      DigitsOfDigitString(s[1..]);
      assert s == [s[0]] + s[1..];
    }
  }

  /** Cleaning is idempotent. */
  lemma DigitsIdempotent(s: string)
    ensures Digits(Digits(s)) == Digits(s)
  {
    DigitsOfDigitString(Digits(s));
  }

  /** Nothing is dropped exactly when every character is a digit. */
  lemma {:induction false} DigitsKeepsLength(s: string)
    ensures |Digits(s)| == |s| <==> AllDigits(s)
    decreases |s|
  {
    if s != [] {
      DigitsKeepsLength(s[1..]);
      if AllDigits(s) {
        assert AllDigits(s[1..]) by {
          forall i | 0 <= i < |s[1..]| ensures IsDigit(s[1..][i]) { assert s[1..][i] == s[i + 1]; }
        }
      } else if IsDigit(s[0]) {
        var i :| 0 <= i < |s| && !IsDigit(s[i]);
        assert !IsDigit(s[1..][i - 1]);
      }
    }
  }

  // ---------------------------------------------------------------------------------------------
  // Floating point values are opaque: only their 32 bits are kept.

  /** A float32 value, by its IEEE-754 bits; no arithmetic is modelled. */
  datatype Float32 = Float32(bits: bv32)

  /** The float32 the Go literal 0.0 denotes. */
  const FloatZero := Float32(0)

  // ---------------------------------------------------------------------------------------------
  // time.Time and Time

  /** time.Time{}.Unix(): January 1 of year 1, 00:00:00 UTC, the instant Go calls zero. */
  const ZeroUnix: int := -62135596800

  /** A time.Time at whole-second precision, by its Unix seconds. */
  datatype Instant = Instant(unix: int64)
  {
    /** time.Time.IsZero: only Go's zero instant, not the Unix epoch. */
    predicate IsZero() { unix == ZeroUnix }
  }

  /** The zero value of a time.Time field. */
  const ZeroInstant := Instant(ZeroUnix)

  /** Time: a time.Time that is read from Unix seconds on the wire. */
  datatype Time = Time(instant: Instant)
  {
    /** Time.Time: the wrapped instant, converting back to the same Time. */
    function ToTime(): (r: Instant)
      ensures Time(r) == this
    {
      instant
    }
  }

  /** The epoch is a real instant, distinct from Go's zero instant. */
  lemma EpochIsNotZero()
    ensures !Instant(0).IsZero() && ZeroInstant.IsZero()
  {
  }

  // ---------------------------------------------------------------------------------------------
  // Int

  /** Int: a Go int, 64 bits wide on the platforms modelled. */
  datatype Int = Int(value: int64)
  {
    /** Int.Int: the wrapped value, which converts back to the same Int. */
    function ToInt(): (r: int64)
      ensures Int(r) == this
    {
      value
    }

    /** Int.String: the signed decimal rendering, a JSON number literal that parses back to the value. */
    function String(): (r: string)
      ensures IsValidNumber(r)
      ensures ParseInt64(r) == Parsed(value, None)
    {
      FormatIntIsValidNumber(value);
      ParseFormatInt(value);
      FormatInt(value)
    }
  }

  /** The integer a bare or quoted JSON number denotes, or why it denotes none. */
  function DecodeInt64(data: Json): Result<int64, Error>
  {
    match DecodeNumber(data)
    case Err(e) => Err(e)
    case Ok(num) =>
      var p := NumberInt64(num);
      if p.err == None then Ok(p.value) else Err(NumberFormat(num, p.err.value))
  }

  /** The value Int.UnmarshalJSON stores, or the error it returns. */
  function DecodeInt(data: Json): Result<Int, Error>
  {
    match DecodeInt64(data)
    case Ok(n) => Ok(Int(n))
    case Err(e) => Err(e)
  }

  /** The value Time.UnmarshalJSON stores (time.Unix(n, 0)), or the error it returns. */
  function DecodeTime(data: Json): Result<Time, Error>
  {
    match DecodeInt64(data)
    case Ok(n) => Ok(Time(Instant(n)))
    case Err(e) => Err(e)
  }

  /** A JSON value a bare or quoted integer decoder accepts: an integer literal in int64 range, quoted or not. */
  predicate IsWireInteger(data: Json)
  {
    && (data.JNum? || data.JStr?)
    && var t := if data.JNum? then data.literal else data.text;
       IsValidNumber(t) && IsIntegerText(t) && MinInt64 <= IntegerValue(t) <= MaxInt64
  }

  /** The text of a number literal or string. */
  function WireText(data: Json): string
    requires data.JNum? || data.JStr?
  {
    if data.JNum? then data.literal else data.text
  }

  /**
   * The shared decoder accepts exactly the bare or quoted integer literals in int64 range,
   * yields the literal's value, and refuses null.
   */
  lemma DecodeInt64Spec(data: Json)
    ensures DecodeInt64(data).Ok? <==> IsWireInteger(data)
    ensures DecodeInt64(data).Ok? ==> DecodeInt64(data).value == IntegerValue(WireText(data))
    ensures DecodeInt64(JNull) == Err(NumberFormat("", Syntax))
  {
    match DecodeNumber(data)
    case Ok(num) => ParseInt64Spec(num);
    case Err(_) =>
  }

  /** A bare integer and the same integer quoted decode alike, to the value rendered. */
  lemma DecodeIntRoundTrip(i: Int)
    ensures DecodeInt(JNum(i.String())) == Ok(i)
    ensures DecodeInt(JStr(i.String())) == Ok(i)
  {
    ParseFormatInt(i.value);
    FormatIntIsValidNumber(i.value);
  }

  /** Unix seconds rendered in decimal decode, bare or quoted, to that instant; null does not decode. */
  lemma DecodeTimeRoundTrip(n: int64)
    ensures DecodeTime(JNum(FormatInt(n))) == Ok(Time(Instant(n)))
    ensures DecodeTime(JStr(FormatInt(n))) == Ok(Time(Instant(n)))
    ensures DecodeTime(JNull).Err?
  {
    ParseFormatInt(n);
    FormatIntIsValidNumber(n);
  }

  /** Int.UnmarshalJSON: stores the decoded value only when decoding succeeds. */
  method UnmarshalInt(i: Ref<Int>, data: Json) returns (err: Option<Error>)
    modifies i
    ensures DecodeInt(data).Ok? ==> err == None && i.value == DecodeInt(data).value
    ensures DecodeInt(data).Err? ==> err == Some(DecodeInt(data).error) && i.value == old(i.value)
  {
    var number := DecodeNumber(data);
    if number.Err? {
      return Some(number.error);
    }
    var p := NumberInt64(number.value);
    if p.err.Some? {
      return Some(NumberFormat(number.value, p.err.value));
    }
    i.value := Int(p.value);
    return None;
  }

  /** Time.UnmarshalJSON: stores time.Unix(n, 0) only when decoding succeeds. */
  method UnmarshalTime(t: Ref<Time>, data: Json) returns (err: Option<Error>)
    modifies t
    ensures DecodeTime(data).Ok? ==> err == None && t.value == DecodeTime(data).value
    ensures DecodeTime(data).Err? ==> err == Some(DecodeTime(data).error) && t.value == old(t.value)
  {
    var number := DecodeNumber(data);
    if number.Err? {
      return Some(number.error);
    }
    var p := NumberInt64(number.value);
    if p.err.Some? {
      return Some(NumberFormat(number.value, p.err.value));
    }
    t.value := Time(Instant(p.value));
    return None;
  }
}
