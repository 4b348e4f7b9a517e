/**
 * Conversions from a json.Number (its text) to an instant or a float32, and their nil-able pointer
 * variants, where a nil pointer stands for an absent member.
 */
module Helpers {
  import opened Wrappers
  import opened Errors
  import opened Numbers
  import opened JsonValue
  import opened Primitives

  /**
   * jsonNumberToTime: an integer literal in int64 range gives the instant that many seconds
   * after the Unix epoch and no error; anything else gives the epoch itself (not Go's zero time)
   * together with the parse error.
   */
  function NumberToTime(number: string): (r: (Instant, Option<Error>))
    ensures r.1 == None <==> IsIntegerText(number) && MinInt64 <= IntegerValue(number) <= MaxInt64
    ensures r.1 == None ==> r.0.unix == IntegerValue(number)
    ensures r.1 != None ==> r.0 == Instant(0) && !r.0.IsZero()
  {
    ParseInt64Spec(number);
    var p := NumberInt64(number);
    if p.err.Some? then (Instant(0), Some(NumberFormat(number, p.err.value))) else (Instant(p.value), None)
  }

  /**
   * jsonNumberToTimePointer: nil gives nil and no error; otherwise a pointer to NumberToTime's
   * instant on success and nil with its error on failure. A non-nil result never comes with an error.
   */
  function NumberToTimePointer(number: Option<string>): (r: (Option<Instant>, Option<Error>))
    ensures number.None? ==> r == (None, None)
    ensures number.Some? && NumberToTime(number.value).1 == None ==> r == (Some(NumberToTime(number.value).0), None)
    ensures number.Some? && NumberToTime(number.value).1 != None ==> r == (None, NumberToTime(number.value).1)
    ensures r.0.Some? ==> r.1.None?
  {
    match number
    case None => (None, None)
    case Some(n) =>
      var (t, err) := NumberToTime(n);
      if err.Some? then (None, err) else (Some(t), None)
  }

  /**
   * jsonNumberToFloat32: `parseFloat` stands for json.Number.Float64 followed by the conversion to
   * float32, neither of which is modelled. On its failure the result is the float 0.0 and the error.
   */
  function NumberToFloat32(number: string, parseFloat: string -> Result<Float32, Error>): (r: (Float32, Option<Error>))
    ensures parseFloat(number).Err? ==> r == (FloatZero, Some(parseFloat(number).error))
    ensures parseFloat(number).Ok? ==> r == (parseFloat(number).value, None)
  {
    match parseFloat(number)
    case Err(e) => (FloatZero, Some(e))
    case Ok(f) => (f, None)
  }

  /**
   * jsonNumberToFloat32Pointer: nil gives nil and no error; otherwise a pointer to the float on
   * success and nil with the error on failure, never a pointer together with an error.
   */
  function NumberToFloat32Pointer(number: Option<string>, parseFloat: string -> Result<Float32, Error>): (r: (Option<Float32>, Option<Error>))
    ensures number.None? ==> r == (None, None)
    ensures number.Some? && parseFloat(number.value).Ok? ==> r == (Some(parseFloat(number.value).value), None)
    ensures number.Some? && parseFloat(number.value).Err? ==> r == (None, Some(parseFloat(number.value).error))
    ensures r.0.Some? ==> r.1.None?
  {
    match number
    case None => (None, None)
    case Some(n) =>
      var (f, err) := NumberToFloat32(n, parseFloat);
      if err.Some? then (None, err) else (Some(f), None)
  }

  /** Unix seconds rendered in decimal convert back to the same instant. */
  lemma NumberToTimeRoundTrip(t: Instant)
    ensures NumberToTime(FormatInt(t.unix)) == (t, None)
  {
    ParseFormatInt(t.unix);
  }
}
