/**
 * Parsed JSON values, and how encoding/json stores one value into the Go targets the core
 * decodes into: a json.Number, an `int` field, a []interface{} probe and a map[string]string.
 * Only those stores are modelled; the generic reflection-driven decoder is not.
 */
module JsonValue {
  import opened Wrappers
  import opened Errors
  import opened Numbers

  /** A parsed JSON value. Number literals keep their text, as a json.Number does. */
  datatype Json =
    | JNull
    | JBool(b: bool)
    | JNum(literal: string)
    | JStr(text: string)
    | JArr(items: seq<Json>)
    | JObj(members: map<string, Json>)

  /**
   * Decoding one JSON value into a fresh json.Number: a number literal, or a string holding a
   * valid number literal, becomes the Number's text; null leaves the Number empty; any other
   * value is an error.
   */
  function DecodeNumber(j: Json): (r: Result<string, Error>)
    ensures r.Ok? ==> r.value == "" || IsValidNumber(r.value)
    ensures r.Ok? && r.value == "" ==> j == JNull
  {
    match j
    case JNull => Ok("")
    case JNum(t) => if IsValidNumber(t) then Ok(t) else Err(InvalidNumberLiteral(t))
    case JStr(t) => if IsValidNumber(t) then Ok(t) else Err(InvalidNumberLiteral(t))
    case _ => Err(JsonType)
  }

  /** A string, or a number literal (which a parser never yields), whose text is not a JSON number. */
  predicate IsInvalidNumberText(j: Json)
  {
    (j.JStr? && !IsValidNumber(j.text)) || (j.JNum? && !IsValidNumber(j.literal))
  }

  /** A value of a shape no json.Number or Go integer accepts: a boolean, an array or an object. */
  predicate IsNotScalar(j: Json)
  {
    j.JBool? || j.JArr? || j.JObj?
  }

  /** The text of a string or a number literal. */
  function ScalarText(j: Json): string
    requires j.JStr? || j.JNum?
  {
    if j.JStr? then j.text else j.literal
  }

  /**
   * The two ways storing into a json.Number fails: an invalid number text, which encoding/json
   * reports at once, and a value of the wrong shape, which it saves as a type mismatch.
   */
  lemma DecodeNumberErrors(j: Json)
    ensures DecodeNumber(j).Err? <==> IsInvalidNumberText(j) || IsNotScalar(j)
    ensures IsInvalidNumberText(j) ==> DecodeNumber(j) == Err(InvalidNumberLiteral(ScalarText(j)))
    ensures IsNotScalar(j) ==> DecodeNumber(j) == Err(JsonType)
  {
  }

  /**
   * What json.Unmarshal reports when two members of the auxiliary struct fail, `first` being
   * the one the model lists first: an invalid number text ends the decoding at once, whereas a
   * type mismatch is only saved and reported at the end, so an invalid number text wins over a
   * type mismatch.
   */
  function Reported(first: Error, second: Error): Error
  {
    if second.InvalidNumberLiteral? && !first.InvalidNumberLiteral? then second else first
  }

  /** The json.Number an auxiliary struct field holds after decoding an object: empty when the member is absent. */
  function MemberNumber(members: map<string, Json>, key: string): (r: Result<string, Error>)
    ensures key !in members ==> r == Ok("")
    ensures key in members ==> r == DecodeNumber(members[key])
  {
    if key in members then DecodeNumber(members[key]) else Ok("")
  }

  /** json.Number.Int64: strconv.ParseInt of the Number's text. */
  function NumberInt64(number: string): Parsed
  {
    ParseInt64(number)
  }

  /**
   * Decoding one JSON value into a Go `int` field holding `current`: an integer literal that
   * fits replaces it, null leaves it as it is; a quoted number or any other value is an error.
   */
  function DecodeGoInt(j: Json, current: int64): (r: Result<int64, Error>)
    ensures r.Ok? && j.JNum? ==> IsIntegerText(j.literal) && r.value == IntegerValue(j.literal)
    ensures r.Ok? ==> j.JNull? || j.JNum?
    ensures j == JNull ==> r == Ok(current)
    ensures r.Err? ==> r.error == JsonType
    ensures IsNotScalar(j) || j.JStr? ==> r == Err(JsonType)
  {
    match j
    case JNull => Ok(current)
    case JNum(t) =>
      var p := ParseInt64(t);
      ParseInt64Spec(t);
      if p.err == None then Ok(p.value) else Err(JsonType)
    case _ => Err(JsonType)
  }

  /** The `int` an auxiliary struct field holds after decoding an object: 0 when the member is absent. */
  function MemberGoInt(members: map<string, Json>, key: string): (r: Result<int64, Error>)
    ensures key !in members ==> r == Ok(0)
  {
    if key in members then DecodeGoInt(members[key], 0) else Ok(0)
  }

  /**
   * Decoding a raw message into a []interface{} probe succeeds on any array and on null; an
   * absent member leaves the raw message empty, which json.Unmarshal refuses.
   */
  predicate DecodesAsArray(raw: Option<Json>)
  {
    raw.Some? && (raw.value.JArr? || raw.value.JNull?)
  }

  /** A member encoding/json can store into a string without complaint: a string, or null (which stores ""). */
  predicate IsStringOrNull(j: Json)
  {
    j.JStr? || j.JNull?
  }

  /** The string a map[string]string entry receives: the text of a string, "" for anything else. */
  function StoredString(j: Json): string
  {
    if j.JStr? then j.text else ""
  }

  /**
   * Decoding a raw message into a map[string]string holding `current`: an object stores every
   * member (replacing equal keys), a string member as its text and any other member as "", and
   * reports a type error if some member was neither a string nor null; null sets the map to nil
   * (empty); an empty raw message or any other value keeps the map and is an error.
   */
  function DecodeStringMap(raw: Option<Json>, current: map<string, string>): (r: (map<string, string>, Option<Error>))
    ensures r.1 == None <==> raw.Some? && (raw.value.JNull? || (raw.value.JObj? && forall k | k in raw.value.members :: IsStringOrNull(raw.value.members[k])))
    ensures raw == Some(JNull) ==> r.0 == map[]
    ensures !(raw.Some? && (raw.value.JObj? || raw.value.JNull?)) ==> r.0 == current
    ensures raw.Some? && raw.value.JObj? ==> r.0.Keys == current.Keys + raw.value.members.Keys
    ensures raw.Some? && raw.value.JObj? ==>
      forall k | k in raw.value.members :: r.0[k] == StoredString(raw.value.members[k])
    ensures raw.Some? && raw.value.JObj? ==>
      forall k | k in current && k !in raw.value.members :: r.0[k] == current[k]
  {
    match raw
    case None => (current, Some(EndOfInput))
    case Some(JNull) => (map[], None)
    case Some(JObj(ms)) =>
      var stored := current + map k | k in ms :: StoredString(ms[k]);
      if forall k | k in ms :: IsStringOrNull(ms[k]) then (stored, None) else (stored, Some(JsonType))
    case Some(_) => (current, Some(JsonType))
  }
}
