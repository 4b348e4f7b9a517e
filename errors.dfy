/** The error values the modelled code returns, one constructor per distinct error it creates. */
module Errors {

  /** Why strconv.ParseInt / ParseUint refused its input. */
  datatype NumError = Syntax | Range

  datatype Error =
    // actions.go validation errors
    | NilTarget                              // "trying to add to nothing"
    | MissingText                            // "option Text is not provided"
    | MissingFireTime                        // "time to fire scheduling is not set"
    | NoWeekday                              // "no single weekday to fire scheduling is set"
    | InvalidPhone(raw: string)              // "invalid phone number %s"
    | InvalidEmail(address: string)          // "%s is not valid email address"
    | NoObjects                              // "no single phone is set to subscribe for event"
    | NoEvent                                // "event to subscribe is not set"
    | NoChannel                              // "notification type is not set"
    // decoding errors
    | JsonType                               // a JSON value of the wrong shape for its Go target
    | EndOfInput                             // an empty raw message handed to json.Unmarshal
    | InvalidNumberLiteral(literal: string)  // a quoted string that is not a JSON number
    | NumberFormat(text: string, kind: NumError) // json.Number.Int64 failed
    | FloatFormat(text: string)              // json.Number.Float64 failed
    | NilDereference                         // runtime panic: a field read through a nil pointer
}
