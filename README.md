# movizor request encoding and response decoding, in Dafny

This project models the deterministic core of the movizor Go client, an HTTP client for the
Movizor vehicle-tracking API:

- **Request-parameter encoders** (actions.go).
  - `DestinationOptions`, `SchedulingOptions`, `ObjectOptions`, `RequestPositionsOptions` and
    `ObjectEventsOptions` add their fields to a `url.Values` multimap.
  - `SubscribeEventOptions` is a small state machine: its three channel setters overwrite the
    notification channel, and `values()` checks the options in a fixed order before it emits
    anything.
- **Result types** (types.go).
  - The phone-number cleaning of `Object`.
  - The `sort.Interface` helpers and the membership test of `ObjectsWithStatus`.
  - The `id` query of `PositionRequest.values`.
  - What the custom `UnmarshalJSON` methods of `ObjectEvent`, `Position`, `ObjectInfo` and
    `SubscribedEvent` do once `encoding/json` has filled their auxiliary structs.
  - `SubscribedEvent.MakeOptions`.
- **Scalar codecs** (primitives.go, helpers.go): `Int` and `Time` decode from bare or quoted JSON
  integers, and the `json.Number` helpers convert to times and optional pointers.

## How the model is built

- **`url.Values` becomes the class `UrlValues.Values`.**
  - It holds a `map<string, seq<string>>`, and `Add` appends to a name's list.
  - A nil `*url.Values` is a `null` reference.
  - Each encoder is a method that calls `Add` in the source's order. Its postcondition ties the
    new map to `AddAll(old map, P)`, where `P` is a pure list of pairs the encoder defines.
  - The properties are then stated per parameter name, through `Get` and `ValuesOf`.
  - `url.Values.Encode` sorts the names, so the values each name receives, in order, are all a
    request carries.
- **`SchedulingOptions` keeps its weekday flags in a 7-slot `array<bool>`.** Slot 0 is Monday and
  goes out as `sw1`, following the comment at actions.go:70-76.
- **`SubscribeEventOptions` is a class with the struct's six fields.** The setters are specified
  by the pure transitions `WithSms`, `WithEmail` and `WithTelegram`, and `values()` by
  `SubscribeParams`.
- **`time.Time` is `Instant(unix)`: whole Unix seconds, as every modelled use needs.**
  - `IsZero` holds at Go's zero time, −62135596800, not at the epoch.
  - `time.Unix(0, 0)` is therefore set, not zero (`Primitives.EpochIsNotZero`).
- **Number handling follows `strconv` and `encoding/json` exactly.**
  - `strconv.ParseInt`, `ParseUint` and `FormatInt`, and `encoding/json`'s number-literal check,
    are written out, including the value returned together with an error: 0 on a syntax error,
    the nearest bound on overflow.
  - The value returned with an error matters because the decoders store the result of `Int64()`
    before they look at the error.
- **JSON input is a parsed value `JsonValue.Json`.** Only the stores `encoding/json` performs
  into the targets the code names are modelled: a `json.Number`, a Go `int`, a `[]interface{}`
  probe, a `map[string]string` and a `json.RawMessage`.
- **A decoder receiving `null` panics.**
  - `json.Unmarshal` stores a nil auxiliary pointer, and the next line reads a field through it.
  - The model returns the error `NilDereference` for this.
- **The e-mail regular expression of actions.go:236 is written out as the predicate
  `Actions.IsEmail`.**

### What is already done when an operation fails

Encoding is not all-or-nothing, and a failed decode can leave fields set:

- `ObjectOptions.addValuesTo` returns the schedule's or a destination's error after the scalar
  fields, the metadata and the earlier destinations are already in `v`.
- The decoders assign `Int64()`'s value to the field before they check its error.
- An `ObjectInfo` with no `distance` member fails to decode, and so does one with no `metadata`
  member. An empty `json.RawMessage` is not valid JSON.

## Model

| member | source | states |
|---|---|---|
| Actions.DestinationOptions.AddValuesTo | actions.go:22-37 | a nil target gives "trying to add to nothing"; an empty Text gives MissingText and leaves v as it was; otherwise v gains text, coord and (only for a non-zero ExpectedTime) time under destination[idx][…] |
| Actions.FirstWithoutText | actions.go:144-149 | the index of the first destination without a text: all before it have one, and None means all have one |
| Actions.AddDestinationAt | actions.go:144-149 | one loop step: a destination without a text stops the loop with MissingText and v unchanged; otherwise its group is appended after the earlier ones |
| Actions.AddDestinationsTo | actions.go:144-149 | destinations are added in list order up to the first one without a text, which stops the encoding with MissingText and keeps the earlier groups in v |
| Actions.DestinationsParamsStep | actions.go:144-149 | adding n+1 destination groups is adding n groups and then group n |
| ActionProperties.DestinationKeyInjective | actions.go:30-33 | two destination[i][field] names are equal only for the same index and field |
| ActionProperties.DestinationKeyPrefixed | actions.go:30-33 | every destination name starts with "destination[" |
| ActionProperties.DestinationParamsPrefixed | actions.go:30-34 | all of one destination's names lie in the destination namespace |
| ActionProperties.DestinationsParamsPrefixed | actions.go:144-149 | all destination groups' names lie in the destination namespace |
| ActionProperties.DestinationParamsValues | actions.go:26-34 | a destination sends under destination[i][field] its text, its coordinates or its time exactly when i is its own index, and nothing otherwise |
| ActionProperties.DestinationsParamsValues | actions.go:144-149 | under destination[i][field], the first n groups send what group i sends when i < n and nothing otherwise |
| ActionProperties.DestinationsParamsValuesStep | actions.go:144-149 | the per-name values of the destination groups are kept when one more group is added |
| Actions.SchedulingOptions.constructor | actions.go:40-44 | a new schedule has all seven days off and the given fire times |
| Actions.SchedulingOptions.WeekdayOn | actions.go:47-49 | sets exactly slot d to true; the other six days and FireAt are unchanged, and IsWeekdayOn(d) now holds |
| Actions.SchedulingOptions.WeekdayOff | actions.go:52-54 | sets exactly slot d to false; the other six days and FireAt are unchanged, and IsWeekdayOn(d) is now false |
| Actions.SchedulingOptions.IsWeekdayOn | actions.go:57-59 | reads day d's flag; the contracts of WeekdayOn and WeekdayOff state that it then holds or fails for d and is unchanged for the other days |
| Actions.SchedulingOptions.AddValuesTo | actions.go:61-93 | no fire time gives MissingFireTime before the nil check; a nil target gives NilTarget; no day on gives NoWeekday; every error leaves v unchanged; success adds the schedule's parameters |
| Actions.SchedulingOptions.AddWeekdaysTo | actions.go:78-87 | the weekday loop reports whether some day is on and adds sw<i+1>=1 for each day that is on, in index order |
| Actions.SchedulingOptions.AddFireTimesTo | actions.go:89-91 | the FireAt loop adds one st[] value per fire time, in list order |
| Actions.FireAtParamsSnoc | actions.go:89-91 | one loop step adds the next fire time's st[] value |
| Actions.WeekdayParamsEmpty | actions.go:78-87 | the weekday loop adds nothing exactly when none of the days it visits is on |
| ActionProperties.WeekdayKeyInjective | actions.go:82 | distinct days get distinct sw names |
| ActionProperties.WeekdayKeyPrefixed | actions.go:82 | every weekday name starts with "sw" |
| ActionProperties.WeekdayParamsPrefixed | actions.go:79-84 | the weekday loop only adds names starting with "sw" |
| ActionProperties.FireAtParamsPrefixed | actions.go:89-91 | the FireAt loop only adds st[] |
| ActionProperties.SchedulePrefixed | actions.go:61-93 | a successful schedule adds only names starting with "s" |
| ActionProperties.WeekdayParamsValuesStep | actions.go:79-84 | one weekday loop step keeps the values already given to each sw name |
| ActionProperties.WeekdayParamsValues | actions.go:79-84 | sw<d> receives one "1" exactly when day d-1 is on, and nothing otherwise |
| ActionProperties.FireAtParamsValues | actions.go:89-91 | st[] receives one value per fire time, each formatted as 15:04, in list order |
| ActionProperties.ScheduleValues | actions.go:61-93 | a successful schedule sends sw<d>=1 for exactly the days that are on, and one st[] per fire time in order |
| ActionProperties.ScheduleWeekdayValues | actions.go:78-87 | an accepted schedule sends sw<d>=1 exactly when day d-1 is on |
| ActionProperties.ScheduleFireAtValues | actions.go:89-91 | an accepted schedule sends every fire time under st[], in order |
| ActionProperties.ScheduleNamesOther | actions.go:61-93 | a name starting with "s" is none of the scalar, metadata or destination names |
| Actions.MetadataName | actions.go:131 | metadata[key] is key wrapped in "metadata[" and "]", so distinct keys give distinct names |
| ActionProperties.MetadataNamePrefixed | actions.go:131 | every metadata name starts with "metadata[" |
| ActionProperties.MetadataNameNotScalar | actions.go:131 | a metadata name is none of the scalar names and lies outside the destination and schedule namespaces |
| Actions.AddMetadataEmpty | actions.go:130-132 | an empty metadata map adds nothing |
| Actions.AddMetadataStep | actions.go:130-132 | one more entry, visited in any order, adds its value under its own metadata name |
| Actions.MetadataNamesStep | actions.go:130-132 | one more entry adds exactly its own name to the metadata names |
| Actions.MetadataValueStep | actions.go:130-132 | one more entry gives its name its value and leaves other names' values alone |
| ActionProperties.AddMetadataOther | actions.go:130-132 | the metadata loop leaves every name outside metadata[…] untouched |
| ActionProperties.AddMetadataGet | actions.go:130-132 | the metadata loop appends each entry's value once under metadata[key] |
| Actions.ObjectOptions.AddValuesTo | actions.go:108-152 | a nil target gives NilTarget; otherwise the new v and the error are those of the object encoding, scalar fields then schedule then destinations |
| Actions.ObjectOptions.AddScalarsTo | actions.go:112-126 | the five guarded Adds add exactly the scalar parameters, in source order |
| Actions.ObjectOptions.AddMetadataTo | actions.go:130-132 | the metadata loop, whatever order the map is visited in, adds each entry once under its name |
| ActionProperties.ScalarValues | actions.go:112-126 | a name receives from the scalar fields the value of each set field whose name it is |
| ActionProperties.ValuesOfScalars | actions.go:112-126 | the scalar parameters give a name what each of the five guarded Adds gives it |
| ActionProperties.ScalarParamsOther | actions.go:112-126 | the scalar fields send nothing under any other name |
| ActionProperties.TitleSent | actions.go:112-114 | title is sent once when non-empty, and not at all otherwise |
| ActionProperties.DateOffSent | actions.go:115-117 | dateoff is sent once, in the 02.01.2006 15:04:05 layout, when the date is non-zero |
| ActionProperties.TariffSent | actions.go:118-120 | tariff is sent once when non-empty |
| ActionProperties.PackageProlongSent | actions.go:121-123 | package_prolong=1 is sent once when set |
| ActionProperties.TagsSent | actions.go:124-126 | tags go as one comma-joined value, only when there are tags |
| Actions.Join | actions.go:125 | strings.Join: "" for no strings, the string itself for one; otherwise it starts with the first string and is as long as all strings plus one separator between each two |
| ActionProperties.AutoInformSent | actions.go:112-126 | the scalar fields send nothing under autoinform |
| ActionProperties.ScalarFieldSent | actions.go:112-135 | the scalar fields and autoinform send under each field's name its value once when set and nothing at its zero value |
| ActionProperties.ScalarNamesPlain | actions.go:112-135 | the scalar names lie outside the metadata, destination and schedule namespaces |
| ActionProperties.ScalarFieldPlain | actions.go:112-135 | each scalar field's name lies outside the metadata, destination and schedule namespaces |
| ActionProperties.EncodeFieldsPlain | actions.go:112-135 | before the schedule, a plain name gets only the scalar values and, for autoinform, "1" when CallToDriver is set |
| ActionProperties.EncodeFieldsOther | actions.go:112-135 | the fields before the schedule leave every other name untouched |
| ActionProperties.EncodeFieldsMetadata | actions.go:127-132 | the part before the schedule adds each metadata entry once under its name |
| ActionProperties.EncodeRestOther | actions.go:137-149 | the schedule and the destinations leave names outside their namespaces untouched |
| ActionProperties.EncodeRestSchedule | actions.go:137-142 | the schedule's names receive its values only when it encodes successfully |
| ActionProperties.EncodeRestDestination | actions.go:137-149 | destination[i][field] receives destination i's value only when the schedule was accepted and i lies before the first destination without a text |
| ActionProperties.ObjectPlainName | actions.go:108-152 | into an empty target, a plain name holds exactly the scalar values and autoinform, whatever happens after |
| ActionProperties.ObjectScalarField | actions.go:108-152 | into an empty target, each scalar field is sent once when set and not at all at its zero value, even when the schedule or a destination fails |
| ActionProperties.ObjectMetadataField | actions.go:108-152 | into an empty target, every metadata entry is sent exactly once, even when the schedule or a destination fails |
| ActionProperties.ObjectDestinationField | actions.go:108-152 | destination i is sent exactly when the schedule is accepted and i lies before the first destination without a text |
| ActionProperties.ObjectWeekdayField | actions.go:137-142 | into an empty target, sw<d>=1 is sent for exactly the days that are on, and only when the schedule is accepted |
| ActionProperties.ObjectFireTimesField | actions.go:137-142 | into an empty target, st[] holds every fire time in order when the schedule is accepted, and nothing otherwise |
| ActionProperties.ObjectError | actions.go:137-151 | the error is the schedule's, else MissingText when some destination lacks a text, else none |
| ActionProperties.MetadataNameInjective | actions.go:131 | distinct metadata keys give distinct metadata[…] names |
| ActionProperties.AddMetadataUnused | actions.go:130-132 | the metadata loop gives nothing to a name that is no entry's metadata[key] |
| ActionProperties.EncodeFieldsUnusedMetadata | actions.go:112-135 | the fields before the schedule give nothing to a metadata name that is no entry's |
| ActionProperties.MetadataPrefixedOther | actions.go:131 | a name in the metadata namespace is no scalar name and lies outside the schedule and destination namespaces |
| ActionProperties.ObjectMetadataUnused | actions.go:108-152 | into an empty target, a metadata[…] name that is no entry's name gets nothing |
| ActionProperties.ObjectMetadataAbsent | actions.go:130-132 | into an empty target, metadata[key] gets nothing when key is not in Metadata |
| ActionProperties.WeekdayParamsOnly | actions.go:78-87 | the weekday loop sends only under sw<d> names |
| ActionProperties.FireAtParamsOnly | actions.go:89-91 | the FireAt loop sends only under st[] |
| ActionProperties.ScheduleOnly | actions.go:61-93 | an accepted schedule sends only under sw<d> and st[] |
| ActionProperties.EncodeDestinationsOther | actions.go:144-149 | without a schedule, the destinations give nothing to a name outside their namespace |
| ActionProperties.ObjectScheduleUnused | actions.go:137-142 | into an empty target, a name starting with "s" other than sw<d> and st[] (such as "sx") gets nothing |
| ActionProperties.DestinationParamsOnly | actions.go:30-34 | one destination sends only under destination[i][field] names |
| ActionProperties.DestinationsParamsOnly | actions.go:144-149 | the destination loop sends only under destination[i][field] names |
| ActionProperties.DestinationPrefixedOther | actions.go:30 | a name in the destination namespace is no scalar name and lies outside the metadata and schedule namespaces |
| ActionProperties.ObjectDestinationUnused | actions.go:144-149 | into an empty target, a destination[…] name not of the form destination[i][field] gets nothing |
| ActionProperties.ObjectSentNames | actions.go:108-152 | into an empty target, a name with values is a scalar name, metadata[key] for a key of Metadata, sw<d>, st[] or destination[i][field]: nothing else is sent |
| ActionProperties.SentDestinations | actions.go:144-149 | the number of destinations sent never exceeds the list length |
| Actions.RequestPositionsOptions.AddValuesTo | actions.go:163-181 | only a nil target fails; otherwise v gains the filter's parameters |
| QueryProperties.RequestPositionsValues | actions.go:163-181 | a name receives the value of each non-zero filter field whose name it is |
| QueryProperties.RequestLimitSent | actions.go:167-169 | req_limit goes once, in decimal, when non-zero |
| QueryProperties.OffsetSent | actions.go:170-172 | offset goes once, in decimal, when non-zero |
| QueryProperties.DateStartSent | actions.go:173-175 | date_start goes once when TimeFrom is set, as Unix seconds that parse back to TimeFrom |
| QueryProperties.DateEndSent | actions.go:176-178 | date_end goes once when TimeTo is set, as Unix seconds that parse back to TimeTo |
| QueryProperties.RequestPositionsOther | actions.go:163-181 | no other name is sent |
| QueryProperties.RequestPositionsEmpty | actions.go:163-181 | nothing is sent exactly when all four fields are zero |
| Actions.ObjectEventsOptions.Values | actions.go:190-199 | a fresh multimap holding the events filter's parameters |
| QueryProperties.ObjectEventsValues | actions.go:190-199 | a name receives the value of each non-zero events-filter field whose name it is |
| QueryProperties.ObjectEventsSent | actions.go:190-199 | req_limit and afterid each go once, in decimal, when non-zero; no other name is sent |
| QueryProperties.ObjectEventsEmpty | actions.go:190-199 | nothing is sent exactly when both fields are zero |
| Actions.IndexOf | actions.go:236 | the first position of a character in a string |
| Actions.IsEmail | actions.go:236 | the anchored expression: a non-empty local part of the allowed characters, one '@', then a domain; SingleAt proves an accepted address has exactly one '@' |
| Actions.IsDomain | actions.go:236 | one or more labels joined by dots; DomainHasNoAt proves a domain has no '@' |
| Actions.IsLabel | actions.go:236 | 1 to 63 letters, digits or hyphens, starting and ending with a letter or digit; LabelHasNoAt proves it has no '@' |
| Actions.WithSms | actions.go:223-231 | SetSMSNotification on values; RefusedSetterKeepsState and SmsAfterEmail state its refusal and that the last setter wins |
| Actions.WithEmail | actions.go:235-243 | SetEMailNotification on values; RefusedSetterKeepsState and EmailAfterSms state its refusal and that the last setter wins |
| Actions.WithTelegram | actions.go:247-249 | SetTelegramNotification on values; TelegramLast states that no stale destination is sent afterwards |
| Actions.SubscribeParams | actions.go:251-283 | values() on values; SubscribeErrors, SubscribeShape, SubscribeObjects and SubscribeChannel state its errors and its parameters name by name |
| Actions.Channel.WireName | actions.go:258 | the channel's wire name is empty exactly when no channel is set |
| Actions.SubscribeEventOptions.constructor | actions.go:203-210 | the zero options: no objects, no event, no channel |
| Actions.SubscribeEventOptions.New | actions.go:214-219 | one object and the event, no channel set |
| Actions.SubscribeEventOptions.SetSMSNotification | actions.go:223-231 | a phone with no digits is refused and changes nothing; otherwise the channel becomes SMS with that phone |
| Actions.SubscribeEventOptions.SetEMailNotification | actions.go:235-243 | an address the expression rejects is refused and changes nothing; otherwise the channel becomes e-mail with that address |
| Actions.SubscribeEventOptions.SetTelegramNotification | actions.go:247-249 | only the channel changes, to Telegram |
| Actions.SubscribeEventOptions.AddPhonesTo | actions.go:267-270 | one phones[] value per object, cleaned, in list order |
| Actions.SubscribeEventOptions.Values | actions.go:251-283 | a failed check gives its error and an empty multimap; success gives exactly the subscription's parameters |
| SubscribeProperties.SubscribeErrors | actions.go:252-260 | values() fails exactly on no objects, no event or no channel, reporting the first in that order |
| SubscribeProperties.SubscribeObjects | actions.go:264-271 | all objects sends phones_all=1 and no phones[]; otherwise every cleaned phone in order and no phones_all |
| SubscribeProperties.SubscribeChannel | actions.go:273-280 | events and notify_type go once each; notify_value carries the phone for SMS, the address for e-mail, and nothing for Telegram |
| SubscribeProperties.EventsSent | actions.go:273 | events carries the event once |
| SubscribeProperties.NotifyTypeSent | actions.go:274 | notify_type carries the channel's wire name once |
| SubscribeProperties.NotifyValueSent | actions.go:275-280 | notify_value carries the phone for SMS, the address for e-mail, and nothing for Telegram |
| SubscribeProperties.ObjectsParamsValues | actions.go:264-271 | the objects part sends phones_all=1 for all objects and otherwise the cleaned phones under phones[], and nothing else |
| SubscribeProperties.SubscribeShape | actions.go:262-282 | a successful values() gives a name what the objects part, events, notify_type and notify_value give it |
| SubscribeProperties.PhoneParamsValues | actions.go:267-270 | the phones loop sends every cleaned phone in order under phones[] and nothing under other names |
| SubscribeProperties.CleanedPhones | actions.go:268 | the cleaned phone of each object, in list order |
| SubscribeProperties.ObjectsParamsOther | actions.go:264-271 | the objects part sends nothing under events, notify_type or notify_value |
| SubscribeProperties.RefusedSetterKeepsState | actions.go:223-243 | a setter fails exactly on a digitless phone or a rejected address, and then leaves the options as they were |
| SubscribeProperties.EmailAfterSms | actions.go:221-243 | e-mail set after SMS sends exactly what e-mail alone sends: the last setter wins |
| SubscribeProperties.SmsAfterEmail | actions.go:221-243 | SMS set after e-mail sends exactly what SMS alone sends |
| SubscribeProperties.TelegramLast | actions.go:245-249 | Telegram set last sends no notify_value, whatever phone or address is left over from earlier setters |
| SubscribeProperties.NewNeedsChannel | actions.go:214-219 | new options are refused by values() until a channel is set (or for lack of an event) |
| SubscribeProperties.LabelHasNoAt | actions.go:236 | a domain label contains no '@' |
| SubscribeProperties.DomainHasNoAt | actions.go:236 | a domain contains no '@' |
| SubscribeProperties.SingleAt | actions.go:236 | an accepted address contains exactly one '@' |
| Primitives.Digits | primitives.go:19-22 | the digits of a string, in order: all digits, no longer than the input |
| Primitives.Object.String | types.go:69-72 | the cleaned phone: only digits, no longer than the raw text |
| Primitives.Object.Values | types.go:74-76 | exactly one key, phone, holding the cleaned phone |
| Primitives.DigitsConcat | types.go:69-72 | cleaning distributes over concatenation |
| Primitives.DigitsOfDigitString | types.go:69-72 | a digit string is already clean |
| Primitives.DigitsIdempotent | types.go:69-72 | cleaning twice is cleaning once |
| Primitives.DigitsKeepsLength | primitives.go:19-22 | cleaning keeps the length exactly when the text is all digits |
| Primitives.Time.ToTime | primitives.go:57-59 | Time.Time gives back the wrapped instant |
| Primitives.EpochIsNotZero | actions.go:32 | the Unix epoch is a set time; only Go's zero time counts as not set |
| Primitives.Int.ToInt | primitives.go:79-81 | Int.Int gives back the wrapped value |
| Primitives.Int.String | primitives.go:83-85 | the signed decimal, a valid JSON number that parses back to the value |
| Primitives.DecodeInt64Spec | primitives.go:87-101 | the shared decoder accepts exactly bare or quoted int64 literals, with their value, and refuses null |
| Primitives.DecodeInt64 | primitives.go:87-101 | the json.Number decode followed by Int64() shared by Int and Time; DecodeInt64Spec states exactly what it accepts and with which value |
| Primitives.DecodeIntRoundTrip | primitives.go:83-101 | an Int's rendering decodes, bare or quoted, to the same Int |
| Primitives.DecodeTimeRoundTrip | primitives.go:61-75 | Unix seconds in decimal decode, bare or quoted, to that instant; null fails |
| Primitives.UnmarshalInt | primitives.go:87-101 | stores the decoded Int only on success; on failure the target is unchanged and the error returned |
| Primitives.UnmarshalTime | primitives.go:61-75 | stores time.Unix(n, 0) only on success; on failure the target is unchanged |
| Helpers.NumberToTime | helpers.go:8-14 | an int64 literal gives that many seconds after the epoch; anything else gives the error with the epoch |
| Helpers.NumberToTimeRoundTrip | helpers.go:8-14 | Unix seconds in decimal convert back to the same instant |
| Helpers.NumberToTimePointer | helpers.go:16-26 | nil gives (nil, nil); otherwise a pointer to the time on success and (nil, err) on failure, never both |
| Helpers.NumberToFloat32 | helpers.go:28-34 | the parsed float on success, 0 with the error on failure |
| Helpers.NumberToFloat32Pointer | helpers.go:36-46 | nil gives (nil, nil); otherwise a pointer to the float or (nil, err), never both |
| JsonValue.DecodeNumber | primitives.go:62-66 | a json.Number takes a number literal or a string holding one; null leaves it empty; all else is an error |
| JsonValue.DecodeNumberErrors | primitives.go:62-66 | storing into a json.Number fails exactly on an invalid number text (reported with its text) or on a boolean, array or object (a type mismatch) |
| JsonValue.MemberNumber | types.go:155 | an absent member leaves the auxiliary json.Number empty |
| JsonValue.DecodeGoInt | types.go:344-345 | a Go int field takes an in-range integer literal and keeps its value on null; a string, a boolean, an array, an object, a fraction or an out-of-range literal is a type mismatch, and that is its only error |
| JsonValue.MemberGoInt | types.go:344-345 | an absent member leaves the auxiliary int at 0 |
| JsonValue.DecodeStringMap | types.go:175-177 | an object stores every member, a string as its text and anything else as "", and fails unless all are strings or null; null sets the map to nil (empty), a case `ObjectInfo.UnmarshalJSON` never reaches because its array probe accepts null first; other payloads fail and keep it |
| Numbers.FormatUint | actions.go:168 | the decimal rendering: digits only, with a leading zero only for 0 |
| Numbers.FormatUintInjective | actions.go:82 | distinct numbers render differently |
| Numbers.DecimalValueOfFormat | actions.go:168 | the rendering's value is the number |
| Numbers.ParseInt64 | primitives.go:94 | the value is an int64, 0 on a syntax error |
| Numbers.ParseUint64 | primitives.go:94 | the unsigned digit-run parse inside strconv.ParseInt: a value within uint64, 0 on a syntax error, the largest uint64 on overflow |
| Numbers.FormatInt | primitives.go:84 | strconv.FormatInt base 10; ParseFormatInt and FormatIntIsValidNumber state that it parses back to the same value and is a valid JSON number |
| Numbers.IsValidNumber | primitives.go:62-66 | encoding/json's number-literal check, which decides whether a quoted string may go into a json.Number; FormatIntIsValidNumber states that decimals pass it |
| Numbers.ParseInt64Spec | primitives.go:94 | strconv.ParseInt accepts exactly the integer literals in int64 range, with their value |
| Numbers.ParseFormatInt | primitives.go:84 | FormatInt's output parses back to the same int64 |
| Numbers.FormatIntIsValidNumber | primitives.go:84 | FormatInt's output is a valid JSON number literal |
| UrlValues.Values.constructor | actions.go:191 | url.Values{} has no names |
| UrlValues.Values.Add | actions.go:30 | Add appends the value to the name's list and changes nothing else |
| UrlValues.Appended | actions.go:30 | Add keeps every other name's list and appends to this one |
| UrlValues.AddAllGet | actions.go:30 | after a sequence of Adds each name holds its old values followed by the new ones, in order |
| UrlValues.AddAllKeys | actions.go:30 | a sequence of Adds adds exactly the names it mentions |
| Types.StringLessIrreflexive | types.go:202 | no phone is less than itself |
| Types.StringLessAsymmetric | types.go:202 | Go's string order is asymmetric |
| Types.StringLessTransitive | types.go:202 | Go's string order is transitive |
| Types.StringLessTotal | types.go:202 | any two distinct strings are ordered one way or the other |
| Types.Len | types.go:200 | the number of entries |
| Types.LessIsStrictOrder | types.go:202 | Less compares raw phones and is a strict total order on them, as sort.Sort requires |
| Types.Less | types.go:202 | compares the raw phone texts of entries i and j; LessIsStrictOrder states that it is a strict total order |
| Types.Swapped | types.go:201 | entries i and j exchanged, all others kept, same multiset |
| Types.SwappedTwice | types.go:201 | swapping twice restores the list |
| Types.Swap | types.go:201 | exchanges entries i and j in place |
| Types.IsObjectIn | types.go:204-211 | true exactly when some entry's raw phone equals o's raw text |
| Types.PositionRequest.Values | types.go:283-285 | exactly one key, id, with one value that parses back to RequestID |
| Types.StoredInt64 | types.go:166-168 | Int64() succeeds exactly on in-range integer literals, with their value; an empty Number gives 0 and a syntax error |
| Types.StoredInt64OfMember | types.go:166-168 | reading a member through a json.Number and Int64() accepts what Int.UnmarshalJSON accepts, with the same value |
| Types.ObjectEvent.constructor | types.go:299-304 | a zero event |
| Types.ObjectEvent.UnmarshalJSON | types.go:306-323 | stores the parsed id (also on failure) and returns the error of the decode |
| Types.ObjectEventId | types.go:306-323 | decodes exactly when id is a bare or quoted int64 literal, to its value; without an id, EventID becomes 0 and the decode fails |
| Types.Position.constructor | types.go:217-231 | a zero position |
| Types.Position.UnmarshalJSON | types.go:233-255 | radius, then distance, each stored from Int64() and stopping at the first error |
| Types.PositionFields | types.go:233-255 | decodes exactly when radius and distance are bare or quoted int64 literals; a missing radius fails and resets Deviation to 0 |
| Types.PositionAuxError | types.go:242-244 | an invalid number text in radius, else in distance, is reported ahead of a boolean, array or object in the other, which gives a type mismatch |
| Types.ObjectInfo.constructor | types.go:127-150 | a zero object info |
| Types.ObjectInfo.UnmarshalJSON | types.go:152-180 | distance through Int64(), then the metadata probe, then the map decode |
| Types.ObjectInfoMetadata | types.go:170-179 | an array or null metadata succeeds and keeps the map; an object merges its members and fails unless all are strings or null; a scalar fails and keeps the map; no member fails |
| Types.ObjectInfoDistance | types.go:162-168 | a bare or quoted distance is stored with its value; anything else fails before the metadata, keeping the map; a missing distance gives 0 and an error |
| Types.SubscribedEvent.constructor | types.go:329-338 | a subscription with the given fields |
| Types.SubscribedEvent.UnmarshalJSON | types.go:340-367 | an object first stores the alias-decoded phones, type, phone and email (given as a parameter that AliasStored relates to the document), then the id through Int64(), then each flag set when its wire integer is 1 |
| Types.SubscribedEventFields | types.go:340-366 | with a valid id and integer flags, decoding succeeds, stores the id, sets each flag exactly when its integer is 1 and otherwise keeps it, and holds the alias-decoded objects, event, phone and email |
| Types.SubscribedEventEmail | types.go:340-352 | after the whole object is read, a string email member replaces the stored address and an absent one keeps it |
| Types.DecodedEmailChannel | types.go:340-386 | a decoded subscription whose document has a digitless phone and a valid email becomes e-mail options for that address, whatever address it held before |
| Types.SubscribedEventBadId | types.go:354-356 | an id that is not an int64 literal fails the decode and leaves both flags alone |
| Types.SubscribedEventAuxError | types.go:350-352 | an invalid number text in id is reported ahead of any type mismatch; otherwise a wrongly shaped id, phones_all or telegram gives the type mismatch |
| Types.SubscribedEvent.MakeOptions | types.go:369-386 | fresh options built as MadeOptions describes, through the setters |
| Types.MakeOptionsChannel | types.go:369-386 | the event and objects are copied (none for all objects); the channel is SMS for a phone with digits, else e-mail for an address, else Telegram; only an invalid address fails, and then no channel is set |
| Types.MakeOptionsAccepted | types.go:369-386 | options built from a subscription with an event and objects pass values() exactly when MakeOptions reported no error |

## Left out

- HTTP transport (api.go), the event orchestration (events.go) and the constants (configs.go) are
  not part of this model.
- Floating point:
  - `%.8f` coordinate formatting and the `time.Format` layouts are the function-valued fields of
    `Actions.Formatter`.
  - `json.Number.Float64` with the float32 conversion is the parameter `parseFloat` of
    `Helpers.NumberToFloat32`.
  - `Coordinate` and `Balance` decoding are not modelled.
- `time.Time` carries whole Unix seconds only: no nanoseconds and no location.
- Go's `int` is taken to be 64 bits wide.
- The `Weekday`, `TariffType`, `EventType`, `Status` and `notificationType` constants are defined
  outside the modelled files:
  - days are indices 0..6 with Monday first; `day < 7` is a precondition, since Go panics on any
    other index;
  - the channels' wire names are taken to be sms, email and telegram;
  - the other types are opaque strings.
- A `url.Values` whose map is nil makes `Add` panic. Every non-null `Values` in the model is a
  usable map.
- Go visits `Metadata` in random order. The model chooses any order, and its result is proved
  independent of the choice.
- Types.ObjectEvent.UnmarshalJSON, Types.Position.UnmarshalJSON, Types.ObjectInfo.UnmarshalJSON
  and Types.SubscribedEvent.UnmarshalJSON model only the members their auxiliary structs
  shadow. The other members are stored through the embedded alias by `encoding/json` itself,
  which is not modelled, and neither are its errors.
  - The `ObjectEvent`, `Position` and `ObjectInfo` classes hold only the shadowed fields.
  - `SubscribedEvent` also holds `ObjectsSubscribed`, `Event`, `Phone` and `EMail`, which the
    alias overwrites. Their new values are the parameter `alias`. `Types.AliasStored` says
    what `encoding/json` promises about them once it has read the whole object: absent members
    keep the old value, null empties the list and keeps the strings, and strings are stored.
  - Two decodes are left unconstrained: a member of another kind, and an object whose decoding
    stops early at an invalid id text or a refused timestamp. What is stored then depends on
    member order.
  - `Timestamp` is not a field of the model.
- JsonValue.MemberNumber, JsonValue.MemberGoInt and the `metadata` lookup in
  `Types.DecodeObjectInfo` find a member only by its exact key.
  - `encoding/json` also stores a key that equals the field's name up to case folding, such as
    `{"ID": 7}` for `id`, `{"RADIUS": …}` for `radius` or `{"Phones_All": 1}` for `phones_all`.
    The model treats such a member as absent. For example, `Types.ObjectEventId` then reports a
    missing id where Go decodes 7.
  - A parsed object is a map from key to value, so repeated keys are already merged. Go instead
    decodes every matching key in document order, and the last one wins.
- When several shadowed members fail, `encoding/json` reports the first invalid quoted number if
  there is one, and otherwise the first type mismatch in document order.
  - The model follows this rule as far as it can without member order (`JsonValue.Reported`,
    `Types.PositionAuxError`, `Types.SubscribedEventAuxError`).
  - Every type mismatch is the same `JsonType` error, so document order matters in only one case:
    a `Position` whose radius and distance are both invalid quoted numbers. The model then
    reports the radius.
- The tests that expect a leading-7 normalisation of phones and an error from `values()`
  (primitives_test.go:13-135) are not modelled: the modelled code implements neither.
