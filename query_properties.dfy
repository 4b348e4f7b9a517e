/**
 * What the positions and events queries send: each filter field once, under its own name, and
 * only when it is not at its zero value; the dates go as Unix seconds that read back exactly.
 */
module QueryProperties {
  import opened Wrappers
  import opened Numbers
  import opened UrlValues
  import opened Primitives
  import opened Actions
  import opened ActionProperties

  // ---------------------------------------------------------------------------------------------
  // RequestPositionsOptions

  /** What the positions filter gives one name: what each of its four optional parts gives it. */
  lemma RequestPositionsValues(o: RequestPositionsOptions, x: string)
    ensures ValuesOf(RequestPositionsParams(o), x) ==
      OptValue(o.RequestLimit != 0, ("req_limit", FormatUint(o.RequestLimit)), x)
      + OptValue(o.Offset != 0, ("offset", FormatUint(o.Offset)), x)
      + OptValue(!o.TimeFrom.IsZero(), ("date_start", FormatInt(o.TimeFrom.unix)), x)
      + OptValue(!o.TimeTo.IsZero(), ("date_end", FormatInt(o.TimeTo.unix)), x)
  {
    var a := Opt(o.RequestLimit != 0, ("req_limit", FormatUint(o.RequestLimit)));
    var b := Opt(o.Offset != 0, ("offset", FormatUint(o.Offset)));
    var c := Opt(!o.TimeFrom.IsZero(), ("date_start", FormatInt(o.TimeFrom.unix)));
    var d := Opt(!o.TimeTo.IsZero(), ("date_end", FormatInt(o.TimeTo.unix)));
    ValuesOfConcat(a + b + c, d, x);
    ValuesOfConcat(a + b, c, x);
    ValuesOfConcat(a, b, x);
    ValuesOfOpt(o.RequestLimit != 0, ("req_limit", FormatUint(o.RequestLimit)), x);
    ValuesOfOpt(o.Offset != 0, ("offset", FormatUint(o.Offset)), x);
    ValuesOfOpt(!o.TimeFrom.IsZero(), ("date_start", FormatInt(o.TimeFrom.unix)), x);
    ValuesOfOpt(!o.TimeTo.IsZero(), ("date_end", FormatInt(o.TimeTo.unix)), x);
  }

  /** req_limit goes once, in decimal, when the limit is non-zero, and not at all otherwise. */
  lemma RequestLimitSent(o: RequestPositionsOptions)
    ensures ValuesOf(RequestPositionsParams(o), "req_limit") == if o.RequestLimit != 0 then [FormatUint(o.RequestLimit)] else []
  {
    RequestPositionsValues(o, "req_limit");
  }

  /** offset goes once, in decimal, when the offset is non-zero, and not at all otherwise. */
  lemma OffsetSent(o: RequestPositionsOptions)
    ensures ValuesOf(RequestPositionsParams(o), "offset") == if o.Offset != 0 then [FormatUint(o.Offset)] else []
  {
    RequestPositionsValues(o, "offset");
  }

  /** date_start goes once when TimeFrom is set, as Unix seconds that parse back to TimeFrom. */
  lemma DateStartSent(o: RequestPositionsOptions)
    ensures ValuesOf(RequestPositionsParams(o), "date_start") == if !o.TimeFrom.IsZero() then [FormatInt(o.TimeFrom.unix)] else []
    ensures ParseInt64(FormatInt(o.TimeFrom.unix)) == Parsed(o.TimeFrom.unix, None)
  {
    RequestPositionsValues(o, "date_start");
    ParseFormatInt(o.TimeFrom.unix);
  }

  /** date_end goes once when TimeTo is set, as Unix seconds that parse back to TimeTo. */
  lemma DateEndSent(o: RequestPositionsOptions)
    ensures ValuesOf(RequestPositionsParams(o), "date_end") == if !o.TimeTo.IsZero() then [FormatInt(o.TimeTo.unix)] else []
    ensures ParseInt64(FormatInt(o.TimeTo.unix)) == Parsed(o.TimeTo.unix, None)
  {
    RequestPositionsValues(o, "date_end");
    ParseFormatInt(o.TimeTo.unix);
  }

  /** Only the four filter names are ever sent. */
  lemma RequestPositionsOther(o: RequestPositionsOptions, x: string)
    requires x != "req_limit" && x != "offset" && x != "date_start" && x != "date_end"
    ensures ValuesOf(RequestPositionsParams(o), x) == []
  {
    RequestPositionsValues(o, x);
  }

  /** The filter sends nothing exactly when every field is at its zero value. */
  lemma RequestPositionsEmpty(o: RequestPositionsOptions)
    ensures RequestPositionsParams(o) == [] <==> o.RequestLimit == 0 && o.Offset == 0 && o.TimeFrom.IsZero() && o.TimeTo.IsZero()
  {
    var a := Opt(o.RequestLimit != 0, ("req_limit", FormatUint(o.RequestLimit)));
    var b := Opt(o.Offset != 0, ("offset", FormatUint(o.Offset)));
    var c := Opt(!o.TimeFrom.IsZero(), ("date_start", FormatInt(o.TimeFrom.unix)));
    var d := Opt(!o.TimeTo.IsZero(), ("date_end", FormatInt(o.TimeTo.unix)));
    assert |RequestPositionsParams(o)| == |a| + |b| + |c| + |d|;
  }

  // ---------------------------------------------------------------------------------------------
  // ObjectEventsOptions

  /** What the events filter gives one name: what each of its two optional parts gives it. */
  lemma ObjectEventsValues(o: ObjectEventsOptions, x: string)
    ensures ValuesOf(ObjectEventsParams(o), x) ==
      OptValue(o.RequestLimit != 0, ("req_limit", FormatUint(o.RequestLimit)), x)
      + OptValue(o.AfterEventID != 0, ("afterid", FormatUint(o.AfterEventID)), x)
  {
    ValuesOfConcat(Opt(o.RequestLimit != 0, ("req_limit", FormatUint(o.RequestLimit))),
      Opt(o.AfterEventID != 0, ("afterid", FormatUint(o.AfterEventID))), x);
    ValuesOfOpt(o.RequestLimit != 0, ("req_limit", FormatUint(o.RequestLimit)), x);
    ValuesOfOpt(o.AfterEventID != 0, ("afterid", FormatUint(o.AfterEventID)), x);
  }

  /** req_limit and afterid each go once, in decimal, when non-zero; no other name is sent. */
  lemma ObjectEventsSent(o: ObjectEventsOptions, x: string)
    ensures ValuesOf(ObjectEventsParams(o), "req_limit") == if o.RequestLimit != 0 then [FormatUint(o.RequestLimit)] else []
    ensures ValuesOf(ObjectEventsParams(o), "afterid") == if o.AfterEventID != 0 then [FormatUint(o.AfterEventID)] else []
    ensures x != "req_limit" && x != "afterid" ==> ValuesOf(ObjectEventsParams(o), x) == []
  {
    ObjectEventsValues(o, "req_limit");
    ObjectEventsValues(o, "afterid");
    ObjectEventsValues(o, x);
  }

  /** The events filter sends nothing exactly when both fields are zero. */
  lemma ObjectEventsEmpty(o: ObjectEventsOptions)
    ensures ObjectEventsParams(o) == [] <==> o.RequestLimit == 0 && o.AfterEventID == 0
  {
    assert |ObjectEventsParams(o)| ==
      |Opt(o.RequestLimit != 0, ("req_limit", FormatUint(o.RequestLimit)))| + |Opt(o.AfterEventID != 0, ("afterid", FormatUint(o.AfterEventID)))|;
  }
}
