/**
 * The request-parameter encoders: the option bundles of the service's actions and the way each
 * adds its fields to a url.Values multimap, plus the subscription builder whose notification
 * channel is the one set last.
 */
module Actions {
  import opened Wrappers
  import opened Errors
  import opened Numbers
  import opened UrlValues
  import opened Primitives

  // ---------------------------------------------------------------------------------------------
  // Formatting that the model leaves opaque

  /** The time.Format layouts the encoders use. */
  datatype Layout =
    | DateTimeSeconds   // "02.01.2006 15:04:05" (dateoff)
    | DateTimeMinutes   // "02.01.2006 15:04" (destination[i][time])
    | HourMinute        // "15:04" (st[])

  /**
   * fmt's "%.8f" for a float32 and time.Format in the time's own location, which `Instant` does
   * not carry: neither is modelled, so the encoders take them as parameters.
   */
  datatype Formatter = Formatter(fixed8: Float32 -> string, layout: (Instant, Layout) -> string)

  predicate HasPrefix(s: string, prefix: string)
  {
    |prefix| <= |s| && s[..|prefix|] == prefix
  }

  /** The pairs of ps all have names starting with prefix. */
  predicate AllPrefixed(ps: seq<Param>, prefix: string)
  {
    forall i | 0 <= i < |ps| :: HasPrefix(ps[i].0, prefix)
  }

  /** A name outside a prefix's namespace gets no values from pairs inside it. */
  lemma NoValuesOutsidePrefix(ps: seq<Param>, prefix: string, key: string)
    requires AllPrefixed(ps, prefix) && !HasPrefix(key, prefix)
    ensures ValuesOf(ps, key) == []
  {
    ValuesOfAbsent(ps, key);
  }

  lemma AllPrefixedConcat(ps: seq<Param>, qs: seq<Param>, prefix: string)
    requires AllPrefixed(ps, prefix) && AllPrefixed(qs, prefix)
    ensures AllPrefixed(ps + qs, prefix)
  {
    forall i | 0 <= i < |ps + qs| ensures HasPrefix((ps + qs)[i].0, prefix) {
      if i < |ps| { assert (ps + qs)[i] == ps[i]; } else { assert (ps + qs)[i] == qs[i - |ps|]; }
    }
  }

  /** The one pair p when cond holds, nothing otherwise: a field sent only when it is set. */
  function Opt(cond: bool, p: Param): seq<Param>
  {
    if cond then [p] else []
  }

  /** Guarding one Add by cond is adding Opt(cond, p). */
  lemma AddAllOpt(m: Multimap, ps: seq<Param>, cond: bool, p: Param)
    ensures AddAll(m, ps + Opt(cond, p)) == if cond then Appended(AddAll(m, ps), p.0, p.1) else AddAll(m, ps)
  {
    if cond { AddAllSnoc(m, ps, p.0, p.1); } else { assert ps + [] == ps; }
  }

  // ---------------------------------------------------------------------------------------------
  // DestinationOptions

  /** fmt.Sprintf("destination[%d][%s]", idx, field); %d of a non-negative int is FormatUint. */
  function DestinationKey(idx: nat, field: string): string
  {
    "destination[" + FormatUint(idx) + "][" + field + "]"
  }

  /** One stop on an object's route. */
  datatype DestinationOptions = DestinationOptions(Text: string, Lon: Float32, Lat: Float32, ExpectedTime: Instant)
  {
    /** DestinationOptions.addValuesTo: the text is required; the time is sent only when set. */
    method AddValuesTo(idx: nat, v: Values?, fmt: Formatter) returns (err: Option<Error>)
      modifies v
      ensures v == null ==> err == Some(NilTarget)
      ensures v != null ==> err == (if Text == "" then Some(MissingText) else None)
      ensures v != null ==>
        v.entries == if Text == "" then old(v.entries) else AddAll(old(v.entries), DestinationParams(idx, this, fmt))
    {
      if v == null {
        return Some(NilTarget);
      }
      if Text == "" {
        return Some(MissingText);
      }
      ghost var m0 := v.entries;
      ghost var added: seq<Param> := [];
      var coord := fmt.fixed8(Lat) + "," + fmt.fixed8(Lon);
      v.Add(DestinationKey(idx, "text"), Text);
      AddAllSnoc(m0, added, DestinationKey(idx, "text"), Text);
      added := added + [(DestinationKey(idx, "text"), Text)];
      v.Add(DestinationKey(idx, "coord"), coord);
      AddAllSnoc(m0, added, DestinationKey(idx, "coord"), coord);
      added := added + [(DestinationKey(idx, "coord"), coord)];
      if !ExpectedTime.IsZero() {
        var at := fmt.layout(ExpectedTime, DateTimeMinutes);
        v.Add(DestinationKey(idx, "time"), at);
        AddAllSnoc(m0, added, DestinationKey(idx, "time"), at);
        added := added + [(DestinationKey(idx, "time"), at)];
      }
      assert added == DestinationParams(idx, this, fmt);
      return None;
    }
  }

  /** The parameters of the destination at position idx: text, "lat,lon", and the time unless it is zero. */
  function DestinationParams(idx: nat, d: DestinationOptions, fmt: Formatter): seq<Param>
  {
    [(DestinationKey(idx, "text"), d.Text), (DestinationKey(idx, "coord"), fmt.fixed8(d.Lat) + "," + fmt.fixed8(d.Lon))]
    + if d.ExpectedTime.IsZero() then [] else [(DestinationKey(idx, "time"), fmt.layout(d.ExpectedTime, DateTimeMinutes))]
  }

  /** The parameters of the first n destinations, each indexed by its position in the list. */
  function DestinationsParams(ds: seq<DestinationOptions>, n: nat, fmt: Formatter): seq<Param>
    requires n <= |ds|
  {
    if n == 0 then [] else DestinationsParams(ds, n - 1, fmt) + DestinationParams(n - 1, ds[n - 1], fmt)
  }

  lemma DestinationsParamsStep(m: Multimap, ds: seq<DestinationOptions>, n: nat, fmt: Formatter)
    requires n < |ds|
    ensures AddAll(m, DestinationsParams(ds, n + 1, fmt)) == AddAll(AddAll(m, DestinationsParams(ds, n, fmt)), DestinationParams(n, ds[n], fmt))
  {
    AddAllConcat(m, DestinationsParams(ds, n, fmt), DestinationParams(n, ds[n], fmt));
  }

  /** The position of the first destination without a text, if any. */
  function FirstWithoutText(ds: seq<DestinationOptions>): (r: Option<nat>)
    ensures r.Some? ==> r.value < |ds| && ds[r.value].Text == ""
    ensures r.Some? ==> forall i | 0 <= i < r.value :: ds[i].Text != ""
    ensures r.None? ==> forall i | 0 <= i < |ds| :: ds[i].Text != ""
  {
    if ds == [] then None
    else if ds[0].Text == "" then Some(0)
    else match FirstWithoutText(ds[1..])
      case None => None
      case Some(k) => Some(k + 1)
  }

  lemma FirstWithoutTextPast(ds: seq<DestinationOptions>, k: nat)
    requires k < |ds| && ds[k].Text != ""
    requires FirstWithoutText(ds).Some? ==> k <= FirstWithoutText(ds).value
    ensures FirstWithoutText(ds).Some? ==> k + 1 <= FirstWithoutText(ds).value
  {
  }

  lemma FirstWithoutTextAt(ds: seq<DestinationOptions>, k: nat)
    requires k < |ds| && ds[k].Text == ""
    requires forall i | 0 <= i < k :: ds[i].Text != ""
    ensures FirstWithoutText(ds) == Some(k)
  {
  }

  /**
   * Adding the destinations in list order: up to the first one without a text, whose error stops
   * the encoding with the earlier destinations already added.
   */
  function EncodeDestinations(m: Multimap, ds: seq<DestinationOptions>, fmt: Formatter): (Multimap, Option<Error>)
  {
    match FirstWithoutText(ds)
    case None => (AddAll(m, DestinationsParams(ds, |ds|, fmt)), None)
    case Some(k) => (AddAll(m, DestinationsParams(ds, k, fmt)), Some(MissingText))
  }

  // ---------------------------------------------------------------------------------------------
  // SchedulingOptions

  /** The state of a SchedulingOptions: seven weekday flags (Monday first) and the fire times. */
  datatype Schedule = Schedule(weekdays: seq<bool>, fireAt: seq<Instant>)

  predicate AnyDayOn(days: seq<bool>)
  {
    exists i | 0 <= i < |days| :: days[i]
  }

  /** "sw<d>" for day index d-1. */
  function WeekdayKey(d: nat): string
  {
    "sw" + FormatUint(d)
  }

  /** sw<i+1>=1 for every day i < n that is on, in index order. */
  function WeekdayParams(days: seq<bool>, n: nat): seq<Param>
    requires n <= |days|
  {
    if n == 0 then []
    else WeekdayParams(days, n - 1) + if days[n - 1] then [(WeekdayKey(n), "1")] else []
  }

  /** One st[] value per fire time, in list order. */
  function FireAtParams(ts: seq<Instant>, fmt: Formatter): seq<Param>
    decreases |ts|
  {
    if ts == [] then []
    else FireAtParams(ts[..|ts| - 1], fmt) + [("st[]", fmt.layout(ts[|ts| - 1], HourMinute))]
  }

  lemma FireAtParamsSnoc(ts: seq<Instant>, j: nat, fmt: Formatter)
    requires j < |ts|
    ensures FireAtParams(ts[..j + 1], fmt) == FireAtParams(ts[..j], fmt) + [("st[]", fmt.layout(ts[j], HourMinute))]
  {
    assert ts[..j + 1][..j] == ts[..j];
  }

  /** What SchedulingOptions.addValuesTo adds to a non-nil target, or the error it returns. */
  function ScheduleEncode(s: Schedule, fmt: Formatter): Result<seq<Param>, Error>
  {
    if |s.fireAt| == 0 then Err(MissingFireTime)
    else if !AnyDayOn(s.weekdays) then Err(NoWeekday)
    else Ok(WeekdayParams(s.weekdays, |s.weekdays|) + FireAtParams(s.fireAt, fmt))
  }

  /** The weekday loop adds something exactly when one of the days it visits is on. */
  lemma {:induction false} WeekdayParamsEmpty(days: seq<bool>, n: nat)
    requires n <= |days|
    ensures WeekdayParams(days, n) == [] <==> forall i | 0 <= i < n :: !days[i]
  {
    if n > 0 {
      WeekdayParamsEmpty(days, n - 1);
    }
  }

  class SchedulingOptions {
    var weekdays: array<bool>
    var FireAt: seq<Instant>

    ghost predicate Valid()
      reads this
    {
      weekdays.Length == 7
    }

    function Snapshot(): Schedule
      reads this, weekdays
    {
      Schedule(weekdays[..], FireAt)
    }

    /** SchedulingOptions{FireAt: fireAt}: every weekday off. */
    constructor (fireAt: seq<Instant>)
      ensures Valid() && fresh(weekdays)
      ensures Snapshot() == Schedule([false, false, false, false, false, false, false], fireAt)
    {
      weekdays := new bool[7](_ => false);
      FireAt := fireAt;
    }

    /** IsWeekdayOn: the flag of day `day` (Monday is 0). */
    function IsWeekdayOn(day: nat): bool
      requires Valid() && day < 7
      reads this, weekdays
    {
      weekdays[day]
    }

    /** WeekdayOn: turns exactly day `day` on; the other days and FireAt stay as they were. */
    method WeekdayOn(day: nat)
      requires Valid() && day < 7
      modifies weekdays
      ensures Valid() && IsWeekdayOn(day)
      ensures weekdays[..] == old(weekdays[..])[day := true]
      ensures forall d | 0 <= d < 7 && d != day :: IsWeekdayOn(d) == old(IsWeekdayOn(d))
    {
      weekdays[day] := true;
    }

    /** WeekdayOff: turns exactly day `day` off; the other days and FireAt stay as they were. */
    method WeekdayOff(day: nat)
      requires Valid() && day < 7
      modifies weekdays
      ensures Valid() && !IsWeekdayOn(day)
      ensures weekdays[..] == old(weekdays[..])[day := false]
      ensures forall d | 0 <= d < 7 && d != day :: IsWeekdayOn(d) == old(IsWeekdayOn(d))
    {
      weekdays[day] := false;
    }

    /**
     * SchedulingOptions.addValuesTo: refuses an empty FireAt (before looking at the target), then a
     * nil target, then a schedule with no day on; only success changes the target.
     */
    method AddValuesTo(v: Values?, fmt: Formatter) returns (err: Option<Error>)
      requires Valid()
      modifies v
      ensures |FireAt| == 0 ==> err == Some(MissingFireTime)
      ensures |FireAt| > 0 && v == null ==> err == Some(NilTarget)
      ensures |FireAt| > 0 && v != null ==>
        match ScheduleEncode(Snapshot(), fmt)
        case Ok(ps) => err == None && v.entries == AddAll(old(v.entries), ps)
        case Err(e) => err == Some(e) && v.entries == old(v.entries)
      ensures |FireAt| == 0 && v != null ==> v.entries == old(v.entries)
    {
      if |FireAt| <= 0 {
        return Some(MissingFireTime);
      }
      if v == null {
        return Some(NilTarget);
      }
      ghost var m0 := v.entries;
      var chk := AddWeekdaysTo(v);
      if !chk {
        return Some(NoWeekday);
      }
      AddFireTimesTo(v, fmt);
      AddAllConcat(m0, WeekdayParams(weekdays[..], 7), FireAtParams(FireAt, fmt));
      return None;
    }

    /** The weekday loop of addValuesTo; `chk` tells whether some day is on. */
    method AddWeekdaysTo(v: Values) returns (chk: bool)
      requires Valid()
      modifies v
      ensures chk <==> AnyDayOn(weekdays[..])
      ensures v.entries == AddAll(old(v.entries), WeekdayParams(weekdays[..], 7))
      ensures !chk ==> v.entries == old(v.entries)
    {
      ghost var m0 := v.entries;
      ghost var days := weekdays[..];
      chk := false;
      var idx := 0;
      while idx < 7
        invariant 0 <= idx <= 7
        invariant chk <==> WeekdayParams(days, idx) != []
        invariant v.entries == AddAll(m0, WeekdayParams(days, idx))
      {
        if weekdays[idx] {
          chk := true;
          AddAllSnoc(m0, WeekdayParams(days, idx), WeekdayKey(idx + 1), "1");
          v.Add(WeekdayKey(idx + 1), "1");
        } else {
          assert WeekdayParams(days, idx + 1) == WeekdayParams(days, idx);
        }
        idx := idx + 1;
      }
      WeekdayParamsEmpty(days, 7);
    }

    /** The st[] loop of addValuesTo. */
    method AddFireTimesTo(v: Values, fmt: Formatter)
      modifies v
      ensures v.entries == AddAll(old(v.entries), FireAtParams(FireAt, fmt))
    {
      ghost var m0 := v.entries;
      var ts := FireAt;
      var j := 0;
      while j < |ts|
        invariant 0 <= j <= |ts|
        invariant v.entries == AddAll(m0, FireAtParams(ts[..j], fmt))
      {
        FireAtParamsSnoc(ts, j, fmt);
        AddAllSnoc(m0, FireAtParams(ts[..j], fmt), "st[]", fmt.layout(ts[j], HourMinute));
        v.Add("st[]", fmt.layout(ts[j], HourMinute));
        j := j + 1;
      }
      assert ts[..j] == ts;
    }
  }

  // ---------------------------------------------------------------------------------------------
  // ObjectOptions

  /** strings.Join(ss, sep). */
  function Join(ss: seq<string>, sep: string): (r: string)
    ensures ss == [] ==> r == ""
    ensures |ss| == 1 ==> r == ss[0]
    ensures ss != [] ==> |r| == TotalLength(ss) + (|ss| - 1) * |sep|
    ensures ss != [] ==> |ss[0]| <= |r| && r[..|ss[0]|] == ss[0]
  {
    if |ss| == 0 then ""
    else if |ss| == 1 then ss[0]
    else
      var init := Join(ss[..|ss| - 1], sep);
      assert ss[..|ss| - 1][0] == ss[0];
      assert (init + sep + ss[|ss| - 1])[..|ss[0]|] == init[..|ss[0]|];
      init + sep + ss[|ss| - 1]
  }

  /** The summed lengths of the strings. */
  function TotalLength(ss: seq<string>): nat
  {
    if ss == [] then 0 else TotalLength(ss[..|ss| - 1]) + |ss[|ss| - 1]|
  }

  /** fmt.Sprintf("metadata[%s]", key): the key is not escaped. */
  function MetadataName(key: string): (n: string)
    ensures |n| == |key| + 10 && n[9..|n| - 1] == key
  {
    var n := "metadata[" + key + "]";
    assert n[9..|n| - 1] == key;
    n
  }

  /** The names metadata[k] for the keys k of md. */
  function MetadataNames(md: map<string, string>): set<string>
  {
    set k | k in md :: MetadataName(k)
  }

  /** The value the metadata loop adds under name x: md[k] when x is metadata[k] for a key k of md. */
  function MetadataValue(md: map<string, string>, x: string): seq<string>
  {
    if |x| >= 10 && x[9..|x| - 1] in md && MetadataName(x[9..|x| - 1]) == x then [md[x[9..|x| - 1]]] else []
  }

  /**
   * The multimap after adding one metadata[key]=value parameter per entry of md, in any order:
   * the names are pairwise distinct, so the order does not matter.
   */
  function AddMetadata(m: Multimap, md: map<string, string>): Multimap
  {
    map x | x in m.Keys + MetadataNames(md) :: Get(m, x) + MetadataValue(md, x)
  }

  /** The creation/edit options of a tracked object. */
  datatype ObjectOptions = ObjectOptions(
    Title: string,
    Tags: seq<string>,
    DateOff: Instant,
    Tariff: string,
    PackageProlong: bool,
    Destinations: seq<DestinationOptions>,
    Schedules: SchedulingOptions?,
    Metadata: map<string, string>,
    CallToDriver: bool)
  {
    /**
     * ObjectOptions.addValuesTo: the scalar fields and metadata, then the schedule, then the
     * destinations. An error leaves whatever was added before it in v.
     */
    method AddValuesTo(v: Values?, fmt: Formatter) returns (err: Option<Error>)
      requires Schedules != null ==> Schedules.Valid()
      modifies v
      ensures v == null ==> err == Some(NilTarget)
      ensures v != null ==>
        (v.entries, err) == EncodeObject(old(v.entries), this, if Schedules == null then None else Some(Schedules.Snapshot()), fmt)
    {
      if v == null {
        return Some(NilTarget);
      }
      AddScalarsTo(v, fmt);
      AddMetadataTo(v);
      if CallToDriver {
        v.Add("autoinform", "1");
      }
      if Schedules != null {
        err := Schedules.AddValuesTo(v, fmt);
        if err != None {
          return err;
        }
      }
      err := AddDestinationsTo(Destinations, v, fmt);
    }

    /** The five scalar fields of addValuesTo, each skipped when it holds its zero value. */
    method AddScalarsTo(v: Values, fmt: Formatter)
      modifies v
      ensures v.entries == AddAll(old(v.entries), ScalarParams(this, fmt))
    {
      ghost var m0 := v.entries;
      ghost var added: seq<Param> := [];
      AddAllOpt(m0, added, Title != "", ("title", Title));
      if Title != "" {
        v.Add("title", Title);
      }
      added := added + Opt(Title != "", ("title", Title));
      AddAllOpt(m0, added, !DateOff.IsZero(), ("dateoff", fmt.layout(DateOff, DateTimeSeconds)));
      if !DateOff.IsZero() {
        v.Add("dateoff", fmt.layout(DateOff, DateTimeSeconds));
      }
      added := added + Opt(!DateOff.IsZero(), ("dateoff", fmt.layout(DateOff, DateTimeSeconds)));
      AddAllOpt(m0, added, Tariff != "", ("tariff", Tariff));
      if Tariff != "" {
        v.Add("tariff", Tariff);
      }
      added := added + Opt(Tariff != "", ("tariff", Tariff));
      AddAllOpt(m0, added, PackageProlong, ("package_prolong", "1"));
      if PackageProlong {
        v.Add("package_prolong", "1");
      }
      added := added + Opt(PackageProlong, ("package_prolong", "1"));
      AddAllOpt(m0, added, |Tags| > 0, ("tags", Join(Tags, ",")));
      if |Tags| > 0 {
        v.Add("tags", Join(Tags, ","));
      }
      added := added + Opt(|Tags| > 0, ("tags", Join(Tags, ",")));
      assert [] + Opt(Title != "", ("title", Title)) == Opt(Title != "", ("title", Title));
    }

    /** The metadata loop of addValuesTo; Go visits the map in an unspecified order. */
    method AddMetadataTo(v: Values)
      modifies v
      ensures v.entries == AddMetadata(old(v.entries), Metadata)
    {
      ghost var m0 := v.entries;
      var remaining := Metadata.Keys;
      ghost var done: map<string, string> := map[];
      AddMetadataEmpty(m0);
      while remaining != {}
        invariant remaining == Metadata.Keys - done.Keys
        invariant done.Keys <= Metadata.Keys
        invariant forall k | k in done :: done[k] == Metadata[k]
        invariant v.entries == AddMetadata(m0, done)
        decreases remaining
      {
        var key :| key in remaining;
        AddMetadataStep(m0, done, key, Metadata[key]);
        v.Add(MetadataName(key), Metadata[key]);
        done := done[key := Metadata[key]];
        remaining := remaining - {key};
      }
      forall k | k in Metadata ensures k in done {
        assert k !in remaining;
      }
      assert done == Metadata;
    }
  }

  /** The destination loop of addValuesTo: stops at the first destination without a text. */
  method AddDestinationsTo(ds: seq<DestinationOptions>, v: Values, fmt: Formatter) returns (err: Option<Error>)
    modifies v
    ensures FirstWithoutText(ds).None? ==> err == None && v.entries == AddAll(old(v.entries), DestinationsParams(ds, |ds|, fmt))
    ensures FirstWithoutText(ds).Some? ==>
      err == Some(MissingText) && v.entries == AddAll(old(v.entries), DestinationsParams(ds, FirstWithoutText(ds).value, fmt))
  {
    ghost var m0 := v.entries;
    ghost var first := FirstWithoutText(ds);
    var idx := 0;
    while idx < |ds|
      invariant 0 <= idx <= |ds|
      invariant first.Some? ==> idx <= first.value
      invariant v.entries == AddAll(m0, DestinationsParams(ds, idx, fmt))
    {
      err := AddDestinationAt(ds, idx, v, fmt, m0);
      if err != None {
        return err;
      }
      idx := idx + 1;
    }
    assert first.None?;
    return None;
  }

  /** One turn of the destination loop. */
  method AddDestinationAt(ds: seq<DestinationOptions>, idx: nat, v: Values, fmt: Formatter, ghost m0: Multimap) returns (err: Option<Error>)
    requires idx < |ds|
    requires FirstWithoutText(ds).Some? ==> idx <= FirstWithoutText(ds).value
    requires v.entries == AddAll(m0, DestinationsParams(ds, idx, fmt))
    modifies v
    ensures err != None ==> err == Some(MissingText) && FirstWithoutText(ds) == Some(idx) && v.entries == old(v.entries)
    ensures err == None ==> (FirstWithoutText(ds).Some? ==> idx + 1 <= FirstWithoutText(ds).value)
    ensures err == None ==> v.entries == AddAll(m0, DestinationsParams(ds, idx + 1, fmt))
  {
    var d := ds[idx];
    err := d.AddValuesTo(idx, v, fmt);
    if err != None {
      FirstWithoutTextAt(ds, idx);
      return err;
    }
    FirstWithoutTextPast(ds, idx);
    DestinationsParamsStep(m0, ds, idx, fmt);
  }

  /** title, dateoff, tariff, package_prolong and tags, each only when it is not the zero value. */
  function ScalarParams(o: ObjectOptions, fmt: Formatter): seq<Param>
  {
    Opt(o.Title != "", ("title", o.Title))
    + Opt(!o.DateOff.IsZero(), ("dateoff", fmt.layout(o.DateOff, DateTimeSeconds)))
    + Opt(o.Tariff != "", ("tariff", o.Tariff))
    + Opt(o.PackageProlong, ("package_prolong", "1"))
    + Opt(|o.Tags| > 0, ("tags", Join(o.Tags, ",")))
  }

  /** The part of ObjectOptions.addValuesTo before the schedule: scalars, metadata, autoinform. */
  function EncodeFields(m: Multimap, o: ObjectOptions, fmt: Formatter): Multimap
  {
    var withMetadata := AddMetadata(AddAll(m, ScalarParams(o, fmt)), o.Metadata);
    if o.CallToDriver then Appended(withMetadata, "autoinform", "1") else withMetadata
  }

  /**
   * ObjectOptions.addValuesTo on a non-nil target holding m, with `sched` the state of the
   * Schedules pointer: the new multimap and the error.
   */
  function EncodeObject(m: Multimap, o: ObjectOptions, sched: Option<Schedule>, fmt: Formatter): (Multimap, Option<Error>)
  {
    EncodeRest(EncodeFields(m, o, fmt), sched, o.Destinations, fmt)
  }

  /** The part of ObjectOptions.addValuesTo after autoinform: the schedule, then the destinations. */
  function EncodeRest(m: Multimap, sched: Option<Schedule>, ds: seq<DestinationOptions>, fmt: Formatter): (Multimap, Option<Error>)
  {
    match sched
    case None => EncodeDestinations(m, ds, fmt)
    case Some(s) =>
      match ScheduleEncode(s, fmt)
      case Err(e) => (m, Some(e))
      case Ok(ps) => EncodeDestinations(AddAll(m, ps), ds, fmt)
  }

  /** An empty metadata map adds nothing. */
  lemma AddMetadataEmpty(m: Multimap)
    ensures AddMetadata(m, map[]) == m
  {
    assert MetadataNames(map[]) == {};
    forall x | x in m ensures AddMetadata(m, map[])[x] == m[x] {
      assert MetadataValue(map[], x) == [];
    }
  }

  /** Adding one more metadata entry is one more url.Values.Add. */
  lemma AddMetadataStep(m: Multimap, done: map<string, string>, key: string, value: string)
    requires key !in done
    ensures AddMetadata(m, done[key := value]) == Appended(AddMetadata(m, done), MetadataName(key), value)
  {
    var n := MetadataName(key);
    var lhs := AddMetadata(m, done[key := value]);
    var rhs := Appended(AddMetadata(m, done), n, value);
    var before := AddMetadata(m, done);
    MetadataNamesStep(done, key, value);
    forall x | x in lhs ensures lhs[x] == rhs[x] {
      MetadataValueStep(done, key, value, x);
      if x == n {
        assert Get(before, n) == Get(m, n) + MetadataValue(done, n);
      } else {
        assert x in before;
        assert rhs[x] == before[x];
      }
    }
  }

  lemma MetadataNamesStep(done: map<string, string>, key: string, value: string)
    ensures MetadataNames(done[key := value]) == MetadataNames(done) + {MetadataName(key)}
  {
  }

  /** Only the new key's name gains a value. */
  lemma MetadataValueStep(done: map<string, string>, key: string, value: string, x: string)
    requires key !in done
    ensures MetadataValue(done[key := value], x) == if x == MetadataName(key) then [value] else MetadataValue(done, x)
  {
  }

  // ---------------------------------------------------------------------------------------------
  // RequestPositionsOptions and ObjectEventsOptions

  /** The filter of a positions query; zero values are not sent. */
  datatype RequestPositionsOptions = RequestPositionsOptions(RequestLimit: uint64, Offset: uint64, TimeFrom: Instant, TimeTo: Instant)
  {
    /** RequestPositionsOptions.addValuesTo: only a nil target fails. */
    method AddValuesTo(v: Values?) returns (err: Option<Error>)
      modifies v
      ensures v == null ==> err == Some(NilTarget)
      ensures v != null ==> err == None && v.entries == AddAll(old(v.entries), RequestPositionsParams(this))
    {
      if v == null {
        return Some(NilTarget);
      }
      ghost var m0 := v.entries;
      AddAllOpt(m0, [], RequestLimit != 0, ("req_limit", FormatUint(RequestLimit)));
      if RequestLimit != 0 {
        v.Add("req_limit", FormatUint(RequestLimit));
      }
      ghost var added := [] + Opt(RequestLimit != 0, ("req_limit", FormatUint(RequestLimit)));
      AddAllOpt(m0, added, Offset != 0, ("offset", FormatUint(Offset)));
      if Offset != 0 {
        v.Add("offset", FormatUint(Offset));
      }
      added := added + Opt(Offset != 0, ("offset", FormatUint(Offset)));
      AddAllOpt(m0, added, !TimeFrom.IsZero(), ("date_start", FormatInt(TimeFrom.unix)));
      if !TimeFrom.IsZero() {
        v.Add("date_start", FormatInt(TimeFrom.unix));
      }
      added := added + Opt(!TimeFrom.IsZero(), ("date_start", FormatInt(TimeFrom.unix)));
      AddAllOpt(m0, added, !TimeTo.IsZero(), ("date_end", FormatInt(TimeTo.unix)));
      if !TimeTo.IsZero() {
        v.Add("date_end", FormatInt(TimeTo.unix));
      }
      added := added + Opt(!TimeTo.IsZero(), ("date_end", FormatInt(TimeTo.unix)));
      assert [] + Opt(RequestLimit != 0, ("req_limit", FormatUint(RequestLimit))) == Opt(RequestLimit != 0, ("req_limit", FormatUint(RequestLimit)));
      return None;
    }
  }

  /** req_limit, offset, date_start and date_end (Unix seconds), each only when non-zero. */
  function RequestPositionsParams(o: RequestPositionsOptions): seq<Param>
  {
    Opt(o.RequestLimit != 0, ("req_limit", FormatUint(o.RequestLimit)))
    + Opt(o.Offset != 0, ("offset", FormatUint(o.Offset)))
    + Opt(!o.TimeFrom.IsZero(), ("date_start", FormatInt(o.TimeFrom.unix)))
    + Opt(!o.TimeTo.IsZero(), ("date_end", FormatInt(o.TimeTo.unix)))
  }

  /** The filter of an events query; zero values are not sent. */
  datatype ObjectEventsOptions = ObjectEventsOptions(RequestLimit: uint64, AfterEventID: uint64)
  {
    /** ObjectEventsOptions.values: a new multimap with req_limit and afterid when non-zero. */
    method Values() returns (v: Values)
      ensures fresh(v)
      ensures v.entries == AddAll(map[], ObjectEventsParams(this))
    {
      v := new Values();
      AddAllOpt(map[], [], RequestLimit != 0, ("req_limit", FormatUint(RequestLimit)));
      if RequestLimit != 0 {
        v.Add("req_limit", FormatUint(RequestLimit));
      }
      ghost var added := [] + Opt(RequestLimit != 0, ("req_limit", FormatUint(RequestLimit)));
      AddAllOpt(map[], added, AfterEventID != 0, ("afterid", FormatUint(AfterEventID)));
      if AfterEventID != 0 {
        v.Add("afterid", FormatUint(AfterEventID));
      }
      assert added == Opt(RequestLimit != 0, ("req_limit", FormatUint(RequestLimit)));
    }
  }

  /** req_limit and afterid, each only when non-zero. */
  function ObjectEventsParams(o: ObjectEventsOptions): seq<Param>
  {
    Opt(o.RequestLimit != 0, ("req_limit", FormatUint(o.RequestLimit)))
    + Opt(o.AfterEventID != 0, ("afterid", FormatUint(o.AfterEventID)))
  }

  // ---------------------------------------------------------------------------------------------
  // E-mail addresses: the regular expression of SetEMailNotification

  predicate IsAsciiAlnum(c: char)
  {
    'a' <= c <= 'z' || 'A' <= c <= 'Z' || '0' <= c <= '9'
  }

  /** The characters allowed before the '@'. */
  predicate IsLocalChar(c: char)
  {
    IsAsciiAlnum(c) || c in ".!#$%&'*+/=?^_`{|}~-"
  }

  /** [a-zA-Z0-9](?:[a-zA-Z0-9-]{0,61}[a-zA-Z0-9])? */
  predicate IsLabel(s: string)
  {
    && 1 <= |s| <= 63
    && IsAsciiAlnum(s[0])
    && IsAsciiAlnum(s[|s| - 1])
    && forall i | 0 < i < |s| - 1 :: IsAsciiAlnum(s[i]) || s[i] == '-'
  }

  /** The position of the first c in s. */
  function IndexOf(s: string, c: char): (i: nat)
    requires c in s
    ensures i < |s| && s[i] == c && c !in s[..i]
  {
    if s[0] == c then 0
    else
      var i := IndexOf(s[1..], c) + 1;
      assert s[..i] == [s[0]] + s[1..][..i - 1];
      i
  }

  /** label(?:\.label)*: labels separated by single dots. */
  predicate IsDomain(s: string)
    decreases |s|
  {
    if '.' in s then
      var i := IndexOf(s, '.');
      IsLabel(s[..i]) && IsDomain(s[i + 1..])
    else IsLabel(s)
  }

  /** The address matches ^[local chars]+@domain$. */
  predicate IsEmail(s: string)
  {
    && '@' in s
    && var i := IndexOf(s, '@');
       && i > 0
       && (forall j | 0 <= j < i :: IsLocalChar(s[j]))
       && IsDomain(s[i + 1..])
  }

  // ---------------------------------------------------------------------------------------------
  // SubscribeEventOptions

  /** notificationType: the empty string means no channel has been set. */
  datatype Channel = Unset | Sms | Email | Telegram
  {
    /** The notify_type value of the channel. */
    function WireName(): (s: string)
      ensures s == "" <==> this == Unset
    {
      match this
      case Unset => ""
      case Sms => "sms"
      case Email => "email"
      case Telegram => "telegram"
    }
  }

  /** The fields of a SubscribeEventOptions. */
  datatype Subscription = Subscription(
    allObjects: bool,
    objects: seq<Object>,
    event: string,
    notifyTo: Channel,
    smsPhone: Object,
    email: string)

  /** SetSMSNotification: a phone with no digits is refused and changes nothing. */
  function WithSms(s: Subscription, phone: Object): (Subscription, Option<Error>)
  {
    if phone.String() == "" then (s, Some(InvalidPhone(phone.raw)))
    else (s.(notifyTo := Sms, smsPhone := phone), None)
  }

  /** SetEMailNotification: an address the expression rejects is refused and changes nothing. */
  function WithEmail(s: Subscription, mail: string): (Subscription, Option<Error>)
  {
    if !IsEmail(mail) then (s, Some(InvalidEmail(mail)))
    else (s.(notifyTo := Email, email := mail), None)
  }

  /** SetTelegramNotification: only the channel changes. */
  function WithTelegram(s: Subscription): Subscription
  {
    s.(notifyTo := Telegram)
  }

  /** One phones[] value per object, cleaned, in list order. */
  function PhoneParams(objects: seq<Object>): seq<Param>
    decreases |objects|
  {
    if objects == [] then []
    else PhoneParams(objects[..|objects| - 1]) + [("phones[]", objects[|objects| - 1].String())]
  }

  /** notify_value for the SMS and e-mail channels; nothing for Telegram. */
  function NotifyValueParams(s: Subscription): seq<Param>
  {
    match s.notifyTo
    case Sms => [("notify_value", s.smsPhone.String())]
    case Email => [("notify_value", s.email)]
    case _ => []
  }

  /** SubscribeEventOptions.values: the parameters, or the first failed check in source order. */
  function SubscribeParams(s: Subscription): Result<seq<Param>, Error>
  {
    if !s.allObjects && |s.objects| == 0 then Err(NoObjects)
    else if s.event == "" then Err(NoEvent)
    else if s.notifyTo == Unset then Err(NoChannel)
    else Ok(ObjectsParams(s) + [("events", s.event)] + [("notify_type", s.notifyTo.WireName())] + NotifyValueParams(s))
  }

  /** phones_all=1, or one phones[] value per object. */
  function ObjectsParams(s: Subscription): seq<Param>
  {
    if s.allObjects then [("phones_all", "1")] else PhoneParams(s.objects)
  }

  class SubscribeEventOptions {
    var AllObjects: bool
    var Objects: seq<Object>
    var Event: string
    var notifyTo: Channel
    var smsPhone: Object
    var email: string

    function State(): Subscription
      reads this
    {
      Subscription(AllObjects, Objects, Event, notifyTo, smsPhone, email)
    }

    /** SubscribeEventOptions{}: nothing set. */
    constructor ()
      ensures State() == Subscription(false, [], "", Unset, Object(""), "")
    {
      AllObjects, Objects, Event := false, [], "";
      notifyTo, smsPhone, email := Unset, Object(""), "";
    }

    /** NewSubscribeEventOptions: one object and one event, no channel yet. */
    constructor New(o: Object, e: string)
      ensures State() == Subscription(false, [o], e, Unset, Object(""), "")
    {
      AllObjects, Objects, Event := false, [o], e;
      notifyTo, smsPhone, email := Unset, Object(""), "";
    }

    method SetSMSNotification(phone: Object) returns (err: Option<Error>)
      modifies this
      ensures (State(), err) == WithSms(old(State()), phone)
    {
      if phone.String() == "" {
        return Some(InvalidPhone(phone.raw));
      }
      notifyTo := Sms;
      smsPhone := phone;
      return None;
    }

    method SetEMailNotification(mail: string) returns (err: Option<Error>)
      modifies this
      ensures (State(), err) == WithEmail(old(State()), mail)
    {
      if !IsEmail(mail) {
        return Some(InvalidEmail(mail));
      }
      notifyTo := Email;
      email := mail;
      return None;
    }

    method SetTelegramNotification()
      modifies this
      ensures State() == WithTelegram(old(State()))
    {
      notifyTo := Telegram;
    }

    /** The phones[] loop of values(). */
    method AddPhonesTo(v: Values)
      modifies v
      ensures v.entries == AddAll(old(v.entries), PhoneParams(Objects))
    {
      ghost var m0 := v.entries;
      var i := 0;
      while i < |Objects|
        invariant 0 <= i <= |Objects|
        invariant v.entries == AddAll(m0, PhoneParams(Objects[..i]))
      {
        assert Objects[..i + 1][..i] == Objects[..i];
        AddAllSnoc(m0, PhoneParams(Objects[..i]), "phones[]", Objects[i].String());
        v.Add("phones[]", Objects[i].String());
        i := i + 1;
      }
      assert Objects[..i] == Objects;
    }

    /** values(): on a failed check an empty multimap and the error; otherwise the parameters. */
    method Values() returns (v: Values, err: Option<Error>)
      ensures fresh(v)
      ensures SubscribeParams(State()).Err? ==> err == Some(SubscribeParams(State()).error) && v.entries == map[]
      ensures SubscribeParams(State()).Ok? ==> err == None && v.entries == AddAll(map[], SubscribeParams(State()).value)
    {
      v := new Values();
      if !AllObjects && |Objects| == 0 {
        return v, Some(NoObjects);
      }
      if Event == "" {
        return v, Some(NoEvent);
      }
      if notifyTo.WireName() == "" {
        return v, Some(NoChannel);
      }
      ghost var objectParams := ObjectsParams(State());
      if AllObjects {
        v.Add("phones_all", "1");
      } else {
        AddPhonesTo(v);
      }
      assert v.entries == AddAll(map[], objectParams);
      AddAllSnoc(map[], objectParams, "events", Event);
      v.Add("events", Event);
      ghost var added := objectParams + [("events", Event)];
      AddAllSnoc(map[], added, "notify_type", notifyTo.WireName());
      v.Add("notify_type", notifyTo.WireName());
      added := added + [("notify_type", notifyTo.WireName())];
      match notifyTo {
        case Sms =>
          AddAllSnoc(map[], added, "notify_value", smsPhone.String());
          v.Add("notify_value", smsPhone.String());
        case Email =>
          AddAllSnoc(map[], added, "notify_value", email);
          v.Add("notify_value", email);
        case Telegram =>
          assert added + [] == added;
        case Unset =>
      }
      added := added + NotifyValueParams(State());
      assert added == SubscribeParams(State()).value;
      return v, None;
    }
  }
}
