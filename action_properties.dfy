/**
 * What the encoders promise, stated through the values each parameter name ends up with:
 * fields are sent only when set, destinations and schedule flags are indexed by position, and
 * the subscription sends the channel set last.
 */
module ActionProperties {
  import opened Wrappers
  import opened Errors
  import opened Numbers
  import opened UrlValues
  import opened Primitives
  import opened Actions

  // ---------------------------------------------------------------------------------------------
  // Parameter names

  /** The number of decimal digits s starts with. */
  function DigitRun(s: string): (n: nat)
    ensures n <= |s|
  {
    if s == [] || !IsDigit(s[0]) then 0 else 1 + DigitRun(s[1..])
  }

  lemma {:induction false} DigitRunOf(d: string, rest: string)
    requires AllDigits(d) && rest != [] && !IsDigit(rest[0])
    ensures DigitRun(d + rest) == |d|
  {
    if d != [] {
      assert (d + rest)[1..] == d[1..] + rest;
      DigitRunOf(d[1..], rest);
    } else {
      assert d + rest == rest;
    }
  }

  /** Two destination parameters have the same name only for the same position and field. */
  lemma DestinationKeyInjective(i: nat, j: nat, f: string, g: string)
    requires DestinationKey(i, f) == DestinationKey(j, g)
    ensures i == j && f == g
  {
    var a, b := FormatUint(i), FormatUint(j);
    var k := DestinationKey(i, f);
    assert k[12..] == a + ("][" + f + "]");
    assert k[12..] == b + ("][" + g + "]");
    DigitRunOf(a, "][" + f + "]");
    DigitRunOf(b, "][" + g + "]");
    assert a == k[12..12 + |a|] == b;
    FormatUintInjective(i, j);
    assert f == k[14 + |a|..|k| - 1] == g;
  }

  lemma WeekdayKeyInjective(d: nat, e: nat)
    requires WeekdayKey(d) == WeekdayKey(e)
    ensures d == e
  {
    assert FormatUint(d) == WeekdayKey(d)[2..] == WeekdayKey(e)[2..] == FormatUint(e);
    FormatUintInjective(d, e);
  }

  lemma DestinationKeyPrefixed(idx: nat, field: string)
    ensures HasPrefix(DestinationKey(idx, field), "destination[")
  {
    var k := DestinationKey(idx, field);
    assert k[..12] == "destination[";
  }

  lemma MetadataNamePrefixed(key: string)
    ensures HasPrefix(MetadataName(key), "metadata[")
  {
    var n := MetadataName(key);
    assert n == "metadata[" + key + "]";
    assert n[..9] == "metadata[";
  }

  lemma DestinationParamsPrefixed(idx: nat, d: DestinationOptions, fmt: Formatter)
    ensures AllPrefixed(DestinationParams(idx, d, fmt), "destination[")
  {
    DestinationKeyPrefixed(idx, "text");
    DestinationKeyPrefixed(idx, "coord");
    DestinationKeyPrefixed(idx, "time");
  }

  lemma {:induction false} DestinationsParamsPrefixed(ds: seq<DestinationOptions>, n: nat, fmt: Formatter)
    requires n <= |ds|
    ensures AllPrefixed(DestinationsParams(ds, n, fmt), "destination[")
  {
    if n > 0 {
      DestinationsParamsPrefixed(ds, n - 1, fmt);
      DestinationParamsPrefixed(n - 1, ds[n - 1], fmt);
      AllPrefixedConcat(DestinationsParams(ds, n - 1, fmt), DestinationParams(n - 1, ds[n - 1], fmt), "destination[");
    }
  }

  lemma PrefixedWeaken(ps: seq<Param>, p: string, q: string)
    requires AllPrefixed(ps, p) && HasPrefix(p, q)
    ensures AllPrefixed(ps, q)
  {
    forall i | 0 <= i < |ps| ensures HasPrefix(ps[i].0, q) {
      assert ps[i].0[..|q|] == ps[i].0[..|p|][..|q|];
    }
  }

  lemma WeekdayKeyPrefixed(d: nat)
    ensures HasPrefix(WeekdayKey(d), "sw")
  {
    assert WeekdayKey(d)[..2] == "sw";
  }

  lemma {:induction false} WeekdayParamsPrefixed(days: seq<bool>, n: nat)
    requires n <= |days|
    ensures AllPrefixed(WeekdayParams(days, n), "sw")
  {
    if n > 0 {
      WeekdayParamsPrefixed(days, n - 1);
      WeekdayKeyPrefixed(n);
      var last := if days[n - 1] then [(WeekdayKey(n), "1")] else [];
      AllPrefixedConcat(WeekdayParams(days, n - 1), last, "sw");
    }
  }

  lemma {:induction false} FireAtParamsPrefixed(ts: seq<Instant>, fmt: Formatter)
    ensures AllPrefixed(FireAtParams(ts, fmt), "st[]")
    decreases |ts|
  {
    if ts != [] {
      FireAtParamsPrefixed(ts[..|ts| - 1], fmt);
      AllPrefixedConcat(FireAtParams(ts[..|ts| - 1], fmt), [("st[]", fmt.layout(ts[|ts| - 1], HourMinute))], "st[]");
    }
  }

  /** Everything a schedule sends is named sw<d> or st[]. */
  lemma SchedulePrefixed(s: Schedule, fmt: Formatter)
    requires ScheduleEncode(s, fmt).Ok?
    ensures AllPrefixed(ScheduleEncode(s, fmt).value, "s")
  {
    WeekdayParamsPrefixed(s.weekdays, |s.weekdays|);
    FireAtParamsPrefixed(s.fireAt, fmt);
    PrefixedWeaken(WeekdayParams(s.weekdays, |s.weekdays|), "sw", "s");
    PrefixedWeaken(FireAtParams(s.fireAt, fmt), "st[]", "s");
    AllPrefixedConcat(WeekdayParams(s.weekdays, |s.weekdays|), FireAtParams(s.fireAt, fmt), "s");
  }

  // ---------------------------------------------------------------------------------------------
  // Metadata

  /** The metadata loop leaves every name outside metadata[...] as it was. */
  lemma AddMetadataOther(m: Multimap, md: map<string, string>, x: string)
    requires !HasPrefix(x, "metadata[")
    ensures Get(AddMetadata(m, md), x) == Get(m, x)
  {
    if |x| >= 10 && MetadataName(x[9..|x| - 1]) == x {
      MetadataNamePrefixed(x[9..|x| - 1]);
    }
    assert MetadataValue(md, x) == [];
    if x in MetadataNames(md) {
      var k :| k in md && MetadataName(k) == x;
      MetadataNamePrefixed(k);
    }
  }

  /** One value per metadata entry, under metadata[key], whatever order the map is visited in. */
  lemma AddMetadataGet(m: Multimap, md: map<string, string>, key: string)
    requires key in md
    ensures Get(AddMetadata(m, md), MetadataName(key)) == Get(m, MetadataName(key)) + [md[key]]
  {
    var n := MetadataName(key);
    assert n[9..|n| - 1] == key;
    assert n in MetadataNames(md);
    assert MetadataValue(md, n) == [md[key]];
  }

  // ---------------------------------------------------------------------------------------------
  // ObjectOptions

  /** What an optional pair gives name x. */
  function OptValue(c: bool, p: Param, x: string): seq<string>
  {
    if c && p.0 == x then [p.1] else []
  }

  lemma ValuesOfOpt(c: bool, p: Param, x: string)
    ensures ValuesOf(Opt(c, p), x) == OptValue(c, p, x)
  {
    if c {
      assert Opt(c, p)[..0] == [];
    }
  }

  /** What ScalarParams gives one name: what each of its optional parts gives it. */
  lemma ValuesOfScalars(o: ObjectOptions, fmt: Formatter, x: string)
    ensures ValuesOf(ScalarParams(o, fmt), x) ==
      ValuesOf(Opt(o.Title != "", ("title", o.Title)), x)
      + ValuesOf(Opt(!o.DateOff.IsZero(), ("dateoff", fmt.layout(o.DateOff, DateTimeSeconds))), x)
      + ValuesOf(Opt(o.Tariff != "", ("tariff", o.Tariff)), x)
      + ValuesOf(Opt(o.PackageProlong, ("package_prolong", "1")), x)
      + ValuesOf(Opt(|o.Tags| > 0, ("tags", Join(o.Tags, ","))), x)
  {
    var a := Opt(o.Title != "", ("title", o.Title));
    var b := Opt(!o.DateOff.IsZero(), ("dateoff", fmt.layout(o.DateOff, DateTimeSeconds)));
    var c := Opt(o.Tariff != "", ("tariff", o.Tariff));
    var d := Opt(o.PackageProlong, ("package_prolong", "1"));
    var e := Opt(|o.Tags| > 0, ("tags", Join(o.Tags, ",")));
    ValuesOfConcat(a + b + c + d, e, x);
    ValuesOfConcat(a + b + c, d, x);
    ValuesOfConcat(a + b, c, x);
    ValuesOfConcat(a, b, x);
  }

  /** Names outside the metadata, destination and schedule namespaces. */
  predicate IsPlainName(x: string)
  {
    !HasPrefix(x, "metadata[") && !HasPrefix(x, "destination[") && !HasPrefix(x, "s")
  }

  /** Before the schedule, a plain name gets its values from the scalar fields and autoinform only. */
  lemma EncodeFieldsPlain(m: Multimap, o: ObjectOptions, fmt: Formatter, x: string)
    requires IsPlainName(x)
    ensures Get(EncodeFields(m, o, fmt), x) ==
      Get(m, x) + ValuesOf(ScalarParams(o, fmt), x) + (if o.CallToDriver && x == "autoinform" then ["1"] else [])
  {
    var w := AddAll(m, ScalarParams(o, fmt));
    AddAllGet(m, ScalarParams(o, fmt), x);
    AddMetadataOther(w, o.Metadata, x);
    if !(o.CallToDriver && x == "autoinform") {
      EmptySuffix(Get(m, x) + ValuesOf(ScalarParams(o, fmt), x));
      if x != "autoinform" {
        GetAppendedOther(AddMetadata(w, o.Metadata), "autoinform", "1", x);
      }
    }
  }

  /** The schedule and the destinations send nothing under a name outside their namespaces. */
  lemma EncodeRestOther(m: Multimap, sched: Option<Schedule>, ds: seq<DestinationOptions>, fmt: Formatter, x: string)
    requires !HasPrefix(x, "destination[") && !HasPrefix(x, "s")
    ensures Get(EncodeRest(m, sched, ds, fmt).0, x) == Get(m, x)
  {
    var k := match FirstWithoutText(ds) case None => |ds| case Some(k) => k;
    DestinationsParamsPrefixed(ds, k, fmt);
    NoValuesOutsidePrefix(DestinationsParams(ds, k, fmt), "destination[", x);
    match sched {
      case None =>
        AddAllGet(m, DestinationsParams(ds, k, fmt), x);
      case Some(s) =>
        match ScheduleEncode(s, fmt) {
          case Err(_) =>
          case Ok(ps) =>
            SchedulePrefixed(s, fmt);
            NoValuesOutsidePrefix(ps, "s", x);
            AddAllGet(m, ps, x);
            AddAllGet(AddAll(m, ps), DestinationsParams(ds, k, fmt), x);
        }
    }
  }

  /** What ScalarParams gives a name: the value of each set field whose name it is. */
  lemma ScalarValues(o: ObjectOptions, fmt: Formatter, x: string)
    ensures ValuesOf(ScalarParams(o, fmt), x) ==
      OptValue(o.Title != "", ("title", o.Title), x)
      + OptValue(!o.DateOff.IsZero(), ("dateoff", fmt.layout(o.DateOff, DateTimeSeconds)), x)
      + OptValue(o.Tariff != "", ("tariff", o.Tariff), x)
      + OptValue(o.PackageProlong, ("package_prolong", "1"), x)
      + OptValue(|o.Tags| > 0, ("tags", Join(o.Tags, ",")), x)
  {
    ValuesOfScalars(o, fmt, x);
    ValuesOfOpt(o.Title != "", ("title", o.Title), x);
    ValuesOfOpt(!o.DateOff.IsZero(), ("dateoff", fmt.layout(o.DateOff, DateTimeSeconds)), x);
    ValuesOfOpt(o.Tariff != "", ("tariff", o.Tariff), x);
    ValuesOfOpt(o.PackageProlong, ("package_prolong", "1"), x);
    ValuesOfOpt(|o.Tags| > 0, ("tags", Join(o.Tags, ",")), x);
  }

  /** ScalarParams sends nothing under a name that is none of the five scalar names. */
  lemma ScalarParamsOther(o: ObjectOptions, fmt: Formatter, x: string)
    requires x != "title" && x != "dateoff" && x != "tariff" && x != "package_prolong" && x != "tags"
    ensures ValuesOf(ScalarParams(o, fmt), x) == []
  {
    ScalarValues(o, fmt, x);
  }

  /** Appending nothing leaves a list as it is: a sequence identity, kept only as a hint for the solver. */
  lemma EmptySuffix(s: seq<string>)
    ensures s + [] == s
  {
  }

  /** The scalar names lie outside the metadata, destination and schedule namespaces. */
  lemma ScalarNamesPlain()
    ensures IsPlainName("title") && IsPlainName("dateoff") && IsPlainName("tariff")
    ensures IsPlainName("package_prolong") && IsPlainName("tags") && IsPlainName("autoinform")
  {
    assert "title"[..1][0] == 't' && "tariff"[..1][0] == 't' && "tags"[..1][0] == 't';
    assert "package_prolong"[..1][0] == 'p' && "autoinform"[..1][0] == 'a' && "dateoff"[..1][0] == 'd';
    assert "package_prolong"[..9][0] == 'p' && "autoinform"[..9][0] == 'a';
  }

  /** Into an empty target, a plain name holds what the scalar parameters and autoinform give it. */
  lemma ObjectPlainName(o: ObjectOptions, sched: Option<Schedule>, fmt: Formatter, x: string)
    requires IsPlainName(x)
    ensures Get(EncodeObject(map[], o, sched, fmt).0, x) ==
      ValuesOf(ScalarParams(o, fmt), x) + (if o.CallToDriver && x == "autoinform" then ["1"] else [])
  {
    var vs, a := ValuesOf(ScalarParams(o, fmt), x), if o.CallToDriver && x == "autoinform" then ["1"] else [];
    EncodeFieldsPlain(map[], o, fmt, x);
    EncodeRestOther(EncodeFields(map[], o, fmt), sched, o.Destinations, fmt, x);
    EmptyTargetPrefix(x, vs, a);
  }

  /**
   * An empty target contributes nothing in front of what is added to it: a sequence identity,
   * kept only as a hint for the solver, not a property of the model.
   */
  lemma EmptyTargetPrefix(x: string, vs: seq<string>, a: seq<string>)
    ensures Get(map[], x) + vs + a == vs + a
  {
  }

  /** The single-valued fields of ObjectOptions, with autoinform for CallToDriver. */
  datatype ScalarField = Title | DateOff | Tariff | PackageProlong | Tags | AutoInform
  {
    /** The parameter name the field is sent under. */
    function Name(): string
    {
      match this
      case Title => "title"
      case DateOff => "dateoff"
      case Tariff => "tariff"
      case PackageProlong => "package_prolong"
      case Tags => "tags"
      case AutoInform => "autoinform"
    }

    /** What the field sends: its value once when it is set, nothing at its zero value. */
    function Sent(o: ObjectOptions, fmt: Formatter): seq<string>
    {
      match this
      case Title => if o.Title != "" then [o.Title] else []
      case DateOff => if !o.DateOff.IsZero() then [fmt.layout(o.DateOff, DateTimeSeconds)] else []
      case Tariff => if o.Tariff != "" then [o.Tariff] else []
      case PackageProlong => if o.PackageProlong then ["1"] else []
      case Tags => if |o.Tags| > 0 then [Join(o.Tags, ",")] else []
      case AutoInform => if o.CallToDriver then ["1"] else []
    }
  }

  /**
   * Into an empty target, each scalar field is sent once when set and not at all at its zero
   * value, whether or not the schedule or a destination later fails; tags go as one
   * comma-joined value.
   */
  lemma ObjectScalarField(o: ObjectOptions, sched: Option<Schedule>, fmt: Formatter, f: ScalarField)
    ensures Get(EncodeObject(map[], o, sched, fmt).0, f.Name()) == f.Sent(o, fmt)
  {
    ScalarFieldPlain(f);
    ObjectPlainName(o, sched, fmt, f.Name());
    ScalarFieldSent(o, fmt, f);
  }

  /** The scalar names lie outside the metadata, destination and schedule namespaces. */
  lemma ScalarFieldPlain(f: ScalarField)
    ensures IsPlainName(f.Name())
  {
    ScalarNamesPlain();
  }

  /** The scalar parameters and autoinform send under each field's name what the field says. */
  lemma ScalarFieldSent(o: ObjectOptions, fmt: Formatter, f: ScalarField)
    ensures ValuesOf(ScalarParams(o, fmt), f.Name()) + (if o.CallToDriver && f.Name() == "autoinform" then ["1"] else []) == f.Sent(o, fmt)
  {
    match f {
      case Title => TitleSent(o, fmt);
      case DateOff => DateOffSent(o, fmt);
      case Tariff => TariffSent(o, fmt);
      case PackageProlong => PackageProlongSent(o, fmt);
      case Tags => TagsSent(o, fmt);
      case AutoInform => AutoInformSent(o, fmt);
    }
  }

  lemma TitleSent(o: ObjectOptions, fmt: Formatter)
    ensures ValuesOf(ScalarParams(o, fmt), "title") == if o.Title != "" then [o.Title] else []
  {
    ScalarValues(o, fmt, "title");
  }

  lemma DateOffSent(o: ObjectOptions, fmt: Formatter)
    ensures ValuesOf(ScalarParams(o, fmt), "dateoff") == if !o.DateOff.IsZero() then [fmt.layout(o.DateOff, DateTimeSeconds)] else []
  {
    ScalarValues(o, fmt, "dateoff");
  }

  lemma TariffSent(o: ObjectOptions, fmt: Formatter)
    ensures ValuesOf(ScalarParams(o, fmt), "tariff") == if o.Tariff != "" then [o.Tariff] else []
  {
    ScalarValues(o, fmt, "tariff");
  }

  lemma PackageProlongSent(o: ObjectOptions, fmt: Formatter)
    ensures ValuesOf(ScalarParams(o, fmt), "package_prolong") == if o.PackageProlong then ["1"] else []
  {
    ScalarValues(o, fmt, "package_prolong");
  }

  lemma TagsSent(o: ObjectOptions, fmt: Formatter)
    ensures ValuesOf(ScalarParams(o, fmt), "tags") == if |o.Tags| > 0 then [Join(o.Tags, ",")] else []
  {
    ScalarValues(o, fmt, "tags");
  }

  lemma AutoInformSent(o: ObjectOptions, fmt: Formatter)
    ensures ValuesOf(ScalarParams(o, fmt), "autoinform") == []
  {
    ScalarValues(o, fmt, "autoinform");
  }

  /** The scalar fields and autoinform send nothing under a name that is none of theirs. */
  lemma EncodeFieldsOther(m: Multimap, o: ObjectOptions, fmt: Formatter, x: string)
    requires !HasPrefix(x, "metadata[")
    requires x != "title" && x != "dateoff" && x != "tariff" && x != "package_prolong" && x != "tags" && x != "autoinform"
    ensures Get(EncodeFields(m, o, fmt), x) == Get(m, x)
  {
    var w := AddAll(m, ScalarParams(o, fmt));
    AddAllGet(m, ScalarParams(o, fmt), x);
    ScalarParamsOther(o, fmt, x);
    EmptySuffix(Get(m, x));
    AddMetadataOther(w, o.Metadata, x);
    GetAppendedOther(AddMetadata(w, o.Metadata), "autoinform", "1", x);
  }

  /** A metadata name is none of the scalar names and lies outside the destination and schedule namespaces. */
  lemma MetadataNameNotScalar(key: string)
    ensures var n := MetadataName(key);
      && !HasPrefix(n, "destination[") && !HasPrefix(n, "s")
      && n != "title" && n != "dateoff" && n != "tariff" && n != "package_prolong" && n != "tags" && n != "autoinform"
  {
    var n := MetadataName(key);
    MetadataNamePrefixed(key);
    assert n[0] == 'm';
  }

  /** The metadata loop adds each entry under its own name, on top of what the scalar fields sent. */
  lemma EncodeFieldsMetadata(m: Multimap, o: ObjectOptions, fmt: Formatter, key: string)
    requires key in o.Metadata
    ensures Get(EncodeFields(m, o, fmt), MetadataName(key)) == Get(m, MetadataName(key)) + [o.Metadata[key]]
  {
    var n := MetadataName(key);
    MetadataNameNotScalar(key);
    var w := AddAll(m, ScalarParams(o, fmt));
    AddAllGet(m, ScalarParams(o, fmt), n);
    ScalarParamsOther(o, fmt, n);
    EmptySuffix(Get(m, n));
    AddMetadataGet(w, o.Metadata, key);
    GetAppendedOther(AddMetadata(w, o.Metadata), "autoinform", "1", n);
  }

  /**
   * Into an empty target, every metadata entry is sent once, under metadata[key], whether or not
   * the rest of the encoding fails.
   */
  lemma ObjectMetadataField(o: ObjectOptions, sched: Option<Schedule>, fmt: Formatter, key: string)
    requires key in o.Metadata
    ensures Get(EncodeObject(map[], o, sched, fmt).0, MetadataName(key)) == [o.Metadata[key]]
  {
    MetadataNameNotScalar(key);
    EncodeFieldsMetadata(map[], o, fmt, key);
    EncodeRestOther(EncodeFields(map[], o, fmt), sched, o.Destinations, fmt, MetadataName(key));
    EmptyTargetPrefix(MetadataName(key), [o.Metadata[key]], []);
    EmptySuffix([o.Metadata[key]]);
  }

  // ---------------------------------------------------------------------------------------------
  // Destinations

  /** What one destination sends under each of its three field names. */
  function DestinationValue(d: DestinationOptions, fmt: Formatter, field: string): seq<string>
  {
    if field == "text" then [d.Text]
    else if field == "coord" then [fmt.fixed8(d.Lat) + "," + fmt.fixed8(d.Lon)]
    else if field == "time" && !d.ExpectedTime.IsZero() then [fmt.layout(d.ExpectedTime, DateTimeMinutes)]
    else []
  }

  /** A destination's parameters are all named by its own position. */
  lemma DestinationParamsValues(idx: nat, d: DestinationOptions, fmt: Formatter, i: nat, field: string)
    ensures ValuesOf(DestinationParams(idx, d, fmt), DestinationKey(i, field)) ==
      if i == idx then DestinationValue(d, fmt, field) else []
  {
    var k := DestinationKey(i, field);
    var ps := DestinationParams(idx, d, fmt);
    if DestinationKey(idx, "text") == k { DestinationKeyInjective(idx, i, "text", field); }
    if DestinationKey(idx, "coord") == k { DestinationKeyInjective(idx, i, "coord", field); }
    if DestinationKey(idx, "time") == k { DestinationKeyInjective(idx, i, "time", field); }
    var t := [(DestinationKey(idx, "text"), d.Text)];
    var c := [(DestinationKey(idx, "coord"), fmt.fixed8(d.Lat) + "," + fmt.fixed8(d.Lon))];
    var rest := if d.ExpectedTime.IsZero() then [] else [(DestinationKey(idx, "time"), fmt.layout(d.ExpectedTime, DateTimeMinutes))];
    assert ps == t + c + rest;
    ValuesOfConcat(t + c, rest, k);
    ValuesOfConcat(t, c, k);
    assert t[..0] == [] && c[..0] == [];
    if !d.ExpectedTime.IsZero() { assert rest[..0] == []; }
  }

  lemma DestinationsParamsValuesStep(ds: seq<DestinationOptions>, j: nat, fmt: Formatter, i: nat, field: string)
    requires j < |ds|
    requires i < j ==> ValuesOf(DestinationsParams(ds, j, fmt), DestinationKey(i, field)) == ValuesOf(DestinationParams(i, ds[i], fmt), DestinationKey(i, field))
    requires j <= i ==> ValuesOf(DestinationsParams(ds, j, fmt), DestinationKey(i, field)) == []
    ensures i < j + 1 ==> ValuesOf(DestinationsParams(ds, j + 1, fmt), DestinationKey(i, field)) == ValuesOf(DestinationParams(i, ds[i], fmt), DestinationKey(i, field))
    ensures j + 1 <= i ==> ValuesOf(DestinationsParams(ds, j + 1, fmt), DestinationKey(i, field)) == []
  {
    var k := DestinationKey(i, field);
    ValuesOfConcat(DestinationsParams(ds, j, fmt), DestinationParams(j, ds[j], fmt), k);
    if i != j {
      DestinationParamsValues(j, ds[j], fmt, i, field);
    }
  }

  /** The first n destinations send, under position i's names, what destination i sends when i < n. */
  lemma DestinationsParamsValues(ds: seq<DestinationOptions>, n: nat, fmt: Formatter, i: nat, field: string)
    requires n <= |ds|
    ensures i < n ==> ValuesOf(DestinationsParams(ds, n, fmt), DestinationKey(i, field)) == ValuesOf(DestinationParams(i, ds[i], fmt), DestinationKey(i, field))
    ensures n <= i ==> ValuesOf(DestinationsParams(ds, n, fmt), DestinationKey(i, field)) == []
  {
    var j := 0;
    while j < n
      invariant j <= n
      invariant i < j ==> ValuesOf(DestinationsParams(ds, j, fmt), DestinationKey(i, field)) == ValuesOf(DestinationParams(i, ds[i], fmt), DestinationKey(i, field))
      invariant j <= i ==> ValuesOf(DestinationsParams(ds, j, fmt), DestinationKey(i, field)) == []
    {
      DestinationsParamsValuesStep(ds, j, fmt, i, field);
      j := j + 1;
    }
  }

  /** How many destinations the encoder adds: all of them, or those before the first without a text. */
  function SentDestinations(ds: seq<DestinationOptions>): (n: nat)
    ensures n <= |ds|
  {
    match FirstWithoutText(ds)
    case None => |ds|
    case Some(k) => k
  }

  /** The schedule does not stop the encoding: there is none, or it is complete. */
  predicate ScheduleAccepted(sched: Option<Schedule>, fmt: Formatter)
  {
    sched.None? || ScheduleEncode(sched.value, fmt).Ok?
  }

  /** After the scalar fields, destination i's names gain its fields when the encoding reaches it. */
  lemma EncodeRestDestination(m: Multimap, sched: Option<Schedule>, ds: seq<DestinationOptions>, fmt: Formatter, i: nat, field: string)
    ensures Get(EncodeRest(m, sched, ds, fmt).0, DestinationKey(i, field)) ==
      Get(m, DestinationKey(i, field)) + if ScheduleAccepted(sched, fmt) && i < SentDestinations(ds) then DestinationValue(ds[i], fmt, field) else []
  {
    var k := DestinationKey(i, field);
    var n := SentDestinations(ds);
    var dps := DestinationsParams(ds, n, fmt);
    DestinationsParamsValues(ds, n, fmt, i, field);
    if i < n {
      DestinationParamsValues(i, ds[i], fmt, i, field);
    }
    match sched {
      case None =>
        AddAllGet(m, dps, k);
      case Some(s) =>
        match ScheduleEncode(s, fmt) {
          case Err(_) =>
            assert Get(m, k) + [] == Get(m, k);
          case Ok(ps) =>
            DestinationKeyPrefixed(i, field);
            assert k[0] == 'd';
            SchedulePrefixed(s, fmt);
            NoValuesOutsidePrefix(ps, "s", k);
            AddAllGet(m, ps, k);
            AddAllGet(AddAll(m, ps), dps, k);
        }
    }
  }

  /** A destination name is none of the scalar or metadata names. */
  lemma DestinationKeyNotScalar(i: nat, field: string)
    ensures var k := DestinationKey(i, field);
      && !HasPrefix(k, "metadata[")
      && k != "title" && k != "dateoff" && k != "tariff" && k != "package_prolong" && k != "tags" && k != "autoinform"
  {
    var k := DestinationKey(i, field);
    DestinationKeyPrefixed(i, field);
    assert k[0] == 'd' && |k| > 15;
  }

  /**
   * Into an empty target, destination i's fields are sent under destination[i][...] exactly when
   * the schedule was accepted and no destination up to i lacks a text: the destinations before
   * the first one without a text stay in the target although the call fails.
   */
  lemma ObjectDestinationField(o: ObjectOptions, sched: Option<Schedule>, fmt: Formatter, i: nat, field: string)
    ensures Get(EncodeObject(map[], o, sched, fmt).0, DestinationKey(i, field)) ==
      if ScheduleAccepted(sched, fmt) && i < SentDestinations(o.Destinations) then DestinationValue(o.Destinations[i], fmt, field) else []
  {
    DestinationKeyNotScalar(i, field);
    EncodeFieldsOther(map[], o, fmt, DestinationKey(i, field));
    EncodeRestDestination(EncodeFields(map[], o, fmt), sched, o.Destinations, fmt, i, field);
  }

  /**
   * The error of ObjectOptions.addValuesTo on a non-nil target: the schedule's, else a missing
   * destination text, else none.
   */
  lemma ObjectError(m: Multimap, o: ObjectOptions, sched: Option<Schedule>, fmt: Formatter)
    ensures EncodeObject(m, o, sched, fmt).1 ==
      if !ScheduleAccepted(sched, fmt) then Some(ScheduleEncode(sched.value, fmt).error)
      else if exists i | 0 <= i < |o.Destinations| :: o.Destinations[i].Text == "" then Some(MissingText)
      else None
  {
    if FirstWithoutText(o.Destinations).Some? {
      var k := FirstWithoutText(o.Destinations).value;
      assert o.Destinations[k].Text == "";
    }
  }

  // ---------------------------------------------------------------------------------------------
  // Schedule

  lemma WeekdayParamsValuesStep(days: seq<bool>, j: nat, d: nat)
    requires j < |days|
    requires ValuesOf(WeekdayParams(days, j), WeekdayKey(d)) == if 1 <= d <= j && days[d - 1] then ["1"] else []
    ensures ValuesOf(WeekdayParams(days, j + 1), WeekdayKey(d)) == if 1 <= d <= j + 1 && days[d - 1] then ["1"] else []
  {
    var last := if days[j] then [(WeekdayKey(j + 1), "1")] else [];
    assert WeekdayParams(days, j + 1) == WeekdayParams(days, j) + last;
    ValuesOfConcat(WeekdayParams(days, j), last, WeekdayKey(d));
    if days[j] {
      assert last[..0] == [];
      if WeekdayKey(j + 1) == WeekdayKey(d) { WeekdayKeyInjective(j + 1, d); }
    }
  }

  /** sw<d> is sent once, with the value 1, exactly when day d-1 is on (d = 1 is Monday). */
  lemma {:induction false} WeekdayParamsValues(days: seq<bool>, n: nat, d: nat)
    requires n <= |days|
    ensures ValuesOf(WeekdayParams(days, n), WeekdayKey(d)) == if 1 <= d <= n && days[d - 1] then ["1"] else []
  {
    if n > 0 {
      WeekdayParamsValues(days, n - 1, d);
      WeekdayParamsValuesStep(days, n - 1, d);
    }
  }

  /** st[] carries the fire times, formatted as hours and minutes, in list order. */
  lemma {:induction false} FireAtParamsValues(ts: seq<Instant>, fmt: Formatter)
    ensures var r := ValuesOf(FireAtParams(ts, fmt), "st[]");
      |r| == |ts| && forall i | 0 <= i < |ts| :: r[i] == fmt.layout(ts[i], HourMinute)
    decreases |ts|
  {
    if ts != [] {
      var init := ts[..|ts| - 1];
      FireAtParamsValues(init, fmt);
      var last := [("st[]", fmt.layout(ts[|ts| - 1], HourMinute))];
      assert FireAtParams(ts, fmt) == FireAtParams(init, fmt) + last;
      ValuesOfConcat(FireAtParams(init, fmt), last, "st[]");
      assert last[..0] == [];
    }
  }

  /**
   * What an accepted schedule sends: sw<d>=1 for each day that is on, and the formatted fire
   * times under st[], in order.
   */
  lemma ScheduleValues(s: Schedule, fmt: Formatter, d: nat)
    requires ScheduleEncode(s, fmt).Ok?
    ensures ValuesOf(ScheduleEncode(s, fmt).value, WeekdayKey(d)) == if 1 <= d <= |s.weekdays| && s.weekdays[d - 1] then ["1"] else []
    ensures var r := ValuesOf(ScheduleEncode(s, fmt).value, "st[]");
      |r| == |s.fireAt| && forall i | 0 <= i < |s.fireAt| :: r[i] == fmt.layout(s.fireAt[i], HourMinute)
  {
    ScheduleWeekdayValues(s, fmt, d);
    ScheduleFireAtValues(s, fmt);
  }

  lemma ScheduleWeekdayValues(s: Schedule, fmt: Formatter, d: nat)
    requires ScheduleEncode(s, fmt).Ok?
    ensures ValuesOf(ScheduleEncode(s, fmt).value, WeekdayKey(d)) == if 1 <= d <= |s.weekdays| && s.weekdays[d - 1] then ["1"] else []
  {
    var w, f := WeekdayParams(s.weekdays, |s.weekdays|), FireAtParams(s.fireAt, fmt);
    WeekdayParamsValues(s.weekdays, |s.weekdays|, d);
    FireAtParamsPrefixed(s.fireAt, fmt);
    assert WeekdayKey(d)[1] == 'w';
    NoValuesOutsidePrefix(f, "st[]", WeekdayKey(d));
    ValuesOfConcat(w, f, WeekdayKey(d));
  }

  lemma ScheduleFireAtValues(s: Schedule, fmt: Formatter)
    requires ScheduleEncode(s, fmt).Ok?
    ensures var r := ValuesOf(ScheduleEncode(s, fmt).value, "st[]");
      |r| == |s.fireAt| && forall i | 0 <= i < |s.fireAt| :: r[i] == fmt.layout(s.fireAt[i], HourMinute)
  {
    var w, f := WeekdayParams(s.weekdays, |s.weekdays|), FireAtParams(s.fireAt, fmt);
    FireAtParamsValues(s.fireAt, fmt);
    WeekdayParamsPrefixed(s.weekdays, |s.weekdays|);
    assert "st[]"[1] == 't';
    NoValuesOutsidePrefix(w, "sw", "st[]");
    ValuesOfConcat(w, f, "st[]");
  }

  /** The schedule's names are none of the scalar or metadata names and lie outside the destinations. */
  lemma ScheduleNamesOther(x: string)
    requires HasPrefix(x, "s")
    ensures !HasPrefix(x, "metadata[") && !HasPrefix(x, "destination[")
    ensures x != "title" && x != "dateoff" && x != "tariff" && x != "package_prolong" && x != "tags" && x != "autoinform"
  {
    assert x[0] == 's';
  }

  /** After the scalar fields, a schedule name gains what an accepted schedule sends under it. */
  lemma EncodeRestSchedule(m: Multimap, s: Schedule, ds: seq<DestinationOptions>, fmt: Formatter, x: string)
    requires !HasPrefix(x, "destination[")
    ensures Get(EncodeRest(m, Some(s), ds, fmt).0, x) ==
      Get(m, x) + if ScheduleEncode(s, fmt).Ok? then ValuesOf(ScheduleEncode(s, fmt).value, x) else []
  {
    match ScheduleEncode(s, fmt) {
      case Err(_) =>
        assert Get(m, x) + [] == Get(m, x);
      case Ok(ps) =>
        var dps := DestinationsParams(ds, SentDestinations(ds), fmt);
        DestinationsParamsPrefixed(ds, SentDestinations(ds), fmt);
        NoValuesOutsidePrefix(dps, "destination[", x);
        AddAllGet(m, ps, x);
        AddAllGet(AddAll(m, ps), dps, x);
    }
  }

  /**
   * Into an empty target, sw<d>=1 is sent exactly when the schedule is complete (a fire time and
   * a day that is on) and day d-1 is on.
   */
  lemma ObjectWeekdayField(o: ObjectOptions, s: Schedule, fmt: Formatter, d: nat)
    ensures Get(EncodeObject(map[], o, Some(s), fmt).0, WeekdayKey(d)) ==
      if ScheduleEncode(s, fmt).Ok? && 1 <= d <= |s.weekdays| && s.weekdays[d - 1] then ["1"] else []
  {
    assert WeekdayKey(d)[..1] == "s";
    ScheduleNamesOther(WeekdayKey(d));
    EncodeFieldsOther(map[], o, fmt, WeekdayKey(d));
    EncodeRestSchedule(EncodeFields(map[], o, fmt), s, o.Destinations, fmt, WeekdayKey(d));
    if ScheduleEncode(s, fmt).Ok? {
      ScheduleValues(s, fmt, d);
    }
  }

  /** Into an empty target, st[] carries the formatted fire times exactly when the schedule is complete. */
  lemma ObjectFireTimesField(o: ObjectOptions, s: Schedule, fmt: Formatter)
    ensures var r := Get(EncodeObject(map[], o, Some(s), fmt).0, "st[]");
      if ScheduleEncode(s, fmt).Ok? then |r| == |s.fireAt| && forall i | 0 <= i < |s.fireAt| :: r[i] == fmt.layout(s.fireAt[i], HourMinute)
      else r == []
  {
    assert "st[]"[..1] == "s";
    ScheduleNamesOther("st[]");
    EncodeFieldsOther(map[], o, fmt, "st[]");
    EncodeRestSchedule(EncodeFields(map[], o, fmt), s, o.Destinations, fmt, "st[]");
    if ScheduleEncode(s, fmt).Ok? {
      ScheduleValues(s, fmt, 0);
    }
  }

  // ---------------------------------------------------------------------------------------------
  // Nothing else is sent

  /** Distinct metadata keys give distinct names. */
  lemma MetadataNameInjective(k: string, key: string)
    ensures MetadataName(k) == MetadataName(key) ==> k == key
  {
    var n, m := MetadataName(k), MetadataName(key);
    assert n[9..|n| - 1] == k;
    assert m[9..|m| - 1] == key;
  }

  /** The metadata loop gives nothing to a name that is none of its entries' names. */
  lemma AddMetadataUnused(m: Multimap, md: map<string, string>, x: string)
    requires x !in MetadataNames(md)
    ensures Get(AddMetadata(m, md), x) == Get(m, x)
  {
    assert MetadataValue(md, x) == [];
  }

  /** The fields before the schedule give nothing to a metadata name that is none of the entries'. */
  lemma EncodeFieldsUnusedMetadata(m: Multimap, o: ObjectOptions, fmt: Formatter, x: string)
    requires x !in MetadataNames(o.Metadata)
    requires x != "title" && x != "dateoff" && x != "tariff" && x != "package_prolong" && x != "tags" && x != "autoinform"
    ensures Get(EncodeFields(m, o, fmt), x) == Get(m, x)
  {
    var w := AddAll(m, ScalarParams(o, fmt));
    AddAllGet(m, ScalarParams(o, fmt), x);
    ScalarParamsOther(o, fmt, x);
    EmptySuffix(Get(m, x));
    AddMetadataUnused(w, o.Metadata, x);
    GetAppendedOther(AddMetadata(w, o.Metadata), "autoinform", "1", x);
  }

  /** A name in the metadata namespace is none of the scalar names and outside the other two namespaces. */
  lemma MetadataPrefixedOther(x: string)
    requires HasPrefix(x, "metadata[")
    ensures !HasPrefix(x, "destination[") && !HasPrefix(x, "s")
    ensures x != "title" && x != "dateoff" && x != "tariff" && x != "package_prolong" && x != "tags" && x != "autoinform"
  {
    assert x[0] == x[..9][0] == 'm';
  }

  /** Into an empty target, a metadata[...] name that is no entry's name gets nothing. */
  lemma ObjectMetadataUnused(o: ObjectOptions, sched: Option<Schedule>, fmt: Formatter, x: string)
    requires HasPrefix(x, "metadata[") && x !in MetadataNames(o.Metadata)
    ensures Get(EncodeObject(map[], o, sched, fmt).0, x) == []
  {
    MetadataPrefixedOther(x);
    EncodeFieldsUnusedMetadata(map[], o, fmt, x);
    EncodeRestOther(EncodeFields(map[], o, fmt), sched, o.Destinations, fmt, x);
  }

  /** Into an empty target, metadata[key] gets nothing when key is not in Metadata. */
  lemma ObjectMetadataAbsent(o: ObjectOptions, sched: Option<Schedule>, fmt: Formatter, key: string)
    requires key !in o.Metadata
    ensures Get(EncodeObject(map[], o, sched, fmt).0, MetadataName(key)) == []
  {
    forall k | k in o.Metadata
      ensures MetadataName(k) != MetadataName(key)
    {
      MetadataNameInjective(k, key);
    }
    MetadataNamePrefixed(key);
    ObjectMetadataUnused(o, sched, fmt, MetadataName(key));
  }

  /** The weekday loop sends under sw<d> names only. */
  lemma {:induction false} WeekdayParamsOnly(days: seq<bool>, n: nat, x: string)
    requires n <= |days|
    requires forall d: nat :: x != WeekdayKey(d)
    ensures ValuesOf(WeekdayParams(days, n), x) == []
  {
    if n > 0 {
      WeekdayParamsOnly(days, n - 1, x);
      var last := if days[n - 1] then [(WeekdayKey(n), "1")] else [];
      ValuesOfConcat(WeekdayParams(days, n - 1), last, x);
      ValuesOfAbsent(last, x);
    }
  }

  /** The FireAt loop sends under st[] only. */
  lemma {:induction false} FireAtParamsOnly(ts: seq<Instant>, fmt: Formatter, x: string)
    requires x != "st[]"
    ensures ValuesOf(FireAtParams(ts, fmt), x) == []
    decreases |ts|
  {
    if ts != [] {
      var init := ts[..|ts| - 1];
      var last := [("st[]", fmt.layout(ts[|ts| - 1], HourMinute))];
      FireAtParamsOnly(init, fmt, x);
      ValuesOfConcat(FireAtParams(init, fmt), last, x);
      ValuesOfAbsent(last, x);
    }
  }

  /** A schedule sends under sw<d> and st[] only. */
  lemma ScheduleOnly(s: Schedule, fmt: Formatter, x: string)
    requires ScheduleEncode(s, fmt).Ok?
    requires x != "st[]" && forall d: nat :: x != WeekdayKey(d)
    ensures ValuesOf(ScheduleEncode(s, fmt).value, x) == []
  {
    WeekdayParamsOnly(s.weekdays, |s.weekdays|, x);
    FireAtParamsOnly(s.fireAt, fmt, x);
    ValuesOfConcat(WeekdayParams(s.weekdays, |s.weekdays|), FireAtParams(s.fireAt, fmt), x);
  }

  /** Without a schedule, the destinations give nothing to a name outside their namespace. */
  lemma EncodeDestinationsOther(m: Multimap, ds: seq<DestinationOptions>, fmt: Formatter, x: string)
    requires !HasPrefix(x, "destination[")
    ensures Get(EncodeRest(m, None, ds, fmt).0, x) == Get(m, x)
  {
    var dps := DestinationsParams(ds, SentDestinations(ds), fmt);
    DestinationsParamsPrefixed(ds, SentDestinations(ds), fmt);
    NoValuesOutsidePrefix(dps, "destination[", x);
    AddAllGet(m, dps, x);
    EmptySuffix(Get(m, x));
  }

  /** Into an empty target, a name starting with "s" other than sw<d> and st[] gets nothing. */
  lemma ObjectScheduleUnused(o: ObjectOptions, sched: Option<Schedule>, fmt: Formatter, x: string)
    requires HasPrefix(x, "s") && x != "st[]" && forall d: nat :: x != WeekdayKey(d)
    ensures Get(EncodeObject(map[], o, sched, fmt).0, x) == []
  {
    ScheduleNamesOther(x);
    EncodeFieldsOther(map[], o, fmt, x);
    var m := EncodeFields(map[], o, fmt);
    match sched {
      case None =>
        EncodeDestinationsOther(m, o.Destinations, fmt, x);
      case Some(s) =>
        EncodeRestSchedule(m, s, o.Destinations, fmt, x);
        if ScheduleEncode(s, fmt).Ok? {
          ScheduleOnly(s, fmt, x);
        }
        EmptySuffix(Get(m, x));
    }
  }

  /** One destination sends under destination[i][field] names only. */
  lemma DestinationParamsOnly(idx: nat, d: DestinationOptions, fmt: Formatter, x: string)
    requires forall i: nat, f: string :: x != DestinationKey(i, f)
    ensures ValuesOf(DestinationParams(idx, d, fmt), x) == []
  {
    ValuesOfAbsent(DestinationParams(idx, d, fmt), x);
  }

  /** The destination loop sends under destination[i][field] names only. */
  lemma {:induction false} DestinationsParamsOnly(ds: seq<DestinationOptions>, n: nat, fmt: Formatter, x: string)
    requires n <= |ds|
    requires forall i: nat, f: string :: x != DestinationKey(i, f)
    ensures ValuesOf(DestinationsParams(ds, n, fmt), x) == []
  {
    if n > 0 {
      DestinationsParamsOnly(ds, n - 1, fmt, x);
      DestinationParamsOnly(n - 1, ds[n - 1], fmt, x);
      ValuesOfConcat(DestinationsParams(ds, n - 1, fmt), DestinationParams(n - 1, ds[n - 1], fmt), x);
    }
  }

  /** A name in the destination namespace is none of the scalar or metadata names and outside the schedule's. */
  lemma DestinationPrefixedOther(x: string)
    requires HasPrefix(x, "destination[")
    ensures !HasPrefix(x, "metadata[") && !HasPrefix(x, "s")
    ensures x != "title" && x != "dateoff" && x != "tariff" && x != "package_prolong" && x != "tags" && x != "autoinform"
  {
    assert x[0] == x[..12][0] == 'd' && |x| >= 12;
  }

  /** Into an empty target, a destination[...] name that is not destination[i][field] gets nothing. */
  lemma ObjectDestinationUnused(o: ObjectOptions, sched: Option<Schedule>, fmt: Formatter, x: string)
    requires HasPrefix(x, "destination[") && forall i: nat, f: string :: x != DestinationKey(i, f)
    ensures Get(EncodeObject(map[], o, sched, fmt).0, x) == []
  {
    DestinationPrefixedOther(x);
    EncodeFieldsOther(map[], o, fmt, x);
    var m := EncodeFields(map[], o, fmt);
    var ds := o.Destinations;
    var dps := DestinationsParams(ds, SentDestinations(ds), fmt);
    DestinationsParamsOnly(ds, SentDestinations(ds), fmt, x);
    match sched {
      case None =>
        AddAllGet(m, dps, x);
      case Some(s) =>
        match ScheduleEncode(s, fmt) {
          case Err(_) =>
          case Ok(ps) =>
            SchedulePrefixed(s, fmt);
            NoValuesOutsidePrefix(ps, "s", x);
            AddAllGet(m, ps, x);
            AddAllGet(AddAll(m, ps), dps, x);
        }
    }
  }

  /**
   * Into an empty target, the only names an object request carries are the scalar names,
   * metadata[key] for the keys of Metadata, sw<d>, st[] and destination[i][field].
   */
  lemma ObjectSentNames(o: ObjectOptions, sched: Option<Schedule>, fmt: Formatter, x: string)
    requires Get(EncodeObject(map[], o, sched, fmt).0, x) != []
    ensures || x in {"title", "dateoff", "tariff", "package_prolong", "tags", "autoinform"}
            || (exists k | k in o.Metadata :: x == MetadataName(k))
            || (exists d: nat :: x == WeekdayKey(d))
            || x == "st[]"
            || (exists i: nat, f: string :: x == DestinationKey(i, f))
  {
    if HasPrefix(x, "metadata[") {
      if x !in MetadataNames(o.Metadata) {
        ObjectMetadataUnused(o, sched, fmt, x);
      }
    } else if HasPrefix(x, "s") {
      if x != "st[]" && forall d: nat :: x != WeekdayKey(d) {
        ObjectScheduleUnused(o, sched, fmt, x);
      }
    } else if HasPrefix(x, "destination[") {
      if forall i: nat, f: string :: x != DestinationKey(i, f) {
        ObjectDestinationUnused(o, sched, fmt, x);
      }
    } else {
      ObjectPlainName(o, sched, fmt, x);
      if x !in {"title", "dateoff", "tariff", "package_prolong", "tags", "autoinform"} {
        ScalarParamsOther(o, fmt, x);
      }
    }
  }
}
