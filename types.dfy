/**
 * The API's result types: the sort helpers of ObjectsWithStatus, the query of a position
 * request, what the custom decoders do after encoding/json has filled their auxiliary structs,
 * and how a stored subscription is turned back into subscribe options.
 */
module Types {
  import opened Wrappers
  import opened Errors
  import opened Numbers
  import opened UrlValues
  import opened JsonValue
  import opened Primitives
  import opened Actions

  // ---------------------------------------------------------------------------------------------
  // ObjectsWithStatus

  /** A tracked object and the status of its addition (an opaque status name). */
  datatype ObjectStatus = ObjectStatus(Phone: Object, Status: string)

  /**
   * Go's < on strings: byte-wise lexicographic order, a proper prefix first. On UTF-8 text the
   * byte order is the order of the code points, which is what is compared here.
   */
  predicate StringLess(a: string, b: string)
    decreases |a|
  {
    b != [] && (a == [] || a[0] < b[0] || (a[0] == b[0] && StringLess(a[1..], b[1..])))
  }

  lemma {:induction false} StringLessIrreflexive(a: string)
    ensures !StringLess(a, a)
    decreases |a|
  {
    if a != [] {
      StringLessIrreflexive(a[1..]);
    }
  }

  lemma {:induction false} StringLessTransitive(a: string, b: string, c: string)
    requires StringLess(a, b) && StringLess(b, c)
    ensures StringLess(a, c)
    decreases |a|
  {
    if a != [] && a[0] == b[0] && b[0] == c[0] {
      StringLessTransitive(a[1..], b[1..], c[1..]);
    }
  }

  lemma {:induction false} StringLessTotal(a: string, b: string)
    ensures a == b || StringLess(a, b) || StringLess(b, a)
    decreases |a|
  {
    if a != [] && b != [] && a[0] == b[0] {
      StringLessTotal(a[1..], b[1..]);
      if a[1..] == b[1..] {
        assert a == [a[0]] + a[1..] && b == [b[0]] + b[1..];
      }
    }
  }

  lemma {:induction false} StringLessAsymmetric(a: string, b: string)
    requires StringLess(a, b)
    ensures !StringLess(b, a)
    decreases |a|
  {
    if a != [] && a[0] == b[0] {
      StringLessAsymmetric(a[1..], b[1..]);
    }
  }

  /** ObjectsWithStatus.Len: the number of entries. */
  function Len(os: array<ObjectStatus>): (n: nat)
    ensures n == os.Length
  {
    os.Length
  }

  /** ObjectsWithStatus.Less: compares the raw, uncleaned phones. */
  predicate Less(os: array<ObjectStatus>, i: int, j: int)
    requires 0 <= i < os.Length && 0 <= j < os.Length
    reads os
  {
    StringLess(os[i].Phone.raw, os[j].Phone.raw)
  }

  /**
   * Less is the strict order sort.Sort needs: irreflexive, asymmetric, transitive, and it
   * separates every two entries whose raw phones differ.
   */
  lemma LessIsStrictOrder(os: array<ObjectStatus>, i: int, j: int, k: int)
    requires 0 <= i < os.Length && 0 <= j < os.Length && 0 <= k < os.Length
    ensures !Less(os, i, i)
    ensures Less(os, i, j) ==> !Less(os, j, i)
    ensures Less(os, i, j) && Less(os, j, k) ==> Less(os, i, k)
    ensures os[i].Phone != os[j].Phone ==> Less(os, i, j) || Less(os, j, i)
  {
    var a, b, c := os[i].Phone.raw, os[j].Phone.raw, os[k].Phone.raw;
    StringLessIrreflexive(a);
    if StringLess(a, b) {
      StringLessAsymmetric(a, b);
      if StringLess(b, c) {
        StringLessTransitive(a, b, c);
      }
    }
    StringLessTotal(a, b);
  }

  /** The entries with i and j exchanged. */
  function Swapped(s: seq<ObjectStatus>, i: int, j: int): (r: seq<ObjectStatus>)
    requires 0 <= i < |s| && 0 <= j < |s|
    ensures |r| == |s| && r[i] == s[j] && r[j] == s[i]
    ensures forall k | 0 <= k < |s| && k != i && k != j :: r[k] == s[k]
    ensures multiset(r) == multiset(s)
  {
    s[i := s[j]][j := s[i]]
  }

  /** Swapping twice restores the list. */
  lemma SwappedTwice(s: seq<ObjectStatus>, i: int, j: int)
    requires 0 <= i < |s| && 0 <= j < |s|
    ensures Swapped(Swapped(s, i, j), i, j) == s
  {
  }

  /** ObjectsWithStatus.Swap: exchanges entries i and j in place. */
  method Swap(os: array<ObjectStatus>, i: int, j: int)
    requires 0 <= i < os.Length && 0 <= j < os.Length
    modifies os
    ensures os[..] == Swapped(old(os[..]), i, j)
  {
    os[i], os[j] := os[j], os[i];
  }

  /** ObjectsWithStatus.IsObjectIn: some entry's raw phone is o's raw text. */
  method IsObjectIn(os: array<ObjectStatus>, o: Object) returns (found: bool)
    ensures found <==> exists k | 0 <= k < os.Length :: os[k].Phone == o
  {
    var i := 0;
    while i < os.Length
      invariant 0 <= i <= os.Length
      invariant forall k | 0 <= k < i :: os[k].Phone != o
    {
      if os[i].Phone == o {
        return true;
      }
      i := i + 1;
    }
    return false;
  }

  // ---------------------------------------------------------------------------------------------
  // PositionRequest

  /** The handle of a position request. */
  datatype PositionRequest = PositionRequest(RequestID: int64)
  {
    /** PositionRequest.values: only id, once, in decimal that parses back to the handle. */
    function Values(): (r: Multimap)
      ensures r.Keys == {"id"} && |r["id"]| == 1
      ensures ParseInt64(r["id"][0]) == Parsed(RequestID, None)
    {
      ParseFormatInt(RequestID);
      map["id" := [FormatInt(RequestID)]]
    }
  }

  // ---------------------------------------------------------------------------------------------
  // Decoding

  /**
   * `x, err = number.Int64()`: the parsed value is stored even when parsing fails (0 for
   * text that is not an integer, the nearest bound on overflow), and the error is returned.
   */
  function StoredInt64(number: string): (r: (int64, Option<Error>))
    ensures r.1 == None <==> IsIntegerText(number) && MinInt64 <= IntegerValue(number) <= MaxInt64
    ensures r.1 == None ==> r.0 == IntegerValue(number)
    ensures number == "" ==> r == (0, Some(NumberFormat("", Syntax)))
  {
    ParseInt64Spec(number);
    var p := NumberInt64(number);
    (p.value, if p.err == None then None else Some(NumberFormat(number, p.err.value)))
  }

  /** A member read into a json.Number and then through Int64() accepts what Int.UnmarshalJSON accepts, with the same value. */
  lemma StoredInt64OfMember(ms: map<string, Json>, key: string)
    requires key in ms && MemberNumber(ms, key).Ok?
    ensures StoredInt64(MemberNumber(ms, key).value).1 == None <==> DecodeInt64(ms[key]).Ok?
    ensures DecodeInt64(ms[key]).Ok? ==> StoredInt64(MemberNumber(ms, key).value).0 == DecodeInt64(ms[key]).value
  {
  }

  // ObjectEvent ---------------------------------------------------------------------------------

  /**
   * ObjectEvent.UnmarshalJSON on `data`, with `current` the EventID before: the new EventID and
   * the error. null makes json.Unmarshal store a nil auxiliary pointer that the code then reads
   * through.
   */
  function DecodeObjectEvent(data: Json, current: int64): (int64, Option<Error>)
  {
    if data.JNull? then (current, Some(NilDereference))
    else if !data.JObj? then (current, Some(JsonType))
    else
      var id := MemberNumber(data.members, "id");
      if id.Err? then (current, Some(id.error)) else StoredInt64(id.value)
  }

  /** An event read from the API. */
  class ObjectEvent {
    var EventID: int64

    constructor ()
      ensures EventID == 0
    {
      EventID := 0;
    }

    /** ObjectEvent.UnmarshalJSON: the id member, bare or quoted, read through Int64(). */
    method UnmarshalJSON(data: Json) returns (err: Option<Error>)
      modifies this
      ensures (EventID, err) == DecodeObjectEvent(data, old(EventID))
    {
      if data.JNull? {
        return Some(NilDereference);
      }
      if !data.JObj? {
        return Some(JsonType);
      }
      var id := MemberNumber(data.members, "id");
      if id.Err? {
        return Some(id.error);
      }
      EventID, err := StoredInt64(id.value).0, StoredInt64(id.value).1;
    }
  }

  /**
   * An event object decodes exactly when its id is a bare or quoted int64 literal, to that
   * value; without an id the EventID is reset to 0 and the decode fails.
   */
  lemma ObjectEventId(ms: map<string, Json>, current: int64)
    ensures "id" in ms ==> (DecodeObjectEvent(JObj(ms), current).1 == None <==> IsWireInteger(ms["id"]))
    ensures "id" in ms && IsWireInteger(ms["id"]) ==> DecodeObjectEvent(JObj(ms), current).0 == IntegerValue(WireText(ms["id"]))
    ensures "id" !in ms ==> DecodeObjectEvent(JObj(ms), current) == (0, Some(NumberFormat("", Syntax)))
  {
    if "id" in ms {
      DecodeInt64Spec(ms["id"]);
      if MemberNumber(ms, "id").Ok? {
        StoredInt64OfMember(ms, "id");
      }
    }
  }

  // Position ------------------------------------------------------------------------------------

  /** Position.UnmarshalJSON on `data`, from Deviation and Distance before: both after, and the error. */
  function DecodePosition(data: Json, deviation: int64, distance: int64): (int64, int64, Option<Error>)
  {
    if data.JNull? then (deviation, distance, Some(NilDereference))
    else if !data.JObj? then (deviation, distance, Some(JsonType))
    else
      var radius, dist := MemberNumber(data.members, "radius"), MemberNumber(data.members, "distance");
      if radius.Err? && dist.Err? then (deviation, distance, Some(Reported(radius.error, dist.error)))
      else if radius.Err? then (deviation, distance, Some(radius.error))
      else if dist.Err? then (deviation, distance, Some(dist.error))
      else
        var (dev, e) := StoredInt64(radius.value);
        if e.Some? then (dev, distance, e)
        else
          var (d, e2) := StoredInt64(dist.value);
          (dev, d, e2)
  }

  /** A position read from the API. */
  class Position {
    var Deviation: int64
    var Distance: int64

    constructor ()
      ensures Deviation == 0 && Distance == 0
    {
      Deviation, Distance := 0, 0;
    }

    /** Position.UnmarshalJSON: radius, then distance, each read through Int64(). */
    method UnmarshalJSON(data: Json) returns (err: Option<Error>)
      modifies this
      ensures (Deviation, Distance, err) == DecodePosition(data, old(Deviation), old(Distance))
    {
      if data.JNull? {
        return Some(NilDereference);
      }
      if !data.JObj? {
        return Some(JsonType);
      }
      var radius := MemberNumber(data.members, "radius");
      var dist := MemberNumber(data.members, "distance");
      if radius.Err? && dist.Err? {
        return Some(Reported(radius.error, dist.error));
      }
      if radius.Err? {
        return Some(radius.error);
      }
      if dist.Err? {
        return Some(dist.error);
      }
      Deviation, err := StoredInt64(radius.value).0, StoredInt64(radius.value).1;
      if err.Some? {
        return err;
      }
      Distance, err := StoredInt64(dist.value).0, StoredInt64(dist.value).1;
    }
  }

  /**
   * A position decodes exactly when radius and distance are both bare or quoted int64 literals,
   * to their values; a missing radius fails and resets Deviation to 0.
   */
  lemma PositionFields(ms: map<string, Json>, deviation: int64, distance: int64)
    ensures "radius" in ms && "distance" in ms ==>
      (DecodePosition(JObj(ms), deviation, distance).2 == None <==> IsWireInteger(ms["radius"]) && IsWireInteger(ms["distance"]))
    ensures DecodePosition(JObj(ms), deviation, distance).2 == None ==>
      && "radius" in ms && "distance" in ms
      && DecodePosition(JObj(ms), deviation, distance).0 == IntegerValue(WireText(ms["radius"]))
      && DecodePosition(JObj(ms), deviation, distance).1 == IntegerValue(WireText(ms["distance"]))
    ensures "radius" !in ms ==> DecodePosition(JObj(ms), deviation, distance).2.Some?
    ensures "radius" !in ms && MemberNumber(ms, "distance").Ok? ==>
      DecodePosition(JObj(ms), deviation, distance) == (0, distance, Some(NumberFormat("", Syntax)))
  {
    if "radius" in ms {
      DecodeInt64Spec(ms["radius"]);
      if MemberNumber(ms, "radius").Ok? {
        StoredInt64OfMember(ms, "radius");
      }
    }
    if "distance" in ms {
      DecodeInt64Spec(ms["distance"]);
      if MemberNumber(ms, "distance").Ok? {
        StoredInt64OfMember(ms, "distance");
      }
    }
  }

  /**
   * The error of a position whose radius or distance cannot be stored into a json.Number: an
   * invalid number text in either is reported ahead of a value of the wrong shape in the other.
   */
  lemma PositionAuxError(ms: map<string, Json>, deviation: int64, distance: int64)
    ensures var err := DecodePosition(JObj(ms), deviation, distance).2;
      "radius" in ms && IsInvalidNumberText(ms["radius"]) ==> err == Some(InvalidNumberLiteral(ScalarText(ms["radius"])))
    ensures var err := DecodePosition(JObj(ms), deviation, distance).2;
      !("radius" in ms && IsInvalidNumberText(ms["radius"])) && "distance" in ms && IsInvalidNumberText(ms["distance"]) ==>
        err == Some(InvalidNumberLiteral(ScalarText(ms["distance"])))
    ensures var err := DecodePosition(JObj(ms), deviation, distance).2;
      && !("radius" in ms && IsInvalidNumberText(ms["radius"]))
      && !("distance" in ms && IsInvalidNumberText(ms["distance"]))
      && (("radius" in ms && IsNotScalar(ms["radius"])) || ("distance" in ms && IsNotScalar(ms["distance"])))
      ==> err == Some(JsonType)
  {
    if "radius" in ms {
      DecodeNumberErrors(ms["radius"]);
    }
    if "distance" in ms {
      DecodeNumberErrors(ms["distance"]);
    }
  }

  // ObjectInfo ----------------------------------------------------------------------------------

  /** The raw message a json.RawMessage member holds: nothing when the member is absent. */
  function RawMember(ms: map<string, Json>, key: string): Option<Json>
  {
    if key in ms then Some(ms[key]) else None
  }

  /**
   * ObjectInfo.UnmarshalJSON on `data`, from Distance and Metadata before: both after, and the
   * error. A metadata payload that decodes as an array (or null) ends the decode successfully;
   * otherwise it is decoded into the map, whose error is the result.
   */
  function DecodeObjectInfo(data: Json, distance: int64, metadata: map<string, string>): (int64, map<string, string>, Option<Error>)
  {
    if data.JNull? then (distance, metadata, Some(NilDereference))
    else if !data.JObj? then (distance, metadata, Some(JsonType))
    else
      var dist := MemberNumber(data.members, "distance");
      if dist.Err? then (distance, metadata, Some(dist.error))
      else
        var (d, e) := StoredInt64(dist.value);
        var raw := RawMember(data.members, "metadata");
        if e.Some? then (d, metadata, e)
        else if DecodesAsArray(raw) then (d, metadata, None)
        else
          var (md, e2) := DecodeStringMap(raw, metadata);
          (d, md, e2)
  }

  /** An object's details read from the API. */
  class ObjectInfo {
    var Distance: int64
    var Metadata: map<string, string>

    constructor ()
      ensures Distance == 0 && Metadata == map[]
    {
      Distance, Metadata := 0, map[];
    }

    /** ObjectInfo.UnmarshalJSON: distance through Int64(), then the metadata probe. */
    method UnmarshalJSON(data: Json) returns (err: Option<Error>)
      modifies this
      ensures (Distance, Metadata, err) == DecodeObjectInfo(data, old(Distance), old(Metadata))
    {
      if data.JNull? {
        return Some(NilDereference);
      }
      if !data.JObj? {
        return Some(JsonType);
      }
      var dist := MemberNumber(data.members, "distance");
      if dist.Err? {
        return Some(dist.error);
      }
      var raw := RawMember(data.members, "metadata");
      Distance, err := StoredInt64(dist.value).0, StoredInt64(dist.value).1;
      if err.Some? {
        return err;
      }
      if DecodesAsArray(raw) {
        return None;
      }
      Metadata, err := DecodeStringMap(raw, Metadata).0, DecodeStringMap(raw, Metadata).1;
    }
  }

  /** When the distance decodes, what the metadata member does to the map and the result. */
  lemma ObjectInfoMetadata(ms: map<string, Json>, distance: int64, metadata: map<string, string>)
    requires MemberNumber(ms, "distance").Ok? && StoredInt64(MemberNumber(ms, "distance").value).1 == None
    ensures var (_, md, err) := DecodeObjectInfo(JObj(ms), distance, metadata);
      && ("metadata" !in ms ==> md == metadata && err == Some(EndOfInput))
      && ("metadata" in ms && (ms["metadata"].JArr? || ms["metadata"].JNull?) ==> md == metadata && err == None)
      && ("metadata" in ms && ms["metadata"].JObj? ==>
            md.Keys == metadata.Keys + ms["metadata"].members.Keys
            && (forall k | k in ms["metadata"].members :: md[k] == StoredString(ms["metadata"].members[k]))
            && (forall k | k in metadata && k !in ms["metadata"].members :: md[k] == metadata[k])
            && (err == None <==> forall k | k in ms["metadata"].members :: IsStringOrNull(ms["metadata"].members[k])))
      && ("metadata" in ms && (ms["metadata"].JStr? || ms["metadata"].JNum? || ms["metadata"].JBool?) ==>
            md == metadata && err == Some(JsonType))
  {
  }

  /**
   * The distance is accepted bare or quoted and stored with its value; anything else fails
   * before the metadata is looked at, leaving the map as it was.
   */
  lemma ObjectInfoDistance(ms: map<string, Json>, distance: int64, metadata: map<string, string>)
    ensures "distance" in ms && !IsWireInteger(ms["distance"]) ==>
      DecodeObjectInfo(JObj(ms), distance, metadata).2.Some? && DecodeObjectInfo(JObj(ms), distance, metadata).1 == metadata
    ensures "distance" in ms && IsWireInteger(ms["distance"]) ==>
      DecodeObjectInfo(JObj(ms), distance, metadata).0 == IntegerValue(WireText(ms["distance"]))
    ensures "distance" !in ms ==>
      DecodeObjectInfo(JObj(ms), distance, metadata) == (0, metadata, Some(NumberFormat("", Syntax)))
  {
    if "distance" in ms {
      DecodeInt64Spec(ms["distance"]);
      if MemberNumber(ms, "distance").Ok? {
        StoredInt64OfMember(ms, "distance");
      }
    }
  }

  // SubscribedEvent -----------------------------------------------------------------------------

  /** The fields of a SubscribedEvent. */
  datatype SubscribedEventState = SubscribedEventState(
    id: int64,
    allObjects: bool,
    objects: seq<Object>,
    event: string,
    phone: Object,
    email: string,
    telegram: bool)

  /**
   * What json.Unmarshal leaves, through the embedded alias, in the four fields the auxiliary
   * struct does not shadow (phones, type, phone and email).
   */
  datatype AliasFields = AliasFields(objects: seq<Object>, event: string, phone: string, email: string)

  /**
   * json.Unmarshal reads the whole object unless it meets an invalid number text in the id or
   * a timestamp that Time.UnmarshalJSON refuses: those errors end the decoding at once, so
   * which alias fields were stored before then depends on the document's member order.
   */
  predicate ReadsWholeObject(ms: map<string, Json>)
  {
    && !("id" in ms && IsInvalidNumberText(ms["id"]))
    && ("timestamp" !in ms || DecodeInt64(ms["timestamp"]).Ok?)
  }

  /** A Go string field holding `before` after decoding member `key`: kept when absent or null, the text of a string. */
  predicate StoresString(ms: map<string, Json>, key: string, before: string, after: string)
  {
    && (key !in ms || ms[key].JNull? ==> after == before)
    && (key in ms && ms[key].JStr? ==> after == ms[key].text)
  }

  predicate AllStrings(items: seq<Json>)
  {
    forall i | 0 <= i < |items| :: items[i].JStr?
  }

  /** The []Object field after decoding member phones: kept when absent, nil on null, one Object per string of an array. */
  predicate StoresObjects(ms: map<string, Json>, before: seq<Object>, after: seq<Object>)
  {
    && ("phones" !in ms ==> after == before)
    && ("phones" in ms && ms["phones"].JNull? ==> after == [])
    && ("phones" in ms && ms["phones"].JArr? && AllStrings(ms["phones"].items) ==>
          |after| == |ms["phones"].items|
          && forall i | 0 <= i < |after| :: after[i] == Object(ms["phones"].items[i].text))
  }

  /**
   * What encoding/json promises about the alias fields `a` when it reads the whole object
   * `ms` into a subscription that held `s`. A member of another kind is a saved type mismatch
   * whose effect on the field is not modelled.
   */
  predicate AliasStored(ms: map<string, Json>, s: SubscribedEventState, a: AliasFields)
  {
    ReadsWholeObject(ms) ==>
      && StoresObjects(ms, s.objects, a.objects)
      && StoresString(ms, "type", s.event, a.event)
      && StoresString(ms, "phone", s.phone.raw, a.phone)
      && StoresString(ms, "email", s.email, a.email)
  }

  /**
   * SubscribedEvent.UnmarshalJSON on `data` from state s, where `a` is what json.Unmarshal
   * stores through the alias: the new state and the error. An object always stores the alias
   * fields, even when a shadowed member then fails. The id is read through Int64() (and
   * stored even when that fails); phones_all and telegram set their flag when they are 1 and
   * leave it as it was otherwise.
   */
  function DecodeSubscribedEvent(data: Json, s: SubscribedEventState, a: AliasFields): (SubscribedEventState, Option<Error>)
  {
    if data.JNull? then (s, Some(NilDereference))
    else if !data.JObj? then (s, Some(JsonType))
    else
      var t := s.(objects := a.objects, event := a.event, phone := Object(a.phone), email := a.email);
      var id := MemberNumber(data.members, "id");
      var all := MemberGoInt(data.members, "phones_all");
      var telegram := MemberGoInt(data.members, "telegram");
      if id.Err? then (t, Some(id.error))
      else if all.Err? then (t, Some(all.error))
      else if telegram.Err? then (t, Some(telegram.error))
      else
        var (n, e) := StoredInt64(id.value);
        if e.Some? then (t.(id := n), e)
        else
          (t.(id := n, allObjects := s.allObjects || all.value == 1, telegram := s.telegram || telegram.value == 1), None)
  }

  /** A subscription read from the API. */
  class SubscribedEvent {
    var SubscriptionID: int64
    var IsAllObjectsSubscribed: bool
    var ObjectsSubscribed: seq<Object>
    var Event: string
    var Phone: Object
    var EMail: string
    var IsTelegram: bool

    function Snapshot(): SubscribedEventState
      reads this
    {
      SubscribedEventState(SubscriptionID, IsAllObjectsSubscribed, ObjectsSubscribed, Event, Phone, EMail, IsTelegram)
    }

    constructor (s: SubscribedEventState)
      ensures Snapshot() == s
    {
      SubscriptionID, IsAllObjectsSubscribed, ObjectsSubscribed := s.id, s.allObjects, s.objects;
      Event, Phone, EMail, IsTelegram := s.event, s.phone, s.email, s.telegram;
    }

    /**
     * SubscribedEvent.UnmarshalJSON: json.Unmarshal stores `alias` in the fields it does not
     * shadow, then the id and the two 0/1 flags follow.
     */
    method UnmarshalJSON(data: Json, alias: AliasFields) returns (err: Option<Error>)
      requires data.JObj? ==> AliasStored(data.members, Snapshot(), alias)
      modifies this
      ensures (Snapshot(), err) == DecodeSubscribedEvent(data, old(Snapshot()), alias)
    {
      if data.JNull? {
        return Some(NilDereference);
      }
      if !data.JObj? {
        return Some(JsonType);
      }
      ObjectsSubscribed, Event, Phone, EMail := alias.objects, alias.event, Object(alias.phone), alias.email;
      var id := MemberNumber(data.members, "id");
      var all := MemberGoInt(data.members, "phones_all");
      var telegram := MemberGoInt(data.members, "telegram");
      if id.Err? {
        return Some(id.error);
      }
      if all.Err? {
        return Some(all.error);
      }
      if telegram.Err? {
        return Some(telegram.error);
      }
      SubscriptionID, err := StoredInt64(id.value).0, StoredInt64(id.value).1;
      if err.Some? {
        return err;
      }
      if all.value == 1 {
        IsAllObjectsSubscribed := true;
      }
      if telegram.value == 1 {
        IsTelegram := true;
      }
      return None;
    }

    /** SubscribedEvent.MakeOptions: fresh options carrying the event, the objects and one channel. */
    method MakeOptions() returns (seo: SubscribeEventOptions, err: Option<Error>)
      ensures fresh(seo)
      ensures (seo.State(), err) == MadeOptions(Snapshot())
    {
      seo := new SubscribeEventOptions();
      seo.Event := Event;
      if IsAllObjectsSubscribed {
        seo.AllObjects := true;
      } else {
        seo.Objects := ObjectsSubscribed;
      }
      if Phone.String() != "" {
        err := seo.SetSMSNotification(Phone);
      } else if EMail != "" {
        err := seo.SetEMailNotification(EMail);
      } else {
        seo.SetTelegramNotification();
        err := None;
      }
    }
  }

  /**
   * The subscription MakeOptions builds from a stored one, and the error of its setter: SMS
   * when the phone has digits, else e-mail when there is an address, else Telegram.
   */
  function MadeOptions(e: SubscribedEventState): (Subscription, Option<Error>)
  {
    var base := Subscription(e.allObjects, if e.allObjects then [] else e.objects, e.event, Unset, Object(""), "");
    if e.phone.String() != "" then WithSms(base, e.phone)
    else if e.email != "" then WithEmail(base, e.email)
    else (WithTelegram(base), None)
  }

  /**
   * One channel is chosen in priority order; only an invalid address can make it fail, and
   * then no channel is set. Without an error, some channel is set. The event and the objects
   * are copied, and a subscription to all objects carries no object list.
   */
  lemma MakeOptionsChannel(e: SubscribedEventState)
    ensures var (s, err) := MadeOptions(e);
      && s.event == e.event && s.allObjects == e.allObjects
      && s.objects == (if e.allObjects then [] else e.objects)
      && (e.phone.String() != "" ==> err == None && s.notifyTo == Sms && s.smsPhone == e.phone)
      && (e.phone.String() == "" && e.email != "" && IsEmail(e.email) ==> err == None && s.notifyTo == Email && s.email == e.email)
      && (e.phone.String() == "" && e.email != "" && !IsEmail(e.email) ==> err == Some(InvalidEmail(e.email)) && s.notifyTo == Unset)
      && (e.phone.String() == "" && e.email == "" ==> err == None && s.notifyTo == Telegram)
      && (err == None <==> s.notifyTo != Unset)
  {
  }

  /** A stored subscription with an event and some objects gives options that values() accepts, unless its address is invalid. */
  lemma MakeOptionsAccepted(e: SubscribedEventState)
    requires e.event != "" && (e.allObjects || e.objects != [])
    ensures MadeOptions(e).1 == None <==> SubscribeParams(MadeOptions(e).0).Ok?
  {
    MakeOptionsChannel(e);
  }

  /** The id decodes bare or quoted; each flag is set exactly by the integer 1 and otherwise kept. */
  lemma SubscribedEventFields(ms: map<string, Json>, s: SubscribedEventState, a: AliasFields)
    requires MemberGoInt(ms, "phones_all").Ok? && MemberGoInt(ms, "telegram").Ok?
    requires "id" in ms && IsWireInteger(ms["id"])
    ensures var (r, err) := DecodeSubscribedEvent(JObj(ms), s, a);
      && err == None
      && r.id == IntegerValue(WireText(ms["id"]))
      && r.allObjects == (s.allObjects || MemberGoInt(ms, "phones_all").value == 1)
      && r.telegram == (s.telegram || MemberGoInt(ms, "telegram").value == 1)
      && r.objects == a.objects && r.event == a.event && r.phone == Object(a.phone) && r.email == a.email
  {
    DecodeInt64Spec(ms["id"]);
    StoredInt64OfMember(ms, "id");
  }

  /** An id that is not an int64 literal fails the decode and leaves both flags as they were. */
  lemma SubscribedEventBadId(ms: map<string, Json>, s: SubscribedEventState, a: AliasFields)
    requires "id" in ms && !IsWireInteger(ms["id"])
    ensures var (r, err) := DecodeSubscribedEvent(JObj(ms), s, a);
      err.Some? && r.allObjects == s.allObjects && r.telegram == s.telegram
  {
    DecodeInt64Spec(ms["id"]);
    if MemberNumber(ms, "id").Ok? {
      StoredInt64OfMember(ms, "id");
    }
  }

  /**
   * The error of a subscription whose auxiliary members cannot be stored: an invalid number
   * text in id is reported ahead of any type mismatch, and every type mismatch is reported
   * alike, whichever member comes first in the document.
   */
  lemma SubscribedEventAuxError(ms: map<string, Json>, s: SubscribedEventState, a: AliasFields)
    ensures var err := DecodeSubscribedEvent(JObj(ms), s, a).1;
      "id" in ms && IsInvalidNumberText(ms["id"]) ==> err == Some(InvalidNumberLiteral(ScalarText(ms["id"])))
    ensures var err := DecodeSubscribedEvent(JObj(ms), s, a).1;
      && !("id" in ms && IsInvalidNumberText(ms["id"]))
      && (|| ("id" in ms && IsNotScalar(ms["id"]))
          || ("phones_all" in ms && MemberGoInt(ms, "phones_all").Err?)
          || ("telegram" in ms && MemberGoInt(ms, "telegram").Err?))
      ==> err == Some(JsonType)
  {
    if "id" in ms {
      DecodeNumberErrors(ms["id"]);
    }
  }

  /**
   * After a whole object is read, a string member replaces the stored address and an absent
   * one keeps it: the address MakeOptions uses is the decoded one.
   */
  lemma SubscribedEventEmail(ms: map<string, Json>, s: SubscribedEventState, a: AliasFields)
    requires ReadsWholeObject(ms) && AliasStored(ms, s, a)
    ensures "email" in ms && ms["email"].JStr? ==> DecodeSubscribedEvent(JObj(ms), s, a).0.email == ms["email"].text
    ensures "email" !in ms ==> DecodeSubscribedEvent(JObj(ms), s, a).0.email == s.email
  {
  }

  /**
   * A decoded subscription with no phone and a valid address in the document is turned by
   * MakeOptions into e-mail options for that address, whatever address it held before.
   */
  lemma DecodedEmailChannel(ms: map<string, Json>, s: SubscribedEventState, a: AliasFields)
    requires ReadsWholeObject(ms) && AliasStored(ms, s, a)
    requires "phone" in ms && ms["phone"].JStr? && Digits(ms["phone"].text) == ""
    requires "email" in ms && ms["email"].JStr? && IsEmail(ms["email"].text)
    ensures var (o, err) := MadeOptions(DecodeSubscribedEvent(JObj(ms), s, a).0);
      err == None && o.notifyTo == Email && o.email == ms["email"].text
  {
    var r := DecodeSubscribedEvent(JObj(ms), s, a).0;
    assert r.phone == Object(ms["phone"].text) && r.email == ms["email"].text;
    assert r.phone.String() == "";
    MakeOptionsChannel(r);
  }
}
