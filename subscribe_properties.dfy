/**
 * What a subscription sends: its objects (all, or each cleaned phone in order), the event, the
 * channel set last and, for SMS and e-mail, where to notify; and why it is refused otherwise.
 */
module SubscribeProperties {
  import opened Wrappers
  import opened Errors
  import opened UrlValues
  import opened Primitives
  import opened Actions

  /** The cleaned phone of each object, in list order. */
  function CleanedPhones(objects: seq<Object>): (r: seq<string>)
    ensures |r| == |objects|
    ensures forall i | 0 <= i < |objects| :: r[i] == objects[i].String()
  {
    seq(|objects|, i requires 0 <= i < |objects| => objects[i].String())
  }

  lemma CleanedPhonesSnoc(objects: seq<Object>, init: seq<Object>, last: Object)
    requires objects == init + [last]
    ensures CleanedPhones(objects) == CleanedPhones(init) + [last.String()]
  {
    assert CleanedPhones(objects) == CleanedPhones(init) + [last.String()];
  }

  lemma ValuesOfSnoc(ps: seq<Param>, p: Param, x: string)
    ensures ValuesOf(ps + [p], x) == ValuesOf(ps, x) + (if p.0 == x then [p.1] else [])
  {
    assert (ps + [p])[..|ps|] == ps;
  }

  /** The phones[] loop sends every object's cleaned phone, in order, and nothing else. */
  lemma {:induction false} PhoneParamsValues(objects: seq<Object>, x: string)
    ensures ValuesOf(PhoneParams(objects), x) == if x == "phones[]" then CleanedPhones(objects) else []
    decreases |objects|
  {
    if objects != [] {
      var init := objects[..|objects| - 1];
      PhoneParamsValues(init, x);
      var last := objects[|objects| - 1];
      ValuesOfSnoc(PhoneParams(init), ("phones[]", last.String()), x);
      CleanedPhonesSnoc(objects, init, last);
    }
  }

  /** The checks of values(), in source order; the first that fails gives the error. */
  lemma SubscribeErrors(s: Subscription)
    ensures SubscribeParams(s).Err? <==> (!s.allObjects && s.objects == []) || s.event == "" || s.notifyTo == Unset
    ensures !s.allObjects && s.objects == [] ==> SubscribeParams(s) == Err(NoObjects)
    ensures (s.allObjects || s.objects != []) && s.event == "" ==> SubscribeParams(s) == Err(NoEvent)
    ensures (s.allObjects || s.objects != []) && s.event != "" && s.notifyTo == Unset ==> SubscribeParams(s) == Err(NoChannel)
  {
  }

  /** A subscription to all objects sends phones_all=1 and no phones; otherwise every cleaned phone in order. */
  lemma SubscribeObjects(s: Subscription)
    requires SubscribeParams(s).Ok?
    ensures ValuesOf(SubscribeParams(s).value, "phones_all") == if s.allObjects then ["1"] else []
    ensures ValuesOf(SubscribeParams(s).value, "phones[]") == if s.allObjects then [] else CleanedPhones(s.objects)
  {
    var ps := SubscribeParams(s).value;
    assert ValuesOf(ps, "phones_all") == if s.allObjects then ["1"] else [] by {
      SubscribeShape(s, "phones_all");
      ObjectsParamsValues(s, "phones_all");
      NotifyValueOther(s, "phones_all");
    }
    assert ValuesOf(ps, "phones[]") == if s.allObjects then [] else CleanedPhones(s.objects) by {
      SubscribeShape(s, "phones[]");
      ObjectsParamsValues(s, "phones[]");
      NotifyValueOther(s, "phones[]");
    }
  }

  /** The objects part: phones_all=1 for all objects, otherwise the cleaned phones under phones[]. */
  lemma ObjectsParamsValues(s: Subscription, x: string)
    ensures ValuesOf(ObjectsParams(s), x) ==
      if s.allObjects then (if x == "phones_all" then ["1"] else [])
      else (if x == "phones[]" then CleanedPhones(s.objects) else [])
  {
    if s.allObjects {
      ValuesOfSnoc([], ("phones_all", "1"), x);
    } else {
      PhoneParamsValues(s.objects, x);
    }
  }

  /** notify_value is the only name the channel's destination part sends. */
  lemma NotifyValueOther(s: Subscription, x: string)
    requires x != "notify_value"
    ensures ValuesOf(NotifyValueParams(s), x) == []
  {
    match s.notifyTo {
      case Sms => ValuesOfSnoc([], ("notify_value", s.smsPhone.String()), x);
      case Email => ValuesOfSnoc([], ("notify_value", s.email), x);
      case _ =>
    }
  }

  /** The event and the channel name are sent once each; the destination only for SMS and e-mail. */
  lemma SubscribeChannel(s: Subscription)
    requires SubscribeParams(s).Ok?
    ensures ValuesOf(SubscribeParams(s).value, "events") == [s.event]
    ensures ValuesOf(SubscribeParams(s).value, "notify_type") == [s.notifyTo.WireName()]
    ensures ValuesOf(SubscribeParams(s).value, "notify_value") ==
      if s.notifyTo == Sms then [s.smsPhone.String()] else if s.notifyTo == Email then [s.email] else []
  {
    EventsSent(s);
    NotifyTypeSent(s);
    NotifyValueSent(s);
  }

  lemma EventsSent(s: Subscription)
    requires SubscribeParams(s).Ok?
    ensures ValuesOf(SubscribeParams(s).value, "events") == [s.event]
  {
    SubscribeShape(s, "events");
    ObjectsParamsOther(s, "events");
    NotifyValueOther(s, "events");
  }

  lemma NotifyTypeSent(s: Subscription)
    requires SubscribeParams(s).Ok?
    ensures ValuesOf(SubscribeParams(s).value, "notify_type") == [s.notifyTo.WireName()]
  {
    SubscribeShape(s, "notify_type");
    ObjectsParamsOther(s, "notify_type");
    NotifyValueOther(s, "notify_type");
  }

  lemma NotifyValueSent(s: Subscription)
    requires SubscribeParams(s).Ok?
    ensures ValuesOf(SubscribeParams(s).value, "notify_value") ==
      if s.notifyTo == Sms then [s.smsPhone.String()] else if s.notifyTo == Email then [s.email] else []
  {
    SubscribeShape(s, "notify_value");
    ObjectsParamsOther(s, "notify_value");
    match s.notifyTo {
      case Sms => ValuesOfSnoc([], ("notify_value", s.smsPhone.String()), "notify_value");
      case Email => ValuesOfSnoc([], ("notify_value", s.email), "notify_value");
      case _ =>
    }
  }

  /** The objects part sends nothing under the other names of values(). */
  lemma ObjectsParamsOther(s: Subscription, x: string)
    requires x != "phones_all" && x != "phones[]"
    ensures ValuesOf(ObjectsParams(s), x) == []
  {
    ObjectsParamsValues(s, x);
  }

  /** What a successful values() gives one name: the objects part, then the three fixed parts. */
  lemma SubscribeShape(s: Subscription, x: string)
    requires SubscribeParams(s).Ok?
    ensures ValuesOf(SubscribeParams(s).value, x) ==
      ValuesOf(ObjectsParams(s), x)
      + (if x == "events" then [s.event] else [])
      + (if x == "notify_type" then [s.notifyTo.WireName()] else [])
      + ValuesOf(NotifyValueParams(s), x)
  {
    var a := ObjectsParams(s) + [("events", s.event)];
    var b := a + [("notify_type", s.notifyTo.WireName())];
    ValuesOfConcat(b, NotifyValueParams(s), x);
    ValuesOfSnoc(a, ("notify_type", s.notifyTo.WireName()), x);
    ValuesOfSnoc(ObjectsParams(s), ("events", s.event), x);
    match s.notifyTo {
      case Sms => ValuesOfSnoc([], ("notify_value", s.smsPhone.String()), x);
      case Email => ValuesOfSnoc([], ("notify_value", s.email), x);
      case _ =>
    }
  }

  // ---------------------------------------------------------------------------------------------
  // The channel setters

  /** A refused setter leaves the subscription as it was. */
  lemma RefusedSetterKeepsState(s: Subscription, phone: Object, mail: string)
    ensures WithSms(s, phone).1.Some? <==> phone.String() == ""
    ensures WithSms(s, phone).1.Some? ==> WithSms(s, phone).0 == s
    ensures WithEmail(s, mail).1.Some? <==> !IsEmail(mail)
    ensures WithEmail(s, mail).1.Some? ==> WithEmail(s, mail).0 == s
  {
  }

  /** E-mail set after SMS sends exactly what e-mail alone sends: the stale phone is not sent. */
  lemma EmailAfterSms(s: Subscription, phone: Object, mail: string)
    requires IsEmail(mail)
    ensures SubscribeParams(WithEmail(WithSms(s, phone).0, mail).0) == SubscribeParams(WithEmail(s, mail).0)
  {
  }

  /** SMS set after e-mail sends exactly what SMS alone sends: the stale address is not sent. */
  lemma SmsAfterEmail(s: Subscription, mail: string, phone: Object)
    requires phone.String() != ""
    ensures SubscribeParams(WithSms(WithEmail(s, mail).0, phone).0) == SubscribeParams(WithSms(s, phone).0)
  {
  }

  /** Telegram set last sends no destination, whatever phone or address was set before. */
  lemma TelegramLast(s: Subscription, phone: Object, mail: string)
    ensures SubscribeParams(WithTelegram(WithSms(s, phone).0)) == SubscribeParams(WithTelegram(s))
    ensures SubscribeParams(WithTelegram(WithEmail(s, mail).0)) == SubscribeParams(WithTelegram(s))
    ensures SubscribeParams(WithTelegram(s)).Ok? ==> ValuesOf(SubscribeParams(WithTelegram(s)).value, "notify_value") == []
  {
    if SubscribeParams(WithTelegram(s)).Ok? {
      SubscribeChannel(WithTelegram(s));
    }
  }

  /** NewSubscribeEventOptions has no channel yet: values() refuses it until a setter succeeds. */
  lemma NewNeedsChannel(o: Object, event: string)
    ensures SubscribeParams(Subscription(false, [o], event, Unset, Object(""), "")) == Err(if event == "" then NoEvent else NoChannel)
  {
  }

  // ---------------------------------------------------------------------------------------------
  // E-mail addresses

  /** A label is letters, digits and hyphens only. */
  lemma LabelHasNoAt(s: string)
    requires IsLabel(s)
    ensures '@' !in s
  {
    forall i | 0 <= i < |s|
      ensures s[i] != '@'
    {
      if 0 < i < |s| - 1 {
        assert IsAsciiAlnum(s[i]) || s[i] == '-';
      }
    }
  }

  /** A domain is labels and dots only. */
  lemma {:induction false} DomainHasNoAt(s: string)
    requires IsDomain(s)
    ensures '@' !in s
    decreases |s|
  {
    if '.' in s {
      var i := IndexOf(s, '.');
      LabelHasNoAt(s[..i]);
      DomainHasNoAt(s[i + 1..]);
      assert s == s[..i] + [s[i]] + s[i + 1..];
    } else {
      LabelHasNoAt(s);
    }
  }

  /** An accepted address has exactly one '@', which splits it into a non-empty local part and a domain. */
  lemma SingleAt(s: string)
    requires IsEmail(s)
    ensures forall j | 0 <= j < |s| && s[j] == '@' :: j == IndexOf(s, '@')
  {
    DomainHasNoAt(s[IndexOf(s, '@') + 1..]);
  }
}
