/** The consumer's own parser and validator, and the row the streaming job reads from its verdict. */
module Parsing {
  import opened Calendar
  import opened Clicks
  import opened Json
  import opened Schema
  import opened Wrappers

  // A Kafka message value; None is a null value.
  type Raw = Option<string>

  // In the order the checks run.
  datatype ParseError =
    | EmptyMessage
    | NotAnObject
    | MissingFields(names: seq<string>)
    | InvalidEventType | InvalidDevice | InvalidRegion | InvalidCampaignId | InvalidReferrer
    | InvalidPage | InvalidEventId | InvalidUserId | InvalidSessionId | InvalidTs

  // The two nullable columns of PARSED_RESULT_SCHEMA.
  datatype Message = Message(event: Option<ClickEvent>, error: Option<ParseError>)

  function Missing(m: map<string, string>, fields: seq<string>): seq<string> {
    if fields == [] then []
    else (if fields[0] in m then [] else [fields[0]]) + Missing(m, fields[1..])
  }

  function Validate(e: ClickEvent): Option<ParseError> {
    if e.eventType !in ["page_view", "click", "add_to_cart", "purchase"] then Some(InvalidEventType)
    else if e.device !in ["mobile", "desktop", "tablet"] then Some(InvalidDevice)
    else if e.region !in ["us-west", "us-east", "eu-west", "ap-southeast", "eu-central", "sa-east"]
    then Some(InvalidRegion)
    else if e.campaignId !in ["c-1", "c-2", "c-3", "c-4", "c-5", "c-6", "c-7", "c-8", "organic"]
    then Some(InvalidCampaignId)
    else if e.referrer !in ["google", "facebook", "email", "direct", "ads"] then Some(InvalidReferrer)
    else if e.page !in ["/home", "/search", "/product", "/cart", "/checkout", "/account", "/help"]
            && !IsProductPage(e.page)
    then Some(InvalidPage)
    else if !IsUuid(e.eventId) then Some(InvalidEventId)
    else if !StartsWith(e.userId, "u-") then Some(InvalidUserId)
    else if !StartsWith(e.sessionId, "s-") then Some(InvalidSessionId)
    else if ParseTs(e.ts).None? then Some(InvalidTs)
    else None
  }

  function ParseEvent(raw: string): Message {
    match Loads(raw)
    case None => Message(None, Some(NotAnObject))
    case Some(m) =>
      match FromDict(m)
      case None => Message(None, Some(MissingFields(Missing(m, FIELDS))))
      case Some(e) =>
        match Validate(e)
        case Some(error) => Message(None, Some(error))
        case None => Message(Some(e), None)
  }

  function ParseMessage(raw: Raw): Message {
    match raw
    case None => Message(None, Some(EmptyMessage))
    case Some(text) => ParseEvent(text)
  }

  // The columns parse_events selects, with ts as a timestamp.
  function ToRow(e: ClickEvent): Event {
    var ts := match ParseTs(e.ts) case Some(t) => EpochSeconds(t) case None => 0;
    Event(e.eventId, e.eventType, e.userId, e.sessionId, ts, e.page, e.device, e.region, e.campaignId, e.referrer)
  }

  function ParsedRow(raw: Raw): Option<Event> {
    match ParseMessage(raw).event case Some(e) => Some(ToRow(e)) case None => None
  }

  // ---- Two validators, one verdict ----

  /** The consumer accepts exactly the events the producer can construct. */
  lemma ValidatorsAgree(e: ClickEvent)
    ensures Validate(e) == None <==> Constructible(e)
  {
  }

  /** Exactly one of the two columns is set for every message. */
  lemma OneVerdict(raw: Raw)
    ensures ParseMessage(raw).event.Some? <==> ParseMessage(raw).error.None?
  {
  }

  // ---- Which error ----

  // What each check of an event asks, in the order of the checks.
  const CHECKS := [InvalidEventType, InvalidDevice, InvalidRegion, InvalidCampaignId, InvalidReferrer,
                   InvalidPage, InvalidEventId, InvalidUserId, InvalidSessionId, InvalidTs]

  predicate Passes(e: ClickEvent, check: ParseError) {
    match check
    case InvalidEventType => e.eventType in EVENT_TYPES
    case InvalidDevice => e.device in DEVICES
    case InvalidRegion => e.region in REGIONS
    case InvalidCampaignId => e.campaignId in CAMPAIGN_IDS
    case InvalidReferrer => e.referrer in REFERRERS
    case InvalidPage => e.page in PAGES || IsProductPage(e.page)
    case InvalidEventId => IsUuid(e.eventId)
    case InvalidUserId => StartsWith(e.userId, "u-")
    case InvalidSessionId => StartsWith(e.sessionId, "s-")
    case InvalidTs => ParseTs(e.ts).Some?
    case _ => true
  }

  ghost predicate FailsFirstAt(e: ClickEvent, i: nat)
    requires i < |CHECKS|
  {
    !Passes(e, CHECKS[i]) && forall j :: 0 <= j < i ==> Passes(e, CHECKS[j])
  }

  ghost predicate PassesAll(e: ClickEvent) { forall j :: 0 <= j < |CHECKS| ==> Passes(e, CHECKS[j]) }

  lemma CheckNames()
    ensures |CHECKS| == 10
    ensures CHECKS[0] == InvalidEventType && CHECKS[1] == InvalidDevice && CHECKS[2] == InvalidRegion
    ensures CHECKS[3] == InvalidCampaignId && CHECKS[4] == InvalidReferrer && CHECKS[5] == InvalidPage
    ensures CHECKS[6] == InvalidEventId && CHECKS[7] == InvalidUserId && CHECKS[8] == InvalidSessionId
    ensures CHECKS[9] == InvalidTs
  {
  }

  lemma NoErrorIsPassed(e: ClickEvent)
    ensures Validate(e) == None <==> PassesAll(e)
  {
    CheckNames();
    ValidatorsAgree(e);
  }

  lemma ErrorHasPlace(e: ClickEvent) returns (i: nat)
    requires Validate(e).Some?
    ensures i < |CHECKS| && Validate(e) == Some(CHECKS[i]) && FailsFirstAt(e, i)
  {
    CheckNames();
    i := if !Passes(e, InvalidEventType) then 0
    else if !Passes(e, InvalidDevice) then 1
    else if !Passes(e, InvalidRegion) then 2
    else if !Passes(e, InvalidCampaignId) then 3
    else if !Passes(e, InvalidReferrer) then 4
    else if !Passes(e, InvalidPage) then 5
    else if !Passes(e, InvalidEventId) then 6
    else if !Passes(e, InvalidUserId) then 7
    else if !Passes(e, InvalidSessionId) then 8 else 9;
  }

  lemma FirstIsOne(e: ClickEvent, i: nat, j: nat)
    requires i < |CHECKS| && j < |CHECKS| && FailsFirstAt(e, i) && FailsFirstAt(e, j)
    ensures i == j
  {
  }

  /** The reported error is the first check that fails, and there is none when all pass. */
  lemma ErrorIsFirstFailure(e: ClickEvent, i: nat)
    requires i < |CHECKS|
    ensures Validate(e) == Some(CHECKS[i]) <==> FailsFirstAt(e, i)
    ensures Validate(e) == None <==> PassesAll(e)
  {
    NoErrorIsPassed(e);
    if Validate(e).Some? {
      var j := ErrorHasPlace(e);
      CheckNames();
      if FailsFirstAt(e, i) {
        FirstIsOne(e, i, j);
      }
    }
  }

  ghost predicate Before(fields: seq<string>, a: string, b: string) {
    exists p, q :: 0 <= p < q < |fields| && fields[p] == a && fields[q] == b
  }

  // The names of `fields` that m lacks, each once and in their order.
  ghost predicate AreMissing(m: map<string, string>, fields: seq<string>, names: seq<string>) {
    && (forall name :: name in names <==> name in fields && name !in m)
    && (forall i, j :: 0 <= i < j < |names| ==> Before(fields, names[i], names[j]))
  }

  lemma NamesMore(m: map<string, string>, field: string, rest: seq<string>, names: seq<string>)
    requires AreMissing(m, rest, names)
    ensures AreMissing(m, [field] + rest, if field in m then names else [field] + names)
  {
    var fields, more := [field] + rest, if field in m then names else [field] + names;
    var k := |more| - |names|;
    forall i, j | 0 <= i < j < |more| ensures Before(fields, more[i], more[j]) {
      assert more[j] == names[j - k];
      if i < k {
        assert names[j - k] in names;
        var q :| 0 <= q < |rest| && rest[q] == more[j];
        assert fields[0] == more[i] && fields[q + 1] == more[j];
      } else {
        assert Before(rest, names[i - k], names[j - k]);
        var p, q :| 0 <= p < q < |rest| && rest[p] == names[i - k] && rest[q] == names[j - k];
        assert fields[p + 1] == more[i] && fields[q + 1] == more[j];
      }
    }
  }

  lemma {:induction false} MissingMeaning(m: map<string, string>, fields: seq<string>)
    ensures AreMissing(m, fields, Missing(m, fields))
    decreases |fields|
  {
    if fields != [] {
      MissingMeaning(m, fields[1..]);
      NamesMore(m, fields[0], fields[1..], Missing(m, fields[1..]));
      assert fields == [fields[0]] + fields[1..];
      assert [] + Missing(m, fields[1..]) == Missing(m, fields[1..]);
    }
  }

  // The object a message holds, when it holds one.
  ghost predicate Carries(raw: Raw, m: map<string, string>) { raw.Some? && Loads(raw.value) == Some(m) }

  ghost predicate Complete(m: map<string, string>) { forall i :: 0 <= i < |FIELDS| ==> FIELDS[i] in m }

  predicate NamesMissing(message: Message) { message.error.Some? && message.error.value.MissingFields? }

  lemma ErrorOfObject(raw: Raw, m: map<string, string>)
    requires Carries(raw, m)
    ensures !Complete(m) ==> ParseMessage(raw) == Message(None, Some(MissingFields(Missing(m, FIELDS))))
    ensures Complete(m) ==> exists e :: HasFields(m, e) && ParseMessage(raw).error == Validate(e)
  {
    if Complete(m) {
      assert FromDict(m).Some? by {
        FromDictFails(m);
      }
      FromDictReads(m, FromDict(m).value);
    } else {
      FromDictFails(m);
    }
  }

  lemma FromDictFails(m: map<string, string>)
    ensures FromDict(m) == None <==> !Complete(m)
  {
  }

  lemma SomethingMissing(m: map<string, string>, fields: seq<string>, i: nat)
    requires i < |fields| && fields[i] !in m
    ensures Missing(m, fields) != []
  {
    MissingMeaning(m, fields);
    assert fields[i] in Missing(m, fields);
  }

  /** A message that is not a complete object: which error it gets, and which names it is said to lack. */
  lemma MalformedMeaning(raw: Raw)
    ensures ParseMessage(raw).error == Some(EmptyMessage) <==> raw == None
    ensures ParseMessage(raw).error == Some(NotAnObject) <==> raw.Some? && Loads(raw.value) == None
    ensures NamesMissing(ParseMessage(raw)) <==> exists m :: Carries(raw, m) && !Complete(m)
    ensures NamesMissing(ParseMessage(raw)) ==>
              var names := ParseMessage(raw).error.value.names;
              names != [] && exists m :: Carries(raw, m) && AreMissing(m, FIELDS, names)
  {
    if raw.Some? && Loads(raw.value).Some? {
      var m := Loads(raw.value).value;
      assert Carries(raw, m);
      ErrorOfObject(raw, m);
      MissingMeaning(m, FIELDS);
      if !Complete(m) {
        var i :| 0 <= i < |FIELDS| && FIELDS[i] !in m;
        SomethingMissing(m, FIELDS, i);
      } else {
        var e :| HasFields(m, e) && ParseMessage(raw).error == Validate(e);
        ErrorIsNotStructural(e);
      }
    }
  }

  lemma ErrorIsNotStructural(e: ClickEvent)
    ensures Validate(e).Some? ==> !Validate(e).value.MissingFields? && Validate(e).value !in {EmptyMessage, NotAnObject}
  {
  }

  /** A complete object: it is the event its ten fields make up, or gets the first check it fails. */
  lemma CompleteMeaning(raw: Raw, m: map<string, string>, e: ClickEvent)
    requires Carries(raw, m) && HasFields(m, e)
    ensures ParseMessage(raw) == if PassesAll(e) then Message(Some(e), None) else Message(None, Validate(e))
  {
    FromDictReads(m, e);
    ErrorIsFirstFailure(e, 0);
  }

  /** Whatever the producer can construct and serialise, the parser returns unchanged and without error. */
  lemma ProducedIsParsed(e: ClickEvent)
    requires Constructible(e)
    ensures ParseMessage(Some(ToJson(e))) == Message(Some(e), None)
  {
    JsonRoundTrip(e);
    ValidatorsAgree(e);
  }

  /** Whatever the parser lets through is an event the producer could have constructed. */
  lemma ParsedIsConstructible(raw: Raw)
    requires ParseMessage(raw).event.Some?
    ensures Constructible(ParseMessage(raw).event.value)
  {
    ValidatorsAgree(FromDict(Loads(raw.value).value).value);
  }

  // ---- The row ----

  // The row's columns are the event's own, and its time is the second the event's timestamp names.
  ghost predicate IsRowOf(r: Event, e: ClickEvent) {
    && r.eventId == e.eventId && r.eventType == e.eventType && r.userId == e.userId && r.sessionId == e.sessionId
    && r.page == e.page && r.device == e.device && r.region == e.region
    && r.campaignId == e.campaignId && r.referrer == e.referrer
    && exists t: DateTime :: Valid(t) && FormatTs(t) == e.ts && EpochSeconds(t) == r.ts
  }

  lemma RowHasColumns(e: ClickEvent)
    requires ParseTs(e.ts).Some?
    ensures IsRowOf(ToRow(e), e)
  {
    TsReadsBack(e.ts);
  }

  lemma RowIsUnique(r: Event, e: ClickEvent)
    requires IsRowOf(r, e)
    ensures r == ToRow(e)
  {
    var t: DateTime :| Valid(t) && FormatTs(t) == e.ts && EpochSeconds(t) == r.ts;
    TsRoundTrip(t);
  }

  /** The row read for a constructible event has the event's columns and the second of its timestamp. */
  lemma ProducedRow(e: ClickEvent)
    requires Constructible(e)
    ensures ParsedRow(Some(ToJson(e))).Some? && IsRowOf(ParsedRow(Some(ToJson(e))).value, e)
  {
    ProducedIsParsed(e);
    RowHasColumns(e);
  }

  /** A message gives a row exactly when it holds an object whose ten fields pass all checks, and then their row. */
  lemma ParsedRowMeaning(raw: Raw, r: Event)
    ensures ParsedRow(raw) == Some(r) <==>
            exists m, e :: Carries(raw, m) && HasFields(m, e) && PassesAll(e) && IsRowOf(r, e)
  {
    if ParsedRow(raw) == Some(r) {
      var m := Loads(raw.value).value;
      var e := FromDict(m).value;
      FromDictReads(m, e);
      ErrorIsFirstFailure(e, 9);
      RowHasColumns(e);
      assert Carries(raw, m);
    }
    if m, e :| Carries(raw, m) && HasFields(m, e) && PassesAll(e) && IsRowOf(r, e) {
      CompleteMeaning(raw, m, e);
      RowIsUnique(r, e);
    }
  }

  lemma ParsedTypeIsKnown(raw: Raw)
    requires ParsedRow(raw).Some?
    ensures ParsedRow(raw).value.eventType in EVENT_TYPES
  {
    ParsedIsConstructible(raw);
  }
}
