/** The producer's ClickEvent: the validation its constructor runs, and its JSON text. */
module Schema {
  import opened Calendar
  import opened Json
  import opened Wrappers

  datatype ClickEvent = ClickEvent(
    eventId: string,
    eventType: string,
    userId: string,
    sessionId: string,
    ts: string,
    page: string,
    device: string,
    region: string,
    campaignId: string,
    referrer: string)

  const EVENT_TYPES := ["page_view", "click", "add_to_cart", "purchase"]
  const PAGES := ["/home", "/search", "/product", "/cart", "/checkout", "/account", "/help"]
  const DEVICES := ["mobile", "desktop", "tablet"]
  const REGIONS := ["us-west", "us-east", "eu-west", "ap-southeast", "eu-central", "sa-east"]
  const CAMPAIGN_IDS := ["c-1", "c-2", "c-3", "c-4", "c-5", "c-6", "c-7", "c-8", "organic"]
  const REFERRERS := ["google", "facebook", "email", "direct", "ads"]

  const PRODUCT_PREFIX := "/product/"

  predicate AllDigits(s: string) { forall i :: 0 <= i < |s| ==> '0' <= s[i] <= '9' }

  // A product number: digits that do not start with a zero.
  predicate ProductNumber(s: string) { s != "" && s[0] != '0' && AllDigits(s) }

  // ^/product/([1-9][0-9]*)$ under re.match: the final $ also matches before one trailing newline.
  predicate IsProductPage(page: string) {
    && |page| > |PRODUCT_PREFIX| && page[..|PRODUCT_PREFIX|] == PRODUCT_PREFIX
    && var n := page[|PRODUCT_PREFIX|..];
       ProductNumber(n) || (n[|n| - 1] == '\n' && ProductNumber(n[..|n| - 1]))
  }

  lemma {:induction false} DecimalIsProductNumber(n: nat)
    requires n > 0
    ensures ProductNumber(Decimal(n))
  {
    if n >= 10 {
      DecimalIsProductNumber(n / 10);
    }
  }

  lemma {:induction false} ProductNumberIsDecimal(s: string) returns (n: nat)
    requires ProductNumber(s)
    ensures n > 0 && s == Decimal(n)
  {
    var front, digit := s[..|s| - 1], (s[|s| - 1] - '0') as int;
    assert s[|s| - 1] == Digit(digit);
    assert s == front + [Digit(digit)];
    if front == "" {
      n := digit;
      assert Decimal(n) == [Digit(digit)];
    } else {
      var high := ProductNumberIsDecimal(front);
      n := 10 * high + digit;
      assert n / 10 == high && n % 10 == digit;
    }
  }

  // The path of product number n, which the pattern's $ lets end in a newline.
  ghost predicate PathOfProduct(page: string, n: nat) {
    page == "/product/" + Decimal(n) || page == "/product/" + Decimal(n) + "\n"
  }

  lemma PathSplits(page: string, n: string)
    ensures page == "/product/" + n <==> |page| >= 9 && page[..9] == "/product/" && page[9..] == n
  {
    assert |"/product/"| == 9;
    if |page| >= 9 {
      assert page == page[..9] + page[9..];
    }
  }

  /** The product pages are the paths of the numbers from one up, written without leading zeros. */
  lemma ProductPageMeaning(page: string)
    ensures IsProductPage(page) <==> exists n: nat :: n > 0 && PathOfProduct(page, n)
  {
    if IsProductPage(page) {
      var rest := page[9..];
      PathSplits(page, rest);
      if ProductNumber(rest) {
        var n := ProductNumberIsDecimal(rest);
        assert PathOfProduct(page, n);
      } else {
        var n := ProductNumberIsDecimal(rest[..|rest| - 1]);
        assert rest == Decimal(n) + "\n";
        assert page == "/product/" + Decimal(n) + "\n";
        assert PathOfProduct(page, n);
      }
    }
    if n: nat :| n > 0 && PathOfProduct(page, n) {
      DecimalIsProductNumber(n);
      if page == "/product/" + Decimal(n) {
        PathSplits(page, Decimal(n));
      } else {
        assert page == "/product/" + (Decimal(n) + "\n");
        PathSplits(page, Decimal(n) + "\n");
        assert (Decimal(n) + "\n")[..|Decimal(n)|] == Decimal(n);
      }
    }
  }

  function WithoutHyphens(s: string): string {
    if s == "" then "" else if s[0] == '-' then WithoutHyphens(s[1..]) else [s[0]] + WithoutHyphens(s[1..])
  }

  // str.strip('{}')
  function StripBraces(s: string): string
    decreases |s|
  {
    if s == "" then ""
    else if s[0] in "{}" then StripBraces(s[1..])
    else if s[|s| - 1] in "{}" then StripBraces(s[..|s| - 1])
    else s
  }

  // What uuid.UUID accepts: 32 hexadecimal digits once hyphens and outer braces are gone.
  predicate IsUuid(s: string) {
    var digits := WithoutHyphens(StripBraces(s));
    |digits| == 32 && forall i :: 0 <= i < 32 ==> HexValue(digits[i]).Some?
  }

  function NotHyphen(): char -> bool { (c: char) => c != '-' }

  ghost predicate HexOrHyphen(s: string) { forall i :: 0 <= i < |s| ==> s[i] == '-' || HexValue(s[i]).Some? }

  ghost predicate OnlyHex(s: string) { forall i :: 0 <= i < |s| ==> HexValue(s[i]).Some? }

  lemma OnlyHexBehind(c: char, s: string)
    ensures OnlyHex([c] + s) <==> HexValue(c).Some? && OnlyHex(s)
  {
    var t := [c] + s;
    assert t[0] == c && forall i :: 0 <= i < |s| ==> t[i + 1] == s[i];
    assert forall i :: 0 < i < |t| ==> t[i] == s[i - 1];
  }

  lemma HexOrHyphenBehind(c: char, s: string)
    ensures HexOrHyphen([c] + s) <==> (c == '-' || HexValue(c).Some?) && HexOrHyphen(s)
  {
    var t := [c] + s;
    assert t[0] == c && forall i :: 0 <= i < |s| ==> t[i + 1] == s[i];
    assert forall i :: 0 < i < |t| ==> t[i] == s[i - 1];
  }

  lemma {:induction false} HyphensGone(s: string)
    ensures |WithoutHyphens(s)| == |Where(NotHyphen(), s)|
    ensures OnlyHex(WithoutHyphens(s)) <==> HexOrHyphen(s)
  {
    if s == "" {
      assert Where(NotHyphen(), s) == {};
    } else {
      HyphensGone(s[1..]);
      WhereBehind(NotHyphen(), s[0], s[1..]);
      assert s == [s[0]] + s[1..];
      OnlyHexBehind(s[0], WithoutHyphens(s[1..]));
      HexOrHyphenBehind(s[0], s[1..]);
    }
  }

  // Between some braces and some others stand 32 hexadecimal digits and any hyphens.
  ghost predicate UuidBetween(s: string, l: nat, h: nat) {
    && l <= h <= |s|
    && (forall i :: 0 <= i < l || h <= i < |s| ==> s[i] in "{}")
    && HexOrHyphen(s[l..h]) && |Where(NotHyphen(), s[l..h])| == 32
  }

  ghost predicate Trims(s: string, l: nat, h: nat) {
    && l <= h <= |s| && StripBraces(s) == s[l..h]
    && forall i :: 0 <= i < l || h <= i < |s| ==> s[i] in "{}"
  }

  lemma {:induction false} BracesTrimmed(s: string) returns (l: nat, h: nat)
    ensures Trims(s, l, h)
    decreases |s|
  {
    if s == "" {
      l, h := 0, 0;
    } else if s[0] in "{}" {
      var a, b := BracesTrimmed(s[1..]);
      l, h := a + 1, b + 1;
      assert s[1..][a..b] == s[l..h];
      assert forall i :: 0 < i < |s| ==> s[i] == s[1..][i - 1];
    } else if s[|s| - 1] in "{}" {
      l, h := BracesTrimmed(s[..|s| - 1]);
      assert s[..|s| - 1][l..h] == s[l..h];
      assert forall i :: 0 <= i < |s| - 1 ==> s[i] == s[..|s| - 1][i];
    } else {
      l, h := 0, |s|;
      assert s[l..h] == s;
    }
  }

  lemma {:induction false} TrimsTo(s: string, l: nat, h: nat)
    requires l < h <= |s| && s[l] !in "{}" && s[h - 1] !in "{}"
    requires forall i :: 0 <= i < l || h <= i < |s| ==> s[i] in "{}"
    ensures StripBraces(s) == s[l..h]
    decreases |s|
  {
    if l > 0 {
      TrimsTo(s[1..], l - 1, h - 1);
      assert s[1..][l - 1..h - 1] == s[l..h];
    } else if h < |s| {
      TrimsTo(s[..|s| - 1], l, h);
      assert s[..|s| - 1][l..h] == s[l..h];
    } else {
      assert s[l..h] == s;
    }
  }

  /** What passes for a UUID: 32 hexadecimal digits, hyphens anywhere among them, braces around them. */
  lemma UuidMeaning(s: string)
    ensures IsUuid(s) <==> exists l: nat, h: nat :: UuidBetween(s, l, h)
  {
    if IsUuid(s) {
      var l, h := BracesTrimmed(s);
      HyphensGone(s[l..h]);
      assert UuidBetween(s, l, h);
    }
    if l: nat, h: nat :| UuidBetween(s, l, h) {
      var mid := s[l..h];
      HyphensGone(mid);
      WhereInNothing(NotHyphen());
      assert mid[0] == s[l] && mid[|mid| - 1] == s[h - 1];
      TrimsTo(s, l, h);
    }
  }

  predicate StartsWith(s: string, prefix: string) { prefix <= s }

  // __post_init__ returns normally.
  predicate Constructible(e: ClickEvent) {
    && e.eventType in EVENT_TYPES
    && e.device in DEVICES
    && e.region in REGIONS
    && e.campaignId in CAMPAIGN_IDS
    && e.referrer in REFERRERS
    && (e.page in PAGES || IsProductPage(e.page))
    && IsUuid(e.eventId)
    && StartsWith(e.userId, "u-")
    && StartsWith(e.sessionId, "s-")
    && ParseTs(e.ts).Some?
  }

  // asdict, in field order.
  function ToDict(e: ClickEvent): seq<(string, string)> {
    [("event_id", e.eventId), ("event_type", e.eventType), ("user_id", e.userId), ("session_id", e.sessionId),
     ("ts", e.ts), ("page", e.page), ("device", e.device), ("region", e.region),
     ("campaign_id", e.campaignId), ("referrer", e.referrer)]
  }

  function ToJson(e: ClickEvent): string { Dumps(ToDict(e)) }

  const FIELDS := ["event_id", "event_type", "user_id", "session_id", "ts", "page", "device", "region",
                   "campaign_id", "referrer"]

  // from_dict before the constructor validates; KeyError is None.
  function FromDict(m: map<string, string>): Option<ClickEvent> {
    if exists i :: 0 <= i < |FIELDS| && FIELDS[i] !in m then None
    else
      assert FIELDS[0] in m && FIELDS[1] in m && FIELDS[2] in m && FIELDS[3] in m && FIELDS[4] in m;
      assert FIELDS[5] in m && FIELDS[6] in m && FIELDS[7] in m && FIELDS[8] in m && FIELDS[9] in m;
      Some(ClickEvent(m["event_id"], m["event_type"], m["user_id"], m["session_id"], m["ts"], m["page"],
                      m["device"], m["region"], m["campaign_id"], m["referrer"]))
  }

  ghost predicate DistinctNames(members: seq<(string, string)>) {
    forall i, j :: 0 <= i < j < |members| ==> members[i].0 != members[j].0
  }

  lemma {:induction false} AsMapFirst(m: map<string, string>, members: seq<(string, string)>, k: string)
    requires forall i :: 0 <= i < |members| ==> members[i].0 != k
    ensures k in AsMap(m, members) <==> k in m
    ensures k in m ==> AsMap(m, members)[k] == m[k]
    decreases |members|
  {
    if members != [] {
      AsMapFirst(m[members[0].0 := members[0].1], members[1..], k);
    }
  }

  lemma {:induction false} AsMapLookup(m: map<string, string>, members: seq<(string, string)>, i: nat)
    requires DistinctNames(members) && i < |members|
    ensures members[i].0 in AsMap(m, members) && AsMap(m, members)[members[i].0] == members[i].1
    decreases |members|
  {
    var next := m[members[0].0 := members[0].1];
    if i == 0 {
      AsMapFirst(next, members[1..], members[0].0);
    } else {
      AsMapLookup(next, members[1..], i - 1);
    }
  }

  lemma DictHasFields(e: ClickEvent)
    ensures DistinctNames(ToDict(e)) && |ToDict(e)| == |FIELDS|
    ensures forall i :: 0 <= i < |FIELDS| ==> ToDict(e)[i].0 == FIELDS[i]
  {
  }

  // The object names each of the ten fields with the event's own value.
  ghost predicate HasFields(m: map<string, string>, e: ClickEvent) {
    && Names(m, "event_id", e.eventId) && Names(m, "event_type", e.eventType) && Names(m, "user_id", e.userId)
    && Names(m, "session_id", e.sessionId) && Names(m, "ts", e.ts) && Names(m, "page", e.page)
    && Names(m, "device", e.device) && Names(m, "region", e.region)
    && Names(m, "campaign_id", e.campaignId) && Names(m, "referrer", e.referrer)
  }

  predicate Names(m: map<string, string>, name: string, value: string) { name in m && m[name] == value }

  lemma FieldAt(e: ClickEvent, i: nat)
    requires i < |ToDict(e)|
    ensures Names(AsMap(map[], ToDict(e)), ToDict(e)[i].0, ToDict(e)[i].1)
  {
    DictHasFields(e);
    AsMapLookup(map[], ToDict(e), i);
  }

  /** The object an event is sent as names each of the ten fields with the event's own value. */
  lemma SentAsItsFields(e: ClickEvent)
    ensures Loads(ToJson(e)).Some? && HasFields(Loads(ToJson(e)).value, e)
  {
    DumpsRoundTrip(ToDict(e));
    FieldAt(e, 0);
    FieldAt(e, 1);
    FieldAt(e, 2);
    FieldAt(e, 3);
    FieldAt(e, 4);
    FieldAt(e, 5);
    FieldAt(e, 6);
    FieldAt(e, 7);
    FieldAt(e, 8);
    FieldAt(e, 9);
  }

  /** What from_dict reads is named so in the object, and it fails only for a missing name. */
  lemma FromDictReads(m: map<string, string>, e: ClickEvent)
    ensures FromDict(m) == Some(e) <==> HasFields(m, e)
    ensures FromDict(m) == None <==> exists i :: 0 <= i < |FIELDS| && FIELDS[i] !in m
  {
    if HasFields(m, e) {
      forall i | 0 <= i < |FIELDS| ensures FIELDS[i] in m {
        assert FIELDS[i] in {"event_id", "event_type", "user_id", "session_id", "ts", "page", "device", "region",
                             "campaign_id", "referrer"};
      }
    }
    if FromDict(m).Some? {
      assert FIELDS[0] in m && FIELDS[1] in m && FIELDS[2] in m && FIELDS[3] in m && FIELDS[4] in m;
      assert FIELDS[5] in m && FIELDS[6] in m && FIELDS[7] in m && FIELDS[8] in m && FIELDS[9] in m;
    }
  }

  /** An event survives to_json, json.loads and from_dict unchanged. */
  lemma JsonRoundTrip(e: ClickEvent)
    ensures Loads(ToJson(e)).Some? && FromDict(Loads(ToJson(e)).value) == Some(e)
  {
    SentAsItsFields(e);
    FromDictReads(Loads(ToJson(e)).value, e);
  }
}
