/**
 The clickstream simulator: a seeded generator of sessions over a page funnel, drawing from a
 random tape, and the promise that the consumer's parser accepts everything it emits.
 */
module Simulator {
  import opened Calendar
  import opened Json
  import opened Parsing
  import opened Schema
  import opened Wrappers

  // What the seed determines: the outcome of every draw, in order.
  type Tape = nat -> nat

  const USER_POOL_SIZE := 5000
  const PRODUCT_POOL_SIZE := 200
  const SESSION_MIN_EVENTS := 3
  const SESSION_MAX_EVENTS := 20

  const PAGE_CHOICES := ["/home", "/search", "/product", "/cart", "/checkout", "/account", "/help"]
  const DEVICE_CHOICES := ["mobile", "desktop", "tablet"]
  const REGION_CHOICES := ["us-west", "us-east", "eu-west", "ap-southeast", "eu-central", "sa-east"]
  const CAMPAIGN_CHOICES := ["organic", "c-1", "c-2", "c-3", "c-4", "c-5", "c-6", "c-7", "c-8"]
  const REFERRER_CHOICES := ["google", "direct", "facebook", "email", "ads"]

  // A string and the tape position after the draws that made it.
  datatype Drawn = Drawn(text: string, pos: nat)

  function Below(tape: Tape, pos: nat, n: nat): (k: nat)
    requires n > 0
    ensures k < n
  {
    tape(pos) % n
  }

  function Pick(tape: Tape, pos: nat, choices: seq<string>): string
    requires choices != []
  {
    choices[Below(tape, pos, |choices|)]
  }

  function Product(tape: Tape, pos: nat): Drawn {
    Drawn(PRODUCT_PREFIX + Decimal(1 + Below(tape, pos, PRODUCT_POOL_SIZE)), pos + 1)
  }

  // _expand_page
  function Expand(tape: Tape, pos: nat, page: string): Drawn {
    if page == "/product" then Product(tape, pos) else Drawn(page, pos)
  }

  function PickAndExpand(tape: Tape, pos: nat): Drawn { Expand(tape, pos + 1, Pick(tape, pos, PAGE_CHOICES)) }

  // A draw in hundredths.
  function FirstPage(tape: Tape, pos: nat): Drawn {
    var roll := Below(tape, pos, 100);
    if roll < 70 then Drawn("/home", pos + 1)
    else if roll < 90 then Product(tape, pos + 1)
    else PickAndExpand(tape, pos + 1)
  }

  function Category(page: string): string { if IsProductPage(page) then "/product" else page }

  function FunnelNext(category: string): Option<string> {
    if category == "/home" || category == "/search" then Some("/product")
    else if category == "/product" then Some("/cart")
    else if category == "/cart" || category == "/checkout" then Some("/checkout")
    else if category == "/account" || category == "/help" then Some("/home")
    else None
  }

  function NextPage(tape: Tape, pos: nat, current: string): Drawn {
    var roll := Below(tape, pos, 100);
    if roll < 50 then Drawn(current, pos + 1)
    else if roll < 85 then
      match FunnelNext(Category(current))
      case Some(next) => Expand(tape, pos + 1, next)
      case None => PickAndExpand(tape, pos + 1)
    else PickAndExpand(tape, pos + 1)
  }

  function EventTypes(page: string): (types: seq<string>)
    ensures types != []
  {
    ["page_view", "click"] +
    (if page in ["/product", "/cart", "/checkout"] || IsProductPage(page) then ["add_to_cart"] else []) +
    (if page == "/checkout" then ["purchase"] else [])
  }

  // str(uuid.UUID(int=n)): the text form of RFC 9562 section 4.
  function UuidText(n: nat): string {
    var h := Hex(n, 32);
    h[..8] + "-" + h[8..12] + "-" + h[12..16] + "-" + h[16..20] + "-" + h[20..]
  }

  // ---- Sessions ----

  datatype Session = Session(
    userId: string,
    sessionId: string,
    device: string,
    region: string,
    campaignId: string,
    referrer: string)

  // Between two events: the event of `page` is next, and left counts the events of the session from it on.
  datatype State = State(pos: nat, clock: DateTime, micros: nat, session: Session, page: string, left: nat)

  function UserId(tape: Tape, pos: nat): string { "u-" + Padded(1 + Below(tape, pos, USER_POOL_SIZE), 4) }

  function SessionId(tape: Tape, pos: nat): string { "s-" + Hex(tape(pos), 32)[..12] }

  function NewSession(tape: Tape, pos: nat): Session {
    Session(UserId(tape, pos), SessionId(tape, pos + 1),
            Pick(tape, pos + 2, DEVICE_CHOICES), Pick(tape, pos + 3, REGION_CHOICES),
            Pick(tape, pos + 4, CAMPAIGN_CHOICES), Pick(tape, pos + 5, REFERRER_CHOICES))
  }

  function Begin(tape: Tape, pos: nat, clock: DateTime, micros: nat): State {
    var first := FirstPage(tape, pos + 6);
    var length := SESSION_MIN_EVENTS + Below(tape, first.pos, SESSION_MAX_EVENTS - SESSION_MIN_EVENTS + 1);
    State(first.pos + 1, clock, micros, NewSession(tape, pos), first.text, length)
  }

  function EventOf(tape: Tape, s: State): ClickEvent {
    ClickEvent(UuidText(tape(s.pos)), Pick(tape, s.pos + 1, EventTypes(s.page)), s.session.userId, s.session.sessionId,
               FormatTs(s.clock), s.page, s.session.device, s.session.region, s.session.campaignId, s.session.referrer)
  }

  // The clock one step later; None is the OverflowError past year 9999.
  function Advance(clock: DateTime, micros: nat, step: nat): Option<(DateTime, nat)> {
    if micros + step < 1_000_000 then Some((clock, micros + step))
    else if LastSecond(clock) then None
    else Some((NextSecond(clock), micros + step - 1_000_000))
  }

  // The next event of the session on page `next`, or a new session once it is over.
  function After(tape: Tape, s: State, next: Drawn, clock: DateTime, micros: nat): State {
    if s.left > 1 then State(next.pos, clock, micros, s.session, next.text, s.left - 1)
    else Begin(tape, next.pos, clock, micros)
  }

  // What happens when the generator is resumed after yielding the event of s.
  function Resume(tape: Tape, s: State, step: nat): Option<State> {
    match Advance(s.clock, s.micros, step)
    case None => None
    case Some((clock, micros)) => Some(After(tape, s, NextPage(tape, s.pos + 2, s.page), clock, micros))
  }

  // Where a fresh iterator starts: the random tape and the clock, and the clock's step.
  datatype Setup = Setup(tape: Tape, pos: nat, clock: DateTime, micros: nat, step: nat)

  function Start(u: Setup): State { Begin(u.tape, u.pos, u.clock, u.micros) }

  function Next(u: Setup): State -> Option<State> { (s: State) => Resume(u.tape, s, u.step) }

  // start, then next of it, and so on until one fails.
  function Iterate<T>(start: T, next: T -> Option<T>, n: nat): Option<T> {
    if n == 0 then Some(start)
    else match Iterate(start, next, n - 1) case Some(x) => next(x) case None => None
  }

  // The state in which event number n is yielded.
  function At(u: Setup, n: nat): Option<State> { Iterate(Start(u), Next(u), n) }

  function Yield(u: Setup, n: nat): Option<ClickEvent> {
    match At(u, n) case Some(s) => Some(EventOf(u.tape, s)) case None => None
  }

  function Yields(u: Setup): nat -> Option<ClickEvent> { (n: nat) => Yield(u, n) }

  // list(islice(f, n)), or None when an item before the n-th fails.
  function Collect<T>(f: nat -> Option<T>, n: nat): Option<seq<T>> {
    if n == 0 then Some([])
    else
      match (Collect(f, n - 1), f(n - 1))
      case (Some(before), Some(x)) => Some(before + [x])
      case _ => None
  }

  // The first n events, or None when the clock overflows before.
  function Events(u: Setup, n: nat): Option<seq<ClickEvent>> { Collect(Yields(u), n) }

  // timedelta(seconds=1.0 / rate) in microseconds: the nearest, ties to even.
  function StepMicros(rate: nat): (step: nat)
    requires rate > 0
    ensures step <= 1_000_000
  {
    var q, r := 1_000_000 / rate, 1_000_000 % rate;
    if 2 * r < rate || (2 * r == rate && q % 2 == 0) then q else q + 1
  }

  /** The step is the whole number of microseconds nearest to 1 000 000 / rate, the even one of two. */
  lemma StepIsNearest(rate: nat)
    requires rate > 0
    ensures var gap := StepMicros(rate) * rate - 1_000_000;
            0 <= 2 * gap + rate <= 2 * rate && (2 * gap + rate in {0, 2 * rate} ==> StepMicros(rate) % 2 == 0)
  {
    var q, r := 1_000_000 / rate, 1_000_000 % rate;
    assert q * rate + r == 1_000_000;
    assert (q + 1) * rate == q * rate + rate;
  }

  /** Every known value of a column can be drawn, and nothing else. */
  lemma ChoicesAreKnown()
    ensures forall x :: x in PAGE_CHOICES <==> x in PAGES
    ensures forall x :: x in DEVICE_CHOICES <==> x in DEVICES
    ensures forall x :: x in REGION_CHOICES <==> x in REGIONS
    ensures forall x :: x in CAMPAIGN_CHOICES <==> x in CAMPAIGN_IDS
    ensures forall x :: x in REFERRER_CHOICES <==> x in REFERRERS
  {
  }

  // ---- The texts ----

  lemma ProductIsProductPage(tape: Tape, pos: nat)
    ensures IsProductPage(Product(tape, pos).text) && Product(tape, pos).text != "/product"
  {
    var number := Decimal(1 + Below(tape, pos, PRODUCT_POOL_SIZE));
    DecimalIsProductNumber(1 + Below(tape, pos, PRODUCT_POOL_SIZE));
    assert (PRODUCT_PREFIX + number)[|PRODUCT_PREFIX|..] == number;
    assert (PRODUCT_PREFIX + number)[..|PRODUCT_PREFIX|] == PRODUCT_PREFIX;
  }

  ghost predicate AllHex(s: string) {
    forall i :: 0 <= i < |s| ==> HexValue(s[i]).Some? && s[i] != '-' && s[i] !in "{}"
  }

  lemma {:induction false} HexIsHex(n: nat, digits: nat)
    ensures AllHex(Hex(n, digits))
  {
    if digits > 0 {
      HexIsHex(n / 16, digits - 1);
      HexDigitIsHex(n % 16);
    }
  }

  lemma HexDigitIsHex(n: nat)
    requires n < 16
    ensures AllHex([HexDigit(n)])
  {
    HexRoundTrip(n);
  }

  lemma HyphenStep(a: string, b: string)
    requires a != "" && WithoutHyphens(a[1..] + b) == WithoutHyphens(a[1..]) + WithoutHyphens(b)
    ensures WithoutHyphens(a + b) == WithoutHyphens(a) + WithoutHyphens(b)
  {
    assert (a + b)[1..] == a[1..] + b;
    Regroup([a[0]], WithoutHyphens(a[1..]), WithoutHyphens(b));
  }

  lemma {:induction false} WithoutHyphensConcat(a: string, b: string)
    ensures WithoutHyphens(a + b) == WithoutHyphens(a) + WithoutHyphens(b)
  {
    if a == "" {
      assert a + b == b;
    } else {
      WithoutHyphensConcat(a[1..], b);
      HyphenStep(a, b);
    }
  }

  lemma {:induction false} HexHasNoHyphens(s: string)
    requires AllHex(s)
    ensures WithoutHyphens(s) == s
  {
    if s != "" {
      HexHasNoHyphens(s[1..]);
      assert s == [s[0]] + s[1..];
    }
  }

  lemma HyphenJoins(a: string, b: string)
    requires AllHex(b)
    ensures WithoutHyphens(a + "-" + b) == WithoutHyphens(a) + b
  {
    WithoutHyphensConcat(a + "-", b);
    WithoutHyphensConcat(a, "-");
    HexHasNoHyphens(b);
    assert WithoutHyphens("-") == "";
    assert WithoutHyphens(a) + "" == WithoutHyphens(a);
  }

  lemma FiveParts(h: string)
    requires |h| == 32
    ensures h[..8] + h[8..12] + h[12..16] + h[16..20] + h[20..] == h
  {
  }

  lemma UuidIsUuid(n: nat)
    ensures IsUuid(UuidText(n))
  {
    HexIsHex(n, 32);
    UuidDigits(n);
    NoBraces(UuidText(n));
  }

  predicate LowerHex(c: char) { '0' <= c <= '9' || 'a' <= c <= 'f' }

  lemma {:induction false} HexIsLower(n: nat, digits: nat)
    ensures forall i :: 0 <= i < digits ==> LowerHex(Hex(n, digits)[i])
  {
    if digits > 0 {
      HexIsLower(n / 16, digits - 1);
    }
  }

  /** The text has the form 8-4-4-4-12 in lower-case digits. */
  lemma UuidForm(n: nat)
    ensures |UuidText(n)| == 36
    ensures forall i :: 0 <= i < 36 ==>
              if i == 8 || i == 13 || i == 18 || i == 23 then UuidText(n)[i] == '-' else LowerHex(UuidText(n)[i])
  {
    HexIsLower(n, 32);
  }

  /** Different draws of 128 bits give different event ids. */
  lemma UuidsDiffer(m: nat, n: nat)
    requires m < Pow16(32) && n < Pow16(32) && UuidText(m) == UuidText(n)
    ensures m == n
  {
    UuidDigits(m);
    UuidDigits(n);
    HexNumberRoundTrip(m, 32);
    HexNumberRoundTrip(n, 32);
  }

  lemma UuidDigits(n: nat)
    ensures WithoutHyphens(UuidText(n)) == Hex(n, 32)
  {
    var h := Hex(n, 32);
    HexIsHex(n, 32);
    HexHasNoHyphens(h[..8]);
    HyphenJoins(h[..8], h[8..12]);
    HyphenJoins(h[..8] + "-" + h[8..12], h[12..16]);
    HyphenJoins(h[..8] + "-" + h[8..12] + "-" + h[12..16], h[16..20]);
    HyphenJoins(h[..8] + "-" + h[8..12] + "-" + h[12..16] + "-" + h[16..20], h[20..]);
    FiveParts(h);
  }

  lemma NoBraces(s: string)
    requires s != "" && s[0] !in "{}" && s[|s| - 1] !in "{}"
    ensures StripBraces(s) == s
  {
  }

  // ---- Every state is good ----

  predicate GoodPage(page: string) {
    page in ["/home", "/search", "/cart", "/checkout", "/account", "/help"] || IsProductPage(page)
  }

  // One of the 5000 users.
  ghost predicate IsUser(userId: string) { exists rank: nat :: 1 <= rank <= 5000 && userId == "u-" + Padded(rank, 4) }

  predicate IsSessionId(s: string) { |s| == 14 && s[..2] == "s-" && forall i :: 2 <= i < 14 ==> LowerHex(s[i]) }

  ghost predicate GoodSession(s: Session) {
    && IsUser(s.userId) && IsSessionId(s.sessionId)
    && s.device in DEVICES && s.region in REGIONS && s.campaignId in CAMPAIGN_IDS && s.referrer in REFERRERS
  }

  ghost predicate GoodState(s: State) {
    && GoodPage(s.page) && GoodSession(s.session)
    && Valid(s.clock) && s.micros < 1_000_000 && 1 <= s.left <= SESSION_MAX_EVENTS
  }

  lemma BareProductIsNotGood(page: string)
    requires GoodPage(page)
    ensures page != "/product"
  {
  }

  lemma ExpandIsGood(tape: Tape, pos: nat, page: string)
    requires page == "/product" || GoodPage(page)
    ensures GoodPage(Expand(tape, pos, page).text)
  {
    ProductIsProductPage(tape, pos);
  }

  lemma PickIsGood(tape: Tape, pos: nat)
    ensures GoodPage(PickAndExpand(tape, pos).text)
  {
    ExpandIsGood(tape, pos + 1, Pick(tape, pos, PAGE_CHOICES));
  }

  lemma FirstPageIsGood(tape: Tape, pos: nat)
    ensures GoodPage(FirstPage(tape, pos).text)
  {
    ProductIsProductPage(tape, pos + 1);
    PickIsGood(tape, pos + 1);
  }

  lemma NextPageIsGood(tape: Tape, pos: nat, current: string)
    requires GoodPage(current)
    ensures GoodPage(NextPage(tape, pos, current).text)
  {
    PickIsGood(tape, pos + 1);
    match FunnelNext(Category(current))
    case Some(next) => ExpandIsGood(tape, pos + 1, next);
    case None =>
  }

  // How many funnel moves a page is away from the checkout.
  function StagesLeft(page: string): nat {
    if page == "/checkout" then 0
    else if page == "/cart" then 1
    else if IsProductPage(page) then 2
    else if page == "/home" || page == "/search" then 3
    else 4
  }

  lemma FunnelStage(page: string, next: string)
    requires GoodPage(page) && FunnelNext(Category(page)) == Some(next)
    ensures StagesLeft(page) == 0 ==> next == page
    ensures StagesLeft(page) != 0 ==>
              if next == "/product" then StagesLeft(page) == 3 else StagesLeft(next) == StagesLeft(page) - 1
  {
  }

  lemma FunnelGoesOn(page: string)
    requires GoodPage(page)
    ensures FunnelNext(Category(page)).Some?
  {
  }

  /** A low roll stays on the page; a middle roll moves one stage closer to the checkout, and stays there. */
  lemma NextPageFollowsFunnel(tape: Tape, pos: nat, current: string)
    requires GoodPage(current) && Below(tape, pos, 100) < 85
    ensures var next := NextPage(tape, pos, current).text;
            if Below(tape, pos, 100) < 50 || current == "/checkout" then next == current
            else StagesLeft(next) == StagesLeft(current) - 1
  {
    if Below(tape, pos, 100) >= 50 {
      FunnelGoesOn(current);
      var next := FunnelNext(Category(current)).value;
      FunnelStage(current, next);
      ProductIsProductPage(tape, pos + 1);
      ProductStage(Product(tape, pos + 1).text);
    }
  }

  lemma ProductStage(page: string)
    requires IsProductPage(page)
    ensures StagesLeft(page) == 2
  {
    assert page[..|PRODUCT_PREFIX|] == PRODUCT_PREFIX;
    assert page[1] == 'p';
  }

  // A tape with a roll at pos and choice c after it.
  function RollThen(pos: nat, roll: nat, c: nat): Tape { (i: nat) => if i == pos then roll else c }

  lemma RolledChoice(pos: nat, roll: nat, c: nat)
    requires roll < 100 && c < |PAGES|
    ensures Below(RollThen(pos, roll, c), pos, 100) == roll
    ensures Category(PickAndExpand(RollThen(pos, roll, c), pos + 1).text) == PAGES[c]
  {
    ProductIsProductPage(RollThen(pos, roll, c), pos + 2);
    assert Pick(RollThen(pos, roll, c), pos + 1, PAGE_CHOICES) == PAGES[c];
  }

  /** After a roll of 85 or more the next page may be any, whatever the current one is. */
  lemma JumpsAnywhere(pos: nat, roll: nat, current: string, c: nat)
    requires 85 <= roll < 100 && c < |PAGES|
    ensures Below(RollThen(pos, roll, c), pos, 100) == roll
    ensures Category(NextPage(RollThen(pos, roll, c), pos, current).text) == PAGES[c]
  {
    RolledChoice(pos, roll, c);
  }

  // The path of one of the 200 products.
  ghost predicate IsPoolProduct(page: string) { exists n: nat :: 1 <= n <= 200 && page == "/product/" + Decimal(n) }

  /** Seventy rolls of a hundred start on the home page and twenty on a product of the pool. */
  lemma FirstPageByRoll(tape: Tape, pos: nat)
    ensures Below(tape, pos, 100) < 70 ==> FirstPage(tape, pos).text == "/home"
    ensures 70 <= Below(tape, pos, 100) < 90 ==> IsPoolProduct(FirstPage(tape, pos).text)
  {
    assert Product(tape, pos + 1).text == "/product/" + Decimal(1 + Below(tape, pos + 1, PRODUCT_POOL_SIZE));
  }

  lemma StartsAnywhere(pos: nat, roll: nat, c: nat)
    requires 90 <= roll < 100 && c < |PAGES|
    ensures Below(RollThen(pos, roll, c), pos, 100) == roll
    ensures Category(FirstPage(RollThen(pos, roll, c), pos).text) == PAGES[c]
  {
    RolledChoice(pos, roll, c);
  }

  lemma PrefixStarts(prefix: string, s: string)
    ensures StartsWith(prefix + s, prefix)
  {
  }

  lemma SessionIsGood(tape: Tape, pos: nat)
    ensures GoodSession(NewSession(tape, pos))
  {
    assert UserId(tape, pos) == "u-" + Padded(1 + Below(tape, pos, USER_POOL_SIZE), 4);
    HexIsLower(tape(pos + 1), 32);
    CampaignIsKnown(tape, pos + 4);
    ReferrerIsKnown(tape, pos + 5);
  }

  lemma CampaignIsKnown(tape: Tape, pos: nat)
    ensures Pick(tape, pos, CAMPAIGN_CHOICES) in CAMPAIGN_IDS
  {
  }

  lemma ReferrerIsKnown(tape: Tape, pos: nat)
    ensures Pick(tape, pos, REFERRER_CHOICES) in REFERRERS
  {
  }

  lemma BeginIsGood(tape: Tape, pos: nat, clock: DateTime, micros: nat)
    requires Valid(clock) && micros < 1_000_000
    ensures GoodState(Begin(tape, pos, clock, micros))
  {
    SessionIsGood(tape, pos);
    FirstPageIsGood(tape, pos + 6);
  }

  function EpochMicros(clock: DateTime, micros: nat): int
    requires clock.year >= 1
  {
    EpochSeconds(clock) * 1_000_000 + micros
  }

  lemma AdvanceIsGood(clock: DateTime, micros: nat, step: nat)
    requires Valid(clock) && micros < 1_000_000 && step <= 1_000_000
    ensures match Advance(clock, micros, step)
            case None => LastSecond(clock)
            case Some((c, m)) => Valid(c) && m < 1_000_000 && EpochMicros(c, m) == EpochMicros(clock, micros) + step
  {
    if micros + step >= 1_000_000 && !LastSecond(clock) {
      TickIsOneSecond(clock);
    }
  }

  lemma AfterIsGood(tape: Tape, s: State, next: Drawn, clock: DateTime, micros: nat)
    requires GoodState(s) && GoodPage(next.text) && Valid(clock) && micros < 1_000_000
    ensures var t := After(tape, s, next, clock, micros); GoodState(t) && t.clock == clock && t.micros == micros
  {
    if s.left <= 1 {
      BeginIsGood(tape, next.pos, clock, micros);
    }
  }

  lemma AdvanceIsValid(clock: DateTime, micros: nat, step: nat)
    requires Valid(clock) && micros < 1_000_000 && step <= 1_000_000 && Advance(clock, micros, step).Some?
    ensures Valid(Advance(clock, micros, step).value.0) && Advance(clock, micros, step).value.1 < 1_000_000
  {
    AdvanceIsGood(clock, micros, step);
  }

  lemma ResumedIsGood(tape: Tape, s: State, clock: DateTime, micros: nat)
    requires GoodState(s) && Valid(clock) && micros < 1_000_000
    ensures var t := After(tape, s, NextPage(tape, s.pos + 2, s.page), clock, micros);
            GoodState(t) && t.clock == clock && t.micros == micros
  {
    NextPageIsGood(tape, s.pos + 2, s.page);
    AfterIsGood(tape, s, NextPage(tape, s.pos + 2, s.page), clock, micros);
  }

  lemma ResumeSplits(tape: Tape, s: State, step: nat, t: State)
    requires Resume(tape, s, step) == Some(t)
    ensures Advance(s.clock, s.micros, step).Some?
    ensures var (clock, micros) := Advance(s.clock, s.micros, step).value;
            t == After(tape, s, NextPage(tape, s.pos + 2, s.page), clock, micros)
  {
  }

  lemma ResumeIsGood(tape: Tape, s: State, step: nat, t: State)
    requires GoodState(s) && step <= 1_000_000 && Resume(tape, s, step) == Some(t)
    ensures GoodState(t) && Advance(s.clock, s.micros, step) == Some((t.clock, t.micros))
  {
    ResumeSplits(tape, s, step, t);
    AdvanceIsValid(s.clock, s.micros, step);
    var (clock, micros) := Advance(s.clock, s.micros, step).value;
    ResumedIsGood(tape, s, clock, micros);
  }

  // From year 1000 on, where strftime writes four digits everywhere.
  predicate GoodSetup(u: Setup) {
    Valid(u.clock) && u.clock.year >= 1000 && u.micros < 1_000_000 && u.step <= 1_000_000
  }

  // n steps after the start.
  ghost predicate OnTime(u: Setup, n: nat, s: State) {
    GoodSetup(u) && GoodState(s) && EpochMicros(s.clock, s.micros) == EpochMicros(u.clock, u.micros) + n * u.step
  }

  lemma OneStepOn(n: nat, step: nat)
    ensures (n + 1) * step == n * step + step
  {
  }

  lemma ResumeOnTime(u: Setup, n: nat, s: State, t: State)
    requires GoodSetup(u) && OnTime(u, n, s) && Resume(u.tape, s, u.step) == Some(t)
    ensures OnTime(u, n + 1, t)
  {
    ResumeIsGood(u.tape, s, u.step, t);
    AdvanceIsGood(s.clock, s.micros, u.step);
    OneStepOn(n, u.step);
  }

  lemma {:induction false} AtIsGood(u: Setup, n: nat)
    requires GoodSetup(u) && At(u, n).Some?
    ensures OnTime(u, n, At(u, n).value)
  {
    if n == 0 {
      BeginIsGood(u.tape, u.pos, u.clock, u.micros);
    } else {
      AtIsGood(u, n - 1);
      NextOnTime(u, n - 1, At(u, n - 1).value, At(u, n).value);
    }
  }

  lemma NextOnTime(u: Setup, n: nat, s: State, t: State)
    requires OnTime(u, n, s) && Next(u)(s) == Some(t)
    ensures OnTime(u, n + 1, t)
  {
    ResumeOnTime(u, n, s, t);
  }

  // ---- The calendar lasts ----

  lemma NotLastYet(clock: DateTime, micros: nat)
    requires clock.year >= 1 && EpochMicros(clock, micros) < LAST_SECOND * 1_000_000
    ensures !LastSecond(clock)
  {
    LastSecondIs();
  }

  lemma {:induction false} IterateExists<T(!new)>(start: T, next: T -> Option<T>, good: (nat, T) -> bool, n: nat)
    requires good(0, start)
    requires forall k: nat, x :: k < n && good(k, x) ==> next(x).Some? && good(k + 1, next(x).value)
    ensures Iterate(start, next, n).Some? && good(n, Iterate(start, next, n).value)
  {
    if n > 0 {
      IterateExists(start, next, good, n - 1);
    }
  }

  lemma MicrosLeft(k: nat, n: nat, step: nat, start: int)
    requires k < n && start + n * step < LAST_SECOND * 1_000_000
    ensures start + k * step < LAST_SECOND * 1_000_000
  {
    assert n * step == k * step + (n - k) * step;
  }

  lemma NextExists(u: Setup, k: nat, s: State)
    requires OnTime(u, k, s) && EpochMicros(u.clock, u.micros) + k * u.step < LAST_SECOND * 1_000_000
    ensures Next(u)(s).Some? && OnTime(u, k + 1, Next(u)(s).value)
  {
    NotLastYet(s.clock, s.micros);
    NextOnTime(u, k, s, Next(u)(s).value);
  }

  ghost function OnTimeAt(u: Setup): (nat, State) -> bool { (k: nat, s: State) => OnTime(u, k, s) }

  lemma StartOnTime(u: Setup)
    requires GoodSetup(u)
    ensures OnTime(u, 0, Start(u))
  {
    BeginIsGood(u.tape, u.pos, u.clock, u.micros);
  }

  lemma NextsExist(u: Setup, n: nat, k: nat, s: State)
    requires EpochFits(u, n) && k < n && OnTimeAt(u)(k, s)
    ensures Next(u)(s).Some? && OnTimeAt(u)(k + 1, Next(u)(s).value)
  {
    MicrosLeft(k, n, u.step, EpochMicros(u.clock, u.micros));
    NextExists(u, k, s);
  }

  // n steps stay short of the calendar's last second.
  ghost predicate EpochFits(u: Setup, n: nat) {
    GoodSetup(u) && EpochMicros(u.clock, u.micros) + n * u.step < LAST_SECOND * 1_000_000
  }

  /** Events go on until the calendar's last second. */
  lemma AtExists(u: Setup, n: nat)
    requires EpochFits(u, n)
    ensures At(u, n).Some?
  {
    StartOnTime(u);
    forall k: nat, s | k < n && OnTimeAt(u)(k, s) ensures Next(u)(s).Some? && OnTimeAt(u)(k + 1, Next(u)(s).value) {
      NextsExist(u, n, k, s);
    }
    IterateExists(Start(u), Next(u), OnTimeAt(u), n);
  }

  /** Views and clicks happen on every page, purchases at the checkout, additions where there is something to add. */
  lemma TypesOfPage(page: string, t: string)
    ensures t in EventTypes(page) <==>
            || t == "page_view" || t == "click" || (t == "purchase" && page == "/checkout")
            || (t == "add_to_cart" && (page in ["/product", "/cart", "/checkout"] || IsProductPage(page)))
  {
  }

  lemma TypeIsKnown(tape: Tape, pos: nat, page: string)
    ensures var t := Pick(tape, pos, EventTypes(page));
            && t in EVENT_TYPES
            && (t == "purchase" ==> page == "/checkout")
            && (t == "add_to_cart" ==> page in ["/product", "/cart", "/checkout"] || IsProductPage(page))
  {
  }

  lemma EventIsConstructible(tape: Tape, s: State)
    requires GoodState(s)
    ensures Constructible(EventOf(tape, s))
  {
    var rank: nat :| 1 <= rank <= 5000 && s.session.userId == "u-" + Padded(rank, 4);
    PrefixStarts("u-", Padded(rank, 4));
    PrefixStarts("s-", s.session.sessionId[2..]);
    assert s.session.sessionId == s.session.sessionId[..2] + s.session.sessionId[2..];
    TypeIsKnown(tape, s.pos + 1, s.page);
    UuidIsUuid(tape(s.pos));
    TsRoundTrip(s.clock);
  }

  // ---- The events ----

  lemma {:induction false} CollectItems<T>(f: nat -> Option<T>, n: nat)
    requires Collect(f, n).Some?
    ensures |Collect(f, n).value| == n
    ensures forall i: nat :: i < n ==> f(i) == Some(Collect(f, n).value[i])
  {
    if n > 0 {
      CollectItems(f, n - 1);
    }
  }

  lemma {:induction false} CollectPrefix<T>(f: nat -> Option<T>, n: nat, m: nat)
    requires n <= m && Collect(f, m).Some?
    ensures Collect(f, n).Some? && |Collect(f, m).value| == m && Collect(f, n).value == Collect(f, m).value[..n]
  {
    CollectItems(f, m);
    if n < m {
      CollectPrefix(f, n, m - 1);
    }
  }

  lemma EventsLength(u: Setup, n: nat)
    requires Events(u, n).Some?
    ensures |Events(u, n).value| == n
  {
    CollectItems(Yields(u), n);
  }

  lemma EventsAreYielded(u: Setup, n: nat, i: nat)
    requires Events(u, n).Some? && i < n
    ensures |Events(u, n).value| == n && At(u, i).Some?
    ensures Events(u, n).value[i] == EventOf(u.tape, At(u, i).value)
  {
    CollectItems(Yields(u), n);
    assert Yields(u)(i) == Yield(u, i);
  }

  /** The same seed and start give the same beginning, however many events are asked for. */
  lemma EventsArePrefix(u: Setup, n: nat, m: nat)
    requires n <= m && Events(u, m).Some?
    ensures Events(u, n).Some? && |Events(u, m).value| == m && Events(u, n).value == Events(u, m).value[..n]
  {
    CollectPrefix(Yields(u), n, m);
  }

  /** For every random tape, the consumer parses every emitted event back unchanged and without error. */
  lemma EmittedIsParsed(u: Setup, n: nat, i: nat)
    requires GoodSetup(u) && Events(u, n).Some? && i < n
    ensures |Events(u, n).value| == n
    ensures var e := Events(u, n).value[i];
            Constructible(e) && ParseMessage(Some(ToJson(e))) == Message(Some(e), None)
  {
    EventsAreYielded(u, n, i);
    AtIsGood(u, i);
    EventIsConstructible(u.tape, At(u, i).value);
    ProducedIsParsed(Events(u, n).value[i]);
  }

  /**
   Pages are always concrete, purchases happen on the checkout page, carts fill only where there
   is something to buy.
   */
  lemma EmittedMakesSense(u: Setup, n: nat, i: nat)
    requires GoodSetup(u) && Events(u, n).Some? && i < n
    ensures |Events(u, n).value| == n
    ensures var e := Events(u, n).value[i];
            && e.page != "/product"
            && (e.eventType == "purchase" ==> e.page == "/checkout")
            && (e.eventType == "add_to_cart" ==> e.page == "/cart" || e.page == "/checkout" || IsProductPage(e.page))
  {
    EventsAreYielded(u, n, i);
    AtIsGood(u, i);
    var s := At(u, i).value;
    TypeIsKnown(u.tape, s.pos + 1, s.page);
    BareProductIsNotGood(s.page);
  }

  // ---- Sessions ----

  predicate SameSession(a: ClickEvent, b: ClickEvent) {
    && a.userId == b.userId && a.sessionId == b.sessionId && a.device == b.device
    && a.region == b.region && a.campaignId == b.campaignId && a.referrer == b.referrer
  }

  // Events a up to b share user, session id, device, region, campaign and referrer.
  ghost predicate OneSession(events: seq<ClickEvent>, a: nat, b: nat) {
    a <= b <= |events| && forall i, j :: a <= i < b && a <= j < b ==> SameSession(events[i], events[j])
  }

  // Where the sessions start: each is 3 to 20 events long, except that the last may be cut short.
  ghost predicate InSessions(events: seq<ClickEvent>, starts: seq<nat>) {
    && starts != [] && starts[0] == 0
    && (forall k :: 0 <= k < |starts| - 1 ==> WholeSession(events, starts[k], starts[k + 1]))
    && OneSession(events, starts[|starts| - 1], |events|) && 1 <= |events| - starts[|starts| - 1] <= 20
  }

  ghost predicate WholeSession(events: seq<ClickEvent>, a: nat, b: nat) { OneSession(events, a, b) && 3 <= b - a <= 20 }

  // How long the session of the last event will have been.
  ghost predicate RightLength(s: State, n: nat, start: nat) { start < n && 3 <= n - start + s.left - 1 <= 20 }

  lemma SessionGrows(events: seq<ClickEvent>, e: ClickEvent, start: nat)
    requires start < |events| && OneSession(events, start, |events|) && SameSession(events[|events| - 1], e)
    ensures OneSession(events + [e], start, |events| + 1)
  {
    var more := events + [e];
    forall i, j | start <= i < |more| && start <= j < |more| ensures SameSession(more[i], more[j]) {
      assert SameSession(more[i], events[|events| - 1]) && SameSession(more[j], events[|events| - 1]);
    }
  }

  lemma WholeStays(events: seq<ClickEvent>, e: ClickEvent, a: nat, b: nat)
    requires WholeSession(events, a, b)
    ensures WholeSession(events + [e], a, b)
  {
    assert forall i :: 0 <= i < |events| ==> (events + [e])[i] == events[i];
  }

  lemma SessionGoesOn(events: seq<ClickEvent>, starts: seq<nat>, e: ClickEvent)
    requires InSessions(events, starts) && SameSession(events[|events| - 1], e)
    requires |events| - starts[|starts| - 1] < 20
    ensures InSessions(events + [e], starts)
  {
    SessionGrows(events, e, starts[|starts| - 1]);
    forall k | 0 <= k < |starts| - 1 ensures WholeSession(events + [e], starts[k], starts[k + 1]) {
      WholeStays(events, e, starts[k], starts[k + 1]);
    }
  }

  lemma SessionStarts(events: seq<ClickEvent>, starts: seq<nat>, e: ClickEvent)
    requires InSessions(events, starts) && |events| - starts[|starts| - 1] >= 3
    ensures InSessions(events + [e], starts + [|events|])
  {
    var more := starts + [|events|];
    forall k | 0 <= k < |more| - 1 ensures WholeSession(events + [e], more[k], more[k + 1]) {
      if k < |starts| - 1 {
        WholeStays(events, e, starts[k], starts[k + 1]);
      } else {
        WholeStays(events, e, starts[k], |events|);
      }
    }
  }

  lemma SameSessionEvents(tape: Tape, s: State, t: State)
    requires s.session == t.session
    ensures SameSession(EventOf(tape, s), EventOf(tape, t))
  {
    EventIsOfSession(tape, s);
    EventIsOfSession(tape, t);
  }

  lemma NextLeft(u: Setup, s: State, t: State)
    requires Next(u)(s) == Some(t)
    ensures GoesOn(s, t)
  {
  }

  lemma BeginLeft(u: Setup)
    ensures 3 <= Start(u).left <= 20
  {
  }

  lemma NextAt(u: Setup, n: nat)
    requires At(u, n + 1).Some?
    ensures At(u, n).Some? && Next(u)(At(u, n).value) == At(u, n + 1)
  {
  }

  ghost predicate GoesOn(s: State, t: State) {
    if s.left > 1 then t.session == s.session && t.left == s.left - 1 else 3 <= t.left <= 20
  }

  lemma OneMoreEvent(tape: Tape, events: seq<ClickEvent>, before: seq<nat>, s: State, t: State)
    returns (starts: seq<nat>)
    requires InSessions(events, before) && RightLength(s, |events|, before[|before| - 1])
    requires events[|events| - 1] == EventOf(tape, s) && GoesOn(s, t)
    ensures InSessions(events + [EventOf(tape, t)], starts)
    ensures RightLength(t, |events| + 1, starts[|starts| - 1])
  {
    if s.left > 1 {
      SameSessionEvents(tape, s, t);
      SessionGoesOn(events, before, EventOf(tape, t));
      starts := before;
    } else {
      SessionStarts(events, before, EventOf(tape, t));
      starts := before + [|events|];
    }
  }

  lemma FirstSession(tape: Tape, s: State)
    requires 3 <= s.left <= 20
    ensures InSessions([EventOf(tape, s)], [0]) && RightLength(s, 1, 0)
  {
  }

  // The states of a run, from a fresh session on.
  ghost predicate IsRun(states: seq<State>) {
    states != [] && 3 <= states[0].left <= 20 && forall i :: 0 <= i < |states| - 1 ==> GoesOn(states[i], states[i + 1])
  }

  function EventsOfStates(tape: Tape, states: seq<State>): (events: seq<ClickEvent>)
    ensures |events| == |states| && forall i :: 0 <= i < |states| ==> events[i] == EventOf(tape, states[i])
  {
    seq(|states|, i requires 0 <= i < |states| => EventOf(tape, states[i]))
  }

  lemma {:induction false} RunInSessions(tape: Tape, states: seq<State>) returns (starts: seq<nat>)
    requires IsRun(states)
    ensures InSessions(EventsOfStates(tape, states), starts)
    ensures RightLength(states[|states| - 1], |states|, starts[|starts| - 1])
  {
    var n := |states| - 1;
    if n == 0 {
      starts := [0];
      assert EventsOfStates(tape, states) == [EventOf(tape, states[0])];
      FirstSession(tape, states[0]);
    } else {
      assert IsRun(states[..n]);
      var before := RunInSessions(tape, states[..n]);
      starts := OneMoreEvent(tape, EventsOfStates(tape, states[..n]), before, states[n - 1], states[n]);
      assert EventsOfStates(tape, states) == EventsOfStates(tape, states[..n]) + [EventOf(tape, states[n])];
    }
  }

  lemma StatesOfEvents(u: Setup, n: nat) returns (states: seq<State>)
    requires n > 0 && Events(u, n).Some?
    ensures IsRun(states) && |states| == n && Events(u, n).value == EventsOfStates(u.tape, states)
  {
    EventsLength(u, n);
    forall i: nat | i < n ensures At(u, i).Some? && Events(u, n).value[i] == EventOf(u.tape, At(u, i).value) {
      EventsAreYielded(u, n, i);
    }
    states := seq(n, i requires 0 <= i < n => At(u, i).value);
    BeginLeft(u);
    assert At(u, 0) == Some(Start(u));
    forall i | 0 <= i < n - 1 ensures GoesOn(states[i], states[i + 1]) {
      NextAt(u, i);
      NextLeft(u, states[i], states[i + 1]);
    }
  }

  /** The stream is a sequence of sessions of 3 to 20 events; events of one session share its six attributes. */
  lemma EmittedInSessions(u: Setup, n: nat) returns (starts: seq<nat>)
    requires n > 0 && Events(u, n).Some?
    ensures InSessions(Events(u, n).value, starts)
  {
    var states := StatesOfEvents(u, n);
    starts := RunInSessions(u.tape, states);
  }

  // The draws that make a first session of these six attributes.
  function SessionTape(rank: nat, id: nat, device: nat, region: nat, campaign: nat, referrer: nat): Tape {
    (i: nat) =>
      if i == 0 then rank else if i == 1 then id else if i == 2 then device
      else if i == 3 then region else if i == 4 then campaign else referrer
  }

  lemma PickIs(tape: Tape, pos: nat, choices: seq<string>)
    requires tape(pos) < |choices|
    ensures Pick(tape, pos, choices) == choices[tape(pos)]
  {
  }

  lemma DrawnSession(tape: Tape, rank: nat, id: nat, device: nat, region: nat, campaign: nat, referrer: nat)
    requires tape == SessionTape(rank, id, device, region, campaign, referrer)
    requires rank < 5000 && device < |DEVICE_CHOICES| && region < |REGION_CHOICES|
    requires campaign < |CAMPAIGN_CHOICES| && referrer < |REFERRER_CHOICES|
    ensures NewSession(tape, 0) ==
            Session("u-" + Padded(rank + 1, 4), "s-" + Hex(id, 32)[..12], DEVICE_CHOICES[device],
                    REGION_CHOICES[region], CAMPAIGN_CHOICES[campaign], REFERRER_CHOICES[referrer])
  {
    assert tape(0) == rank && tape(1) == id && tape(2) == device && tape(3) == region && tape(4) == campaign;
    assert tape(5) == referrer;
    PickIs(tape, 2, DEVICE_CHOICES);
    PickIs(tape, 3, REGION_CHOICES);
    PickIs(tape, 4, CAMPAIGN_CHOICES);
    PickIs(tape, 5, REFERRER_CHOICES);
    assert Below(tape, 0, USER_POOL_SIZE) == rank;
  }

  lemma FirstEvent(u: Setup)
    ensures Yield(u, 0) == Some(EventOf(u.tape, Start(u)))
    ensures Start(u).session == NewSession(u.tape, u.pos) && Start(u).clock == u.clock
  {
    assert At(u, 0) == Some(Start(u));
  }

  ghost predicate OfSession(e: ClickEvent, s: Session) {
    && e.userId == s.userId && e.sessionId == s.sessionId && e.device == s.device
    && e.region == s.region && e.campaignId == s.campaignId && e.referrer == s.referrer
  }

  lemma EventIsOfSession(tape: Tape, s: State)
    ensures OfSession(EventOf(tape, s), s.session) && EventOf(tape, s).page == s.page
    ensures EventOf(tape, s).ts == FormatTs(s.clock)
  {
  }

  /** The first event may be of any user, device, region, campaign and referrer there is, in any combination. */
  lemma AnyoneMayCome(rank: nat, id: nat, device: nat, region: nat, campaign: nat, referrer: nat, clock: DateTime,
                      step: nat)
    requires rank < 5000 && device < |DEVICE_CHOICES| && region < |REGION_CHOICES|
    requires campaign < |CAMPAIGN_CHOICES| && referrer < |REFERRER_CHOICES|
    ensures var e := Yield(Setup(SessionTape(rank, id, device, region, campaign, referrer), 0, clock, 0, step), 0);
            && e.Some? && e.value.userId == "u-" + Padded(rank + 1, 4)
            && e.value.device == DEVICE_CHOICES[device] && e.value.region == REGION_CHOICES[region]
            && e.value.campaignId == CAMPAIGN_CHOICES[campaign] && e.value.referrer == REFERRER_CHOICES[referrer]
            && e.value.sessionId == "s-" + Hex(id, 32)[..12] && e.value.ts == FormatTs(clock)
  {
    var u := Setup(SessionTape(rank, id, device, region, campaign, referrer), 0, clock, 0, step);
    FirstEvent(u);
    EventIsOfSession(u.tape, Start(u));
    DrawnSession(u.tape, rank, id, device, region, campaign, referrer);
  }

  /** Any type its page allows may be drawn for an event. */
  lemma AnyTypeMayHappen(tape: Tape, s: State, c: nat)
    requires c < |EventTypes(s.page)| && tape(s.pos + 1) == c
    ensures EventOf(tape, s).eventType == EventTypes(s.page)[c]
  {
  }

  /** Every product of the pool can be visited. */
  lemma AnyProduct(n: nat)
    requires 1 <= n <= 200
    ensures Product((i: nat) => n - 1, 0).text == "/product/" + Decimal(n)
  {
    assert Below((i: nat) => n - 1, 0, PRODUCT_POOL_SIZE) == n - 1;
  }

  lemma HomeFirst(tape: Tape, pos: nat)
    requires tape(pos) < 70
    ensures FirstPage(tape, pos) == Drawn("/home", pos + 1)
  {
    assert Below(tape, pos, 100) == tape(pos);
  }

  /** Sessions of every length from 3 to 20 can begin. */
  lemma AnyLength(tape: Tape, length: nat, clock: DateTime)
    requires 3 <= length <= 20 && tape(6) < 70 && tape(7) == length - 3
    ensures Begin(tape, 0, clock, 0).left == length
  {
    HomeFirst(tape, 6);
  }

  // ---- Event ids ----

  lemma ResumeMovesOn(tape: Tape, s: State, step: nat, t: State)
    requires Resume(tape, s, step) == Some(t)
    ensures t.pos > s.pos
  {
  }

  lemma StepMovesOn(u: Setup, j: nat)
    requires At(u, j + 1).Some?
    ensures At(u, j).Some? && At(u, j).value.pos < At(u, j + 1).value.pos
  {
    NextAt(u, j);
    ResumeMovesOn(u.tape, At(u, j).value, u.step, At(u, j + 1).value);
  }

  // The tape position at which event k is made.
  function DrawAt(u: Setup): nat -> Option<nat> {
    (k: nat) => match At(u, k) case Some(s) => Some(s.pos) case None => None
  }

  lemma {:induction false} Ascends(f: nat -> Option<nat>, i: nat, j: nat)
    requires forall k: nat :: f(k + 1).Some? ==> f(k).Some? && f(k).value < f(k + 1).value
    requires i < j && f(j).Some?
    ensures f(i).Some? && f(i).value < f(j).value
  {
    assert f(j - 1 + 1).Some?;
    if i < j - 1 {
      Ascends(f, i, j - 1);
    }
  }

  lemma DrawAtIs(u: Setup, k: nat)
    ensures DrawAt(u)(k) == match At(u, k) case Some(s) => Some(s.pos) case None => None
  {
  }

  lemma DrawMovesOn(u: Setup, k: nat)
    requires DrawAt(u)(k + 1).Some?
    ensures DrawAt(u)(k).Some? && DrawAt(u)(k).value < DrawAt(u)(k + 1).value
  {
    DrawAtIs(u, k);
    DrawAtIs(u, k + 1);
    StepMovesOn(u, k);
  }

  lemma DrawsAscend(u: Setup, i: nat, j: nat)
    requires i < j && DrawAt(u)(j).Some?
    ensures DrawAt(u)(i).Some? && DrawAt(u)(i).value < DrawAt(u)(j).value
  {
    forall k: nat | DrawAt(u)(k + 1).Some? ensures DrawAt(u)(k).Some? && DrawAt(u)(k).value < DrawAt(u)(k + 1).value {
      DrawMovesOn(u, k);
    }
    Ascends(DrawAt(u), i, j);
  }

  /** When no 128-bit draw comes twice, no two events have the same id. */
  lemma EmittedIdsDiffer(u: Setup, n: nat, i: nat, j: nat)
    requires Events(u, n).Some? && i < j < n
    requires forall a, b :: u.tape(a) < Pow16(32) && (a != b ==> u.tape(a) != u.tape(b))
    ensures |Events(u, n).value| == n && Events(u, n).value[i].eventId != Events(u, n).value[j].eventId
  {
    EventsAreYielded(u, n, i);
    EventsAreYielded(u, n, j);
    DrawAtIs(u, i);
    DrawAtIs(u, j);
    DrawsAscend(u, i, j);
    var a, b := At(u, i).value.pos, At(u, j).value.pos;
    if UuidText(u.tape(a)) == UuidText(u.tape(b)) {
      UuidsDiffer(u.tape(a), u.tape(b));
    }
  }

  /** Every event is of one of the 5000 users and of a session with an id of twelve digits. */
  lemma EmittedUsers(u: Setup, n: nat, i: nat)
    requires GoodSetup(u) && Events(u, n).Some? && i < n
    ensures |Events(u, n).value| == n
    ensures IsUser(Events(u, n).value[i].userId) && IsSessionId(Events(u, n).value[i].sessionId)
  {
    EventsAreYielded(u, n, i);
    AtIsGood(u, i);
  }

  /** Event i carries the second that lies i steps after the start, across months, leap years and year ends. */
  lemma EmittedOnTheClock(u: Setup, n: nat, i: nat)
    requires GoodSetup(u) && Events(u, n).Some? && i < n
    ensures |Events(u, n).value| == n
    ensures ToRow(Events(u, n).value[i]).ts == (EpochMicros(u.clock, u.micros) + i * u.step) / 1_000_000
  {
    EventsAreYielded(u, n, i);
    AtIsGood(u, i);
    TsRoundTrip(At(u, i).value.clock);
    WholeSeconds(EpochSeconds(At(u, i).value.clock), At(u, i).value.micros);
  }

  lemma WholeSeconds(seconds: int, micros: nat)
    requires micros < 1_000_000
    ensures (seconds * 1_000_000 + micros) / 1_000_000 == seconds
  {
  }

  // ---- The objects that draw and yield ----

  class ClickstreamSimulator {
    const tape: Tape
    const step: nat
    var pos: nat
    var clock: DateTime
    var micros: nat

    constructor (tape: Tape, rate: nat, start: DateTime, micros: nat)
      requires rate > 0
      ensures this.tape == tape && step == StepMicros(rate)
      ensures pos == 0 && clock == start && this.micros == micros
    {
      this.tape, step := tape, StepMicros(rate);
      pos, clock, this.micros := 0, start, micros;
    }

    method Draw(n: nat) returns (k: nat)
      requires n > 0
      modifies this`pos
      ensures k == Below(tape, old(pos), n) && pos == old(pos) + 1
    {
      k := Below(tape, pos, n);
      pos := pos + 1;
    }

    method PickOne(choices: seq<string>) returns (choice: string)
      requires choices != []
      modifies this`pos
      ensures choice == Pick(tape, old(pos), choices) && pos == old(pos) + 1
    {
      var k := Draw(|choices|);
      choice := choices[k];
    }

    method ExpandPage(page: string) returns (text: string)
      modifies this`pos
      ensures Drawn(text, pos) == Expand(tape, old(pos), page)
    {
      if page == "/product" {
        var k := Draw(PRODUCT_POOL_SIZE);
        return PRODUCT_PREFIX + Decimal(1 + k);
      }
      return page;
    }

    method PickAndExpandPage() returns (text: string)
      modifies this`pos
      ensures Drawn(text, pos) == PickAndExpand(tape, old(pos))
    {
      var page := PickOne(PAGE_CHOICES);
      text := ExpandPage(page);
    }

    method DrawFirstPage() returns (text: string)
      modifies this`pos
      ensures Drawn(text, pos) == FirstPage(tape, old(pos))
    {
      var roll := Draw(100);
      if roll < 70 {
        return "/home";
      }
      if roll < 90 {
        text := ExpandPage("/product");
        return;
      }
      text := PickAndExpandPage();
    }

    method DrawNextPage(current: string) returns (text: string)
      modifies this`pos
      ensures Drawn(text, pos) == NextPage(tape, old(pos), current)
    {
      var roll := Draw(100);
      if roll < 50 {
        return current;
      }
      if roll < 85 {
        match FunnelNext(Category(current)) {
          case Some(next) => text := ExpandPage(next);
          case None => text := PickAndExpandPage();
        }
        return;
      }
      text := PickAndExpandPage();
    }

    method DrawIds() returns (userId: string, sessionId: string)
      modifies this`pos
      ensures userId == UserId(tape, old(pos)) && sessionId == SessionId(tape, old(pos) + 1) && pos == old(pos) + 2
    {
      var rank := Draw(USER_POOL_SIZE);
      userId := "u-" + Padded(1 + rank, 4);
      sessionId := SessionId(tape, pos);
      pos := pos + 1;
    }

    method DrawSession() returns (session: Session)
      modifies this`pos
      ensures session == NewSession(tape, old(pos)) && pos == old(pos) + 6
    {
      var userId, sessionId := DrawIds();
      var device := PickOne(DEVICE_CHOICES);
      var region := PickOne(REGION_CHOICES);
      var campaignId := PickOne(CAMPAIGN_CHOICES);
      var referrer := PickOne(REFERRER_CHOICES);
      session := Session(userId, sessionId, device, region, campaignId, referrer);
    }

    method MakeEvent(session: Session, page: string, ghost s: State) returns (e: ClickEvent)
      requires s.pos == pos && s.clock == clock && s.session == session && s.page == page
      modifies this`pos
      ensures e == EventOf(tape, s) && pos == old(pos) + 2
    {
      var eventId := UuidText(tape(pos));
      pos := pos + 1;
      var eventType := PickOne(EventTypes(page));
      e := ClickEvent(eventId, eventType, session.userId, session.sessionId, FormatTs(clock), page,
                      session.device, session.region, session.campaignId, session.referrer);
    }

    /** generate(n): exactly the first n events of a fresh iterator. */
    method Generate(n: int) returns (events: Option<seq<ClickEvent>>)
      modifies this
      ensures n < 0 ==> events == None && unchanged(this)
      ensures n >= 0 ==> events == Events(Setup(tape, old(pos), old(clock), old(micros), step), n)
    {
      if n < 0 {
        return None;
      }
      ghost var u := Setup(tape, pos, clock, micros, step);
      var it := new EventIterator(this);
      var list, open := [], true;
      while open && |list| < n
        invariant it.sim == this && fresh(it)
        invariant |list| <= n && (open ==> it.Ready(u, |list|))
        invariant Events(u, if open then |list| else n) == if open then Some(list) else None
        decreases n - |list|, open
      {
        open, list := it.AppendNext(u, list);
        if !open {
          NoneStays(u, |list| + 1, n);
        }
      }
      events := if open then Some(list) else None;
    }
  }

  // The constructor call, which raises ValueError for a rate that is not positive.
  method NewSimulator(tape: Tape, rate: int, start: DateTime, micros: nat) returns (sim: ClickstreamSimulator?)
    ensures sim == null <==> rate <= 0
    ensures sim != null ==> fresh(sim) && sim.tape == tape && sim.step == StepMicros(rate)
    ensures sim != null ==> sim.pos == 0 && sim.clock == start && sim.micros == micros
  {
    sim := null;
    if rate > 0 {
      sim := new ClickstreamSimulator(tape, rate, start, micros);
    }
  }

  lemma ResumeIs(tape: Tape, s: State, step: nat, advanced: Option<(DateTime, nat)>)
    requires Advance(s.clock, s.micros, step) == advanced
    ensures Resume(tape, s, step) ==
            match advanced
            case None => None
            case Some((clock, micros)) => Some(After(tape, s, NextPage(tape, s.pos + 2, s.page), clock, micros))
  {
  }

  lemma AtMore(u: Setup, k: nat)
    ensures At(u, k + 1) == match At(u, k) case Some(s) => Resume(u.tape, s, u.step) case None => None
  {
    if At(u, k).Some? {
      assert Next(u)(At(u, k).value) == Resume(u.tape, At(u, k).value, u.step);
    }
  }

  lemma CollectNext(u: Setup, k: nat)
    ensures Events(u, k + 1) == match (Events(u, k), Yield(u, k))
                                case (Some(before), Some(e)) => Some(before + [e])
                                case _ => None
  {
    assert Yields(u)(k) == Yield(u, k);
  }

  lemma {:induction false} NoneStays(u: Setup, k: nat, n: nat)
    requires k <= n && Events(u, k).None?
    ensures Events(u, n).None?
  {
    if Events(u, n).Some? {
      EventsArePrefix(u, k, n);
    }
  }

  // The fields of a generator and its simulator between two events; None once it has failed.
  datatype Cursor = Paused(pos: nat, clock: DateTime, micros: nat, session: Session, page: string, left: nat) | Failed

  // After k events; before the first the session variables are not set yet.
  function CursorAt(u: Setup, k: nat, session: Session, page: string, left: nat): Cursor {
    if k == 0 then Paused(u.pos, u.clock, u.micros, session, page, left)
    else
      match At(u, k - 1)
      case Some(s) => Paused(s.pos + 2, s.clock, s.micros, s.session, s.page, s.left)
      case None => Failed
  }

  lemma YieldOf(u: Setup, k: nat, s: State)
    requires At(u, k) == Some(s)
    ensures Yield(u, k) == Some(EventOf(u.tape, s))
    ensures CursorAt(u, k + 1, s.session, s.page, s.left) ==
            Paused(s.pos + 2, s.clock, s.micros, s.session, s.page, s.left)
  {
  }

  // The generator of iter_events, with the local variables of the session it is in.
  class EventIterator {
    const sim: ClickstreamSimulator
    var started: bool
    var session: Session
    var page: string
    var left: nat

    // k events have been yielded.
    ghost predicate Ready(u: Setup, k: nat)
      reads this, sim
    {
      && u.tape == sim.tape && u.step == sim.step && (started <==> k > 0)
      && Paused(sim.pos, sim.clock, sim.micros, session, page, left) == CursorAt(u, k, session, page, left)
    }

    constructor (sim: ClickstreamSimulator)
      ensures this.sim == sim && !started
    {
      this.sim, started, session, page, left := sim, false, Session("", "", "", "", "", ""), "", 0;
    }

    method StartSession()
      modifies this`session, this`page, this`left, sim`pos
      ensures State(sim.pos, sim.clock, sim.micros, session, page, left) ==
              Begin(sim.tape, old(sim.pos), sim.clock, sim.micros)
    {
      session := sim.DrawSession();
      page := sim.DrawFirstPage();
      var extra := sim.Draw(SESSION_MAX_EVENTS - SESSION_MIN_EVENTS + 1);
      left := SESSION_MIN_EVENTS + extra;
    }

    // Moves the simulated clock on by one step; false when the calendar has ended.
    method AdvanceClock() returns (ok: bool)
      modifies sim`clock, sim`micros
      ensures Advance(old(sim.clock), old(sim.micros), sim.step) == if ok then Some((sim.clock, sim.micros)) else None
    {
      match Advance(sim.clock, sim.micros, sim.step) {
        case None => ok := false;
        case Some((clock, micros)) =>
          sim.clock, sim.micros := clock, micros;
          ok := true;
      }
    }

    method StayOrStart(ghost s: State, ghost next: Drawn)
      requires left == s.left && session == s.session && next == Drawn(page, sim.pos)
      modifies this`session, this`page, this`left, sim`pos
      ensures State(sim.pos, sim.clock, sim.micros, session, page, left) ==
              After(sim.tape, s, next, sim.clock, sim.micros)
    {
      if left > 1 {
        left := left - 1;
      } else {
        StartSession();
      }
    }

    // What runs between two yields: the clock, the next page, and a new session when this one is over.
    method ResumeLoop(ghost s: State) returns (ok: bool)
      requires sim.pos == s.pos + 2 && s == State(s.pos, sim.clock, sim.micros, session, page, left)
      modifies this`session, this`page, this`left, sim
      ensures Resume(sim.tape, s, sim.step) ==
              if ok then Some(State(sim.pos, sim.clock, sim.micros, session, page, left)) else None
    {
      ok := AdvanceClock();
      ResumeIs(sim.tape, s, sim.step, if ok then Some((sim.clock, sim.micros)) else None);
      if ok {
        var text, next := MoveOn();
        page := text;
        StayOrStart(s, next);
      }
    }

    method MoveOn() returns (text: string, ghost next: Drawn)
      modifies sim`pos
      ensures next == NextPage(sim.tape, old(sim.pos), page) == Drawn(text, sim.pos)
    {
      text := sim.DrawNextPage(page);
      next := Drawn(text, sim.pos);
    }

    // Up to the state in which the first event is made.
    method Open(ghost u: Setup)
      requires Ready(u, 0)
      modifies this, sim
      ensures u.tape == sim.tape && u.step == sim.step && started
      ensures At(u, 0) == Some(State(sim.pos, sim.clock, sim.micros, session, page, left))
    {
      StartSession();
      started := true;
    }

    // Up to the state in which the next event is made.
    method Reach(ghost u: Setup, ghost k: nat) returns (ok: bool)
      requires Ready(u, k)
      modifies this, sim
      ensures u.tape == sim.tape && u.step == sim.step
      ensures At(u, k) == if ok then Some(State(sim.pos, sim.clock, sim.micros, session, page, left)) else None
      ensures ok ==> started
    {
      if started {
        AtMore(u, k - 1);
        ok := ResumeLoop(At(u, k - 1).value);
      } else {
        Open(u);
        ok := true;
      }
    }

    method Next(ghost u: Setup, ghost k: nat) returns (e: Option<ClickEvent>)
      requires Ready(u, k)
      modifies this, sim
      ensures e == Yield(u, k)
      ensures e.Some? ==> Ready(u, k + 1)
    {
      var ok := Reach(u, k);
      if !ok {
        return None;
      }
      ghost var s := State(sim.pos, sim.clock, sim.micros, session, page, left);
      YieldOf(u, k, s);
      var event := sim.MakeEvent(session, page, s);
      e := Some(event);
    }

    // One step of islice.
    method AppendNext(ghost u: Setup, list: seq<ClickEvent>) returns (open: bool, more: seq<ClickEvent>)
      requires Ready(u, |list|) && Events(u, |list|) == Some(list)
      modifies this, sim
      ensures if open then Ready(u, |more|) && |more| == |list| + 1 && Events(u, |more|) == Some(more)
              else more == list && Events(u, |list| + 1) == None
    {
      var e := Next(u, |list|);
      CollectNext(u, |list|);
      open, more := e.Some?, if e.Some? then list + [e.value] else list;
    }
  }
}
