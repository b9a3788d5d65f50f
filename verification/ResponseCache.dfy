/**
 The response cache of the API: get, fetch and set as separate steps of many concurrent
 requests on one Redis store, with a clock.
 */
module ResponseCache {
  import opened Calendar
  import opened Wrappers

  // The endpoints that answer through the cache; limit is their query parameter.
  datatype Endpoint = Summary | TopPages(limit: nat) | TopCampaigns(limit: nat)

  const PAGES_PREFIX := "v1:top:pages:"
  const CAMPAIGNS_PREFIX := "v1:top:campaigns:"

  function CacheKey(e: Endpoint): string {
    match e
    case Summary => "v1:summary"
    case TopPages(limit) => PAGES_PREFIX + Decimal(limit)
    case TopCampaigns(limit) => CAMPAIGNS_PREFIX + Decimal(limit)
  }

  lemma SuffixesDiffer(prefix: string, a: string, b: string)
    requires prefix + a == prefix + b
    ensures a == b
  {
    assert (prefix + a)[|prefix|..] == a;
  }

  lemma DecimalsDiffer(prefix: string, m: nat, n: nat)
    requires prefix + Decimal(m) == prefix + Decimal(n)
    ensures m == n
  {
    SuffixesDiffer(prefix, Decimal(m), Decimal(n));
    DecimalRoundTrip(m);
    DecimalRoundTrip(n);
  }

  /** Different endpoints, or the same endpoint with different limits, never share a cache entry. */
  lemma KeysAreDistinct(a: Endpoint, b: Endpoint)
    ensures CacheKey(a) == CacheKey(b) ==> a == b
  {
    if CacheKey(a) == CacheKey(b) {
      KeysKeepKind(a, b);
      match a
      case Summary =>
      case TopPages(limit) => DecimalsDiffer(PAGES_PREFIX, limit, b.limit);
      case TopCampaigns(limit) => DecimalsDiffer(CAMPAIGNS_PREFIX, limit, b.limit);
    }
  }

  lemma KeyStart(e: Endpoint)
    ensures CacheKey(e)[3] == if e.Summary? then 's' else 't'
    ensures !e.Summary? ==> CacheKey(e)[7] == if e.TopPages? then 'p' else 'c'
  {
  }

  lemma KeysKeepKind(a: Endpoint, b: Endpoint)
    requires CacheKey(a) == CacheKey(b)
    ensures (a.Summary? <==> b.Summary?) && (a.TopPages? <==> b.TopPages?)
  {
    KeyStart(a);
    KeyStart(b);
  }

  // ---- The protocol ----

  // What a fetch returned; None is cached as null and read back as a miss.
  type Value = Option<string>

  datatype Fetched = Fetched(endpoint: Endpoint, value: Value, at: int)

  // A stored value is readable until expires.
  datatype Entry = Entry(data: Fetched, expires: int)

  datatype Request = Missed(endpoint: Endpoint) | Holding(data: Fetched)

  datatype Serving = Serving(endpoint: Endpoint, value: Value, at: int, fetchedAt: int)

  datatype State = State(
    now: int,
    store: map<string, Entry>,
    requests: map<nat, Request>,
    fetches: set<Fetched>,
    served: seq<Serving>)

  // hears and stores tell whether the Redis command succeeds.
  datatype Action =
    | Tick(ticks: nat)
    | Get(id: nat, endpoint: Endpoint, hears: bool)
    | Fetch(id: nat, value: Value)
    | Fail(id: nat)
    | Set(id: nat, stores: bool)
    | Drop(key: string)

  // ttl is the TTL of a SET; delay bounds the time from a fetch to the end of its SET.
  datatype Bounds = Bounds(ttl: int, delay: nat)

  // A missing or zero TTL falls back to the default one.
  function TtlOf(ttlSeconds: Option<int>, default: int): int {
    if ttlSeconds.Some? && ttlSeconds.value != 0 then ttlSeconds.value else default
  }

  function Start(): State { State(0, map[], map[], {}, []) }

  predicate Readable(s: State, key: string) { key in s.store && s.now <= s.store[key].expires }

  function Serve(s: State, endpoint: Endpoint, data: Fetched): State {
    s.(served := s.served + [Serving(endpoint, data.value, s.now, data.at)])
  }

  // SET with a TTL that is not positive is an error, which set_json swallows.
  function Store(b: Bounds, s: State, data: Fetched, stores: bool): State {
    if stores && b.ttl > 0 then s.(store := s.store[CacheKey(data.endpoint) := Entry(data, s.now + b.ttl)]) else s
  }

  function GetStep(s: State, id: nat, endpoint: Endpoint, hears: bool): State {
    var key := CacheKey(endpoint);
    if id in s.requests then s
    else if hears && Readable(s, key) && s.store[key].data.value.Some? then Serve(s, endpoint, s.store[key].data)
    else s.(requests := s.requests[id := Missed(endpoint)])
  }

  function FetchStep(s: State, id: nat, value: Value): State {
    if id in s.requests && s.requests[id].Missed? then
      var data := Fetched(s.requests[id].endpoint, value, s.now);
      s.(requests := s.requests[id := Holding(data)], fetches := s.fetches + {data})
    else s
  }

  function SetStep(b: Bounds, s: State, id: nat, stores: bool): State {
    if id in s.requests && s.requests[id].Holding? && s.now <= s.requests[id].data.at + b.delay then
      var data := s.requests[id].data;
      Serve(Store(b, s, data, stores), data.endpoint, data).(requests := s.requests - {id})
    else s
  }

  function Do(b: Bounds, s: State, a: Action): State {
    match a
    case Tick(ticks) => s.(now := s.now + ticks)
    case Get(id, endpoint, hears) => GetStep(s, id, endpoint, hears)
    case Fetch(id, value) => FetchStep(s, id, value)
    case Fail(id) => if id in s.requests && s.requests[id].Missed? then s.(requests := s.requests - {id}) else s
    case Set(id, stores) => SetStep(b, s, id, stores)
    case Drop(key) => s.(store := s.store - {key})
  }

  function Exec(b: Bounds, actions: seq<Action>): State {
    if actions == [] then Start() else Do(b, Exec(b, actions[..|actions| - 1]), actions[|actions| - 1])
  }

  // ---- The invariant ----

  // A value fetched before now for the endpoint whose key it is stored under.
  ghost predicate Known(s: State, data: Fetched) { data in s.fetches && data.at <= s.now }

  ghost predicate StoreIsFresh(b: Bounds, s: State) {
    forall key :: key in s.store ==>
                    var e := s.store[key];
                    && Known(s, e.data) && CacheKey(e.data.endpoint) == key
                    && e.expires <= e.data.at + b.delay + Max(0, b.ttl)
  }

  ghost predicate RequestsAreKnown(s: State) {
    forall id :: id in s.requests && s.requests[id].Holding? ==> Known(s, s.requests[id].data)
  }

  // Fetched for this very endpoint, no later than served and at most ttl + delay earlier.
  ghost predicate Fair(b: Bounds, s: State, r: Serving) {
    && Fetched(r.endpoint, r.value, r.fetchedAt) in s.fetches
    && r.at - Max(0, b.ttl) - b.delay <= r.fetchedAt <= r.at <= s.now
  }

  ghost predicate AllFair(b: Bounds, s: State) { forall i :: 0 <= i < |s.served| ==> Fair(b, s, s.served[i]) }

  ghost predicate Inv(b: Bounds, s: State) { StoreIsFresh(b, s) && RequestsAreKnown(s) && AllFair(b, s) }

  lemma ServeKeeps(b: Bounds, s: State, endpoint: Endpoint, data: Fetched)
    requires Inv(b, s) && Known(s, data) && data.endpoint == endpoint && s.now <= data.at + b.delay + Max(0, b.ttl)
    ensures Inv(b, Serve(s, endpoint, data))
  {
    var t := Serve(s, endpoint, data);
    forall i | 0 <= i < |t.served| ensures Fair(b, t, t.served[i]) {
      if i < |s.served| {
        assert Fair(b, s, s.served[i]);
      }
    }
  }

  lemma StoreKeeps(b: Bounds, s: State, data: Fetched, stores: bool)
    requires Inv(b, s) && Known(s, data) && s.now <= data.at + b.delay
    ensures Inv(b, Store(b, s, data, stores)) && Known(Store(b, s, data, stores), data)
  {
    var t := Store(b, s, data, stores);
    forall i | 0 <= i < |t.served| ensures Fair(b, t, t.served[i]) {
      assert Fair(b, s, s.served[i]);
    }
  }

  // More time and more fetches leave everything as it was.
  lemma LaterKeeps(b: Bounds, s: State, t: State)
    requires Inv(b, s) && t.store == s.store && t.served == s.served
    requires s.now <= t.now && s.fetches <= t.fetches && RequestsAreKnown(t)
    ensures Inv(b, t)
  {
    forall i | 0 <= i < |t.served| ensures Fair(b, t, t.served[i]) {
      assert Fair(b, s, s.served[i]);
    }
  }

  lemma GetKeeps(b: Bounds, s: State, id: nat, endpoint: Endpoint, hears: bool)
    requires Inv(b, s)
    ensures Inv(b, GetStep(s, id, endpoint, hears))
  {
    var key := CacheKey(endpoint);
    if id !in s.requests {
      if hears && Readable(s, key) && s.store[key].data.value.Some? {
        KeysAreDistinct(s.store[key].data.endpoint, endpoint);
        ServeKeeps(b, s, endpoint, s.store[key].data);
      } else {
        LaterKeeps(b, s, GetStep(s, id, endpoint, hears));
      }
    }
  }

  lemma FetchKeeps(b: Bounds, s: State, id: nat, value: Value)
    requires Inv(b, s)
    ensures Inv(b, FetchStep(s, id, value))
  {
    LaterKeeps(b, s, FetchStep(s, id, value));
  }

  lemma SetKeeps(b: Bounds, s: State, id: nat, stores: bool)
    requires Inv(b, s)
    ensures Inv(b, SetStep(b, s, id, stores))
  {
    if id in s.requests && s.requests[id].Holding? && s.now <= s.requests[id].data.at + b.delay {
      var data := s.requests[id].data;
      StoreKeeps(b, s, data, stores);
      ServeKeeps(b, Store(b, s, data, stores), data.endpoint, data);
      LaterKeeps(b, Serve(Store(b, s, data, stores), data.endpoint, data), SetStep(b, s, id, stores));
    }
  }

  lemma DropKeeps(b: Bounds, s: State, key: string)
    requires Inv(b, s)
    ensures Inv(b, s.(store := s.store - {key}))
  {
    var t := s.(store := s.store - {key});
    forall i | 0 <= i < |t.served| ensures Fair(b, t, t.served[i]) {
      assert Fair(b, s, s.served[i]);
    }
  }

  lemma StepKeeps(b: Bounds, s: State, a: Action)
    requires Inv(b, s)
    ensures Inv(b, Do(b, s, a))
  {
    match a
    case Tick(_) => LaterKeeps(b, s, Do(b, s, a));
    case Get(id, endpoint, hears) => GetKeeps(b, s, id, endpoint, hears);
    case Fetch(id, value) => FetchKeeps(b, s, id, value);
    case Fail(id) => LaterKeeps(b, s, Do(b, s, a));
    case Set(id, stores) => SetKeeps(b, s, id, stores);
    case Drop(key) => DropKeeps(b, s, key);
  }

  lemma {:induction false} RunKeepsInv(b: Bounds, actions: seq<Action>)
    ensures Inv(b, Exec(b, actions))
  {
    if actions != [] {
      RunKeepsInv(b, actions[..|actions| - 1]);
      StepKeeps(b, Exec(b, actions[..|actions| - 1]), actions[|actions| - 1]);
    }
  }

  /**
   Whatever the interleaving and whichever Redis commands fail: an answer is never older than ttl
   plus delay, and never another endpoint's.
   */
  lemma AnswersAreFresh(b: Bounds, actions: seq<Action>, i: nat)
    requires i < |Exec(b, actions).served|
    ensures var s := Exec(b, actions);
            var r := s.served[i];
            && Fetched(r.endpoint, r.value, r.fetchedAt) in s.fetches
            && r.at - Max(0, b.ttl) - b.delay <= r.fetchedAt <= r.at
  {
    RunKeepsInv(b, actions);
    assert Fair(b, Exec(b, actions), Exec(b, actions).served[i]);
  }

  /** An evicted key is a miss for the next request, and a failing fetch ends it with nothing stored or served. */
  lemma EvictionAndFailure(b: Bounds, s: State, id: nat, endpoint: Endpoint)
    requires id !in s.requests
    ensures var dropped := Do(b, s, Drop(CacheKey(endpoint)));
            var missed := Do(b, dropped, Get(id, endpoint, true));
            && missed == dropped.(requests := s.requests[id := Missed(endpoint)])
            && Do(b, missed, Fail(id)) == dropped
  {
    assert s.requests[id := Missed(endpoint)] - {id} == s.requests;
  }

  // ---- The bound is attained ----

  lemma ExecStep(b: Bounds, actions: seq<Action>, a: Action)
    ensures Exec(b, actions + [a]) == Do(b, Exec(b, actions), a)
  {
    assert (actions + [a])[..|actions + [a]| - 1] == actions;
  }

  // A miss that fetches at time 0 and finishes its SET after the longest delay.
  lemma SlowMiss(b: Bounds, endpoint: Endpoint, text: string) returns (actions: seq<Action>)
    requires b.ttl > 0
    ensures Exec(b, actions).now == b.delay && Exec(b, actions).requests == map[]
    ensures Exec(b, actions).store ==
            map[CacheKey(endpoint) := Entry(Fetched(endpoint, Some(text), 0), b.delay + b.ttl)]
  {
    var a1 := [] + [Get(0, endpoint, true)];
    var a2 := a1 + [Fetch(0, Some(text))];
    var a3 := a2 + [Tick(b.delay)];
    actions := a3 + [Set(0, true)];
    assert Exec(b, []) == Start();
    ExecStep(b, [], Get(0, endpoint, true));
    ExecStep(b, a1, Fetch(0, Some(text)));
    ExecStep(b, a2, Tick(b.delay));
    ExecStep(b, a3, Set(0, true));
    assert map[0 := Holding(Fetched(endpoint, Some(text), 0))] - {0} == map[];
  }

  /** An answer exactly ttl + delay old is possible, for every positive ttl. */
  lemma BoundIsAttained(b: Bounds, endpoint: Endpoint, text: string) returns (actions: seq<Action>)
    requires b.ttl > 0
    ensures var s := Exec(b, actions);
            s.served != [] && s.served[|s.served| - 1] == Serving(endpoint, Some(text), b.ttl + b.delay, 0)
  {
    var a := SlowMiss(b, endpoint, text);
    ExecStep(b, a, Tick(b.ttl));
    ExecStep(b, a + [Tick(b.ttl)], Get(1, endpoint, true));
    actions := a + [Tick(b.ttl)] + [Get(1, endpoint, true)];
  }

  // ---- One request, without others in between ----

  class RedisCache {
    var now: int
    var entries: map<string, (Value, int)>

    constructor (now: int)
      ensures this.now == now && entries == map[]
    {
      this.now, entries := now, map[];
    }

    // get_json
    function Lookup(key: string): Value
      reads this
    {
      if key in entries && now < entries[key].1 then entries[key].0 else None
    }

    // set_json
    method SetJson(key: string, value: Value, ttl: int) returns (stored: bool)
      modifies this`entries
      ensures stored <==> ttl > 0
      ensures entries == if ttl > 0 then old(entries)[key := (value, now + ttl)] else old(entries)
    {
      stored := ttl > 0;
      if stored {
        entries := entries[key := (value, now + ttl)];
      }
    }
  }

  // A value that is not null and has not expired.
  predicate Hit(entries: map<string, (Value, int)>, key: string, now: int) {
    key in entries && entries[key].0.Some? && now < entries[key].1
  }

  // _cached; conn is null when no client could be built, and fetch is None when the fetcher raises.
  method Cached(key: string, fetch: Option<Value>, ttlSeconds: Option<int>, default: int, conn: RedisCache?)
    returns (answer: Option<Value>)
    modifies conn
    ensures conn != null ==> conn.now == old(conn.now)
    ensures conn != null && Hit(old(conn.entries), key, conn.now) ==>
              answer == Some(old(conn.entries)[key].0) && conn.entries == old(conn.entries)
    ensures conn == null || !Hit(old(conn.entries), key, conn.now) ==> answer == fetch
    ensures conn != null && !Hit(old(conn.entries), key, conn.now) ==>
              var ttl := if ttlSeconds == None || ttlSeconds == Some(0) then default else ttlSeconds.value;
              conn.entries == if fetch.Some? && ttl > 0 then old(conn.entries)[key := (fetch.value, conn.now + ttl)]
                              else old(conn.entries)
  {
    var ttl := TtlOf(ttlSeconds, default);
    if conn != null && conn.Lookup(key).Some? {
      return Some(conn.Lookup(key));
    }
    if fetch.Some? && conn != null {
      var _ := conn.SetJson(key, fetch.value, ttl);
    }
    answer := fetch;
  }
}
