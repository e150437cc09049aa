/**
 The token-bucket limiter: one bucket for each client, refilled with time up to the burst
 size, and the deletion of clients that have been idle for more than ten minutes.

 Time is in seconds and, like the tokens, a real number; the clock never goes back.
 */
module RateLimit {
  import opened Common

  /** The requests allowed in a minute, which is the burst size as well. */
  type Rpm = n: int | n > 0 witness 1

  datatype Client = Client(tokens: real, lastUpdate: real)

  type Clients = map<string, Client>

  /** wait is in whole seconds: until the bucket is full, or until a denied call may be repeated. */
  datatype Answer = Answer(allowed: bool, remaining: int, wait: int)

  const IDLE_LIMIT := 600.0

  function Rate(rpm: Rpm): (r: real)
    ensures r > 0.0
  {
    rpm as real / 60.0
  }

  /** The tokens that d seconds bring. */
  function Refill(rpm: Rpm, d: real): real {
    d * Rate(rpm)
  }

  /** The time that x tokens take, cut to whole seconds. */
  function Seconds(rpm: Rpm, x: real): int {
    (x / Rate(rpm)).Floor
  }

  function Refilled(rpm: Rpm, c: Client, now: real): real {
    var tokens := c.tokens + Refill(rpm, now - c.lastUpdate);
    if tokens > rpm as real then rpm as real else tokens
  }

  function Serve(rpm: Rpm, c: Client, now: real): (Client, Answer) {
    var tokens := Refilled(rpm, c, now);
    if tokens >= 1.0 then
      (Client(tokens - 1.0, now), Answer(true, (tokens - 1.0).Floor, Seconds(rpm, rpm as real - (tokens - 1.0))))
    else
      (Client(tokens, now), Answer(false, 0, Seconds(rpm, 1.0 - tokens)))
  }

  /** The bucket a request finds: its own, or a full one made for it. */
  function Bucket(rpm: Rpm, clients: Clients, ip: string, created: real): Client {
    if ip in clients then clients[ip] else Client(rpm as real, created)
  }

  function Evict(clients: Clients, now: real): Clients {
    map ip | ip in clients && now - clients[ip].lastUpdate <= IDLE_LIMIT :: clients[ip]
  }

  // ------------------------------------------------------------------ runs

  datatype Event = Request(ip: string, created: real, now: real) | Cleanup(now: real)

  /** Time never goes back, from start on. */
  predicate Timed(events: seq<Event>, start: real) {
    events == [] ||
    (start <= events[0].now && (events[0].Request? ==> start <= events[0].created <= events[0].now) &&
     Timed(events[1..], events[0].now))
  }

  /** The clients after one event; evict says whether clean-ups delete anything. */
  function Next(rpm: Rpm, evict: bool, clients: Clients, e: Event): Clients {
    match e
    case Request(ip, created, now) => clients[ip := Serve(rpm, Bucket(rpm, clients, ip, created), now).0]
    case Cleanup(now) => if evict then Evict(clients, now) else clients
  }

  /** The answer to one event; only requests have one. */
  function Reply(rpm: Rpm, clients: Clients, e: Event): Option<Answer> {
    match e
    case Request(ip, created, now) => Some(Serve(rpm, Bucket(rpm, clients, ip, created), now).1)
    case Cleanup(now) => None
  }

  function Run(rpm: Rpm, evict: bool, clients: Clients, events: seq<Event>): Clients
    decreases |events|
  {
    if events == [] then clients else Run(rpm, evict, Next(rpm, evict, clients, events[0]), events[1..])
  }

  function Replies(rpm: Rpm, evict: bool, clients: Clients, events: seq<Event>): (r: seq<Option<Answer>>)
    ensures |r| == |events|
    decreases |events|
  {
    if events == [] then []
    else [Reply(rpm, clients, events[0])] + Replies(rpm, evict, Next(rpm, evict, clients, events[0]), events[1..])
  }

  /** The time after the events. */
  function End(events: seq<Event>, start: real): real {
    if events == [] then start else End(events[1..], events[0].now)
  }

  // ------------------------------------------------------------------ arithmetic of refilling

  lemma RefillAdds(rpm: Rpm, d: real, e: real)
    ensures Refill(rpm, d + e) == Refill(rpm, d) + Refill(rpm, e)
    ensures Refill(rpm, 0.0) == 0.0
  {
  }

  lemma RefillGrows(rpm: Rpm, d: real, e: real)
    requires d <= e
    ensures Refill(rpm, d) <= Refill(rpm, e)
    ensures Refill(rpm, 0.0) == 0.0
  {
    var rate := Rate(rpm);
    assert d * rate <= e * rate;
  }

  /** The burst size is one minute of refill. */
  lemma MinuteFills(rpm: Rpm)
    ensures Refill(rpm, 60.0) == rpm as real
  {
  }

  // ------------------------------------------------------------------ invariant

  /** Tokens lie between nothing and the burst size, and no bucket was updated in the future. */
  ghost predicate Good(rpm: Rpm, clients: Clients, now: real) {
    forall ip :: ip in clients ==> 0.0 <= clients[ip].tokens <= rpm as real && clients[ip].lastUpdate <= now
  }

  lemma RefilledBounds(rpm: Rpm, c: Client, now: real)
    requires 0.0 <= c.tokens <= rpm as real && c.lastUpdate <= now
    ensures c.tokens <= Refilled(rpm, c, now) <= rpm as real
  {
    RefillGrows(rpm, 0.0, now - c.lastUpdate);
  }

  lemma ServeKeepsBounds(rpm: Rpm, c: Client, now: real)
    requires 0.0 <= c.tokens <= rpm as real && c.lastUpdate <= now
    ensures 0.0 <= Serve(rpm, c, now).0.tokens <= rpm as real && Serve(rpm, c, now).0.lastUpdate == now
    ensures Serve(rpm, c, now).1.remaining == Serve(rpm, c, now).0.tokens.Floor
  {
    RefilledBounds(rpm, c, now);
  }

  lemma NextKeepsGood(rpm: Rpm, evict: bool, clients: Clients, e: Event, start: real)
    requires Good(rpm, clients, start) && Timed([e], start)
    ensures Good(rpm, Next(rpm, evict, clients, e), e.now)
  {
    hide Serve;
    if e.Request? { ServeKeepsBounds(rpm, Bucket(rpm, clients, e.ip, e.created), e.now); }
  }

  lemma {:induction false} RunKeepsGood(rpm: Rpm, evict: bool, clients: Clients, events: seq<Event>, start: real)
    requires Good(rpm, clients, start) && Timed(events, start)
    ensures Good(rpm, Run(rpm, evict, clients, events), End(events, start))
    ensures start <= End(events, start)
    decreases |events|
  {
    hide Good, Next;
    if events != [] {
      NextKeepsGood(rpm, evict, clients, events[0], start);
      RunKeepsGood(rpm, evict, Next(rpm, evict, clients, events[0]), events[1..], events[0].now);
    }
  }

  // ------------------------------------------------------------------ eviction is invisible

  /** A client is full when a request now would find the whole burst. */
  ghost predicate Full(rpm: Rpm, c: Client, now: real) {
    c.tokens + Refill(rpm, now - c.lastUpdate) >= rpm as real
  }

  /** The evicting limiter lacks only clients that are full. */
  ghost predicate Simulates(rpm: Rpm, evicting: Clients, keeping: Clients, now: real) {
    && (forall ip :: ip in evicting ==> ip in keeping && evicting[ip] == keeping[ip])
    && (forall ip :: ip in keeping && ip !in evicting ==> Full(rpm, keeping[ip], now))
  }

  lemma FullStaysFull(rpm: Rpm, c: Client, now: real, later: real)
    requires Full(rpm, c, now) && now <= later
    ensures Full(rpm, c, later)
  {
    RefillGrows(rpm, now - c.lastUpdate, later - c.lastUpdate);
  }

  /** A client that was idle longer than the limit is full. */
  lemma IdleIsFull(rpm: Rpm, c: Client, now: real)
    requires 0.0 <= c.tokens && now - c.lastUpdate > IDLE_LIMIT
    ensures Full(rpm, c, now)
  {
    RefillGrows(rpm, 60.0, now - c.lastUpdate);
    MinuteFills(rpm);
  }

  /** A full bucket and a new one are served alike. */
  lemma FullServesLikeNew(rpm: Rpm, c: Client, created: real, now: real)
    requires Full(rpm, c, now) && created <= now
    ensures Serve(rpm, c, now) == Serve(rpm, Client(rpm as real, created), now)
  {
    RefillGrows(rpm, 0.0, now - created);
  }

  lemma NextSimulates(rpm: Rpm, evicting: Clients, keeping: Clients, e: Event, start: real)
    requires Simulates(rpm, evicting, keeping, start) && Good(rpm, keeping, start) && Timed([e], start)
    ensures Simulates(rpm, Next(rpm, true, evicting, e), Next(rpm, false, keeping, e), e.now)
    ensures Reply(rpm, evicting, e) == Reply(rpm, keeping, e)
  {
    var evicting', keeping' := Next(rpm, true, evicting, e), Next(rpm, false, keeping, e);
    hide Serve, Full;
    match e
    case Request(ip, created, now) =>
      if ip in keeping && ip !in evicting {
        FullStaysFull(rpm, keeping[ip], start, now);
        FullServesLikeNew(rpm, keeping[ip], created, now);
      }
      forall other | other in keeping' && other !in evicting'
        ensures Full(rpm, keeping'[other], now)
      {
        FullStaysFull(rpm, keeping[other], start, now);
      }
    case Cleanup(now) =>
      forall ip | ip in keeping' && ip !in evicting'
        ensures Full(rpm, keeping'[ip], now)
      {
        if ip in evicting { IdleIsFull(rpm, keeping[ip], now); } else { FullStaysFull(rpm, keeping[ip], start, now); }
      }
  }

  lemma {:induction false} RunSimulates(rpm: Rpm, evicting: Clients, keeping: Clients, events: seq<Event>, start: real)
    requires Simulates(rpm, evicting, keeping, start) && Good(rpm, keeping, start) && Timed(events, start)
    ensures Replies(rpm, true, evicting, events) == Replies(rpm, false, keeping, events)
    decreases |events|
  {
    hide Simulates, Good, Next, Reply;
    if events != [] {
      var e := events[0];
      NextSimulates(rpm, evicting, keeping, e, start);
      NextKeepsGood(rpm, false, keeping, e, start);
      RunSimulates(rpm, Next(rpm, true, evicting, e), Next(rpm, false, keeping, e), events[1..], e.now);
    }
  }

  /** On every sequence of requests, deleting idle clients gives the answers of a limiter that never deletes. */
  lemma EvictionIsInvisible(rpm: Rpm, events: seq<Event>, start: real)
    requires Timed(events, start)
    ensures Replies(rpm, true, map[], events) == Replies(rpm, false, map[], events)
  {
    RunSimulates(rpm, map[], map[], events, start);
  }

  // ------------------------------------------------------------------ who is remembered

  /** Event number i is the last request of the client among the events. */
  ghost predicate LastRequest(events: seq<Event>, ip: string, i: nat) {
    && i < |events| && events[i].Request? && events[i].ip == ip
    && forall j :: i < j < |events| ==> !(events[j].Request? && events[j].ip == ip)
  }

  /** No clean-up after event i came more than ten minutes after it. */
  ghost predicate KeptSince(events: seq<Event>, i: nat)
    requires i < |events|
  {
    forall j :: i < j < |events| && events[j].Cleanup? ==> events[j].now - events[i].now <= 600.0
  }

  /**
   After any events a client is remembered exactly if it made a request and no clean-up came
   more than ten minutes after its last one, which is then the time of its bucket.
   */
  ghost predicate Remembers(clients: Clients, events: seq<Event>, ip: string) {
    && (ip in clients <==> exists i: nat :: LastRequest(events, ip, i) && KeptSince(events, i))
    && (forall i: nat :: LastRequest(events, ip, i) && ip in clients ==> clients[ip].lastUpdate == events[i].now)
  }

  lemma {:induction false} RunSplits(rpm: Rpm, clients: Clients, before: seq<Event>, e: Event)
    ensures Run(rpm, true, clients, before + [e]) == Next(rpm, true, Run(rpm, true, clients, before), e)
    decreases |before|
  {
    hide Next;
    if before == [] {
      assert [] + [e] == [e] && [e][1..] == [];
    } else {
      assert (before + [e])[1..] == before[1..] + [e];
      RunSplits(rpm, Next(rpm, true, clients, before[0]), before[1..], e);
    }
  }

  lemma OneMoreEvent(before: seq<Event>, e: Event, ip: string, i: nat)
    ensures e.Request? && e.ip == ip ==> (LastRequest(before + [e], ip, i) <==> i == |before|)
    ensures !(e.Request? && e.ip == ip) ==> (LastRequest(before + [e], ip, i) <==> LastRequest(before, ip, i))
    ensures i == |before| ==> KeptSince(before + [e], i)
    ensures i < |before| ==> (KeptSince(before + [e], i) <==>
      KeptSince(before, i) && (e.Cleanup? ==> e.now - before[i].now <= 600.0))
  {
    var events := before + [e];
    assert events[|before|] == e && forall j :: 0 <= j < |before| ==> events[j] == before[j];
  }

  lemma OneLastRequest(events: seq<Event>, ip: string, i: nat, j: nat)
    requires LastRequest(events, ip, i) && LastRequest(events, ip, j)
    ensures i == j
  {
  }

  lemma {:induction false} RunRemembers(rpm: Rpm, events: seq<Event>, ip: string)
    ensures Remembers(Run(rpm, true, map[], events), events, ip)
  {
    if events != [] {
      var before, e := events[..|events| - 1], events[|events| - 1];
      assert events == before + [e];
      RunRemembers(rpm, before, ip);
      RunSplits(rpm, map[], before, e);
      EventRemembers(rpm, Run(rpm, true, map[], before), before, e, ip);
    }
  }

  lemma EventRemembers(rpm: Rpm, clients: Clients, before: seq<Event>, e: Event, ip: string)
    requires Remembers(clients, before, ip)
    ensures Remembers(Next(rpm, true, clients, e), before + [e], ip)
  {
    var events, clients' := before + [e], Next(rpm, true, clients, e);
    forall i: nat
      ensures e.Request? && e.ip == ip ==> (LastRequest(events, ip, i) <==> i == |before|)
      ensures !(e.Request? && e.ip == ip) ==> (LastRequest(events, ip, i) <==> LastRequest(before, ip, i))
    {
      OneMoreEvent(before, e, ip, i);
    }
    OneMoreEvent(before, e, ip, |before|);
    hide LastRequest, KeptSince;
    if e.Request? && e.ip == ip {
      assert LastRequest(events, ip, |before|) && KeptSince(events, |before|) && events[|before|] == e;
    } else if i: nat :| LastRequest(before, ip, i) {
      OneMoreEvent(before, e, ip, i);
      InRange(before, ip, i);
      forall j: nat | LastRequest(before, ip, j)
        ensures j == i
      {
        OneLastRequest(before, ip, i, j);
      }
      assert events[i] == before[i];
    }
  }

  lemma InRange(events: seq<Event>, ip: string, i: nat)
    requires LastRequest(events, ip, i)
    ensures i < |events|
  {
  }

  // ------------------------------------------------------------------ the bound

  /** The tokens a request would find. */
  function Available(rpm: Rpm, clients: Clients, ip: string, now: real): real {
    Refilled(rpm, Bucket(rpm, clients, ip, now), now)
  }

  /** 1 if the event is a request of the client that is allowed, else 0. */
  function Allowed(rpm: Rpm, clients: Clients, e: Event, ip: string): nat {
    if e.Request? && e.ip == ip && Reply(rpm, clients, e).value.allowed then 1 else 0
  }

  /** How many requests of one client are allowed. */
  function AllowedCount(rpm: Rpm, evict: bool, clients: Clients, events: seq<Event>, ip: string): nat
    decreases |events|
  {
    if events == [] then 0
    else
      Allowed(rpm, clients, events[0], ip) +
      AllowedCount(rpm, evict, Next(rpm, evict, clients, events[0]), events[1..], ip)
  }

  /** Tokens gained between two moments are at most the refill of the time between them. */
  lemma RefilledLater(rpm: Rpm, c: Client, now: real, later: real)
    requires now <= later && c.tokens <= rpm as real
    ensures Refilled(rpm, c, later) <= Refilled(rpm, c, now) + Refill(rpm, later - now)
  {
    RefillAdds(rpm, now - c.lastUpdate, later - now);
    assert (now - c.lastUpdate) + (later - now) == later - c.lastUpdate;
    RefillGrows(rpm, 0.0, later - now);
  }

  lemma AvailableLater(rpm: Rpm, clients: Clients, ip: string, now: real, later: real)
    requires Good(rpm, clients, now) && now <= later
    ensures Available(rpm, clients, ip, later) <= Available(rpm, clients, ip, now) + Refill(rpm, later - now)
    ensures 0.0 <= Available(rpm, clients, ip, later) <= rpm as real
  {
    RefillGrows(rpm, 0.0, later - now);
    RefillGrows(rpm, 0.0, 0.0);
    if ip in clients {
      RefilledLater(rpm, clients[ip], now, later);
      RefilledBounds(rpm, clients[ip], later);
    }
  }

  /** An allowed request costs one token; a clean-up and other clients' requests cost none and bring none. */
  lemma NextSpends(rpm: Rpm, evict: bool, clients: Clients, e: Event, start: real, ip: string)
    requires Good(rpm, clients, start) && Timed([e], start)
    ensures Available(rpm, Next(rpm, evict, clients, e), ip, e.now) + Allowed(rpm, clients, e, ip) as real ==
      Available(rpm, clients, ip, e.now)
  {
    RefillGrows(rpm, 0.0, 0.0);
    match e
    case Request(other, created, now) =>
      if other == ip && ip !in clients { FullServesLikeNew(rpm, Client(rpm as real, now), created, now); }
    case Cleanup(now) =>
      if ip in clients && now - clients[ip].lastUpdate > IDLE_LIMIT { IdleIsFull(rpm, clients[ip], now); }
  }

  lemma {:induction false} RunSpends(
      rpm: Rpm, evict: bool, clients: Clients, events: seq<Event>, start: real, ip: string)
    requires Good(rpm, clients, start) && Timed(events, start)
    ensures AllowedCount(rpm, evict, clients, events, ip) as real <=
      Available(rpm, clients, ip, start) + Refill(rpm, End(events, start) - start)
    decreases |events|
  {
    hide Good, Next, Available, Allowed, Refill;
    if events == [] {
      RefillAdds(rpm, 0.0, 0.0);
      AvailableLater(rpm, clients, ip, start, start);
    } else {
      var e := events[0];
      var clients' := Next(rpm, evict, clients, e);
      NextKeepsGood(rpm, evict, clients, e, start);
      NextSpends(rpm, evict, clients, e, start, ip);
      AvailableLater(rpm, clients, ip, start, e.now);
      RunSpends(rpm, evict, clients', events[1..], e.now, ip);
      RefillAdds(rpm, e.now - start, End(events, start) - e.now);
      assert (e.now - start) + (End(events, start) - e.now) == End(events, start) - start;
    }
  }

  /**
   In every run and every interval of it, whether or not anything happens at its ends, the
   requests of one client that are allowed number at most the burst size plus the refill
   of the interval.
   */
  lemma AllowedInIntervalIsBounded(rpm: Rpm, evict: bool, before: seq<Event>, start: real,
                                   during: seq<Event>, first: real, last: real, ip: string)
    requires Timed(before, start) && End(before, start) <= first
    requires Timed(during, first) && End(during, first) <= last
    ensures var clients := Run(rpm, evict, map[], before);
      AllowedCount(rpm, evict, clients, during, ip) as real <= rpm as real + Refill(rpm, last - first)
  {
    var clients := Run(rpm, evict, map[], before);
    RunKeepsGood(rpm, evict, map[], before, start);
    assert Good(rpm, clients, first);
    RunSpends(rpm, evict, clients, during, first, ip);
    AvailableLater(rpm, clients, ip, first, first);
    RefillGrows(rpm, End(during, first) - first, last - first);
  }

  // ------------------------------------------------------------------ the reported numbers

  function Requests(events: seq<Event>, ip: string): nat {
    if events == [] then 0
    else (if events[0].Request? && events[0].ip == ip then 1 else 0) + Requests(events[1..], ip)
  }

  /** All events happen at one instant. */
  predicate AtOnce(events: seq<Event>, now: real) {
    forall i :: 0 <= i < |events| ==> events[i].now == now && (events[i].Request? ==> events[i].created == now)
  }

  lemma AtOnceIsTimed(e: Event, now: real)
    requires AtOnce([e], now)
    ensures Timed([e], now)
  {
    assert [e][0] == e;
  }

  /** At one instant, the requests of a client that are allowed are the first as many as it has whole tokens. */
  lemma {:induction false} InstantSpendsWholeTokens(
      rpm: Rpm, evict: bool, clients: Clients, events: seq<Event>, now: real, ip: string)
    requires Good(rpm, clients, now) && AtOnce(events, now)
    ensures AllowedCount(rpm, evict, clients, events, ip) ==
      Min(Requests(events, ip), Available(rpm, clients, ip, now).Floor)
    decreases |events|
  {
    AvailableLater(rpm, clients, ip, now, now);
    if events != [] {
      var e := events[0];
      assert AtOnce([e], now);
      AtOnceIsTimed(e, now);
      NextKeepsGood(rpm, evict, clients, e, now);
      NextSpends(rpm, evict, clients, e, now, ip);
      AllowedIffToken(rpm, clients, e, now, ip);
      hide Good, Next, Available, Allowed;
      InstantSpendsWholeTokens(rpm, evict, Next(rpm, evict, clients, e), events[1..], now, ip);
    }
  }

  lemma AllowedIffToken(rpm: Rpm, clients: Clients, e: Event, now: real, ip: string)
    requires e.now == now && (e.Request? ==> e.created == now)
    ensures Allowed(rpm, clients, e, ip) == 1 <==> e.Request? && e.ip == ip && Available(rpm, clients, ip, now) >= 1.0
  {
  }

  /**
   The reported remaining number is exact: whatever else happens at that instant, of n
   further requests of the client the first min(n, remaining) are allowed.
   */
  lemma RemainingIsExact(rpm: Rpm, evict: bool, clients: Clients, start: real, request: Event, after: seq<Event>)
    requires Good(rpm, clients, start) && request.Request? && Timed([request], start) && AtOnce(after, request.now)
    ensures AllowedCount(rpm, evict, Next(rpm, evict, clients, request), after, request.ip) ==
      Min(Requests(after, request.ip), Reply(rpm, clients, request).value.remaining)
  {
    var clients' := Next(rpm, evict, clients, request);
    NextKeepsGood(rpm, evict, clients, request, start);
    ServeKeepsBounds(rpm, Bucket(rpm, clients, request.ip, request.created), request.now);
    InstantSpendsWholeTokens(rpm, evict, clients', after, request.now, request.ip);
    RefillGrows(rpm, 0.0, 0.0);
  }

  predicate IsWhole(x: real) {
    x == x.Floor as real
  }

  /**
   The reported waiting time is cut to whole seconds: one second more is always enough for
   a denied client, and exactly that time is enough if and only if the missing part of a
   token takes a whole number of seconds.
   */
  lemma WaitIsCutToSeconds(rpm: Rpm, c: Client, now: real)
    requires 0.0 <= c.tokens <= rpm as real && c.lastUpdate <= now && Refilled(rpm, c, now) < 1.0
    ensures var (c', answer) := Serve(rpm, c, now);
      && !answer.allowed
      && Serve(rpm, c', now + answer.wait as real + 1.0).1.allowed
      && (Serve(rpm, c', now + answer.wait as real).1.allowed <==> IsWhole((1.0 - Refilled(rpm, c, now)) / Rate(rpm)))
  {
    var (c', answer) := Serve(rpm, c, now);
    var exact := (1.0 - c'.tokens) / Rate(rpm);
    WaitingBrings(rpm, c', now, answer.wait as real, exact);
    WaitingBrings(rpm, c', now, answer.wait as real + 1.0, exact);
  }

  /** At one token a second, a client with half a token is told to wait 0 seconds and is then denied again. */
  lemma WaitingAsToldIsNotEnough(now: real)
    ensures var (c', answer) := Serve(60, Client(0.5, now), now);
      !answer.allowed && answer.wait == 0 && !Serve(60, c', now + answer.wait as real).1.allowed
  {
    var c := Client(0.5, now);
    assert Rate(60) == 1.0 && Refill(60, now - c.lastUpdate) == 0.0;
  }

  /**
   The reported reset time is cut to whole seconds too: one second more always fills the
   bucket, and exactly that time fills it if and only if the missing tokens take a whole
   number of seconds.
   */
  lemma ResetIsCutToSeconds(rpm: Rpm, c: Client, now: real)
    requires 0.0 <= c.tokens <= rpm as real && c.lastUpdate <= now && Refilled(rpm, c, now) >= 1.0
    ensures var (c', answer) := Serve(rpm, c, now);
      && answer.allowed
      && Full(rpm, c', now + answer.wait as real + 1.0)
      && (Full(rpm, c', now + answer.wait as real) <==>
            IsWhole((rpm as real - (Refilled(rpm, c, now) - 1.0)) / Rate(rpm)))
  {
    var (c', answer) := Serve(rpm, c, now);
    var exact := (rpm as real - c'.tokens) / Rate(rpm);
    WaitingFills(rpm, c', now, answer.wait as real, exact);
    WaitingFills(rpm, c', now, answer.wait as real + 1.0, exact);
  }

  lemma WaitingFills(rpm: Rpm, c: Client, now: real, d: real, exact: real)
    requires c.lastUpdate == now && exact == (rpm as real - c.tokens) / Rate(rpm)
    ensures Full(rpm, c, now + d) <==> d >= exact
  {
    Product(d, exact, Rate(rpm));
    assert Refill(rpm, d) >= rpm as real - c.tokens <==> d >= exact;
    assert now + d - c.lastUpdate == d;
    hide Refill, Rate;
  }

  lemma WaitingBrings(rpm: Rpm, c: Client, now: real, d: real, exact: real)
    requires c.lastUpdate == now && exact == (1.0 - c.tokens) / Rate(rpm)
    ensures Serve(rpm, c, now + d).1.allowed <==> d >= exact
  {
    Product(d, exact, Rate(rpm));
    assert Refill(rpm, d) >= 1.0 - c.tokens <==> d >= exact;
    assert now + d - c.lastUpdate == d;
    hide Refill, Rate;
  }

  lemma Product(d: real, exact: real, rate: real)
    requires rate > 0.0
    ensures d * rate >= exact * rate <==> d >= exact
  {
    if d > exact {
      assert (d - exact) * rate > 0.0;
    } else if d < exact {
      assert (exact - d) * rate > 0.0;
    }
  }

  // ------------------------------------------------------------------ the limiter as an object

  class ClientLimiter {
    var tokens: real
    var lastUpdate: real

    constructor (tokens: real, lastUpdate: real)
      ensures this.tokens == tokens && this.lastUpdate == lastUpdate
    {
      this.tokens := tokens;
      this.lastUpdate := lastUpdate;
    }

    ghost function View(): Client
      reads this
    {
      Client(tokens, lastUpdate)
    }

    /** Refills the bucket and takes a token if there is one. */
    method Take(requestsPerMinute: Rpm, burstSize: Rpm, now: real) returns (allowed: bool, remaining: int, wait: int)
      requires burstSize == requestsPerMinute
      modifies this
      ensures (View(), Answer(allowed, remaining, wait)) == Serve(requestsPerMinute, old(View()), now)
    {
      hide Rate, Refill, Seconds;
      var elapsed := now - lastUpdate;
      lastUpdate := now;
      tokens := tokens + Refill(requestsPerMinute, elapsed);
      if tokens > burstSize as real {
        tokens := burstSize as real;
      }
      if tokens >= 1.0 {
        tokens := tokens - 1.0;
        remaining := tokens.Floor;
        return true, remaining, Seconds(requestsPerMinute, burstSize as real - tokens);
      }
      return false, 0, Seconds(requestsPerMinute, 1.0 - tokens);
    }
  }

  class RateLimiter {
    var clients: map<string, ClientLimiter>
    const requestsPerMinute: Rpm
    const burstSize: Rpm

    /** Different clients have different limiter objects. */
    ghost predicate Valid()
      reads this
    {
      && burstSize == requestsPerMinute
      && forall a, b :: a in clients && b in clients && a != b ==> clients[a] != clients[b]
    }

    ghost function View(): Clients
      reads this, clients.Values
    {
      map ip | ip in clients :: clients[ip].View()
    }

    constructor (requestsPerMinute: int)
      ensures Valid() && clients == map[]
      ensures this.requestsPerMinute == if requestsPerMinute <= 0 then 1000 else requestsPerMinute
    {
      var n := if requestsPerMinute <= 0 then 1000 else requestsPerMinute;
      this.requestsPerMinute := n;
      burstSize := n;
      clients := map[];
    }

    method GetOrCreateLimiter(ip: string, now: real) returns (limiter: ClientLimiter)
      requires Valid()
      modifies this
      ensures Valid() && ip in clients && clients[ip] == limiter
      ensures ip !in old(clients) ==> fresh(limiter)
      ensures clients == old(clients)[ip := limiter] && (ip in old(clients) ==> limiter == old(clients)[ip])
      ensures limiter.View() == Bucket(requestsPerMinute, old(View()), ip, now)
    {
      if ip in clients { return clients[ip]; }
      limiter := new ClientLimiter(burstSize as real, now);
      clients := clients[ip := limiter];
    }

    method Allow(ip: string, created: real, now: real) returns (allowed: bool, remaining: int, wait: int)
      requires Valid()
      modifies this, clients.Values
      ensures Valid() && fresh(clients.Values - old(clients.Values))
      ensures View() == Next(requestsPerMinute, true, old(View()), Request(ip, created, now))
      ensures Some(Answer(allowed, remaining, wait)) == Reply(requestsPerMinute, old(View()), Request(ip, created, now))
    {
      hide Serve;
      ghost var before := View();
      var limiter := GetOrCreateLimiter(ip, created);
      assert forall other :: other in clients && other != ip ==> clients[other] != limiter;
      allowed, remaining, wait := limiter.Take(requestsPerMinute, burstSize, now);
      assert View() == before[ip := limiter.View()];
    }

    /** Visits the clients in any order and deletes the idle ones. */
    method CleanupIdle(now: real)
      requires Valid()
      modifies this
      ensures Valid() && clients.Values <= old(clients.Values)
      ensures View() == Next(requestsPerMinute, true, old(View()), Cleanup(now))
    {
      var left := clients.Keys;
      while left != {}
        invariant forall ip :: ip in clients <==>
          ip in old(clients) && (ip in left || now - old(clients)[ip].lastUpdate <= IDLE_LIMIT)
        invariant forall ip :: ip in clients ==> clients[ip] == old(clients)[ip]
        invariant left <= clients.Keys
        decreases left
      {
        var ip :| ip in left;
        left := left - {ip};
        if now - clients[ip].lastUpdate > IDLE_LIMIT {
          clients := clients - {ip};
        }
      }
    }
  }
}
