/**
  The per-client token bucket limiter with idle eviction. Forgetting an idle client is
  shown to be invisible exactly when a full idle period refills a whole bucket, and
  then any client gets at most `burst + rps * window` admissions in a window of that length.
 */
module RateLimiter {
  datatype Config = Config(rps: real, burst: int, ttl: real)

  predicate Sensible(cfg: Config) { cfg.rps >= 0.0 && cfg.ttl > 0.0 }

  /** Tokens gained in a span of time. */
  function Refill(cfg: Config, span: real): real { cfg.rps * span }

  /** An idle period refills a whole bucket. */
  predicate IdleRefills(cfg: Config) { Refill(cfg, cfg.ttl) >= cfg.burst as real }

  // ---- one bucket, as the rate library keeps it ----------------------------------------

  datatype Bucket = Bucket(tokens: real, last: real)

  function Full(cfg: Config): Bucket { Bucket(cfg.burst as real, 0.0) }

  /** Tokens available at a time: refilled since the last admission, capped at the burst. */
  function Level(cfg: Config, b: Bucket, at: real): real {
    var elapsed := if at < b.last then 0.0 else at - b.last;
    var tokens := b.tokens + Refill(cfg, elapsed);
    if tokens > cfg.burst as real then cfg.burst as real else tokens
  }

  function Admits(cfg: Config, b: Bucket, at: real): bool { Level(cfg, b, at) >= 1.0 }

  /** An admission takes one token; a refusal leaves the bucket alone. */
  function Taken(cfg: Config, b: Bucket, at: real): Bucket {
    if Admits(cfg, b, at) then Bucket(Level(cfg, b, at) - 1.0, at) else b
  }

  // ---- the limiter and its twin that never forgets -------------------------------------

  datatype Client = Client(bucket: Bucket, seen: real)

  datatype Event = Request(client: string, at: real) | Tick(at: real)

  function BucketOf(cfg: Config, clients: map<string, Client>, client: string): Bucket {
    if client in clients then clients[client].bucket else Full(cfg)
  }

  function Kept(clients: map<string, Client>, cutoff: real): map<string, Client> {
    map ip | ip in clients && clients[ip].seen >= cutoff :: clients[ip]
  }

  function Step(cfg: Config, clients: map<string, Client>, e: Event): map<string, Client> {
    match e
    case Request(ip, at) => clients[ip := Client(Taken(cfg, BucketOf(cfg, clients, ip), at), at)]
    case Tick(at) => Kept(clients, at - cfg.ttl)
  }

  function After(cfg: Config, trace: seq<Event>): map<string, Client> {
    if trace == [] then map[] else Step(cfg, After(cfg, trace[..|trace| - 1]), trace[|trace| - 1])
  }

  /** The answer to the last event: whether a request is admitted. */
  function Answer(cfg: Config, clients: map<string, Client>, e: Event): bool {
    e.Request? && Admits(cfg, BucketOf(cfg, clients, e.client), e.at)
  }

  function ReferenceBucket(cfg: Config, buckets: map<string, Bucket>, client: string): Bucket {
    if client in buckets then buckets[client] else Full(cfg)
  }

  function ReferenceStep(cfg: Config, buckets: map<string, Bucket>, e: Event): map<string, Bucket> {
    if e.Tick? then buckets
    else buckets[e.client := Taken(cfg, ReferenceBucket(cfg, buckets, e.client), e.at)]
  }

  function Reference(cfg: Config, trace: seq<Event>): map<string, Bucket> {
    if trace == [] then map[]
    else ReferenceStep(cfg, Reference(cfg, trace[..|trace| - 1]), trace[|trace| - 1])
  }

  function ReferenceAnswer(cfg: Config, buckets: map<string, Bucket>, e: Event): bool {
    e.Request? && Admits(cfg, ReferenceBucket(cfg, buckets, e.client), e.at)
  }

  /** A trace runs forward in time. */
  predicate Ordered(trace: seq<Event>) {
    && (forall i :: 0 <= i < |trace| ==> trace[i].at >= 0.0)
    && (forall i, j :: 0 <= i < j < |trace| ==> trace[i].at <= trace[j].at)
  }

  function Now(trace: seq<Event>): real { if trace == [] then 0.0 else trace[|trace| - 1].at }

  ghost predicate EvictionInvisible(cfg: Config) {
    forall trace, e :: Ordered(trace + [e]) ==>
      Answer(cfg, After(cfg, trace), e) == ReferenceAnswer(cfg, Reference(cfg, trace), e)
  }

  // ---- invisible when an idle period refills a bucket ----------------------------------

  lemma Grows(cfg: Config, a: real, b: real)
    requires Sensible(cfg) && a <= b
    ensures Refill(cfg, a) <= Refill(cfg, b)
    ensures Refill(cfg, 0.0) == 0.0
  {
  }

  lemma Adds(cfg: Config, a: real, b: real)
    ensures Refill(cfg, a + b) == Refill(cfg, a) + Refill(cfg, b)
  {
  }

  predicate FullFrom(cfg: Config, b: Bucket, now: real) {
    b.last <= now && b.tokens + Refill(cfg, now - b.last) >= cfg.burst as real
  }

  /** The two limiters agree on a client: the same bucket, or both full from now on. */
  predicate Agree(cfg: Config, a: Bucket, b: Bucket, now: real) {
    a == b || (FullFrom(cfg, a, now) && FullFrom(cfg, b, now))
  }

  predicate Sane(cfg: Config, c: Client, now: real) {
    c.bucket.last <= c.seen <= now && (c.bucket.tokens >= 0.0 || c.bucket.tokens >= cfg.burst as real)
  }

  ghost predicate Matched(cfg: Config, clients: map<string, Client>, buckets: map<string, Bucket>, now: real) {
    && (forall ip :: ip in clients ==> Sane(cfg, clients[ip], now))
    && (forall ip :: Agree(cfg, BucketOf(cfg, clients, ip), ReferenceBucket(cfg, buckets, ip), now))
  }

  lemma AgreeLasts(cfg: Config, a: Bucket, b: Bucket, now: real, later: real)
    requires Sensible(cfg) && Agree(cfg, a, b, now) && now <= later
    ensures Agree(cfg, a, b, later)
    ensures Level(cfg, a, later) == Level(cfg, b, later)
    ensures Agree(cfg, Taken(cfg, a, later), Taken(cfg, b, later), later)
  {
    if a != b {
      Grows(cfg, now - a.last, later - a.last);
      Grows(cfg, now - b.last, later - b.last);
    }
  }

  lemma SaneAfterTake(cfg: Config, b: Bucket, now: real)
    requires Sensible(cfg) && now >= 0.0
    requires b == Full(cfg) || Sane(cfg, Client(b, now), now)
    ensures Sane(cfg, Client(Taken(cfg, b, now), now), now)
  {
  }

  /** A client idle for longer than the ttl has a full bucket, so forgetting it changes nothing. */
  lemma IdleIsFull(cfg: Config, c: Client, now: real)
    requires Sensible(cfg) && IdleRefills(cfg)
    requires Sane(cfg, c, now) && c.seen < now - cfg.ttl
    ensures FullFrom(cfg, c.bucket, now)
  {
    Grows(cfg, cfg.ttl, now - c.bucket.last);
    Grows(cfg, 0.0, cfg.ttl);
  }

  lemma NewIsFull(cfg: Config, now: real)
    requires Sensible(cfg) && now >= 0.0
    ensures FullFrom(cfg, Full(cfg), now)
  {
    Grows(cfg, 0.0, now);
  }

  lemma StepKeepsMatched(
    cfg: Config, clients: map<string, Client>, buckets: map<string, Bucket>, now: real, e: Event)
    requires Sensible(cfg) && IdleRefills(cfg)
    requires Matched(cfg, clients, buckets, now) && 0.0 <= now <= e.at
    ensures Matched(cfg, Step(cfg, clients, e), ReferenceStep(cfg, buckets, e), e.at)
    ensures Answer(cfg, clients, e) == ReferenceAnswer(cfg, buckets, e)
  {
    var after, reference := Step(cfg, clients, e), ReferenceStep(cfg, buckets, e);
    forall ip
      ensures Agree(cfg, BucketOf(cfg, after, ip), ReferenceBucket(cfg, reference, ip), e.at)
      ensures ip in after ==> Sane(cfg, after[ip], e.at)
    {
      hide Level, FullFrom;
      var a, b := BucketOf(cfg, clients, ip), ReferenceBucket(cfg, buckets, ip);
      AgreeLasts(cfg, a, b, now, e.at);
      if e.Request? && e.client == ip {
        SaneAfterTake(cfg, a, e.at);
      } else if ip in clients && ip !in after {
        IdleIsFull(cfg, clients[ip], e.at);
        NewIsFull(cfg, e.at);
      }
    }
    if e.Request? {
      AgreeLasts(cfg, BucketOf(cfg, clients, e.client), ReferenceBucket(cfg, buckets, e.client), now, e.at);
    }
  }

  lemma {:induction false} RunsMatch(cfg: Config, trace: seq<Event>)
    requires Sensible(cfg) && IdleRefills(cfg) && Ordered(trace)
    ensures Matched(cfg, After(cfg, trace), Reference(cfg, trace), Now(trace))
  {
    if trace != [] {
      var before := trace[..|trace| - 1];
      RunsMatch(cfg, before);
      StepKeepsMatched(cfg, After(cfg, before), Reference(cfg, before), Now(before), trace[|trace| - 1]);
    }
  }

  // ---- visible otherwise ---------------------------------------------------------------

  function Burst(client: string, n: nat, at: real): (events: seq<Event>)
    ensures |events| == n && forall i :: 0 <= i < n ==> events[i] == Request(client, at)
  {
    seq(n, i => Request(client, at))
  }

  function TakenTimes(cfg: Config, b: Bucket, n: nat, at: real): Bucket {
    if n == 0 then b else Taken(cfg, TakenTimes(cfg, b, n - 1, at), at)
  }

  /** `n` admissions at one time lower the level by `n`. */
  lemma {:induction false} TakenTimesDrains(cfg: Config, b: Bucket, n: nat, at: real)
    requires Sensible(cfg) && b.last <= at && n as real <= Level(cfg, b, at)
    ensures Level(cfg, TakenTimes(cfg, b, n, at), at) == Level(cfg, b, at) - n as real
    ensures TakenTimes(cfg, b, n, at).last <= at
    ensures n > 0 ==> TakenTimes(cfg, b, n, at) == Bucket(Level(cfg, b, at) - n as real, at)
  {
    if n > 0 { TakenTimesDrains(cfg, b, n - 1, at); }
  }

  lemma OneMoreEvent(cfg: Config, trace: seq<Event>, e: Event)
    ensures After(cfg, trace + [e]) == Step(cfg, After(cfg, trace), e)
    ensures Reference(cfg, trace + [e]) == ReferenceStep(cfg, Reference(cfg, trace), e)
  {
    assert (trace + [e])[..|trace + [e]| - 1] == trace;
    hide Step, ReferenceStep;
  }

  lemma {:induction false} BurstTakes(cfg: Config, trace: seq<Event>, client: string, n: nat, at: real)
    ensures
      var before, after := After(cfg, trace), After(cfg, trace + Burst(client, n, at));
      && BucketOf(cfg, after, client) == TakenTimes(cfg, BucketOf(cfg, before, client), n, at)
      && (n > 0 ==> client in after && after[client].seen == at)
    ensures
      ReferenceBucket(cfg, Reference(cfg, trace + Burst(client, n, at)), client)
      == TakenTimes(cfg, ReferenceBucket(cfg, Reference(cfg, trace), client), n, at)
  {
    hide After, Reference, Taken;
    if n == 0 {
      assert trace + Burst(client, 0, at) == trace;
    } else {
      BurstTakes(cfg, trace, client, n - 1, at);
      assert trace + Burst(client, n, at) == trace + Burst(client, n - 1, at) + [Request(client, at)];
      OneMoreEvent(cfg, trace + Burst(client, n - 1, at), Request(client, at));
    }
  }

  lemma HalfGap(cfg: Config, gap: real) returns (span: real)
    requires Sensible(cfg) && gap > 0.0 && Refill(cfg, cfg.ttl) > 0.0
    ensures span > 0.0 && Refill(cfg, span) == gap / 2.0
  {
    assert cfg.rps != 0.0;
    span := gap / 2.0 / cfg.rps;
    assert span * cfg.rps == gap / 2.0;
    if span <= 0.0 { Grows(cfg, span, 0.0); }
  }

  /** A moment so late before the tick that the bucket cannot refill by the next one. */
  lemma LateMoment(cfg: Config) returns (lead: real)
    requires Sensible(cfg) && !IdleRefills(cfg)
    ensures 0.0 < lead <= cfg.ttl && Refill(cfg, cfg.ttl + lead) < cfg.burst as real
  {
    hide Refill;
    var gap := cfg.burst as real - Refill(cfg, cfg.ttl);
    lead := cfg.ttl;
    if Refill(cfg, cfg.ttl + lead) >= cfg.burst as real {
      Grows(cfg, 0.0, cfg.ttl);
      Adds(cfg, cfg.ttl, cfg.ttl);
      lead := HalfGap(cfg, gap);
      Adds(cfg, cfg.ttl, lead);
      if lead > cfg.ttl { Grows(cfg, cfg.ttl, lead); }
    }
  }

  /** A whole burst just before one tick, a tick that forgets it, and the same client again. */
  function ForgetfulTrace(cfg: Config, client: string, lead: real): seq<Event> {
    Burst(client, if cfg.burst > 0 then cfg.burst else 0, cfg.ttl - lead) + [Tick(cfg.ttl)] + [Tick(2.0 * cfg.ttl)]
  }

  lemma ForgetfulTraceForgets(cfg: Config, client: string, lead: real)
    requires Sensible(cfg) && cfg.burst > 0 && 0.0 < lead <= cfg.ttl
    ensures
      var trace := ForgetfulTrace(cfg, client, lead);
      && BucketOf(cfg, After(cfg, trace), client) == Full(cfg)
      && ReferenceBucket(cfg, Reference(cfg, trace), client) == Bucket(0.0, cfg.ttl - lead)
  {
    var n: nat := cfg.burst;
    var at := cfg.ttl - lead;
    Grows(cfg, 0.0, at);
    BurstTakes(cfg, [], client, n, at);
    TakenTimesDrains(cfg, Full(cfg), n, at);
    assert [] + Burst(client, n, at) == Burst(client, n, at);
    var one := Burst(client, n, at) + [Tick(cfg.ttl)];
    var two := one + [Tick(2.0 * cfg.ttl)];
    assert one[..|one| - 1] == Burst(client, n, at) && two[..|two| - 1] == one;
  }

  /** A full bucket still admits after as many requests as drain one at `level` below one. */
  lemma DrainedAnswers(cfg: Config, idle: Bucket, at: real)
    requires Sensible(cfg) && 0.0 <= at && idle.last <= at && 0.0 <= Level(cfg, idle, at) < cfg.burst as real
    ensures
      var n: nat := Level(cfg, idle, at).Floor;
      && Admits(cfg, TakenTimes(cfg, Full(cfg), n, at), at)
      && !Admits(cfg, TakenTimes(cfg, idle, n, at), at)
  {
    var n: nat := Level(cfg, idle, at).Floor;
    Grows(cfg, 0.0, at);
    TakenTimesDrains(cfg, Full(cfg), n, at);
    TakenTimesDrains(cfg, idle, n, at);
    assert n <= cfg.burst - 1;
  }

  /** A refill too slow for the ttl shows: some trace gets an answer the unforgetting limiter refuses. */
  lemma SlowRefillShows(cfg: Config)
    requires Sensible(cfg) && !IdleRefills(cfg)
    ensures !EvictionInvisible(cfg)
  {
    var lead := LateMoment(cfg);
    Grows(cfg, 0.0, cfg.ttl);
    Grows(cfg, 0.0, cfg.ttl + lead);
    var client, at := "client", 2.0 * cfg.ttl;
    var trace := ForgetfulTrace(cfg, client, lead);
    assert Ordered(trace);
    ForgetfulTraceForgets(cfg, client, lead);
    var idle := Bucket(0.0, cfg.ttl - lead);
    assert Level(cfg, idle, at) == Refill(cfg, cfg.ttl + lead);
    var n: nat := Level(cfg, idle, at).Floor;
    hide After, Reference, ForgetfulTrace, Level, Taken, Admits, TakenTimes;
    DrainedAnswers(cfg, idle, at);
    BurstTakes(cfg, trace, client, n, at);
    var more, e := trace + Burst(client, n, at), Request(client, at);
    assert forall i :: 0 <= i < |trace| ==> trace[i].at <= at by { LastIsLatest(cfg, client, lead); }
    assert Answer(cfg, After(cfg, more), e) != ReferenceAnswer(cfg, Reference(cfg, more), e);
    assert Ordered(more + [e]);
  }

  lemma LastIsLatest(cfg: Config, client: string, lead: real)
    requires Sensible(cfg) && 0.0 < lead <= cfg.ttl
    ensures forall i :: 0 <= i < |ForgetfulTrace(cfg, client, lead)| ==>
      ForgetfulTrace(cfg, client, lead)[i].at <= 2.0 * cfg.ttl
  {
  }

  /** Forgetting idle clients is invisible exactly when an idle period refills a whole bucket. */
  lemma InvisibleIff(cfg: Config)
    requires Sensible(cfg)
    ensures EvictionInvisible(cfg) <==> IdleRefills(cfg)
  {
    if !IdleRefills(cfg) {
      SlowRefillShows(cfg);
    } else {
      forall trace, e | Ordered(trace + [e])
        ensures Answer(cfg, After(cfg, trace), e) == ReferenceAnswer(cfg, Reference(cfg, trace), e)
      {
        Earlier(trace, e);
        RunsMatch(cfg, trace);
        StepKeepsMatched(cfg, After(cfg, trace), Reference(cfg, trace), Now(trace), e);
      }
    }
  }

  lemma Earlier(trace: seq<Event>, e: Event)
    requires Ordered(trace + [e])
    ensures Ordered(trace) && 0.0 <= Now(trace) <= e.at
  {
    var whole := trace + [e];
    assert forall i :: 0 <= i < |trace| ==> trace[i] == whole[i];
    assert whole[|trace|] == e;
  }

  lemma DefaultsAreInvisible()
    ensures EvictionInvisible(Config(50.0, 100, 600.0))
    ensures EvictionInvisible(Config(2.0, 10, 600.0))
    ensures EvictionInvisible(Config(10.0, 20, 600.0))
  {
    InvisibleIff(Config(50.0, 100, 600.0));
    InvisibleIff(Config(2.0, 10, 600.0));
    InvisibleIff(Config(10.0, 20, 600.0));
  }

  // ---- admissions in a window ----------------------------------------------------------

  /** How many requests of a client from position `from` on were admitted. */
  function Admitted(cfg: Config, trace: seq<Event>, client: string, from: nat): nat {
    if |trace| <= from then 0 else
      var before, e := trace[..|trace| - 1], trace[|trace| - 1];
      Admitted(cfg, before, client, from)
      + if e.Request? && e.client == client && Answer(cfg, After(cfg, before), e) then 1 else 0
  }

  lemma LevelRises(cfg: Config, b: Bucket, now: real, later: real)
    requires Sensible(cfg) && b.last <= now <= later
    ensures Level(cfg, b, later) <= Level(cfg, b, now) + Refill(cfg, later - now)
  {
    Grows(cfg, 0.0, later - now);
    Adds(cfg, now - b.last, later - now);
  }

  /** What one request hands out and leaves is at most what there was plus the refill. */
  lemma TakeConserves(cfg: Config, b: Bucket, at: real, now: real)
    requires Sensible(cfg) && b.last <= at <= now
    ensures (if Admits(cfg, b, at) then 1.0 else 0.0) + Level(cfg, Taken(cfg, b, at), now)
         <= Level(cfg, b, at) + Refill(cfg, now - at)
  {
    LevelRises(cfg, Taken(cfg, b, at), at, now);
  }

  lemma LevelBounds(cfg: Config, b: Bucket, now: real)
    requires Sensible(cfg)
    ensures Level(cfg, b, now) <= cfg.burst as real
    ensures cfg.burst >= 0 && b.tokens >= 0.0 ==> Level(cfg, b, now) >= 0.0
  {
    Grows(cfg, 0.0, if now < b.last then 0.0 else now - b.last);
  }

  lemma {:induction false} ReferenceIsSane(cfg: Config, trace: seq<Event>, client: string, now: real)
    requires Sensible(cfg) && cfg.burst >= 0 && Ordered(trace) && Now(trace) <= now && 0.0 <= now
    ensures
      var b := ReferenceBucket(cfg, Reference(cfg, trace), client);
      b.last <= now && b.tokens >= 0.0
  {
    if trace != [] {
      var before, e := trace[..|trace| - 1], trace[|trace| - 1];
      assert trace == before + [e];
      Earlier(before, e);
      ReferenceIsSane(cfg, before, client, e.at);
      LevelBounds(cfg, ReferenceBucket(cfg, Reference(cfg, before), client), e.at);
      hide Level;
    }
  }

  /** The last event of a trace, for one client's bucket and its answer. */
  lemma LastEvent(cfg: Config, before: seq<Event>, e: Event, client: string, from: nat)
    requires Sensible(cfg) && IdleRefills(cfg) && Ordered(before + [e]) && from <= |before|
    ensures
      var b := ReferenceBucket(cfg, Reference(cfg, before), client);
      var after := ReferenceBucket(cfg, Reference(cfg, before + [e]), client);
      if e.Request? && e.client == client
      then
        && after == Taken(cfg, b, e.at)
        && Admitted(cfg, before + [e], client, from)
           == Admitted(cfg, before, client, from) + if Admits(cfg, b, e.at) then 1 else 0
      else after == b && Admitted(cfg, before + [e], client, from) == Admitted(cfg, before, client, from)
  {
    InvisibleIff(cfg);
    var whole := before + [e];
    assert whole[..|whole| - 1] == before;
    hide Admits, Taken;
    assert e.Request? ==> Answer(cfg, After(cfg, before), e) == ReferenceAnswer(cfg, Reference(cfg, before), e);
  }

  /** Tokens handed out plus tokens left never exceed the burst plus the refill. */
  lemma {:induction false} TokensAreConserved(
    cfg: Config, trace: seq<Event>, client: string, from: nat, start: real, now: real)
    requires Sensible(cfg) && cfg.burst >= 0 && IdleRefills(cfg)
    requires Ordered(trace) && Now(trace) <= now && 0.0 <= start <= now && from <= |trace|
    requires forall i :: from <= i < |trace| ==> start <= trace[i].at
    ensures
      Admitted(cfg, trace, client, from) as real + Level(cfg, ReferenceBucket(cfg, Reference(cfg, trace), client), now)
      <= cfg.burst as real + Refill(cfg, now - start)
    decreases |trace|
  {
    hide Refill;
    Grows(cfg, 0.0, now - start);
    if from == |trace| {
      LevelBounds(cfg, ReferenceBucket(cfg, Reference(cfg, trace), client), now);
      assert Admitted(cfg, trace, client, from) == 0;
    } else {
      var before, e := trace[..|trace| - 1], trace[|trace| - 1];
      assert trace == before + [e];
      Earlier(before, e);
      LastEvent(cfg, before, e, client, from);
      ReferenceIsSane(cfg, before, client, e.at);
      TokensAreConserved(cfg, before, client, from, start, e.at);
      var b := ReferenceBucket(cfg, Reference(cfg, before), client);
      hide *;
      TakeConserves(cfg, b, e.at, now);
      LevelRises(cfg, b, e.at, now);
      Adds(cfg, e.at - start, now - e.at);
    }
  }

  /** In a window of length `window` a client gets at most `burst + rps * window` admissions. */
  lemma AdmissionsInWindow(cfg: Config, trace: seq<Event>, client: string, from: nat, window: real)
    requires Sensible(cfg) && cfg.burst >= 0 && IdleRefills(cfg)
    requires Ordered(trace) && from < |trace| && Now(trace) <= trace[from].at + window
    ensures Admitted(cfg, trace, client, from) as real <= cfg.burst as real + Refill(cfg, window)
  {
    var start, now := trace[from].at, Now(trace);
    assert 0.0 <= start <= now;
    assert forall i :: from <= i < |trace| ==> start <= trace[i].at;
    hide *;
    TokensAreConserved(cfg, trace, client, from, start, now);
    ReferenceIsSane(cfg, trace, client, now);
    LevelBounds(cfg, ReferenceBucket(cfg, Reference(cfg, trace), client), now);
    Grows(cfg, now - start, window);
  }

  // ---- who is remembered, and who is admitted --------------------------------------------

  /** The client's request at `i` is not yet an idle period ago, at any tick since. */
  predicate KeptSince(cfg: Config, trace: seq<Event>, client: string, i: int) {
    && 0 <= i < |trace| && trace[i].Request? && trace[i].client == client
    && forall j :: i < j < |trace| && trace[j].Tick? ==> trace[j].at - trace[i].at <= cfg.ttl
  }

  /** Its last request so far. */
  predicate LastSince(cfg: Config, trace: seq<Event>, client: string, i: int) {
    && KeptSince(cfg, trace, client, i)
    && forall j :: i < j < |trace| ==> !(trace[j].Request? && trace[j].client == client)
  }

  lemma StillLast(cfg: Config, before: seq<Event>, e: Event, client: string, i: int)
    requires LastSince(cfg, before, client, i) && !(e.Request? && e.client == client)
    requires e.Tick? ==> e.at - before[i].at <= cfg.ttl
    ensures LastSince(cfg, before + [e], client, i) && (before + [e])[i] == before[i]
  {
  }

  /** The limiter remembers when a client was last heard of. */
  lemma {:induction false} SeenIsLast(cfg: Config, trace: seq<Event>, client: string)
    requires Ordered(trace) && client in After(cfg, trace)
    ensures exists i :: LastSince(cfg, trace, client, i) && After(cfg, trace)[client].seen == trace[i].at
  {
    var n := |trace| - 1;
    var before, e := trace[..n], trace[n];
    assert trace == before + [e];
    Earlier(before, e);
    hide Taken, BucketOf;
    if e.Request? && e.client == client {
      assert LastSince(cfg, trace, client, n);
    } else {
      SeenIsLast(cfg, before, client);
      hide LastSince;
      var i :| LastSince(cfg, before, client, i) && After(cfg, before)[client].seen == before[i].at;
      StillLast(cfg, before, e, client, i);
    }
  }

  lemma {:induction false} KeptIsRemembered(cfg: Config, trace: seq<Event>, client: string, i: int)
    requires Ordered(trace) && KeptSince(cfg, trace, client, i)
    ensures client in After(cfg, trace) && After(cfg, trace)[client].seen >= trace[i].at
  {
    var n := |trace| - 1;
    var before, e := trace[..n], trace[n];
    assert trace == before + [e];
    Earlier(before, e);
    hide Taken;
    if i < n {
      assert forall j :: 0 <= j < n ==> trace[j] == before[j];
      assert KeptSince(cfg, before, client, i);
      KeptIsRemembered(cfg, before, client, i);
    }
  }

  /** A client is forgotten exactly when some tick finds its last request more than an idle period old. */
  lemma RememberedIff(cfg: Config, trace: seq<Event>, client: string)
    requires Ordered(trace)
    ensures client in After(cfg, trace) <==> exists i :: KeptSince(cfg, trace, client, i)
  {
    if client in After(cfg, trace) { SeenIsLast(cfg, trace, client); }
    if i :| KeptSince(cfg, trace, client, i) { KeptIsRemembered(cfg, trace, client, i); }
  }

  /** Of requests at one moment, as many are admitted as there are whole tokens, and no more. */
  lemma WholeTokensAreAdmitted(cfg: Config, b: Bucket, at: real, n: nat)
    requires Sensible(cfg) && b.last <= at && n as real <= Level(cfg, b, at)
    ensures Admits(cfg, TakenTimes(cfg, b, n, at), at) <==> (n + 1) as real <= Level(cfg, b, at)
  {
    TakenTimesDrains(cfg, b, n, at);
  }

  /** A client that has never asked, or not since long ago, has its whole burst at once. */
  lemma BurstIsAdmitted(cfg: Config, b: Bucket, at: real, n: nat)
    requires Sensible(cfg) && (b == Full(cfg) || FullFrom(cfg, b, at)) && b.last <= at && n <= cfg.burst
    ensures Admits(cfg, TakenTimes(cfg, b, n, at), at) <==> n < cfg.burst
  {
    Grows(cfg, 0.0, at - b.last);
    assert Level(cfg, b, at) == cfg.burst as real;
    WholeTokensAreAdmitted(cfg, b, at, n);
  }

  // ---- the limiter itself --------------------------------------------------------------

  class Limiter {
    const cfg: Config
    var clients: map<string, Client>

    constructor (cfg: Config)
      ensures this.cfg == cfg && clients == After(cfg, [])
    {
      this.cfg, clients := cfg, map[];
    }

    /** One request: find or make the client's bucket, note when it was seen, and ask for a token. */
    method Allow(ip: string, now: real) returns (ok: bool)
      modifies this
      ensures ok == Answer(cfg, old(clients), Request(ip, now))
      ensures clients == Step(cfg, old(clients), Request(ip, now))
    {
      if ip !in clients {
        clients := clients[ip := Client(Full(cfg), now)];
      }
      var bucket := clients[ip].bucket;
      ok := Level(cfg, bucket, now) - 1.0 >= 0.0;
      if ok { bucket := Bucket(Level(cfg, bucket, now) - 1.0, now); }
      clients := clients[ip := Client(bucket, now)];
    }

    /** One tick of the evictor: clients seen before the cutoff are dropped one by one. */
    method Evict(now: real)
      modifies this
      ensures clients == Step(cfg, old(clients), Tick(now))
    {
      var cutoff := now - cfg.ttl;
      var left := clients.Keys;
      while left != {}
        invariant left <= old(clients).Keys && clients.Keys <= old(clients).Keys
        invariant forall ip :: ip in left ==> ip in clients
        invariant forall ip :: ip in clients ==> clients[ip] == old(clients)[ip]
        invariant forall ip :: ip in old(clients) && ip !in left ==>
          (ip in clients <==> old(clients)[ip].seen >= cutoff)
      {
        var ip :| ip in left;
        left := left - {ip};
        if clients[ip].seen < cutoff { clients := clients - {ip}; }
      }
    }
  }
}
