/** The token-bucket limiter of the HTTP layer: one bucket per client key, refilled lazily when the
    key is seen, and a sweep that drops idle buckets. Times and token counts are exact reals. */
module RateLimiting {
  import opened Results

  /** Seconds after which an untouched bucket may be swept away. */
  const IDLE_SECONDS: real := 600.0

  /** The sweep runs only while more than this many buckets are stored. */
  const SWEEP_THRESHOLD: nat := 10000

  datatype Bucket = Bucket(tokens: real, seenAt: real)

  datatype Request = Request(key: string, at: real)

  datatype Config = Config(rate: real, burst: nat) {
    /** What the constructor guarantees. */
    ghost predicate Valid() { rate > 0.0 && burst >= 1 }

    /** An idle bucket is full again before it may be swept. */
    ghost predicate RefillsBeforeSweep() { rate * IDLE_SECONDS >= burst as real }
  }

  // ----- one bucket -----

  function Min(x: real, y: real): real { if x < y then x else y }

  /** Tokens refilled in a span of time. */
  function Earned(cfg: Config, elapsed: real): real { elapsed * cfg.rate }

  lemma EarnedGrows(cfg: Config, x: real, y: real)
    requires cfg.Valid() && x <= y
    ensures Earned(cfg, x) <= Earned(cfg, y) && Earned(cfg, 0.0) == 0.0
  {
    EarnedAdds(cfg, x, y - x);
    assert 0.0 <= (y - x) * cfg.rate;
    assert 0.0 * cfg.rate == 0.0;
  }

  lemma EarnedAdds(cfg: Config, x: real, y: real)
    ensures Earned(cfg, x + y) == Earned(cfg, x) + Earned(cfg, y)
  {
    assert (x + y) * cfg.rate == x * cfg.rate + y * cfg.rate;
  }

  function Refilled(cfg: Config, b: Bucket, now: real): real {
    Min(cfg.burst as real, b.tokens + Earned(cfg, now - b.seenAt))
  }

  /** One request against one bucket: the verdict and the bucket afterwards. */
  function Hit(cfg: Config, b: Option<Bucket>, now: real): (bool, Bucket) {
    match b
    case None => (true, Bucket(cfg.burst as real - 1.0, now))
    case Some(bucket) =>
      var tokens := Refilled(cfg, bucket, now);
      if tokens < 1.0 then (false, Bucket(tokens, now)) else (true, Bucket(tokens - 1.0, now))
  }

  // ----- the shared table -----

  function Lookup(clients: map<string, Bucket>, key: string): Option<Bucket> {
    if key in clients then Some(clients[key]) else None
  }

  /** The buckets that a sweep at time now keeps. */
  function Swept(clients: map<string, Bucket>, now: real): map<string, Bucket> {
    map k | k in clients && !(clients[k].seenAt < now - IDLE_SECONDS) :: clients[k]
  }

  function Allowed(cfg: Config, clients: map<string, Bucket>, r: Request): bool {
    Hit(cfg, Lookup(clients, r.key), r.at).0
  }

  /** The table after a request. A new key and a denied request return before the sweep. */
  function Step(cfg: Config, clients: map<string, Bucket>, r: Request): map<string, Bucket> {
    var (ok, b) := Hit(cfg, Lookup(clients, r.key), r.at);
    var next := clients[r.key := b];
    if r.key in clients && ok && |next| > SWEEP_THRESHOLD then Swept(next, r.at) else next
  }

  /** The sweep comes with an allowed request of a known key while more than ten thousand buckets are stored, and
      takes those untouched for more than ten minutes. */
  lemma SweepsOnly(cfg: Config, clients: map<string, Bucket>, r: Request)
    ensures forall k :: k in clients && k != r.key ==>
              && (k !in Step(cfg, clients, r) <==>
                    && Allowed(cfg, clients, r) && r.key in clients && |clients| > 10000
                    && clients[k].seenAt < r.at - 600.0)
              && (k in Step(cfg, clients, r) ==> Step(cfg, clients, r)[k] == clients[k])
  {
    hide Hit;
    var next := clients[r.key := Hit(cfg, Lookup(clients, r.key), r.at).1];
    if r.key in clients {
      assert next.Keys == clients.Keys;
      assert |next| == |next.Keys| && |clients| == |clients.Keys|;
    }
  }

  /** The limiter object: rate, burst and the table of buckets, updated in place. */
  class RateLimiter {
    const cfg: Config
    var clients: map<string, Bucket>

    /** Zero or negative settings fall back to 20 requests a second and three seconds' worth of burst. */
    constructor (rate: real, burst: int)
      ensures cfg.Valid()
      ensures cfg.rate == if rate <= 0.0 then 20.0 else rate
      ensures burst > 0 ==> cfg.burst == burst
      ensures burst <= 0 ==> cfg.burst as real - 1.0 < cfg.rate * 3.0 <= cfg.burst as real
      ensures clients == map[]
    {
      var r := if rate <= 0.0 then 20.0 else rate;
      var b := if burst <= 0 then -((-(r * 3.0)).Floor) else burst;
      cfg := Config(r, b);
      clients := map[];
    }

    method Allow(key: string, now: real) returns (ok: bool)
      modifies this
      ensures ok == Allowed(cfg, old(clients), Request(key, now))
      ensures clients == Step(cfg, old(clients), Request(key, now))
      ensures forall k :: k in old(clients) && k != key ==>
                && (k !in clients <==> ok && key in old(clients) && |old(clients)| > 10000
                                       && old(clients)[k].seenAt < now - 600.0)
                && (k in clients ==> clients[k] == old(clients)[k])
    {
      SweepsOnly(cfg, clients, Request(key, now));
      if key !in clients {
        clients := clients[key := Bucket(cfg.burst as real - 1.0, now)];
        return true;
      }
      var client := clients[key];
      var elapsed := now - client.seenAt;
      var tokens := Min(cfg.burst as real, client.tokens + elapsed * cfg.rate);
      assert tokens == Refilled(cfg, client, now);
      clients := clients[key := Bucket(tokens, now)];
      if tokens < 1.0 {
        return false;
      }
      clients := clients[key := Bucket(tokens - 1.0, now)];
      assert clients == old(clients)[key := Bucket(tokens - 1.0, now)];
      if |clients| > SWEEP_THRESHOLD {
        ghost var before := clients;
        var cutoff := now - IDLE_SECONDS;
        var todo := clients.Keys;
        while todo != {}
          invariant todo <= clients.Keys <= before.Keys
          invariant forall k :: k in clients ==> clients[k] == before[k]
          invariant forall k :: k in before && k !in todo ==> (k in clients <==> !(before[k].seenAt < cutoff))
          decreases todo
        {
          var k :| k in todo;
          todo := todo - {k};
          if clients[k].seenAt < cutoff {
            clients := clients - {k};
          }
        }
        assert clients == Swept(before, now);
      }
      return true;
    }
  }

  // ----- traces -----

  /** The table after a whole trace, starting empty. */
  function Run(cfg: Config, trace: seq<Request>): map<string, Bucket> {
    if trace == [] then map[] else Step(cfg, Run(cfg, trace[..|trace| - 1]), trace[|trace| - 1])
  }

  /** The limiter's answer to r after trace. */
  function Verdict(cfg: Config, trace: seq<Request>, r: Request): bool {
    Allowed(cfg, Run(cfg, trace), r)
  }

  /** The reference: a bucket that belongs to one key alone and is never swept. */
  function Solo(cfg: Config, key: string, trace: seq<Request>): Option<Bucket> {
    if trace == [] then None
    else
      var before := Solo(cfg, key, trace[..|trace| - 1]);
      var last := trace[|trace| - 1];
      if last.key == key then Some(Hit(cfg, before, last.at).1) else before
  }

  function SoloVerdict(cfg: Config, trace: seq<Request>, r: Request): bool {
    Hit(cfg, Solo(cfg, r.key, trace), r.at).0
  }

  ghost predicate Monotone(trace: seq<Request>) {
    forall i, j :: 0 <= i < j < |trace| ==> trace[i].at <= trace[j].at
  }

  /** Tokens stay within [0, burst], and a bucket was last seen no later than the newest request. */
  lemma {:induction false} SoloBounds(cfg: Config, key: string, trace: seq<Request>)
    requires cfg.Valid() && Monotone(trace)
    ensures Solo(cfg, key, trace).Some? ==>
              && trace != []
              && 0.0 <= Solo(cfg, key, trace).value.tokens <= cfg.burst as real
              && Solo(cfg, key, trace).value.seenAt <= trace[|trace| - 1].at
  {
    if trace != [] {
      var init := trace[..|trace| - 1];
      SoloBounds(cfg, key, init);
      var before, last := Solo(cfg, key, init), trace[|trace| - 1];
      if before.Some? {
        assert init[|init| - 1].at <= last.at;
        RefillNonNegative(cfg, before.value, last.at);
      }
    }
  }

  lemma RefillNonNegative(cfg: Config, b: Bucket, now: real)
    requires cfg.Valid() && 0.0 <= b.tokens && b.seenAt <= now
    ensures 0.0 <= Refilled(cfg, b, now) <= cfg.burst as real
    ensures Min(cfg.burst as real, b.tokens) <= Refilled(cfg, b, now)
  {
    EarnedGrows(cfg, 0.0, now - b.seenAt);
    hide Earned;
  }

  /** A bucket idle for longer than the sweep limit is full again. */
  lemma IdleBucketIsFull(cfg: Config, b: Bucket, now: real)
    requires cfg.Valid() && cfg.RefillsBeforeSweep()
    requires 0.0 <= b.tokens && b.seenAt + IDLE_SECONDS <= now
    ensures Refilled(cfg, b, now) == cfg.burst as real
  {
    assert Earned(cfg, IDLE_SECONDS) >= cfg.burst as real;
    EarnedGrows(cfg, IDLE_SECONDS, now - b.seenAt);
    hide Earned;
  }

  /** Every stored bucket is the key's own bucket; a missing one is either unused or long idle. */
  lemma {:induction false} SharedMatchesSolo(cfg: Config, trace: seq<Request>, key: string)
    requires cfg.Valid() && cfg.RefillsBeforeSweep() && Monotone(trace)
    ensures var shared, solo := Run(cfg, trace), Solo(cfg, key, trace);
            && (key in shared ==> solo == Some(shared[key]))
            && (key !in shared && solo.Some? ==>
                  trace != [] && solo.value.seenAt + IDLE_SECONDS < trace[|trace| - 1].at)
  {
    if trace != [] {
      var init, last := trace[..|trace| - 1], trace[|trace| - 1];
      SharedMatchesSolo(cfg, init, key);
      SoloBounds(cfg, key, init);
      if init != [] { assert init[|init| - 1].at <= last.at; }
      var shared, solo := Run(cfg, init), Solo(cfg, key, init);
      if last.key == key && key !in shared && solo.Some? {
        IdleBucketIsFull(cfg, solo.value, last.at);
      }
    }
  }

  /** Keys cannot influence each other and the sweep is invisible. */
  lemma EvictionInvisible(cfg: Config, trace: seq<Request>, r: Request)
    requires cfg.Valid() && cfg.RefillsBeforeSweep() && Monotone(trace + [r])
    ensures Verdict(cfg, trace, r) == SoloVerdict(cfg, trace, r)
  {
    assert Monotone(trace) by { assert forall i :: 0 <= i < |trace| ==> trace[i] == (trace + [r])[i]; }
    SharedMatchesSolo(cfg, trace, r.key);
    SoloBounds(cfg, r.key, trace);
    var solo := Solo(cfg, r.key, trace);
    if r.key !in Run(cfg, trace) && solo.Some? {
      assert (trace + [r])[|trace| - 1].at <= (trace + [r])[|trace|].at;
      IdleBucketIsFull(cfg, solo.value, r.at);
    }
  }

  // ----- denied requests -----

  /** The allowed requests of a trace, in order: the trace with every denied request erased. */
  function Kept(cfg: Config, trace: seq<Request>): seq<Request> {
    if trace == [] then []
    else
      var init, last := trace[..|trace| - 1], trace[|trace| - 1];
      Kept(cfg, init) + if Verdict(cfg, init, last) then [last] else []
  }

  /** Refilling in two stages is the same as refilling once. */
  lemma RefillCompose(cfg: Config, b: Bucket, mid: real, now: real)
    requires cfg.Valid() && b.seenAt <= mid <= now
    ensures Refilled(cfg, Bucket(Refilled(cfg, b, mid), mid), now) == Refilled(cfg, b, now)
  {
    EarnedAdds(cfg, mid - b.seenAt, now - mid);
    EarnedGrows(cfg, 0.0, now - mid);
    hide Earned;
    assert (mid - b.seenAt) + (now - mid) == now - b.seenAt;
  }

  lemma MonotonePrefix(trace: seq<Request>, r: Request)
    requires Monotone(trace + [r])
    ensures Monotone(trace)
    ensures trace != [] ==> trace[|trace| - 1].at <= r.at
  {
    var all := trace + [r];
    assert forall i :: 0 <= i < |trace| ==> trace[i] == all[i];
    if trace != [] { assert all[|trace| - 1].at <= all[|trace|].at; }
  }

  /** kept is an earlier snapshot that refills to the same level as full. */
  ghost predicate CatchesUp(cfg: Config, full: Option<Bucket>, kept: Option<Bucket>) {
    && full.Some? == kept.Some?
    && (full.Some? ==>
          && kept.value.seenAt <= full.value.seenAt
          && full.value.tokens == Refilled(cfg, kept.value, full.value.seenAt))
  }

  /** Both snapshots answer the next request alike, and a denied one need not be replayed on kept. */
  lemma CatchesUpHit(cfg: Config, full: Option<Bucket>, kept: Option<Bucket>, now: real)
    requires cfg.Valid() && CatchesUp(cfg, full, kept)
    requires full.Some? ==> full.value.seenAt <= now
    ensures Hit(cfg, full, now).0 == Hit(cfg, kept, now).0
    ensures Hit(cfg, full, now).0 ==> CatchesUp(cfg, Some(Hit(cfg, full, now).1), Some(Hit(cfg, kept, now).1))
    ensures !Hit(cfg, full, now).0 ==> CatchesUp(cfg, Some(Hit(cfg, full, now).1), kept)
  {
    if full.Some? {
      RefillCompose(cfg, kept.value, full.value.seenAt, now);
    }
  }

  lemma SoloSnoc(cfg: Config, key: string, trace: seq<Request>, r: Request)
    ensures Solo(cfg, key, trace + [r]) ==
            if r.key == key then Some(Hit(cfg, Solo(cfg, key, trace), r.at).1) else Solo(cfg, key, trace)
  {
  }

  lemma KeptSnoc(cfg: Config, trace: seq<Request>, r: Request)
    ensures Kept(cfg, trace + [r]) == if Verdict(cfg, trace, r) then Kept(cfg, trace) + [r] else Kept(cfg, trace)
  {
  }

  /** After erasure each key's bucket refills to the same level as before. */
  lemma {:induction false} ErasedBucketCatchesUp(cfg: Config, trace: seq<Request>, key: string)
    requires cfg.Valid() && cfg.RefillsBeforeSweep() && Monotone(trace)
    ensures CatchesUp(cfg, Solo(cfg, key, trace), Solo(cfg, key, Kept(cfg, trace)))
  {
    hide Solo, Allowed, Run, Hit, Refilled;
    if trace == [] {
      assert CatchesUp(cfg, Solo(cfg, key, trace), Solo(cfg, key, [])) by { EmptyTrace(cfg, key); }
    } else {
      var init, last := trace[..|trace| - 1], trace[|trace| - 1];
      assert trace == init + [last];
      MonotonePrefix(init, last);
      ErasedBucketCatchesUp(cfg, init, key);
      EvictionInvisible(cfg, init, last);
      SoloBounds(cfg, key, init);
      SoloSnoc(cfg, key, init, last);
      SoloSnoc(cfg, key, Kept(cfg, init), last);
      KeptSnoc(cfg, init, last);
      assert SoloVerdict(cfg, init, last) == Hit(cfg, Solo(cfg, last.key, init), last.at).0;
      CatchesUpHit(cfg, Solo(cfg, key, init), Solo(cfg, key, Kept(cfg, init)), last.at);
    }
  }

  lemma EmptyTrace(cfg: Config, key: string)
    ensures Solo(cfg, key, []).None?
  {
  }

  lemma MonotoneExtend(trace: seq<Request>, r: Request)
    requires Monotone(trace) && (trace != [] ==> trace[|trace| - 1].at <= r.at)
    ensures Monotone(trace + [r])
  {
  }

  lemma {:induction false} KeptIsMonotone(cfg: Config, trace: seq<Request>)
    requires Monotone(trace)
    ensures Monotone(Kept(cfg, trace))
    ensures Kept(cfg, trace) != [] ==>
              trace != [] && Kept(cfg, trace)[|Kept(cfg, trace)| - 1].at <= trace[|trace| - 1].at
  {
    if trace != [] {
      hide Verdict;
      var init, last := trace[..|trace| - 1], trace[|trace| - 1];
      assert trace == init + [last];
      MonotonePrefix(init, last);
      KeptIsMonotone(cfg, init);
      MonotoneExtend(Kept(cfg, init), last);
    }
  }

  lemma KeptExtends(cfg: Config, trace: seq<Request>, r: Request)
    requires Monotone(trace + [r])
    ensures Monotone(Kept(cfg, trace) + [r])
  {
    MonotonePrefix(trace, r);
    KeptIsMonotone(cfg, trace);
    MonotoneExtend(Kept(cfg, trace), r);
  }

  /** Erasing the denied requests changes no later answer: polling while limited costs nothing. */
  lemma DeniedRequestsAreInvisible(cfg: Config, trace: seq<Request>, r: Request)
    requires cfg.Valid() && cfg.RefillsBeforeSweep() && Monotone(trace + [r])
    ensures Verdict(cfg, Kept(cfg, trace), r) == Verdict(cfg, trace, r)
  {
    MonotonePrefix(trace, r);
    KeptExtends(cfg, trace, r);
    EvictionInvisible(cfg, trace, r);
    EvictionInvisible(cfg, Kept(cfg, trace), r);
    ErasedBucketCatchesUp(cfg, trace, r.key);
    SoloBounds(cfg, r.key, trace);
    var full, kept := Solo(cfg, r.key, trace), Solo(cfg, r.key, Kept(cfg, trace));
    if full.Some? {
      RefillCompose(cfg, kept.value, full.value.seenAt, r.at);
    }
  }

  lemma NothingKept(cfg: Config)
    ensures Kept(cfg, []) == []
  {
  }

  /** In the erased trace every request is allowed. */
  lemma {:induction false} ErasedTraceIsAllAllowed(cfg: Config, trace: seq<Request>)
    requires cfg.Valid() && cfg.RefillsBeforeSweep() && Monotone(trace)
    ensures Kept(cfg, Kept(cfg, trace)) == Kept(cfg, trace)
  {
    hide Verdict, Kept;
    if trace == [] {
      assert Kept(cfg, []) == [] by { NothingKept(cfg); }
    } else {
      var init, last := trace[..|trace| - 1], trace[|trace| - 1];
      assert trace == init + [last];
      MonotonePrefix(init, last);
      ErasedTraceIsAllAllowed(cfg, init);
      DeniedRequestsAreInvisible(cfg, init, last);
      KeptSnoc(cfg, init, last);
      KeptSnoc(cfg, Kept(cfg, init), last);
    }
  }

  /** The stored bucket b of a key has refilled at least since request k. */
  ghost predicate RefilledSince(cfg: Config, b: Bucket, k: Request) {
    && 0.0 <= b.tokens && k.at <= b.seenAt
    && Min(cfg.burst as real, Earned(cfg, b.seenAt - k.at)) <= b.tokens
  }

  lemma JustAllowed(cfg: Config, b: Option<Bucket>, r: Request)
    requires cfg.Valid() && Hit(cfg, b, r.at).0
    ensures RefilledSince(cfg, Hit(cfg, b, r.at).1, r) && Hit(cfg, b, r.at).1.seenAt == r.at
  {
    EarnedGrows(cfg, 0.0, 0.0);
    hide Earned;
    assert r.at - r.at == 0.0;
  }

  lemma RefillsOn(cfg: Config, b: Bucket, k: Request, now: real)
    requires cfg.Valid() && RefilledSince(cfg, b, k) && b.seenAt <= now
    ensures RefilledSince(cfg, Bucket(Refilled(cfg, b, now), now), k)
  {
    EarnedAdds(cfg, b.seenAt - k.at, now - b.seenAt);
    EarnedGrows(cfg, 0.0, now - b.seenAt);
    hide Earned;
    assert (b.seenAt - k.at) + (now - b.seenAt) == now - k.at;
  }

  lemma NothingStored(cfg: Config)
    ensures Run(cfg, []) == map[]
  {
  }

  /** A bucket that is stored after a request is the one its key has then, swept or not. */
  lemma StoredAfter(cfg: Config, trace: seq<Request>, r: Request, key: string)
    requires key in Run(cfg, trace + [r])
    ensures if r.key == key then Run(cfg, trace + [r])[key] == Hit(cfg, Lookup(Run(cfg, trace), key), r.at).1
            else key in Run(cfg, trace) && Run(cfg, trace + [r])[key] == Run(cfg, trace)[key]
  {
    assert (trace + [r])[..|trace|] == trace;
    hide Hit;
  }

  /** Whatever is swept, a stored bucket has refilled since some allowed request of its key. */
  lemma {:induction false} StoredSinceAllowed(cfg: Config, trace: seq<Request>, key: string) returns (k: Request)
    requires cfg.Valid() && Monotone(trace) && key in Run(cfg, trace)
    ensures k in Kept(cfg, trace) && k.key == key && RefilledSince(cfg, Run(cfg, trace)[key], k)
    ensures trace != [] && Run(cfg, trace)[key].seenAt <= trace[|trace| - 1].at
  {
    hide Run, Hit, Refilled, RefilledSince, Earned;
    NothingStored(cfg);
    var init, last := trace[..|trace| - 1], trace[|trace| - 1];
    assert trace == init + [last];
    MonotonePrefix(init, last);
    StoredAfter(cfg, init, last, key);
    KeptSnoc(cfg, init, last);
    hide Kept;
    var before := Lookup(Run(cfg, init), key);
    if last.key == key && Verdict(cfg, init, last) {
      k := last;
      JustAllowed(cfg, before, last);
    } else {
      DenialRefills(cfg, before, last.at);
      k := StoredSinceAllowed(cfg, init, key);
      if last.key == key { RefillsOn(cfg, before.value, k, last.at); }
    }
  }

  lemma DenialRefills(cfg: Config, b: Option<Bucket>, now: real)
    ensures !Hit(cfg, b, now).0 ==> b.Some? && Hit(cfg, b, now).1 == Bucket(Refilled(cfg, b.value, now), now)
  {
  }

  /** A gap of 1/rate since the key's last allowed request earns an allowance, however often the key
      was denied in between and whatever has been swept. */
  lemma GapEarnsAllowance(cfg: Config, trace: seq<Request>, r: Request)
    requires cfg.Valid() && Monotone(trace + [r])
    requires forall k :: k in Kept(cfg, trace) && k.key == r.key ==> Earned(cfg, r.at - k.at) >= 1.0
    ensures Verdict(cfg, trace, r)
  {
    hide Run, Kept, Earned;
    if r.key in Run(cfg, trace) {
      MonotonePrefix(trace, r);
      var k := StoredSinceAllowed(cfg, trace, r.key);
      RefillsOn(cfg, Run(cfg, trace)[r.key], k, r.at);
    }
  }

  // ----- throughput -----

  /** Requests of one key that are allowed in window, when the limiter has seen before already. */
  function AllowedIn(cfg: Config, key: string, before: seq<Request>, window: seq<Request>): nat {
    if window == [] then 0
    else
      var init, last := window[..|window| - 1], window[|window| - 1];
      AllowedIn(cfg, key, before, init)
      + if last.key == key && Verdict(cfg, before + init, last) then 1 else 0
  }

  /** Allowances so far plus tokens left stay within burst plus what the time since start has refilled. */
  ghost predicate WithinBudget(cfg: Config, n: nat, b: Option<Bucket>, start: real) {
    n == 0 || (b.Some? && start <= b.value.seenAt
               && n as real + b.value.tokens <= cfg.burst as real + Earned(cfg, b.value.seenAt - start))
  }

  lemma BudgetHit(cfg: Config, n: nat, b: Option<Bucket>, start: real, now: real)
    requires cfg.Valid() && WithinBudget(cfg, n, b, start) && start <= now
    requires b.Some? ==> b.value.seenAt <= now
    ensures var (ok, next) := Hit(cfg, b, now);
            WithinBudget(cfg, if ok then n + 1 else n, Some(next), start)
  {
    EarnedGrows(cfg, 0.0, now - start);
    if b.Some? {
      EarnedAdds(cfg, b.value.seenAt - start, now - b.value.seenAt);
      assert (b.value.seenAt - start) + (now - b.value.seenAt) == now - start;
    }
    hide Earned;
  }

  lemma AllowedSnoc(cfg: Config, key: string, before: seq<Request>, window: seq<Request>, r: Request)
    ensures AllowedIn(cfg, key, before, window + [r])
            == AllowedIn(cfg, key, before, window) + if r.key == key && Verdict(cfg, before + window, r) then 1 else 0
  {
    assert (window + [r])[..|window|] == window;
  }

  /** One more request of the window. */
  lemma BudgetSnoc(cfg: Config, key: string, before: seq<Request>, window: seq<Request>, r: Request, start: real)
    requires cfg.Valid() && cfg.RefillsBeforeSweep() && Monotone(before + window + [r]) && start <= r.at
    requires WithinBudget(cfg, AllowedIn(cfg, key, before, window), Solo(cfg, key, before + window), start)
    ensures WithinBudget(cfg, AllowedIn(cfg, key, before, window + [r]), Solo(cfg, key, before + window + [r]), start)
  {
    hide Verdict, Solo, Hit, WithinBudget, AllowedIn, Monotone;
    var trace := before + window;
    MonotonePrefix(trace, r);
    EvictionInvisible(cfg, trace, r);
    SoloBounds(cfg, key, trace);
    SoloSnoc(cfg, key, trace, r);
    AllowedSnoc(cfg, key, before, window, r);
    BudgetHit(cfg, AllowedIn(cfg, key, before, window), Solo(cfg, key, trace), start, r.at);
  }

  lemma {:induction false} Budget(cfg: Config, key: string, before: seq<Request>, window: seq<Request>)
    requires cfg.Valid() && cfg.RefillsBeforeSweep() && Monotone(before + window) && window != []
    ensures WithinBudget(cfg, AllowedIn(cfg, key, before, window), Solo(cfg, key, before + window), window[0].at)
  {
    hide Solo, WithinBudget, AllowedIn;
    var init, last := window[..|window| - 1], window[|window| - 1];
    assert window == init + [last] && before + window == before + init + [last];
    assert window[0].at <= last.at by {
      assert (before + window)[|before|] == window[0] && (before + window)[|before + window| - 1] == last;
    }
    MonotonePrefix(before + init, last);
    hide Monotone;
    if init == [] {
      NothingAllowed(cfg, key, before);
      NothingSpent(cfg, Solo(cfg, key, before + init), window[0].at);
    } else {
      Budget(cfg, key, before, init);
    }
    BudgetSnoc(cfg, key, before, init, last, window[0].at);
  }

  lemma NothingAllowed(cfg: Config, key: string, before: seq<Request>)
    ensures AllowedIn(cfg, key, before, []) == 0
  {
  }

  lemma NothingSpent(cfg: Config, b: Option<Bucket>, start: real)
    ensures WithinBudget(cfg, 0, b, start)
  {
  }

  lemma WindowArithmetic(cfg: Config, n: real, tokens: real, start: real, seenAt: real, end: real)
    requires cfg.Valid() && 0.0 <= tokens && start <= seenAt <= end
    requires n + tokens <= cfg.burst as real + Earned(cfg, seenAt - start)
    ensures n <= cfg.burst as real + Earned(cfg, end - start)
  {
    EarnedGrows(cfg, seenAt - start, end - start);
    hide Earned;
  }

  /** In any window of any trace a key is allowed at most burst + rate * (length of the window) times. */
  lemma WindowBound(cfg: Config, key: string, before: seq<Request>, window: seq<Request>)
    requires cfg.Valid() && cfg.RefillsBeforeSweep() && Monotone(before + window) && window != []
    ensures AllowedIn(cfg, key, before, window) as real
            <= cfg.burst as real + Earned(cfg, window[|window| - 1].at - window[0].at)
  {
    hide Solo, Run, Allowed, AllowedIn, Earned;
    var all, start, end := before + window, window[0].at, window[|window| - 1].at;
    Budget(cfg, key, before, window);
    SoloBounds(cfg, key, all);
    assert start <= end by { assert all[|before|] == window[0] && all[|all| - 1] == window[|window| - 1]; }
    var n, solo := AllowedIn(cfg, key, before, window), Solo(cfg, key, all);
    if n != 0 {
      WindowArithmetic(cfg, n as real, solo.value.tokens, start, solo.value.seenAt, end);
    } else {
      EarnedGrows(cfg, 0.0, 0.0);
      WindowArithmetic(cfg, 0.0, 0.0, start, start, end);
    }
  }
}
