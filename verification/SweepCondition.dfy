/** When the idle sweep of the rate limiter can be observed: exactly when a bucket may be swept before
    it is full again. */
module SweepCondition {
  import opened Results
  import opened RateLimiting

  /** No trace shows any difference from buckets that are never swept. */
  ghost predicate SweepInvisible(cfg: Config) {
    forall trace, r :: Monotone(trace + [r]) ==> Verdict(cfg, trace, r) == SoloVerdict(cfg, trace, r)
  }

  lemma SweepInvisibleIff(cfg: Config)
    requires cfg.Valid()
    ensures SweepInvisible(cfg) <==> cfg.RefillsBeforeSweep()
  {
    if cfg.RefillsBeforeSweep() {
      forall trace, r | Monotone(trace + [r])
        ensures Verdict(cfg, trace, r) == SoloVerdict(cfg, trace, r)
      {
        EvictionInvisible(cfg, trace, r);
      }
    } else {
      var trace, r := SweepObserved(cfg);
    }
  }

  // ----- the observing trace: drain a victim, fill the table, sweep, and ask for the victim again -----

  const GUARD := "g"
  const VICTIM := "v"

  function Repeat(r: Request, n: nat): seq<Request> {
    if n == 0 then [] else Repeat(r, n - 1) + [r]
  }

  function Filler(i: nat): string { seq(i + 1, _ => 'f') }

  function Fillers(n: nat): seq<Request> {
    if n == 0 then [] else Fillers(n - 1) + [Request(Filler(n), 0.0)]
  }

  function Drain(gap: real, n: nat): seq<Request> {
    [Request(GUARD, -gap)] + Repeat(Request(VICTIM, 0.0), n)
  }

  function Fill(cfg: Config, gap: real, n: nat): seq<Request> { Drain(gap, cfg.burst) + Fillers(n) }

  function Sweep(cfg: Config, gap: real, at: real): seq<Request> {
    Fill(cfg, gap, SWEEP_THRESHOLD) + [Request(GUARD, at)]
  }

  function Ask(cfg: Config, gap: real, at: real, n: nat): seq<Request> {
    Sweep(cfg, gap, at) + Repeat(Request(VICTIM, at), n)
  }

  lemma RunSnoc(cfg: Config, trace: seq<Request>, r: Request)
    ensures Run(cfg, trace + [r]) == Step(cfg, Run(cfg, trace), r)
  {
  }

  /** Spending one of m whole tokens at the instant the bucket was last seen. */
  lemma Spend(cfg: Config, m: nat, at: real)
    requires 1 <= m <= cfg.burst
    ensures Hit(cfg, Some(Bucket(m as real, at)), at) == (true, Bucket((m - 1) as real, at))
  {
    RefillNow(cfg, Bucket(m as real, at));
  }

  lemma RefillNow(cfg: Config, b: Bucket)
    requires b.tokens <= cfg.burst as real
    ensures Refilled(cfg, b, b.seenAt) == b.tokens
  {
  }

  lemma First(cfg: Config, at: real)
    ensures Hit(cfg, None, at) == (true, Bucket(cfg.burst as real - 1.0, at))
    ensures Run(cfg, []) == map[] && forall key :: Solo(cfg, key, []) == None
  {
  }

  /** The victim has spent n of its tokens at time zero, after the guard was first seen. */
  ghost predicate DrainedBy(cfg: Config, gap: real, n: nat, trace: seq<Request>)
    requires n <= cfg.burst
  {
    var c := Run(cfg, trace);
    && Monotone(trace) && trace != [] && trace[|trace| - 1].at <= 0.0
    && c.Keys == (if n == 0 then {GUARD} else {GUARD, VICTIM})
    && c[GUARD] == Bucket(cfg.burst as real - 1.0, -gap)
    && (n > 0 ==> c[VICTIM] == Bucket((cfg.burst - n) as real, 0.0))
    && Solo(cfg, VICTIM, trace) == Lookup(c, VICTIM)
  }

  lemma GuardSeen(cfg: Config, gap: real)
    requires cfg.Valid() && gap > 0.0
    ensures DrainedBy(cfg, gap, 0, Drain(gap, 0))
  {
  }

  lemma DrainedByOneMore(cfg: Config, gap: real, n: nat, trace: seq<Request>)
    requires cfg.Valid() && 1 <= n <= cfg.burst && DrainedBy(cfg, gap, n - 1, trace)
    ensures DrainedBy(cfg, gap, n, trace + [Request(VICTIM, 0.0)])
  {
  }

  lemma {:induction false} Drained(cfg: Config, gap: real, n: nat)
    requires cfg.Valid() && gap > 0.0 && n <= cfg.burst
    ensures DrainedBy(cfg, gap, n, Drain(gap, n))
  {
    hide DrainedBy;
    if n == 0 {
      GuardSeen(cfg, gap);
    } else {
      Drained(cfg, gap, n - 1);
      DrainedByOneMore(cfg, gap, n, Drain(gap, n - 1));
      assert Drain(gap, n) == Drain(gap, n - 1) + [Request(VICTIM, 0.0)];
    }
  }

  /** The table holds the guard, the drained victim and n others with longer keys. */
  ghost predicate FilledWith(cfg: Config, gap: real, n: nat, trace: seq<Request>)
    requires cfg.Valid()
  {
    var c := Run(cfg, trace);
    && Monotone(trace) && trace != [] && trace[|trace| - 1].at <= 0.0
    && |c| == n + 2 && (forall k :: k in c ==> |k| <= n + 1)
    && GUARD in c && c[GUARD] == Bucket(cfg.burst as real - 1.0, -gap)
    && VICTIM in c && c[VICTIM] == Bucket(0.0, 0.0)
    && Solo(cfg, VICTIM, trace) == Some(c[VICTIM])
  }

  lemma FilledByDraining(cfg: Config, gap: real)
    requires cfg.Valid() && gap > 0.0
    ensures FilledWith(cfg, gap, 0, Drain(gap, cfg.burst))
  {
    hide Run, Solo;
    Drained(cfg, gap, cfg.burst);
    var c := Run(cfg, Drain(gap, cfg.burst));
    assert |c| == |c.Keys| == 2;
  }

  lemma FilledByOneMore(cfg: Config, gap: real, n: nat, trace: seq<Request>)
    requires cfg.Valid() && n > 0 && FilledWith(cfg, gap, n - 1, trace)
    ensures FilledWith(cfg, gap, n, trace + [Request(Filler(n), 0.0)])
  {
  }

  lemma {:induction false} Filled(cfg: Config, gap: real, n: nat)
    requires cfg.Valid() && gap > 0.0
    ensures FilledWith(cfg, gap, n, Fill(cfg, gap, n))
  {
    hide FilledWith, Drain;
    if n == 0 {
      FilledByDraining(cfg, gap);
      assert Fill(cfg, gap, 0) == Drain(gap, cfg.burst);
    } else {
      Filled(cfg, gap, n - 1);
      FilledByOneMore(cfg, gap, n, Fill(cfg, gap, n - 1));
      assert Fill(cfg, gap, n) == Fill(cfg, gap, n - 1) + [Request(Filler(n), 0.0)];
    }
  }

  lemma VictimSwept(cfg: Config, gap: real, at: real)
    requires cfg.Valid() && gap > 0.0 && gap * cfg.rate == 1.0 && IDLE_SECONDS < at
    ensures var trace := Sweep(cfg, gap, at);
            && Monotone(trace) && trace[|trace| - 1].at == at
            && VICTIM !in Run(cfg, trace)
            && Solo(cfg, VICTIM, trace) == Some(Bucket(0.0, 0.0))
  {
    hide Run, Solo, Step, Fill;
    var init, r := Fill(cfg, gap, SWEEP_THRESHOLD), Request(GUARD, at);
    Filled(cfg, gap, SWEEP_THRESHOLD);
    RunSnoc(cfg, init, r);
    SoloSnoc(cfg, VICTIM, init, r);
    MonotoneExtend(init, r);
    GuardIsFull(cfg, gap, at);
    SweepDropsIdle(cfg, Run(cfg, init), r, VICTIM);
  }

  /** A request of a full bucket in an overfull table sweeps every other bucket that is idle. */
  lemma SweepDropsIdle(cfg: Config, clients: map<string, Bucket>, r: Request, key: string)
    requires cfg.Valid() && r.key in clients && Refilled(cfg, clients[r.key], r.at) == cfg.burst as real
    requires |clients| > SWEEP_THRESHOLD && key in clients && key != r.key && clients[key].seenAt < r.at - IDLE_SECONDS
    ensures key !in Step(cfg, clients, r)
  {
  }

  lemma GuardIsFull(cfg: Config, gap: real, at: real)
    requires cfg.Valid() && gap * cfg.rate == 1.0 && 0.0 < at
    ensures Refilled(cfg, Bucket(cfg.burst as real - 1.0, -gap), at) == cfg.burst as real
  {
    EarnedAdds(cfg, at, gap);
    EarnedGrows(cfg, 0.0, at);
    assert Earned(cfg, gap) == 1.0;
    assert at - (-gap) == at + gap;
    hide Earned;
  }

  /** The forgotten victim starts over with a full bucket. */
  lemma {:induction false} SharedServes(cfg: Config, gap: real, at: real, n: nat)
    requires cfg.Valid() && gap > 0.0 && gap * cfg.rate == 1.0 && IDLE_SECONDS < at && n <= cfg.burst
    ensures var trace := Ask(cfg, gap, at, n);
            && Monotone(trace + [Request(VICTIM, at)])
            && Lookup(Run(cfg, trace), VICTIM) ==
               if n == 0 then None else Some(Bucket((cfg.burst - n) as real, at))
  {
    hide Run, Hit, Sweep;
    var r := Request(VICTIM, at);
    First(cfg, at);
    if n == 0 {
      VictimSwept(cfg, gap, at);
      assert Ask(cfg, gap, at, 0) == Sweep(cfg, gap, at);
      MonotoneExtend(Sweep(cfg, gap, at), r);
    } else {
      var init := Ask(cfg, gap, at, n - 1);
      SharedServes(cfg, gap, at, n - 1);
      assert Ask(cfg, gap, at, n) == init + [r];
      RunSnoc(cfg, init, r);
      MonotoneExtend(init + [r], r);
      if n > 1 { Spend(cfg, cfg.burst - (n - 1), at); }
    }
  }

  /** The victim's own bucket has refilled only at * rate tokens and serves no more than that. */
  lemma {:induction false} SoloServes(cfg: Config, gap: real, at: real, n: nat)
    requires cfg.Valid() && gap > 0.0 && gap * cfg.rate == 1.0
    requires IDLE_SECONDS < at && at * cfg.rate < cfg.burst as real
    requires forall i: nat :: i < n ==> SoloVerdict(cfg, Ask(cfg, gap, at, i), Request(VICTIM, at))
    ensures Solo(cfg, VICTIM, Ask(cfg, gap, at, n)) ==
            Some(if n == 0 then Bucket(0.0, 0.0) else Bucket(at * cfg.rate - n as real, at))
    ensures at * cfg.rate >= n as real
  {
    hide Solo, Hit, Sweep, Run;
    var r := Request(VICTIM, at);
    if n == 0 {
      VictimSwept(cfg, gap, at);
      assert Ask(cfg, gap, at, 0) == Sweep(cfg, gap, at);
      assert 0.0 <= at * cfg.rate;
    } else {
      var init := Ask(cfg, gap, at, n - 1);
      SoloServes(cfg, gap, at, n - 1);
      assert Ask(cfg, gap, at, n) == init + [r];
      SoloSnoc(cfg, VICTIM, init, r);
      assert SoloVerdict(cfg, init, r);
      SpendRefill(cfg, n - 1, at);
    }
  }

  /** The victim's bucket after n allowed requests at time at, and one request more. */
  lemma SpendRefill(cfg: Config, n: nat, at: real)
    requires cfg.Valid() && 0.0 < at && n as real <= at * cfg.rate < cfg.burst as real
    ensures var b := if n == 0 then Bucket(0.0, 0.0) else Bucket(at * cfg.rate - n as real, at);
            var (ok, next) := Hit(cfg, Some(b), at);
            ok ==> next == Bucket(at * cfg.rate - (n + 1) as real, at) && (n + 1) as real <= at * cfg.rate
  {
    assert Earned(cfg, at - 0.0) == at * cfg.rate;
    assert Earned(cfg, at - at) == 0.0;
    hide Earned;
  }

  /** A concrete run in which the sweep changes an answer. */
  lemma SweepObserved(cfg: Config) returns (trace: seq<Request>, r: Request)
    requires cfg.Valid() && !cfg.RefillsBeforeSweep()
    ensures Monotone(trace + [r]) && Verdict(cfg, trace, r) && !SoloVerdict(cfg, trace, r)
  {
    hide Run, Solo, Ask, Hit;
    var gap, at := Times(cfg);
    r := Request(VICTIM, at);
    var n := 0;
    while n < cfg.burst && SoloVerdict(cfg, Ask(cfg, gap, at, n), r)
      invariant n <= cfg.burst
      invariant forall i: nat :: i < n ==> SoloVerdict(cfg, Ask(cfg, gap, at, i), r)
    {
      n := n + 1;
    }
    SoloServes(cfg, gap, at, n);
    SharedServes(cfg, gap, at, n);
    trace := Ask(cfg, gap, at, n);
    assert n < cfg.burst;
    ServedAfresh(cfg, trace, r, n);
  }

  lemma ServedAfresh(cfg: Config, trace: seq<Request>, r: Request, n: nat)
    requires cfg.Valid() && n < cfg.burst
    requires Lookup(Run(cfg, trace), r.key) == if n == 0 then None else Some(Bucket((cfg.burst - n) as real, r.at))
    ensures Verdict(cfg, trace, r)
  {
  }

  /** A moment after the idle limit at which a drained bucket is not yet full. */
  lemma Times(cfg: Config) returns (gap: real, at: real)
    requires cfg.Valid() && !cfg.RefillsBeforeSweep()
    ensures gap > 0.0 && gap * cfg.rate == 1.0
    ensures IDLE_SECONDS < at && at * cfg.rate < cfg.burst as real
  {
    gap := 1.0 / cfg.rate;
    var full := cfg.burst as real / cfg.rate;
    assert full * cfg.rate == cfg.burst as real;
    assert IDLE_SECONDS < full by { assert (full - IDLE_SECONDS) * cfg.rate > 0.0; }
    at := (IDLE_SECONDS + full) / 2.0;
    assert at * cfg.rate < full * cfg.rate by { assert (full - at) * cfg.rate > 0.0; }
  }

  // ----- the window bound -----

  /** In every window a key is allowed at most burst + rate * (length of the window) times. */
  ghost predicate WindowsBounded(cfg: Config) {
    forall key, before, window: seq<Request> :: Monotone(before + window) && window != [] ==>
      AllowedIn(cfg, key, before, window) as real
      <= cfg.burst as real + Earned(cfg, window[|window| - 1].at - window[0].at)
  }

  lemma WindowBoundIff(cfg: Config)
    requires cfg.Valid()
    ensures WindowsBounded(cfg) <==> cfg.RefillsBeforeSweep()
  {
    if cfg.RefillsBeforeSweep() {
      forall key, before, window: seq<Request> | Monotone(before + window) && window != []
        ensures AllowedIn(cfg, key, before, window) as real
                <= cfg.burst as real + Earned(cfg, window[|window| - 1].at - window[0].at)
      {
        WindowBound(cfg, key, before, window);
      }
    } else {
      var before, window := WindowOverdrawn(cfg);
    }
  }

  /** The observing trace without the guard's first request. */
  function FillWindow(cfg: Config, n: nat): seq<Request> { Repeat(Request(VICTIM, 0.0), cfg.burst) + Fillers(n) }

  function AskWindow(cfg: Config, at: real, n: nat): seq<Request> {
    FillWindow(cfg, SWEEP_THRESHOLD) + [Request(GUARD, at)] + Repeat(Request(VICTIM, at), n)
  }

  lemma {:induction false} AllowedWhileDraining(cfg: Config, gap: real, n: nat)
    requires cfg.Valid() && gap > 0.0 && n <= cfg.burst
    ensures AllowedIn(cfg, VICTIM, [Request(GUARD, -gap)], Repeat(Request(VICTIM, 0.0), n)) == n
  {
    hide AllowedIn, Verdict, Run, Solo;
    var v, before := Request(VICTIM, 0.0), [Request(GUARD, -gap)];
    if n == 0 {
      NothingAllowed(cfg, VICTIM, before);
    } else {
      AllowedWhileDraining(cfg, gap, n - 1);
      AllowedSnoc(cfg, VICTIM, before, Repeat(v, n - 1), v);
      Drained(cfg, gap, n - 1);
      ServedAfresh(cfg, Drain(gap, n - 1), v, n - 1);
    }
  }

  lemma {:induction false} AllowedWhileFilling(cfg: Config, gap: real, n: nat)
    requires cfg.Valid() && gap > 0.0
    ensures AllowedIn(cfg, VICTIM, [Request(GUARD, -gap)], FillWindow(cfg, n)) == cfg.burst
  {
    hide AllowedIn, Verdict;
    if n == 0 {
      AllowedWhileDraining(cfg, gap, cfg.burst);
      assert FillWindow(cfg, 0) == Repeat(Request(VICTIM, 0.0), cfg.burst);
    } else {
      AllowedWhileFilling(cfg, gap, n - 1);
      var r := Request(Filler(n), 0.0);
      assert |Filler(n)| == n + 1;
      AllowedSnoc(cfg, VICTIM, [Request(GUARD, -gap)], FillWindow(cfg, n - 1), r);
      assert FillWindow(cfg, n) == FillWindow(cfg, n - 1) + [r];
    }
  }

  lemma AskWindowIsAsk(cfg: Config, gap: real, at: real, n: nat)
    ensures [Request(GUARD, -gap)] + AskWindow(cfg, at, n) == Ask(cfg, gap, at, n)
  {
    hide Repeat, Fillers;
  }

  lemma {:induction false} AllowedWhileAsking(cfg: Config, gap: real, at: real, n: nat)
    requires cfg.Valid() && gap > 0.0 && gap * cfg.rate == 1.0 && IDLE_SECONDS < at && n <= cfg.burst
    ensures AllowedIn(cfg, VICTIM, [Request(GUARD, -gap)], AskWindow(cfg, at, n)) == cfg.burst + n
  {
    hide AllowedIn, Verdict, FillWindow, Run, Ask;
    var before, fill := [Request(GUARD, -gap)], FillWindow(cfg, SWEEP_THRESHOLD);
    if n == 0 {
      AllowedWhileFilling(cfg, gap, SWEEP_THRESHOLD);
      AllowedSnoc(cfg, VICTIM, before, fill, Request(GUARD, at));
      assert AskWindow(cfg, at, 0) == fill + [Request(GUARD, at)];
    } else {
      var v := Request(VICTIM, at);
      AllowedWhileAsking(cfg, gap, at, n - 1);
      AllowedSnoc(cfg, VICTIM, before, AskWindow(cfg, at, n - 1), v);
      assert AskWindow(cfg, at, n) == AskWindow(cfg, at, n - 1) + [v];
      AskWindowIsAsk(cfg, gap, at, n - 1);
      SharedServes(cfg, gap, at, n - 1);
      ServedAfresh(cfg, Ask(cfg, gap, at, n - 1), v, n - 1);
    }
  }

  lemma RepeatEnds(r: Request, n: nat)
    requires n > 0
    ensures |Repeat(r, n)| == n && Repeat(r, n)[0] == Repeat(r, n)[n - 1] == r
  {
    if n > 1 { RepeatEnds(r, n - 1); }
  }

  /** A window in which the victim is served twice its burst although it is too short for that. */
  lemma WindowOverdrawn(cfg: Config) returns (before: seq<Request>, window: seq<Request>)
    requires cfg.Valid() && !cfg.RefillsBeforeSweep()
    ensures Monotone(before + window) && window != []
    ensures AllowedIn(cfg, VICTIM, before, window) as real
            > cfg.burst as real + Earned(cfg, window[|window| - 1].at - window[0].at)
  {
    hide AllowedIn, Run, Ask, Repeat, Fillers;
    var gap, at := Times(cfg);
    before, window := [Request(GUARD, -gap)], AskWindow(cfg, at, cfg.burst);
    AllowedWhileAsking(cfg, gap, at, cfg.burst);
    AskWindowIsAsk(cfg, gap, at, cfg.burst);
    SharedServes(cfg, gap, at, cfg.burst);
    MonotonePrefix(Ask(cfg, gap, at, cfg.burst), Request(VICTIM, at));
    RepeatEnds(Request(VICTIM, 0.0), cfg.burst);
    RepeatEnds(Request(VICTIM, at), cfg.burst);
    assert window[0] == Request(VICTIM, 0.0) && window[|window| - 1] == Request(VICTIM, at);
    assert at - 0.0 == at;
  }
}
