/** When denied requests leave no trace: under the same condition as for the sweep. Polling keeps a bucket
    from being swept, so without the polling its key may start afresh. */
module DenialCondition {
  import opened Results
  import opened RateLimiting
  import opened SweepCondition

  /** Erasing the denied requests of any trace changes no later verdict. */
  ghost predicate DenialsInvisible(cfg: Config) {
    forall trace, r :: Monotone(trace + [r]) ==> Verdict(cfg, Kept(cfg, trace), r) == Verdict(cfg, trace, r)
  }

  lemma DenialsInvisibleIff(cfg: Config)
    requires cfg.Valid()
    ensures DenialsInvisible(cfg) <==> cfg.RefillsBeforeSweep()
  {
    if cfg.RefillsBeforeSweep() {
      forall trace, r | Monotone(trace + [r]) ensures Verdict(cfg, Kept(cfg, trace), r) == Verdict(cfg, trace, r) {
        DeniedRequestsAreInvisible(cfg, trace, r);
      }
    } else {
      var trace, r := DenialObserved(cfg);
    }
  }

  // ----- the observing trace: as for the sweep, but the drained victim polls once in vain -----

  function Poll(cfg: Config, gap: real, early: real): seq<Request> {
    Fill(cfg, gap, SWEEP_THRESHOLD) + [Request(VICTIM, early)]
  }

  function PollAndAsk(cfg: Config, gap: real, early: real, at: real, n: nat): seq<Request> {
    Poll(cfg, gap, early) + [Request(GUARD, at)] + Repeat(Request(VICTIM, at), n)
  }

  /** A poll that earns no token yet, and the latest moment at which it still prevents the sweep. */
  ghost predicate WellTimed(cfg: Config, gap: real, early: real, at: real) {
    && gap > 0.0 && gap * cfg.rate == 1.0 && early > 0.0 && Earned(cfg, early) < 1.0
    && at == IDLE_SECONDS + early && Earned(cfg, at) < cfg.burst as real
  }

  lemma PollTimes(cfg: Config) returns (gap: real, early: real, at: real)
    requires cfg.Valid() && !cfg.RefillsBeforeSweep()
    ensures WellTimed(cfg, gap, early, at)
  {
    var latest;
    gap, latest := Times(cfg);
    early := Min(gap, latest - IDLE_SECONDS) / 2.0;
    at := IDLE_SECONDS + early;
    assert (gap - early) * cfg.rate > 0.0;
    assert (latest - at) * cfg.rate > 0.0;
  }

  // ----- what is erased -----

  lemma {:induction false} DrainIsKept(cfg: Config, gap: real, n: nat)
    requires cfg.Valid() && gap > 0.0 && n <= cfg.burst
    ensures Kept(cfg, Drain(gap, n)) == Drain(gap, n)
  {
    hide Kept, Verdict, Run, Solo, Drain;
    if n == 0 {
      NothingKept(cfg);
      First(cfg, -gap);
      KeptSnoc(cfg, [], Request(GUARD, -gap));
      FreshKeyIsServed(cfg, [], Request(GUARD, -gap));
      assert Drain(gap, 0) == [] + [Request(GUARD, -gap)] by { DrainStarts(gap); }
    } else {
      var v := Request(VICTIM, 0.0);
      DrainIsKept(cfg, gap, n - 1);
      DrainGoesOn(gap, n);
      KeptSnoc(cfg, Drain(gap, n - 1), v);
      Drained(cfg, gap, n - 1);
      ServedAfresh(cfg, Drain(gap, n - 1), v, n - 1);
    }
  }

  lemma DrainStarts(gap: real)
    ensures Drain(gap, 0) == [Request(GUARD, -gap)]
  {
  }

  lemma DrainGoesOn(gap: real, n: nat)
    requires n > 0
    ensures Drain(gap, n) == Drain(gap, n - 1) + [Request(VICTIM, 0.0)]
  {
  }

  lemma FreshKeyIsServed(cfg: Config, trace: seq<Request>, r: Request)
    requires r.key !in Run(cfg, trace)
    ensures Verdict(cfg, trace, r)
  {
  }

  lemma {:induction false} FillIsKept(cfg: Config, gap: real, n: nat)
    requires cfg.Valid() && gap > 0.0
    ensures Kept(cfg, Fill(cfg, gap, n)) == Fill(cfg, gap, n)
  {
    hide Kept, Verdict, Run, Solo, Drain;
    if n == 0 {
      DrainIsKept(cfg, gap, cfg.burst);
      assert Fill(cfg, gap, 0) == Drain(gap, cfg.burst);
    } else {
      var r := Request(Filler(n), 0.0);
      FillIsKept(cfg, gap, n - 1);
      assert Fill(cfg, gap, n) == Fill(cfg, gap, n - 1) + [r];
      KeptSnoc(cfg, Fill(cfg, gap, n - 1), r);
      Filled(cfg, gap, n - 1);
      assert |Filler(n)| == n + 1;
      FreshKeyIsServed(cfg, Fill(cfg, gap, n - 1), r);
    }
  }

  // ----- the poll -----

  /** The poll is denied and leaves the victim's bucket seen more recently. */
  lemma PollIsDenied(cfg: Config, gap: real, early: real, at: real)
    requires cfg.Valid() && WellTimed(cfg, gap, early, at)
    ensures var init, c := Fill(cfg, gap, SWEEP_THRESHOLD), Run(cfg, Poll(cfg, gap, early));
            && Monotone(Poll(cfg, gap, early)) && !Verdict(cfg, init, Request(VICTIM, early))
            && |c| > SWEEP_THRESHOLD && VICTIM in c && c[VICTIM] == Bucket(Earned(cfg, early), early)
            && GUARD in c && c[GUARD] == Bucket(cfg.burst as real - 1.0, -gap)
  {
    hide Run, Solo, Fill, Earned;
    var init, v := Fill(cfg, gap, SWEEP_THRESHOLD), Request(VICTIM, early);
    Filled(cfg, gap, SWEEP_THRESHOLD);
    MonotoneExtend(init, v);
    RunSnoc(cfg, init, v);
    assert early - 0.0 == early;
    var before, c := Run(cfg, init), Run(cfg, init + [v]);
    assert c.Keys == before.Keys;
    assert |c| == |c.Keys| && |before| == |before.Keys|;
  }

  /** The guard's request sweeps the table but not the victim, who was seen just recently enough. */
  lemma PolledIsNotSwept(cfg: Config, gap: real, early: real, at: real)
    requires cfg.Valid() && WellTimed(cfg, gap, early, at)
    ensures var init, g := Poll(cfg, gap, early), Request(GUARD, at);
            && Monotone(init + [g]) && Verdict(cfg, init, g)
            && Lookup(Run(cfg, init + [g]), VICTIM) == Some(Bucket(Earned(cfg, early), early))
  {
    hide Run, Solo, Fill, Earned;
    PollIsDenied(cfg, gap, early, at);
    MonotoneExtend(Poll(cfg, gap, early), Request(GUARD, at));
    RunSnoc(cfg, Poll(cfg, gap, early), Request(GUARD, at));
    GuardIsFull(cfg, gap, at);
    hide Refilled;
  }

  /** The polling victim has no more than its own refill and is served no more than that. */
  lemma {:induction false} PolledServes(cfg: Config, gap: real, early: real, at: real, n: nat)
    requires cfg.Valid() && WellTimed(cfg, gap, early, at)
    requires forall i: nat :: i < n ==> Verdict(cfg, PollAndAsk(cfg, gap, early, at, i), Request(VICTIM, at))
    ensures var trace := PollAndAsk(cfg, gap, early, at, n);
            && Monotone(trace + [Request(VICTIM, at)]) && Kept(cfg, trace) == Ask(cfg, gap, at, n)
            && Lookup(Run(cfg, trace), VICTIM) ==
               Some(if n == 0 then Bucket(Earned(cfg, early), early) else Bucket(Earned(cfg, at) - n as real, at))
            && n as real <= Earned(cfg, at)
  {
    hide Run, Solo, Fill, Poll, Kept, Hit, Earned;
    var r := Request(VICTIM, at);
    if n == 0 {
      PollIsErased(cfg, gap, early, at);
      PolledIsNotSwept(cfg, gap, early, at);
      assert PollAndAsk(cfg, gap, early, at, 0) == Poll(cfg, gap, early) + [Request(GUARD, at)];
      MonotoneExtend(PollAndAsk(cfg, gap, early, at, 0), r);
      EarnedGrows(cfg, 0.0, at);
    } else {
      var init := PollAndAsk(cfg, gap, early, at, n - 1);
      PolledServes(cfg, gap, early, at, n - 1);
      assert PollAndAsk(cfg, gap, early, at, n) == init + [r];
      assert Ask(cfg, gap, at, n) == Ask(cfg, gap, at, n - 1) + [r];
      KeptSnoc(cfg, init, r);
      RunSnoc(cfg, init, r);
      MonotoneExtend(init + [r], r);
      assert Verdict(cfg, init, r);
      PolledSpends(cfg, early, at, n - 1);
      hide Ask, PollAndAsk;
      ServedBucketStays(cfg, Run(cfg, init), r);
    }
  }

  lemma PollIsErased(cfg: Config, gap: real, early: real, at: real)
    requires cfg.Valid() && WellTimed(cfg, gap, early, at)
    ensures Kept(cfg, PollAndAsk(cfg, gap, early, at, 0)) == Ask(cfg, gap, at, 0)
  {
    hide Kept, Run, Verdict, Fill;
    var init, v, g := Fill(cfg, gap, SWEEP_THRESHOLD), Request(VICTIM, early), Request(GUARD, at);
    FillIsKept(cfg, gap, SWEEP_THRESHOLD);
    PollIsDenied(cfg, gap, early, at);
    KeptSnoc(cfg, init, v);
    PolledIsNotSwept(cfg, gap, early, at);
    KeptSnoc(cfg, init + [v], g);
    assert PollAndAsk(cfg, gap, early, at, 0) == init + [v] + [g];
    assert Ask(cfg, gap, at, 0) == init + [g];
  }

  /** The bucket of the requesting key survives the sweep its own request may start. */
  lemma ServedBucketStays(cfg: Config, clients: map<string, Bucket>, r: Request)
    requires r.key in clients && Allowed(cfg, clients, r)
    ensures Lookup(Step(cfg, clients, r), r.key) == Some(Hit(cfg, Lookup(clients, r.key), r.at).1)
  {
    hide Refilled;
  }

  lemma PolledSpends(cfg: Config, early: real, at: real, n: nat)
    requires cfg.Valid() && 0.0 < early && at == IDLE_SECONDS + early
    requires n as real <= Earned(cfg, at) < cfg.burst as real
    ensures var b := if n == 0 then Bucket(Earned(cfg, early), early) else Bucket(Earned(cfg, at) - n as real, at);
            var (ok, next) := Hit(cfg, Some(b), at);
            ok ==> next == Bucket(Earned(cfg, at) - (n + 1) as real, at) && (n + 1) as real <= Earned(cfg, at)
  {
    EarnedAdds(cfg, early, at - early);
    EarnedGrows(cfg, 0.0, 0.0);
    assert early + (at - early) == at && at - at == 0.0;
    hide Earned;
  }

  /** A trace and a request whose verdict depends on a denied request before it. */
  lemma DenialObserved(cfg: Config) returns (trace: seq<Request>, r: Request)
    requires cfg.Valid() && !cfg.RefillsBeforeSweep()
    ensures Monotone(trace + [r]) && Verdict(cfg, Kept(cfg, trace), r) && !Verdict(cfg, trace, r)
  {
    hide Run, Kept, Ask, PollAndAsk, Hit;
    var gap, early, at := PollTimes(cfg);
    r := Request(VICTIM, at);
    var n := 0;
    while n < cfg.burst && Verdict(cfg, PollAndAsk(cfg, gap, early, at, n), r)
      invariant n <= cfg.burst
      invariant forall i: nat :: i < n ==> Verdict(cfg, PollAndAsk(cfg, gap, early, at, i), r)
    {
      n := n + 1;
    }
    PolledServes(cfg, gap, early, at, n);
    SharedServes(cfg, gap, at, n);
    trace := PollAndAsk(cfg, gap, early, at, n);
    assert n < cfg.burst;
    ServedAfresh(cfg, Ask(cfg, gap, at, n), r, n);
  }
}
