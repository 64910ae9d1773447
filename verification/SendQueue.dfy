/** The bounded outgoing queue of one socket client, as a state machine. */
module SendQueue {
  datatype Event = Event(name: string, data: string)

  /** Capacity of the buffered channel. */
  const CAPACITY: nat := 64

  datatype Queue = Queue(pending: seq<Event>, closed: bool)

  const FRESH := Queue([], false)

  /** A non-blocking send: lost when the queue is closed or full. */
  function Offer(q: Queue, e: Event): Queue {
    if q.closed || |q.pending| >= CAPACITY then q else q.(pending := q.pending + [e])
  }

  function Close(q: Queue): Queue { q.(closed := true) }

  /** The write loop takes the oldest pending event; a closed queue still hands out what it holds. */
  function Take(q: Queue): Queue {
    if q.pending == [] then q else q.(pending := q.pending[1..])
  }

  datatype Action = DoSend(e: Event) | DoDisconnect(e: Event) | DoClose | DoTake

  function Act(q: Queue, a: Action): Queue {
    match a
    case DoSend(e) => Offer(q, e)
    case DoDisconnect(e) => Close(Offer(q, e))
    case DoClose => Close(q)
    case DoTake => Take(q)
  }

  function Run(actions: seq<Action>): Queue {
    if actions == [] then FRESH else Act(Run(actions[..|actions| - 1]), actions[|actions| - 1])
  }

  /** Everything offered, oldest first. */
  function Offered(actions: seq<Action>): seq<Event> {
    if actions == [] then []
    else Offered(actions[..|actions| - 1]) + match actions[|actions| - 1]
                                             case DoSend(e) => [e]
                                             case DoDisconnect(e) => [e]
                                             case _ => []
  }

  /** Everything taken by the write loop, oldest first. */
  function Taken(actions: seq<Action>): seq<Event> {
    if actions == [] then []
    else
      var init, q := actions[..|actions| - 1], Run(actions[..|actions| - 1]);
      Taken(init) + if actions[|actions| - 1].DoTake? && q.pending != [] then [q.pending[0]] else []
  }

  /** How often the channel itself was closed: an action closes it only when the flag was still clear. */
  function Closings(actions: seq<Action>): nat {
    if actions == [] then 0
    else
      var init, last := actions[..|actions| - 1], actions[|actions| - 1];
      Closings(init) + if (last.DoClose? || last.DoDisconnect?) && !Run(init).closed then 1 else 0
  }

  /** part is obtained from whole by leaving elements out. */
  ghost predicate Subsequence(part: seq<Event>, whole: seq<Event>) {
    part == [] || (whole != [] &&
      (Subsequence(part, whole[..|whole| - 1])
       || (part[|part| - 1] == whole[|whole| - 1] && Subsequence(part[..|part| - 1], whole[..|whole| - 1]))))
  }

  lemma SubsequenceSkip(part: seq<Event>, whole: seq<Event>, e: Event)
    requires Subsequence(part, whole)
    ensures Subsequence(part, whole + [e])
  {
  }

  lemma SubsequenceTake(part: seq<Event>, whole: seq<Event>, e: Event)
    requires Subsequence(part, whole)
    ensures Subsequence(part + [e], whole + [e])
  {
  }

  /** What one more action adds to the history. */
  lemma Snoc(init: seq<Action>, a: Action)
    ensures var q := Run(init);
            && Run(init + [a]) == Act(q, a)
            && Offered(init + [a]) == Offered(init) + (if a.DoSend? || a.DoDisconnect? then [a.e] else [])
            && Taken(init + [a]) == Taken(init) + (if a.DoTake? && q.pending != [] then [q.pending[0]] else [])
            && Closings(init + [a]) == Closings(init) + (if (a.DoClose? || a.DoDisconnect?) && !q.closed then 1 else 0)
  {
  }

  lemma NoActions()
    ensures Run([]) == FRESH && Offered([]) == [] && Taken([]) == [] && Closings([]) == 0 && Subsequence([], [])
  {
  }

  /** Over every interleaving: one closing at most, a bounded queue, and what was enqueued is an
      order-preserving selection of what was offered. */
  lemma {:induction false} QueueInvariant(actions: seq<Action>)
    ensures var q := Run(actions);
            && Closings(actions) == (if q.closed then 1 else 0)
            && |q.pending| <= CAPACITY
            && Subsequence(Taken(actions) + q.pending, Offered(actions))
  {
    hide Run, Offered, Taken, Closings, Subsequence;
    NoActions();
    if actions == [] {
      assert Taken([]) + Run([]).pending == [];
    } else {
      var init, last := actions[..|actions| - 1], actions[|actions| - 1];
      assert actions == init + [last];
      QueueInvariant(init);
      Snoc(init, last);
      var q, q', enqueued := Run(init), Run(actions), Taken(init) + Run(init).pending;
      if last.DoSend? || last.DoDisconnect? {
        SubsequenceSkip(enqueued, Offered(init), last.e);
        SubsequenceTake(enqueued, Offered(init), last.e);
        assert Taken(init) + (q.pending + [last.e]) == enqueued + [last.e];
        assert Taken(actions) == Taken(init);
      } else {
        assert Taken(actions) + q'.pending == enqueued;
        assert Offered(actions) == Offered(init);
      }
    }
  }

  lemma ClosedStep(taken: seq<Event>, q: Queue, a: Action)
    requires q.closed
    ensures Act(q, a).closed
    ensures taken + (if a.DoTake? && q.pending != [] then [q.pending[0]] else []) + Act(q, a).pending
            == taken + q.pending
  {
  }

  /** Once closed, the queue stays closed and nothing more is enqueued. */
  lemma {:induction false} NothingAfterClose(actions: seq<Action>, more: seq<Action>)
    requires Run(actions).closed
    ensures Run(actions + more).closed
    ensures Taken(actions + more) + Run(actions + more).pending == Taken(actions) + Run(actions).pending
  {
    if more == [] {
      assert actions + more == actions;
    } else {
      var all, init := actions + more, actions + more[..|more| - 1];
      NothingAfterClose(actions, more[..|more| - 1]);
      hide *;
      assert all == init + [more[|more| - 1]];
      Snoc(init, more[|more| - 1]);
      ClosedStep(Taken(init), Run(init), more[|more| - 1]);
    }
  }

  // ----- what is not lost -----

  /** Every offer of the run finds the queue open and with room. */
  ghost predicate OffersFit(actions: seq<Action>) {
    forall i :: 0 <= i < |actions| && (actions[i].DoSend? || actions[i].DoDisconnect?) ==>
                  !Run(actions[..i]).closed && |Run(actions[..i]).pending| < 64
  }

  /** Then nothing is lost: what was taken and what is pending are all the offers, in order. */
  lemma {:induction false} FittingOffersArrive(actions: seq<Action>)
    requires OffersFit(actions)
    ensures Taken(actions) + Run(actions).pending == Offered(actions)
  {
    hide Run, Offered, Taken, Closings;
    if actions == [] {
      NoActions();
    } else {
      var init, last := actions[..|actions| - 1], actions[|actions| - 1];
      assert actions == init + [last];
      assert OffersFit(init) by {
        forall i | 0 <= i < |init| ensures actions[..i] == init[..i] { }
      }
      FittingOffersArrive(init);
      Snoc(init, last);
      var taken, q := Taken(init), Run(init);
      if last.DoSend? || last.DoDisconnect? {
        assert Taken(actions) == taken;
        assert taken + (q.pending + [last.e]) == (taken + q.pending) + [last.e];
      } else {
        assert Taken(actions) + Run(actions).pending == taken + q.pending;
        assert Offered(actions) == Offered(init);
      }
    }
  }

  /** A queue that is not closed and is offered at most 64 events in all loses none of them. */
  lemma {:induction false} SixtyFourArrive(actions: seq<Action>)
    requires forall i :: 0 <= i < |actions| ==> !actions[i].DoClose? && !actions[i].DoDisconnect?
    requires |Offered(actions)| <= 64
    ensures Taken(actions) + Run(actions).pending == Offered(actions) && !Run(actions).closed
  {
    hide Run, Offered, Taken, Closings;
    NoActions();
    if actions != [] {
      var init, last := actions[..|actions| - 1], actions[|actions| - 1];
      assert actions == init + [last];
      Snoc(init, last);
      SixtyFourArrive(init);
      var taken, q := Taken(init), Run(init);
      if last.DoSend? {
        assert |q.pending| < 64;
        assert taken + (q.pending + [last.e]) == (taken + q.pending) + [last.e];
        assert Taken(actions) == taken;
      } else {
        assert Taken(actions) + Run(actions).pending == taken + q.pending;
        assert Offered(actions) == Offered(init);
      }
    }
  }
}
