/** How many bytes a call of `transfer` gives out, and how many to whom in one round, in terms of
    the time since the last mark of the clock, the limit and the length of the list. */
module BandwidthBudget {
  import opened BandwidthModel
  import opened BandwidthRounds
  import opened BandwidthSafety
  import opened BandwidthRate
  import opened BandwidthFairness
  import opened BandwidthVisits
  import opened BandwidthTheorems

  // ------------------------------------------------------------------------------ the budget

  /** `n` is what the limit allows for the whole milliseconds between two marks of the clock; the
      product of limit and time is taken in 64 bits. */
  predicate Allows(limit: nat, from: nat, to: nat, n: nat)
    requires from <= to
  {
    1000 * n <= limit * ((to - from) / 1_000_000) % 0x1_0000_0000_0000_0000 < 1000 * (n + 1)
  }

  /** So as long as the product fits into them, it is the time times the limit. */
  lemma AllowsAll(limit: nat, from: nat, to: nat, n: nat)
    requires from <= to && limit * ((to - from) / 1_000_000) < 0x1_0000_0000_0000_0000
    ensures Allows(limit, from, to, n)
            <==> 1000 * n <= limit * ((to - from) / 1_000_000) < 1000 * (n + 1)
  {
    Small(limit * ((to - from) / 1_000_000));
  }

  lemma Small(p: nat)
    requires p < 0x1_0000_0000_0000_0000
    ensures p % 0x1_0000_0000_0000_0000 == p
  {
  }

  lemma Thousandths(p: nat, n: nat)
    requires 1000 * n <= p % 0x1_0000_0000_0000_0000 < 1000 * (n + 1)
    ensures p % WORD / 1000 == n
  {
  }

  lemma OpeningAllows(w: World, n: nat)
    requires w.last <= w.clock && Allows(w.limit, w.last, w.clock, n)
    ensures Opening(w).total == n
  {
    Thousandths(w.limit * ((w.clock - w.last) / 1_000_000), n);
  }

  /** A call among reading streams gives out exactly what the limit allows for the time since the
      last mark, or all there is if that is less; unless a subtraction wraps, and then it gives out
      all there is.  It marks the clock. */
  lemma GivesAllowed(w: World, script: Script, m: nat, n: nat)
    requires Sound(w) && Good(w, -1, m) && Eager(w, -1) && Quiet(script) && w.slots != []
    requires Allows(w.limit, w.last, w.clock, n)
    ensures
      var w', all := Transfer(w, script), Buffered(w.streams, w.slots);
      && w'.last == w.clock
      && (!w'.wrapped ==> w'.moved - w.moved == Min(n, all))
      && (all <= n ==> w'.moved - w.moved == all)
      && (w'.moved - w.moved != n ==> w'.moved - w.moved == all)
  {
    OpeningAllows(w, n);
    if n > 0 {
      BudgetOutcome(w, script, m);
      RoundsSound(Opening(w), script);
    }
  }

  /** The mark is where the time of the next call begins: a call moves it to the present even if it
      has nothing to give, and then it comes back by the timer; but with an empty list the time goes
      on counting, and no transfer is left scheduled. */
  lemma TransferMarks(w: World, script: Script)
    requires Sound(w)
    ensures var w' := Transfer(w, script);
            && w'.last == (if w.slots == [] then w.last else w.clock)
            && (w.slots == [] ==> !w'.sheduled && w'.armed == w.armed && w'.streams == w.streams)
            && (w.slots != [] && Allows(w.limit, w.last, w.clock, 0) ==>
                  w'.sheduled && w'.armed == w.armed + 1 && w'.streams == w.streams && w'.slots == w.slots)
  {
    if w.slots != [] {
      if Allows(w.limit, w.last, w.clock, 0) {
        OpeningAllows(w, 0);
      }
      if Opening(w).total > 0 {
        RoundsSound(Opening(w), script);
      }
    }
  }

  // ------------------------------------------------------------------------------ one DataEvent

  /** `each` is the share of `total` among `n`, but one byte at least. */
  predicate Shares(total: nat, n: nat, each: nat) {
    each > 0 && if total < n then each == 1 else n * each <= total < n * (each + 1)
  }

  lemma SharesOnce(total: nat, n: nat, each: nat)
    requires 0 < total && n > 0 && Shares(total, n, each)
    ensures each == if total / n > 1 then total / n else 1
  {
    var q := total / n;
    QuotientBounds(total, n);
    if total < n {
      Cancel(q, 1, n);
    } else {
      Cancel(q, each + 1, n);
      Cancel(each, q + 1, n);
    }
  }

  lemma ChunkShares(t: Tally, each: nat)
    requires 0 < t.total < WORD && t.pending > 0 && Shares(t.total, t.pending, each)
    ensures Chunk(t) == each
  {
    SharesOnce(t.total, t.pending, each);
  }

  /** What a round gives to the consumer of one stream, for every consumer of the others: nothing if
      the stream is not found reading, and otherwise what it has up to its share of the total among
      those that are pending. */
  lemma RoundServes(t: Tally, script: Script, i: nat, m: nat, each: nat)
    requires Entered(t) && Good(t.w, -1, m) && i < |t.w.streams| && Shares(t.total, t.pending, each)
    ensures
      var s, r, f := t.w.streams[i], Round(t, script).w, SeenInRound(t, script, i);
      && i < |r.streams|
      && HandsOver(s, r.streams[i], if f.Found? && !f.s.stopped then Min(|s.buffered|, each) else 0)
  {
    ChunkShares(t, each);
    RoundTakes(t, script, i, m);
    RoundGood(t, script, m);
    var f := SeenInRound(t, script, i);
    DeliveredFront(t.w.streams[i], Round(t, script).w.streams[i], Given(f, each));
  }

  /** In the first round of a call the share is that of what the limit allows among the nodes of the
      list. */
  lemma FirstRoundServes(w: World, script: Script, i: nat, m: nat, n: nat, each: nat)
    requires Sound(w) && Good(w, -1, m) && i < |w.streams| && w.slots != []
    requires Allows(w.limit, w.last, w.clock, n) && n > 0 && Shares(n, |w.slots|, each)
    ensures Spends(w)
    ensures
      var s, r, f := w.streams[i], Round(Opening(w), script).w, SeenInRound(Opening(w), script, i);
      && i < |r.streams|
      && HandsOver(s, r.streams[i], if f.Found? && !f.s.stopped then Min(|s.buffered|, each) else 0)
  {
    OpeningAllows(w, n);
    GoodElsewhere(w, Opening(w).w, m);
    RoundServes(Opening(w), script, i, m, each);
  }
}
