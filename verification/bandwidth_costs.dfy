/** What a round charges, whether or not the streams it visits are stopped, and so exactly when a
    call of `transfer` charges more than it has. */
module BandwidthCosts {
  import opened BandwidthModel
  import opened BandwidthRounds
  import opened BandwidthSafety
  import opened BandwidthRate
  import opened BandwidthFairness
  import opened BandwidthVisits

  // ------------------------------------------------------------------- for every consumer

  /** What a level costs over any stretch of the list does not grow. */
  lemma {:induction false} FillShrinks(w: World, w': World, lo: nat, hi: nat, level: nat)
    requires Shrinks(w, w') && WellFormed(w) && lo <= hi <= |w.slots|
    ensures Fill(w'.streams, w'.slots[lo..hi], level) <= Fill(w.streams, w.slots[lo..hi], level)
    decreases hi - lo
  {
    if lo < hi {
      FillShrinks(w, w', lo + 1, hi, level);
      assert w.slots[lo..hi][1..] == w.slots[lo + 1..hi];
      assert w'.slots[lo..hi][1..] == w'.slots[lo + 1..hi];
    }
  }

  lemma TailFillShrinks(w: World, w': World, lo: nat, level: nat)
    requires Shrinks(w, w') && WellFormed(w) && lo <= |w.slots|
    ensures Fill(w'.streams, w'.slots[lo..], level) <= Fill(w.streams, w.slots[lo..], level)
  {
    var n := |w.slots|;
    FillShrinks(w, w', lo, n, level);
    FillNothing(w'.streams, w'.slots[n..], level);
    FillConcat(w'.streams, w'.slots[lo..n], w'.slots[n..], level);
    assert w'.slots[lo..] == w'.slots[lo..n] + w'.slots[n..];
    assert w.slots[lo..] == w.slots[lo..n];
  }

  /** A turn charges no more than it takes from what the chunk costs ahead of the cursor. */
  lemma TurnCosts(t: Tally, k: nat, chunk: nat, script: Script)
    requires Ready(t, At(k), chunk)
    ensures var r := Turn(t, k, chunk, script);
            && ValidIter(r.it, r.t.w.slots)
            && r.t.charged + Fill(r.t.w.streams, Ahead(r.it, r.t.w.slots), chunk)
               <= t.charged + Fill(t.w.streams, t.w.slots[k..], chunk)
  {
    TurnAhead(t, k, chunk, script);
    TurnMoved(t, k, chunk, script);
    FillSplit(t.w, k, chunk);
    var r := Turn(t, k, chunk, script);
    if Locks(t.w.streams, t.w.slots[k]) {
      TurnShrinksList(t, k, chunk, script);
      TailFillShrinks(t.w, r.t.w, k + 1, chunk);
      if r.it.End? {
        assert Ahead(r.it, r.t.w.slots) == [];
      }
    } else {
      assert Erase(t.w.slots, k)[k..] == t.w.slots[k + 1..];
    }
  }

  /** For every consumer, a pass charges at most what its chunk costs as a level. */
  lemma {:induction false} VisitCosts(t: Tally, it: Iter, chunk: nat, script: Script)
    requires Ready(t, it, chunk)
    ensures Visit(t, it, chunk, script).charged <= t.charged + Fill(t.w.streams, Ahead(it, t.w.slots), chunk)
    decreases Busy(t.w.streams, Ahead(it, t.w.slots)), |Ahead(it, t.w.slots)|
  {
    if it.At? {
      TurnAhead(t, it.k, chunk, script);
      TurnCosts(t, it.k, chunk, script);
      var r := Turn(t, it.k, chunk, script);
      VisitCosts(r.t, r.it, chunk, script);
    }
  }

  /** What a round would charge at most. */
  function Cost(t: Tally): nat
    requires 0 < t.total < WORD && t.pending > 0
  {
    Fill(t.w.streams, t.w.slots, Chunk(t))
  }

  lemma RoundCosts(t: Tally, script: Script)
    requires Entered(t)
    ensures Round(t, script).charged <= t.charged + Cost(t)
  {
    FromBegin(t.w);
    VisitCosts(Fresh(t), Begin(t.w), Chunk(t), script);
  }

  /** So a round that begins with what its chunk costs does not wrap. */
  lemma RoundCovers(t: Tally, script: Script)
    requires Entered(t) && !t.wrapped && Cost(t) <= t.total
    ensures !Round(t, script).wrapped
  {
    RoundCosts(t, script);
    RoundPassed(t, script);
  }

  // ---------------------------------------------------------------- for gentle consumers

  /** If nobody is closed or released meanwhile, a turn charges just that, stopped or not. */
  lemma TurnCostsAll(t: Tally, k: nat, chunk: nat, script: Script)
    requires Ready(t, At(k), chunk) && Linked(t.w) && Gentle(script)
    ensures var r := Turn(t, k, chunk, script);
            && ValidIter(r.it, r.t.w.slots)
            && r.t.charged + Fill(r.t.w.streams, Ahead(r.it, r.t.w.slots), chunk)
               == t.charged + Fill(t.w.streams, t.w.slots[k..], chunk)
  {
    var w, r := t.w, Turn(t, k, chunk, script);
    FillSplit(w, k, chunk);
    if Waiting(w.streams, w.slots[k]) == 0 {
      TurnSkips(t, k, chunk, script);
    } else if w.streams[w.slots[k].ref.id].stopped {
      StoppedTurn(t, k, chunk, script);
    } else {
      TurnGave(t, k, chunk, script);
      GaveAhead(w, k, Min(Waiting(w.streams, w.slots[k]), chunk), r.t.w, chunk);
    }
  }

  /** A stopped stream is charged and gives nothing. */
  lemma StoppedTurn(t: Tally, k: nat, chunk: nat, script: Script)
    requires Ready(t, At(k), chunk) && Waiting(t.w.streams, t.w.slots[k]) > 0
    requires t.w.streams[t.w.slots[k].ref.id].stopped
    ensures var r := Turn(t, k, chunk, script);
            && r.t.w == t.w && r.t.charged == t.charged + Min(Waiting(t.w.streams, t.w.slots[k]), chunk)
            && Ahead(r.it, r.t.w.slots) == t.w.slots[k + 1..]
  {
  }

  lemma {:induction false} VisitCostsAll(t: Tally, it: Iter, chunk: nat, script: Script, m: nat)
    requires Ready(t, it, chunk) && Good(t.w, -1, m) && Gentle(script)
    ensures Visit(t, it, chunk, script).charged == t.charged + Fill(t.w.streams, Ahead(it, t.w.slots), chunk)
    decreases Busy(t.w.streams, Ahead(it, t.w.slots)), |Ahead(it, t.w.slots)|
  {
    if it.At? {
      TurnAhead(t, it.k, chunk, script);
      TurnGood(t, it.k, chunk, script, m);
      TurnCostsAll(t, it.k, chunk, script);
      var r := Turn(t, it.k, chunk, script);
      VisitCostsAll(r.t, r.it, chunk, script, m);
    }
  }

  lemma RoundCostsAll(t: Tally, script: Script, m: nat)
    requires Entered(t) && Good(t.w, -1, m) && Gentle(script)
    ensures Round(t, script).charged == t.charged + Cost(t)
  {
    FromBegin(t.w);
    VisitCostsAll(Fresh(t), Begin(t.w), Chunk(t), script, m);
  }

  /** A round wraps exactly if it begins with less than its chunk costs. */
  lemma RoundWrapsIff(t: Tally, script: Script, m: nat)
    requires Entered(t) && !t.wrapped && Good(t.w, -1, m) && Gentle(script)
    ensures Round(t, script).wrapped <==> t.total < Cost(t)
  {
    RoundCostsAll(t, script, m);
    RoundPassed(t, script);
  }

  // ------------------------------------------------------------------------- whole calls

  /** Every round of the call begins with at least what its chunk costs. */
  predicate Covered(t: Tally, script: Script)
    requires Entered(t)
    decreases !t.wrapped, if t.wrapped then t.pending else t.total
  {
    RoundDecreases(t, script);
    var r := Round(t, script);
    Cost(t) <= t.total && (r.total > 0 && r.pending > 0 ==> Covered(r, script))
  }

  lemma {:induction false} RoundsCovered(t: Tally, script: Script)
    requires Entered(t) && !t.wrapped && Covered(t, script)
    ensures !Rounds(t, script).wrapped
    decreases !t.wrapped, if t.wrapped then t.pending else t.total
  {
    RoundDecreases(t, script);
    RoundCovers(t, script);
    var r := Round(t, script);
    if r.total > 0 && r.pending > 0 {
      RoundsCovered(r, script);
    }
  }

  lemma {:induction false} RoundsStayWrapped(t: Tally, script: Script)
    requires Entered(t) && t.wrapped
    ensures Rounds(t, script).wrapped
    decreases t.pending
  {
    RoundDecreases(t, script);
    var r := Round(t, script);
    if r.total > 0 && r.pending > 0 {
      RoundsStayWrapped(r, script);
    }
  }

  lemma {:induction false} RoundsWrapIff(t: Tally, script: Script, m: nat)
    requires Entered(t) && !t.wrapped && Good(t.w, -1, m) && Gentle(script)
    ensures Rounds(t, script).wrapped <==> !Covered(t, script)
    decreases !t.wrapped, if t.wrapped then t.pending else t.total
  {
    RoundDecreases(t, script);
    RoundWrapsIff(t, script, m);
    RoundGood(t, script, m);
    var r := Round(t, script);
    if r.total > 0 && r.pending > 0 {
      if r.wrapped {
        RoundsStayWrapped(r, script);
      } else {
        RoundsWrapIff(r, script, m);
      }
    }
  }

  /** A call that gets as far as the rounds has every one of them covered. */
  predicate CallCovered(w: World, script: Script)
    requires Sound(w)
  {
    Spends(w) ==> Covered(Opening(w), script)
  }

  /** Exactly when a call wraps, for consumers that may stop anything. */
  lemma CallWrapsIff(w: World, script: Script, m: nat)
    requires Sound(w) && Good(w, -1, m) && Gentle(script)
    ensures Transfer(w, script).wrapped == (w.wrapped || !CallCovered(w, script))
  {
    if Spends(w) {
      GoodElsewhere(w, Opening(w).w, m);
      RoundsWrapIff(Opening(w), script, m);
      RoundsSound(Opening(w), script);
    }
  }

  // -------------------------------------------------------------- streams that all are counted

  /** If every stream with bytes is pending, a round is covered exactly if it begins with a byte
      for each of them. */
  lemma CoveredByCount(t: Tally)
    requires 0 < t.total < WORD && t.pending > 0 && Busy(t.w.streams, t.w.slots) <= t.pending
    ensures Cost(t) <= t.total <==> Busy(t.w.streams, t.w.slots) <= t.total
  {
    FillBounds(t.w.streams, t.w.slots, Chunk(t));
    FillTimes(t.w.streams, t.w.slots, Chunk(t));
    if Busy(t.w.streams, t.w.slots) <= t.total {
      ChunksFit(t, Busy(t.w.streams, t.w.slots));
    }
  }

  /** If no consumer calls stop(), a call is covered unless some round is short. */
  lemma {:induction false} RoundsShort(t: Tally, script: Script, m: nat)
    requires Entered(t) && Counted(t, m) && StopFree(script)
    ensures Covered(t, script) || Rounds(t, script).short
    decreases !t.wrapped, if t.wrapped then t.pending else t.total
  {
    RoundDecreases(t, script);
    RoundCounted(t, script, m);
    RoundShort(t, script);
    CoveredByCount(t);
    RoundsCounted(t, script, m);
    var r := Round(t, script);
    if r.total > 0 && r.pending > 0 {
      RoundsShort(r, script, m);
      RoundsCounted(r, script, m);
    }
  }
}
