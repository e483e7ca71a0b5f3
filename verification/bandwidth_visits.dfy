/** What a single stream meets with in a call of `transfer`, whatever all the consumers do. */
module BandwidthVisits {
  import opened BandwidthModel
  import opened BandwidthRounds
  import opened BandwidthSafety
  import opened BandwidthRate
  import opened BandwidthFairness

  /** What a pass over the list found of a stream: nothing, or the stream as it was when the
      cursor came to its node. */
  datatype Finding = Nothing | Found(s: Stream)

  function Seen(t: Tally, it: Iter, chunk: nat, script: Script, i: nat): Finding
    requires Ready(t, it, chunk)
    decreases Busy(t.w.streams, Ahead(it, t.w.slots)), |Ahead(it, t.w.slots)|
  {
    if it.End? then Nothing
    else if t.w.slots[it.k].ref == To(i) && Locks(t.w.streams, t.w.slots[it.k]) then Found(t.w.streams[i])
    else
      TurnAhead(t, it.k, chunk, script);
      var r := Turn(t, it.k, chunk, script);
      Seen(r.t, r.it, chunk, script, i)
  }

  /** The guard at the head of TCPSocketBandwidth::transfer. */
  function Given(f: Finding, chunk: nat): nat {
    if f.Nothing? || f.s.stopped then 0 else Min(|f.s.buffered|, chunk)
  }

  // ----------------------------------------------------------------------- where its node is

  ghost predicate Open(w: World, i: nat) {
    i < |w.streams| && w.streams[i].alive && !w.streams[i].closed
  }

  lemma FlowsOpen(w: World, w': World, i: nat)
    requires Flows(w, w') && i < |w.streams| && Open(w', i)
    ensures Open(w, i)
  {
  }

  lemma OpenListed(w: World, i: nat)
    requires Linked(w) && Open(w, i)
    ensures Listed(w.slots, i)
  {
    var k :| 0 <= k < |w.slots| && w.slots[k] == Slot(w.streams[i].conn, To(i));
    assert w.slots[k].ref == To(i);
  }

  /** A stream that is not referred to from some node on is not referred to there later. */
  lemma ShrinksUnlists(w: World, w': World, lo: nat, i: nat)
    requires Shrinks(w, w') && lo <= |w.slots| && i < |w.streams| && !Listed(w.slots[lo..], i)
    ensures !Listed(w'.slots[lo..], i)
  {
    forall j | 0 <= j < |w'.slots[lo..]|
      ensures w'.slots[lo..][j].ref != To(i)
    {
      if lo + j < |w.slots| {
        assert w.slots[lo..][j].ref != To(i);
        assert w'.slots[lo + j].ref == w.slots[lo + j].ref || w'.slots[lo + j].ref == Null;
      }
    }
  }

  /** The same for the nodes up to some node. */
  lemma ShrinksUnlistsFront(w: World, w': World, hi: nat, i: nat)
    requires Shrinks(w, w') && hi <= |w.slots| && i < |w.streams| && !Listed(w.slots[..hi], i)
    ensures !Listed(w'.slots[..hi], i)
  {
    forall j | 0 <= j < hi
      ensures w'.slots[..hi][j].ref != To(i)
    {
      assert w.slots[..hi][j].ref != To(i);
      assert w'.slots[j].ref == w.slots[j].ref || w'.slots[j].ref == Null;
    }
  }

  /** A stream has one node, so when the cursor is past it the pass is past the stream. */
  lemma LinkedOnce(w: World, k: nat, i: nat)
    requires Linked(w) && k < |w.slots| && w.slots[k].ref == To(i)
    ensures !Listed(w.slots[k + 1..], i) && !Listed(w.slots[..k], i)
  {
    forall j | 0 <= j < |w.slots| && j != k
      ensures w.slots[j].ref != To(i)
    {
    }
  }

  /** What a turn makes of the list. */
  lemma TurnShrinksList(t: Tally, k: nat, chunk: nat, script: Script)
    requires Ready(t, At(k), chunk) && Locks(t.w.streams, t.w.slots[k])
    ensures Shrinks(t.w, Turn(t, k, chunk, script).t.w)
    ensures Turn(t, k, chunk, script).it == Forward(k + 1, t.w.slots)
  {
    var n := Min(Waiting(t.w.streams, t.w.slots[k]), chunk);
    if n > 0 {
      TransferStreamShrinks(t.w, t.w.slots[k].ref.id, n, script);
    }
  }

  /** A turn does not put a stream ahead of the cursor... */
  lemma TurnUnlistsAhead(t: Tally, k: nat, chunk: nat, script: Script, i: nat)
    requires Ready(t, At(k), chunk) && i < |t.w.streams| && !Listed(t.w.slots[k + 1..], i)
    ensures var r := Turn(t, k, chunk, script); ValidIter(r.it, r.t.w.slots) && !Listed(Ahead(r.it, r.t.w.slots), i)
  {
    TurnAhead(t, k, chunk, script);
    if Locks(t.w.streams, t.w.slots[k]) {
      TurnShrinksList(t, k, chunk, script);
      ShrinksUnlists(t.w, Turn(t, k, chunk, script).t.w, k + 1, i);
    } else {
      assert Erase(t.w.slots, k)[k..] == t.w.slots[k + 1..];
    }
  }

  /** ... nor behind it, unless it is its turn. */
  lemma TurnUnlistsBehind(t: Tally, k: nat, chunk: nat, script: Script, i: nat)
    requires Ready(t, At(k), chunk) && i < |t.w.streams| && !Listed(t.w.slots[..k], i) && t.w.slots[k].ref != To(i)
    ensures var r := Turn(t, k, chunk, script); ValidIter(r.it, r.t.w.slots) && !Listed(Behind(r.it, r.t.w.slots), i)
  {
    TurnAhead(t, k, chunk, script);
    var r := Turn(t, k, chunk, script);
    if Locks(t.w.streams, t.w.slots[k]) {
      TurnShrinksList(t, k, chunk, script);
      var front := t.w.slots[..k + 1];
      forall j | 0 <= j < |front|
        ensures front[j].ref != To(i)
      {
        assert j < k ==> t.w.slots[..k][j].ref != To(i);
      }
      ShrinksUnlistsFront(t.w, r.t.w, k + 1, i);
      if k + 1 == |t.w.slots| {
        assert t.w.slots[k + 1..] == [];
        ShrinksUnlists(t.w, r.t.w, k + 1, i);
        SplitListed(r.t.w.slots, k + 1, i);
        assert Behind(r.it, r.t.w.slots) == r.t.w.slots;
      }
    } else {
      var slots := Erase(t.w.slots, k);
      assert slots[..k] == t.w.slots[..k];
      if k == |slots| {
        assert Behind(r.it, r.t.w.slots) == slots[..k];
      }
    }
  }

  lemma SplitListed(slots: seq<Slot>, k: nat, i: nat)
    requires k <= |slots| && !Listed(slots[..k], i) && !Listed(slots[k..], i)
    ensures !Listed(slots, i)
  {
    forall j | 0 <= j < |slots|
      ensures slots[j].ref != To(i)
    {
      assert if j < k then slots[j] == slots[..k][j] else slots[j] == slots[k..][j - k];
    }
  }

  // ---------------------------------------------------------------------------- what it gives

  /** A turn takes bytes from its own stream alone. */
  lemma TurnTakes(t: Tally, k: nat, chunk: nat, script: Script, i: nat)
    requires Ready(t, At(k), chunk) && i < |t.w.streams|
    ensures var w' := Turn(t, k, chunk, script).t.w;
            var own := t.w.slots[k].ref == To(i) && Locks(t.w.streams, t.w.slots[k]);
            && |t.w.streams| <= |w'.streams|
            && w'.streams[i].buffered ==
               t.w.streams[i].buffered[if own then Given(Found(t.w.streams[i]), chunk) else 0..]
  {
    if Locks(t.w.streams, t.w.slots[k]) {
      var n := Min(Waiting(t.w.streams, t.w.slots[k]), chunk);
      if n > 0 {
        TransferMoves(t.w, t.w.slots[k].ref.id, n, script);
      }
    }
  }

  lemma {:induction false} VisitLeaves(t: Tally, it: Iter, chunk: nat, script: Script, i: nat)
    requires Ready(t, it, chunk) && i < |t.w.streams| && !Listed(Ahead(it, t.w.slots), i)
    ensures var w' := Visit(t, it, chunk, script).w;
            |t.w.streams| <= |w'.streams| && w'.streams[i].buffered == t.w.streams[i].buffered
    decreases Busy(t.w.streams, Ahead(it, t.w.slots)), |Ahead(it, t.w.slots)|
  {
    if it.At? {
      TurnAhead(t, it.k, chunk, script);
      AheadListed(t.w.slots, it.k, i);
      TurnUnlistsAhead(t, it.k, chunk, script, i);
      TurnTakes(t, it.k, chunk, script, i);
      var r := Turn(t, it.k, chunk, script);
      VisitLeaves(r.t, r.it, chunk, script, i);
    }
  }

  /** In a pass a stream gives up to `chunk` bytes if it is found reading, and nothing otherwise. */
  lemma {:induction false} VisitTakes(t: Tally, it: Iter, chunk: nat, script: Script, i: nat, m: nat)
    requires Ready(t, it, chunk) && Good(t.w, -1, m) && i < |t.w.streams|
    ensures var w', f := Visit(t, it, chunk, script).w, Seen(t, it, chunk, script, i);
            && |t.w.streams| <= |w'.streams|
            && (f.Found? ==> f.s.buffered == t.w.streams[i].buffered)
            && Given(f, chunk) <= |t.w.streams[i].buffered|
            && w'.streams[i].buffered == t.w.streams[i].buffered[Given(f, chunk)..]
    decreases Busy(t.w.streams, Ahead(it, t.w.slots)), |Ahead(it, t.w.slots)|
  {
    if it.At? {
      TurnAhead(t, it.k, chunk, script);
      TurnGood(t, it.k, chunk, script, m);
      TurnTakes(t, it.k, chunk, script, i);
      var r := Turn(t, it.k, chunk, script);
      if t.w.slots[it.k].ref == To(i) && Locks(t.w.streams, t.w.slots[it.k]) {
        LinkedOnce(t.w, it.k, i);
        TurnUnlistsAhead(t, it.k, chunk, script, i);
        VisitLeaves(r.t, r.it, chunk, script, i);
      } else {
        VisitTakes(r.t, r.it, chunk, script, i, m);
      }
    }
  }

  /** A pass finds every stream that is open at its end. */
  lemma {:induction false} VisitFinds(t: Tally, it: Iter, chunk: nat, script: Script, i: nat, m: nat)
    requires Ready(t, it, chunk) && Good(t.w, -1, m) && i < |t.w.streams|
    requires !Listed(Behind(it, t.w.slots), i) && Open(Visit(t, it, chunk, script).w, i)
    ensures var f := Seen(t, it, chunk, script, i); f.Found? && f.s.alive && !f.s.closed
    decreases Busy(t.w.streams, Ahead(it, t.w.slots)), |Ahead(it, t.w.slots)|
  {
    VisitGood(t, it, chunk, script, m);
    FlowsOpen(t.w, Visit(t, it, chunk, script).w, i);
    OpenListed(t.w, i);
    assert t.w.slots[..|t.w.slots|] == t.w.slots;
    if it.At? {
      if t.w.slots[it.k].ref != To(i) {
        TurnAhead(t, it.k, chunk, script);
        TurnGood(t, it.k, chunk, script, m);
        TurnUnlistsBehind(t, it.k, chunk, script, i);
        var r := Turn(t, it.k, chunk, script);
        VisitFinds(r.t, r.it, chunk, script, i, m);
      }
    }
  }

  lemma {:induction false} VisitPending(t: Tally, it: Iter, chunk: nat, script: Script)
    requires Ready(t, it, chunk)
    ensures Visit(t, it, chunk, script).pending >= t.pending
    decreases Busy(t.w.streams, Ahead(it, t.w.slots)), |Ahead(it, t.w.slots)|
  {
    if it.At? {
      TurnAhead(t, it.k, chunk, script);
      var r := Turn(t, it.k, chunk, script);
      VisitPending(r.t, r.it, chunk, script);
    }
  }

  /** A stream found with more than the chunk is pending, whether it is stopped or not. */
  lemma {:induction false} VisitCounts(t: Tally, it: Iter, chunk: nat, script: Script, i: nat)
    requires Ready(t, it, chunk)
    requires var f := Seen(t, it, chunk, script, i); f.Found? && |f.s.buffered| > chunk
    ensures Visit(t, it, chunk, script).pending > t.pending
    decreases Busy(t.w.streams, Ahead(it, t.w.slots)), |Ahead(it, t.w.slots)|
  {
    TurnAhead(t, it.k, chunk, script);
    var r := Turn(t, it.k, chunk, script);
    if t.w.slots[it.k].ref == To(i) && Locks(t.w.streams, t.w.slots[it.k]) {
      VisitPending(r.t, r.it, chunk, script);
    } else {
      VisitCounts(r.t, r.it, chunk, script, i);
    }
  }

  // ------------------------------------------------------------------------------- the rounds

  /** What a round finds of a stream. */
  function SeenInRound(t: Tally, script: Script, i: nat): Finding
    requires WellFormed(t.w) && 0 < t.total < WORD && t.pending > 0
  {
    Seen(Fresh(t), Begin(t.w), Chunk(t), script, i)
  }

  lemma RoundTakes(t: Tally, script: Script, i: nat, m: nat)
    requires WellFormed(t.w) && 0 < t.total < WORD && t.pending > 0 && Good(t.w, -1, m) && i < |t.w.streams|
    ensures var w', f := Round(t, script).w, SeenInRound(t, script, i);
            && |t.w.streams| <= |w'.streams|
            && (f.Found? ==> f.s.buffered == t.w.streams[i].buffered)
            && Given(f, Chunk(t)) <= |t.w.streams[i].buffered|
            && w'.streams[i].buffered == t.w.streams[i].buffered[Given(f, Chunk(t))..]
  {
    VisitTakes(Fresh(t), Begin(t.w), Chunk(t), script, i, m);
  }

  /** If a pass leaves nothing pending, a stream that is open and still has bytes was found
      stopped, with no more than the chunk. */
  lemma VisitSkips(t: Tally, it: Iter, chunk: nat, script: Script, i: nat, m: nat, f: Finding, r: Tally)
    requires Ready(t, it, chunk) && Good(t.w, -1, m) && i < |t.w.streams| && !Listed(Behind(it, t.w.slots), i)
    requires f == Seen(t, it, chunk, script, i) && r == Visit(t, it, chunk, script)
    requires r.pending == t.pending && Open(r.w, i) && r.w.streams[i].buffered != ""
    ensures f.Found? && f.s.alive && !f.s.closed && f.s.stopped && 0 < |f.s.buffered| <= chunk
  {
    VisitTakes(t, it, chunk, script, i, m);
    VisitFinds(t, it, chunk, script, i, m);
    if |f.s.buffered| > chunk {
      VisitCounts(t, it, chunk, script, i);
    }
  }

  lemma NoneBehind(w: World, i: nat)
    ensures !Listed(Behind(Begin(w), w.slots), i)
  {
  }

  lemma RoundSkips(t: Tally, script: Script, i: nat, m: nat, f: Finding, r: Tally)
    requires WellFormed(t.w) && 0 < t.total < WORD && t.pending > 0 && Good(t.w, -1, m) && i < |t.w.streams|
    requires f == SeenInRound(t, script, i) && r == Round(t, script)
    requires r.pending == 0 && Open(r.w, i) && r.w.streams[i].buffered != ""
    ensures f.Found? && f.s.alive && !f.s.closed && f.s.stopped && 0 < |f.s.buffered| <= Chunk(t)
  {
    var t0, it, chunk := Fresh(t), Begin(t.w), Chunk(t);
    NoneBehind(t.w, i);
    VisitSkips(t0, it, chunk, script, i, m, f, r);
  }

  /** The tally with which the last round of a call begins. */
  function LastRound(t: Tally, script: Script): (r: Tally)
    requires Entered(t)
    ensures Entered(r) && Rounds(t, script) == Round(r, script)
    decreases !t.wrapped, if t.wrapped then t.pending else t.total
  {
    RoundDecreases(t, script);
    var r := Round(t, script);
    if r.total > 0 && r.pending > 0 then LastRound(r, script) else t
  }

  lemma {:induction false} LastRoundGood(t: Tally, script: Script, m: nat)
    requires Entered(t) && Good(t.w, -1, m)
    ensures Good(LastRound(t, script).w, -1, m) && Flows(t.w, LastRound(t, script).w)
    decreases !t.wrapped, if t.wrapped then t.pending else t.total
  {
    RoundDecreases(t, script);
    var r := Round(t, script);
    if r.total > 0 && r.pending > 0 {
      RoundGood(t, script, m);
      LastRoundGood(r, script, m);
      FlowsTwice(t.w, r.w, LastRound(t, script).w);
    }
  }

  // --------------------------------------------------------------------------------- one call

  /** The call gets as far as the rounds. */
  predicate Spends(w: World)
    requires w.last <= w.clock
  {
    w.slots != [] && Opening(w).total > 0
  }

  /** The last pass of the call found the stream stopped, with at most the chunk... */
  predicate Skipped(w: World, script: Script, i: nat)
    requires Sound(w) && Spends(w)
  {
    var t := LastRound(Opening(w), script);
    var f := SeenInRound(t, script, i);
    f.Found? && f.s.stopped && |f.s.buffered| <= Chunk(t)
  }

  /** ... and no stream was found with more. */
  predicate NonePending(w: World, script: Script)
    requires Sound(w) && Spends(w)
  {
    Rounds(Opening(w), script).pending == 0
  }

  predicate Forgets(w: World, script: Script, i: nat)
    requires Sound(w)
  {
    Spends(w) && Skipped(w, script, i) && NonePending(w, script)
  }

  lemma SpendsShedules(w: World, script: Script)
    requires Sound(w) && Spends(w)
    ensures Transfer(w, script).sheduled == !NonePending(w, script)
    ensures Transfer(w, script).streams == Round(LastRound(Opening(w), script), script).w.streams
  {
    RoundsSound(Opening(w), script);
  }

  /** After a call no transfer is scheduled, although a stream is open and has bytes, if and only
      if the last pass found the stream stopped with at most the chunk and nothing was pending. */
  lemma TransferForgets(w: World, script: Script, i: nat, m: nat)
    requires Sound(w) && Good(w, -1, m) && i < |w.streams|
    requires Open(Transfer(w, script), i) && Transfer(w, script).streams[i].buffered != ""
    ensures !Transfer(w, script).sheduled <==> Forgets(w, script, i)
  {
    if Spends(w) {
      var t := LastRound(Opening(w), script);
      GoodElsewhere(w, Opening(w).w, m);
      LastRoundGood(Opening(w), script, m);
      SpendsShedules(w, script);
      if NonePending(w, script) {
        RoundSkips(t, script, i, m, SeenInRound(t, script, i), Round(t, script));
      }
    } else if w.slots == [] {
      OpenListed(w, i);
    }
  }

  // ----------------------------------------------------------------------------- the level

  /** The sum of the chunks of a call. */
  function Level(t: Tally, script: Script): nat
    requires Entered(t)
    decreases !t.wrapped, if t.wrapped then t.pending else t.total
  {
    RoundDecreases(t, script);
    var r := Round(t, script);
    Chunk(t) + if r.total > 0 && r.pending > 0 then Level(r, script) else 0
  }

  /** Every round of the call that begins while stream `i` has bytes finds it reading. */
  predicate ReadsOn(t: Tally, script: Script, i: nat)
    requires Entered(t)
    decreases !t.wrapped, if t.wrapped then t.pending else t.total
  {
    RoundDecreases(t, script);
    var r, f := Round(t, script), SeenInRound(t, script, i);
    && (i < |t.w.streams| && t.w.streams[i].buffered != "" ==> f.Found? && !f.s.stopped)
    && (r.total > 0 && r.pending > 0 ==> ReadsOn(r, script, i))
  }

  /** From `s` to `s'` a stream gave up to `level` bytes of what it had; all of them if it always reads. */
  ghost predicate Gives(s: Stream, s': Stream, level: nat, always: bool) {
    && |s'.buffered| <= |s.buffered| <= |s'.buffered| + level
    && s'.buffered == s.buffered[|s.buffered| - |s'.buffered|..]
    && (always ==> s'.buffered == "" || |s.buffered| == |s'.buffered| + level)
  }

  lemma GivesTwice(a: Stream, b: Stream, c: Stream, low: nat, high: nat, always: bool)
    requires Gives(a, b, low, always) && Gives(b, c, high, always)
    ensures Gives(a, c, low + high, always)
  {
  }

  lemma RoundGives(t: Tally, script: Script, i: nat, always: bool, m: nat)
    requires Entered(t) && Good(t.w, -1, m) && i < |t.w.streams| && (always ==> ReadsOn(t, script, i))
    ensures i < |Round(t, script).w.streams|
    ensures Gives(t.w.streams[i], Round(t, script).w.streams[i], Chunk(t), always)
  {
    RoundTakes(t, script, i, m);
  }

  /** One round of a call, and what it leaves to the others. */
  lemma RoundOfLevel(t: Tally, script: Script, i: nat, always: bool, m: nat, r: Tally)
    requires Entered(t) && Good(t.w, -1, m) && i < |t.w.streams| && (always ==> ReadsOn(t, script, i))
    requires r == Round(t, script)
    ensures Good(r.w, -1, m) && i < |r.w.streams| && Gives(t.w.streams[i], r.w.streams[i], Chunk(t), always)
    ensures if r.total > 0 && r.pending > 0
            then Entered(r) && Rounds(t, script) == Rounds(r, script) && Level(t, script) == Chunk(t) + Level(r, script)
                 && (always ==> ReadsOn(r, script, i))
            else Rounds(t, script) == r && Level(t, script) == Chunk(t)
  {
    RoundDecreases(t, script);
    RoundGives(t, script, i, always, m);
    RoundGood(t, script, m);
  }

  lemma {:induction false} RoundsGive(t: Tally, script: Script, i: nat, always: bool, m: nat, end: Tally, level: nat)
    requires Entered(t) && Good(t.w, -1, m) && i < |t.w.streams| && (always ==> ReadsOn(t, script, i))
    requires end == Rounds(t, script) && level == Level(t, script)
    ensures i < |end.w.streams| && Gives(t.w.streams[i], end.w.streams[i], level, always)
    decreases !t.wrapped, if t.wrapped then t.pending else t.total
  {
    var r, chunk := Round(t, script), Chunk(t);
    RoundOfLevel(t, script, i, always, m, r);
    if r.total > 0 && r.pending > 0 {
      RoundDecreases(t, script);
      RoundsGive(r, script, i, always, m, end, level - chunk);
      GivesTwice(t.w.streams[i], r.w.streams[i], end.w.streams[i], chunk, level - chunk, always);
    }
  }

  // -------------------------------------------------------------- streams that nobody stops

  /** Whoever is never stopped is never found stopped while open and with bytes. */
  lemma {:induction false} VisitKeen(t: Tally, it: Iter, chunk: nat, script: Script, i: nat)
    requires Ready(t, it, chunk) && Keen(t.w, i, -1) && Spared(script, i)
    ensures Keen(Visit(t, it, chunk, script).w, i, -1)
    ensures var f := Seen(t, it, chunk, script, i);
            f.Found? && f.s.alive && !f.s.closed && f.s.buffered != "" ==> !f.s.stopped
    decreases Busy(t.w.streams, Ahead(it, t.w.slots)), |Ahead(it, t.w.slots)|
  {
    if it.At? {
      TurnAhead(t, it.k, chunk, script);
      TurnKeen(t, it.k, chunk, script, i);
      var r := Turn(t, it.k, chunk, script);
      VisitKeen(r.t, r.it, chunk, script, i);
    }
  }

  lemma {:induction false} RoundsKeen(t: Tally, script: Script, i: nat)
    requires Entered(t) && Keen(t.w, i, -1) && Spared(script, i)
    ensures Keen(Rounds(t, script).w, i, -1) && Keen(LastRound(t, script).w, i, -1)
    decreases !t.wrapped, if t.wrapped then t.pending else t.total
  {
    RoundDecreases(t, script);
    VisitKeen(Fresh(t), Begin(t.w), Chunk(t), script, i);
    var r := Round(t, script);
    if r.total > 0 && r.pending > 0 {
      RoundsKeen(r, script, i);
    }
  }

  /** A call leaves no such stream with bytes and without a timer, whatever happens to others. */
  lemma TransferWaits(w: World, script: Script, i: nat, m: nat)
    requires Sound(w) && Good(w, -1, m) && Keen(w, i, -1) && Spared(script, i)
    ensures Keen(Transfer(w, script), i, -1)
    ensures var w' := Transfer(w, script); Open(w', i) && w'.streams[i].buffered != "" ==> w'.sheduled
  {
    var w' := Transfer(w, script);
    TransferGood(w, script, m);
    if Spends(w) {
      GoodElsewhere(w, Opening(w).w, m);
      RoundsKeen(Opening(w), script, i);
      SpendsShedules(w, script);
    }
    if i < |w.streams| && Open(w', i) && w'.streams[i].buffered != "" && !w'.sheduled {
      TransferForgets(w, script, i, m);
      var t := LastRound(Opening(w), script);
      LastRoundGood(Opening(w), script, m);
      RoundSkips(t, script, i, m, SeenInRound(t, script, i), Round(t, script));
      VisitKeen(Fresh(t), Begin(t.w), Chunk(t), script, i);
    }
  }

  // -------------------------------------------------------------------------- what is charged

  /** Over all rounds the subtractions wrap exactly if they sum to more than the total; and after
      a wrap the rounds go on until nothing is pending. */
  lemma {:induction false} RoundsCharge(t: Tally, script: Script)
    requires Entered(t)
    ensures var r := Rounds(t, script);
            && t.charged <= r.charged
            && t.w.moved <= r.w.moved <= t.w.moved + (r.charged - t.charged)
            && (t.wrapped ==> r.wrapped)
            && (!t.wrapped ==> (r.wrapped <==> r.charged - t.charged > t.total))
            && (!r.wrapped ==> r.total == t.total - (r.charged - t.charged))
            && (r.wrapped ==> r.pending == 0)
    decreases !t.wrapped, if t.wrapped then t.pending else t.total
  {
    RoundPassed(t, script);
    RoundDecreases(t, script);
    RoundMoved(t, script);
    var r := Round(t, script);
    if r.total > 0 && r.pending > 0 {
      RoundsCharge(r, script);
    }
  }
}
