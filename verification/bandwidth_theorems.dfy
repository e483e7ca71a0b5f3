/** The results about the bandwidth limiter. */
module BandwidthTheorems {
  import opened BandwidthModel
  import opened BandwidthRounds
  import opened BandwidthSafety
  import opened BandwidthRate
  import opened BandwidthFairness
  import opened BandwidthVisits
  import opened BandwidthCosts
  import opened BandwidthWindows
  import opened DataChunks

  // ------------------------------------------------------------------ one call of transfer

  /** The state in which a call of `transfer` shares a budget among reading streams. */
  ghost predicate Sharing(w: World, script: Script, m: nat) {
    && Sound(w) && Good(w, -1, m) && Eager(w, -1) && Quiet(script)
    && w.slots != [] && Opening(w).total > 0
  }

  lemma SharingEnters(w: World, script: Script, m: nat)
    requires Sharing(w, script, m)
    ensures Entered(Opening(w)) && Counted(Opening(w), m)
    ensures Transfer(w, script) == Closing(Rounds(Opening(w), script))
  {
    GoodElsewhere(w, Opening(w).w, m);
    BusyWithin(w.streams, w.slots);
  }

  /** From `s` to `s'` a stream gave its consumer exactly the next `n` bytes. */
  ghost predicate HandsOver(s: Stream, s': Stream, n: nat) {
    && n <= |s.buffered|
    && s'.delivered == s.delivered + s.buffered[..n] && s'.buffered == s.buffered[n..]
  }

  /** What a stream has to give up to a level. */
  function Portion(w: World, i: nat, level: nat): nat
    requires i < |w.streams|
  {
    if Takes(w, i) then Min(|w.streams[i].buffered|, level) else 0
  }

  /** Max-min fairness: there is one level such that every registered stream gives its consumer
      exactly the bytes it had up to that level, and no other stream gives any. */
  lemma FairShare(w: World, script: Script, m: nat) returns (level: nat)
    requires Sharing(w, script, m)
    ensures var w' := Transfer(w, script);
            && |w.streams| <= |w'.streams|
            && forall i | 0 <= i < |w.streams| :: HandsOver(w.streams[i], w'.streams[i], Portion(w, i, level))
  {
    SharingEnters(w, script, m);
    var t, w' := Opening(w), Transfer(w, script);
    var r := Rounds(t, script);
    RoundsLevel(t, script, m, r);
    level :| Shared(t, r, level);
    TransferGood(w, script, m);
    forall i | 0 <= i < |w.streams|
      ensures HandsOver(w.streams[i], w'.streams[i], Portion(w, i, level))
    {
      LeveledAt(t.w, r.w, level, i);
      DeliveredFront(w.streams[i], w'.streams[i], Portion(w, i, level));
    }
  }

  lemma LeveledAt(w: World, w': World, level: nat, i: nat)
    requires Leveled(w, w', level) && i < |w.streams|
    ensures i < |w'.streams| && Portion(w, i, level) <= |w.streams[i].buffered|
    ensures w'.streams[i].buffered == w.streams[i].buffered[Portion(w, i, level)..]
  {
  }

  lemma DeliveredFront(s: Stream, s': Stream, n: nat)
    requires n <= |s.buffered| && s'.buffered == s.buffered[n..] && s'.received == s.received
    requires s.received == s.delivered + s.buffered && s'.received == s'.delivered + s'.buffered
    ensures HandsOver(s, s', n)
  {
    assert s.buffered == s.buffered[..n] + s.buffered[n..];
    SameFront(s'.delivered, s.delivered + s.buffered[..n], s.buffered[n..]);
  }

  lemma SameFront(a: string, b: string, rest: string)
    requires a + rest == b + rest
    ensures a == b
  {
    assert |a + rest| == |b + rest|;
    assert a == (a + rest)[..|a|] == (b + rest)[..|b|] == b;
  }

  lemma TransferGives(w: World, script: Script, i: nat, always: bool, m: nat)
    requires Sound(w) && Good(w, -1, m) && Spends(w) && i < |w.streams|
    requires always ==> ReadsOn(Opening(w), script, i)
    ensures i < |Transfer(w, script).streams|
    ensures Gives(w.streams[i], Transfer(w, script).streams[i], Level(Opening(w), script), always)
  {
    var t := Opening(w);
    GoodElsewhere(w, t.w, m);
    RoundsGive(t, script, i, always, m, Rounds(t, script), Level(t, script));
  }

  lemma TransferFront(w: World, script: Script, i: nat, n: nat, m: nat)
    requires Sound(w) && Good(w, -1, m) && i < |w.streams| && n <= |w.streams[i].buffered|
    requires i < |Transfer(w, script).streams| && Transfer(w, script).streams[i].buffered == w.streams[i].buffered[n..]
    ensures Transfer(w, script).streams[i].delivered == w.streams[i].delivered + w.streams[i].buffered[..n]
  {
    TransferGood(w, script, m);
    DeliveredFront(w.streams[i], Transfer(w, script).streams[i], n);
  }

  /** Fairness for every consumer.  In each call that gets as far as the rounds no stream gives
      more than one level, the sum of the chunks; and one that every round finds reading while it
      has bytes gives exactly its bytes up to that level, whatever becomes of the others. */
  lemma OneLevel(w: World, script: Script, i: nat, m: nat)
    requires Sound(w) && Good(w, -1, m) && Spends(w) && i < |w.streams|
    ensures var s, w', level := w.streams[i], Transfer(w, script), Level(Opening(w), script);
            i < |w'.streams| &&
            var s' := w'.streams[i];
            && |s'.buffered| <= |s.buffered| &&
            var n := |s.buffered| - |s'.buffered|;
            && s'.delivered == s.delivered + s.buffered[..n] && s'.buffered == s.buffered[n..]
            && n <= level
            && (ReadsOn(Opening(w), script, i) ==> n == Min(|s.buffered|, level))
  {
    TransferGives(w, script, i, ReadsOn(Opening(w), script, i), m);
    TransferFront(w, script, i, |w.streams[i].buffered| - |Transfer(w, script).streams[i].buffered|, m);
  }

  /** The budget for every consumer.  What a call charges covers what it moves.  It wraps if and
      only if it charges more than its budget, which it does not if every round begins with what
      its chunk costs, and only then if nobody is closed or released meanwhile.  If it does not
      wrap, it ends with the budget spent or nothing pending, and if it does, with nothing pending:
      then every open stream is empty, or was found stopped in the last pass with at most the chunk. */
  lemma ChargedOutcome(w: World, script: Script, m: nat)
    requires Sound(w) && Good(w, -1, m) && Spends(w)
    ensures
      var w', r, total := Transfer(w, script), Rounds(Opening(w), script), Opening(w).total;
      && w.moved <= w'.moved <= w.moved + r.charged
      && w'.wrapped == (w.wrapped || r.charged > total)
      && (Covered(Opening(w), script) ==> r.charged <= total)
      && (Gentle(script) ==> (r.charged <= total <==> Covered(Opening(w), script)))
      && (r.charged != total ==> NonePending(w, script))
      && (NonePending(w, script) ==>
            forall i | 0 <= i < |w.streams| && Open(w', i) && w'.streams[i].buffered != "" :: Skipped(w, script, i))
  {
    RoundsCharge(Opening(w), script);
    RoundsSound(Opening(w), script);
    SpendsShedules(w, script);
    GoodElsewhere(w, Opening(w).w, m);
    if Covered(Opening(w), script) {
      RoundsCovered(Opening(w), script);
    }
    if Gentle(script) {
      RoundsWrapIff(Opening(w), script, m);
    }
    var w' := Transfer(w, script);
    if NonePending(w, script) {
      forall i | 0 <= i < |w.streams| && Open(w', i) && w'.streams[i].buffered != ""
        ensures Skipped(w, script, i)
      {
        TransferForgets(w, script, i, m);
      }
    }
  }

  /** The exact outcome.  A call keeps its budget if and only if the budget suffices for all that
      is buffered, or some common level uses it up to the last byte.  Otherwise size_t wraps and
      the call empties every stream. */
  lemma BudgetOutcome(w: World, script: Script, m: nat)
    requires Sharing(w, script, m)
    ensures
      var w', total, all := Transfer(w, script), Opening(w).total, Buffered(w.streams, w.slots);
      && w'.moved - w.moved == (if Fits(w, total) then Min(total, all) else all)
      && (w'.moved - w.moved <= total <==> Fits(w, total))
      && w'.wrapped == (w.wrapped || !Fits(w, total))
  {
    SharingEnters(w, script, m);
    var t := Opening(w);
    RoundsLevel(t, script, m, Rounds(t, script));
    RoundsOutcome(t, script, m);
    RoundsSound(t, script);
    if t.total > Buffered(w.streams, w.slots) && Exact(w.streams, w.slots, t.total) {
      var l :| 0 <= l <= t.total && Fill(w.streams, w.slots, l) == t.total;
      FillBounds(w.streams, w.slots, l);
    }
  }

  lemma {:induction false} EvenFill(streams: seq<Stream>, slots: seq<Slot>, level: nat)
    requires forall k | 0 <= k < |slots| :: Waiting(streams, slots[k]) >= level
    ensures Fill(streams, slots, level) == |slots| * level
  {
    if slots == [] {
      assert |slots| * level == 0;
    } else {
      assert forall k | 0 <= k < |slots[1..]| :: slots[1..][k] == slots[k + 1];
      EvenFill(streams, slots[1..], level);
      assert |slots| * level == (|slots| - 1) * level + level;
    }
  }

  /** `total` can be divided evenly among `n`. */
  predicate Divides(n: nat, total: nat) {
    exists level | 0 <= level <= total :: total == n * level
  }

  lemma EvenExact(streams: seq<Stream>, slots: seq<Slot>, total: nat)
    requires slots != [] && forall k | 0 <= k < |slots| :: Waiting(streams, slots[k]) >= total
    ensures Exact(streams, slots, total) <==> Divides(|slots|, total)
  {
    forall level: nat | level <= total
      ensures Fill(streams, slots, level) == |slots| * level
    {
      EvenFill(streams, slots, level);
    }
    if Exact(streams, slots, total) {
      var level :| 0 <= level <= total && Fill(streams, slots, level) == total;
      assert total == |slots| * level;
    }
    if Divides(|slots|, total) {
      var level :| 0 <= level <= total && total == |slots| * level;
      ExactAt(streams, slots, total, level);
    }
  }

  /** A call among streams that all have at least the whole budget keeps it if and only if it can
      be divided evenly among them: 450 bytes among three streams are kept to, 451 are not. */
  lemma EvenShares(w: World, script: Script, m: nat)
    requires Sharing(w, script, m)
    requires forall k | 0 <= k < |w.slots| :: Waiting(w.streams, w.slots[k]) >= Opening(w).total
    ensures var w', total := Transfer(w, script), Opening(w).total;
            && (w'.moved - w.moved <= total <==> Divides(|w.slots|, total))
            && w'.moved - w.moved == if Divides(|w.slots|, total) then total else Buffered(w.streams, w.slots)
  {
    var total := Opening(w).total;
    BudgetOutcome(w, script, m);
    EvenExact(w.streams, w.slots, total);
    EvenFill(w.streams, w.slots, total);
    FillBounds(w.streams, w.slots, total);
    if |w.slots| == 1 {
      assert total == 1 * total;
    } else {
      assert |w.slots| * total >= 2 * total by { Times(2, |w.slots|, total); }
    }
  }

  /** In particular a round that has counted all streams with bytes wraps exactly if it begins with
      fewer bytes than there are such streams. */
  lemma RoundWrapsByCount(t: Tally, script: Script, m: nat)
    requires Entered(t) && !t.wrapped && Good(t.w, -1, m) && Gentle(script)
    requires Busy(t.w.streams, t.w.slots) <= t.pending
    ensures Round(t, script).wrapped <==> t.total < Busy(t.w.streams, t.w.slots)
  {
    RoundWrapsIff(t, script, m);
    CoveredByCount(t);
  }

  // ----------------------------------------------------------------------------- the cursor

  /** A turn of the inner loop leaves the cursor on the next node of the list, whatever the
      consumer added or removed, and erases a node only if its stream is gone or removed. */
  lemma TurnCursor(t: Tally, k: nat, chunk: nat, script: Script)
    requires Ready(t, At(k), chunk)
    ensures
      var r, slots := Turn(t, k, chunk, script), t.w.slots;
      && ValidIter(r.it, r.t.w.slots)
      && (k + 1 < |slots| ==> r.it.At? && r.t.w.slots[r.it.k].node == slots[k + 1].node)
      && (k + 1 == |slots| ==> r.it == End)
      && (forall j | 0 <= j < |slots| ::
            slots[j].node in Nodes(r.t.w.slots) || (j == k && !Locks(t.w.streams, slots[k])))
  {
    var w, r := t.w, Turn(t, k, chunk, script);
    TurnAhead(t, k, chunk, script);
    if Waiting(w.streams, w.slots[k]) > 0 {
      TransferStreamShrinks(w, w.slots[k].ref.id, Min(Waiting(w.streams, w.slots[k]), chunk), script);
    }
    forall j | 0 <= j < |w.slots| && (j != k || Locks(w.streams, w.slots[k]))
      ensures w.slots[j].node in Nodes(r.t.w.slots)
    {
      var j' := if Locks(w.streams, w.slots[k]) || j < k then j else j - 1;
      assert Nodes(r.t.w.slots)[j'] == w.slots[j].node;
    }
  }

  function Nodes(slots: seq<Slot>): seq<nat> {
    seq(|slots|, k requires 0 <= k < |slots| => slots[k].node)
  }

  // ------------------------------------------------------------------------------- the runs

  ghost predicate Usable(limit: nat, ticks: seq<Tick>, m: nat) {
    && 0 < limit * 4 % WORD && 0 < m
    && forall k | 0 <= k < |ticks| :: Segments(ticks[k], m)
  }

  ghost predicate Segmented(ticks: seq<Tick>, m: nat) {
    forall k | 0 <= k < |ticks| :: Segments(ticks[k], m)
  }

  lemma FromInit(limit: nat, ticks: seq<Tick>, script: Script, m: nat)
    requires Usable(limit, ticks, m)
    ensures Good(Run(Init(limit), ticks, script), -1, m)
  {
    RunGood(Init(limit), ticks, script, m);
  }

  /** A run is one part of it after the other. */
  lemma {:induction false} RunConcat(w: World, a: seq<Tick>, b: seq<Tick>, script: Script)
    requires Sound(w)
    ensures Sound(Run(w, a, script)) && Run(w, a + b, script) == Run(Run(w, a, script), b, script)
    decreases |a|
  {
    if a == [] {
      assert a + b == b;
    } else {
      StepSound(w, a[0], script);
      assert (a + b)[1..] == a[1..] + b;
      RunConcat(Step(w, a[0], script), a[1..], b, script);
    }
  }

  /** What the wrapped socket of stream `i` hands over in one step. */
  function Segment(w: World, tick: Tick, i: nat): string {
    var e := tick.event;
    if e.Data? && e.id == i && Enabled(Later(w, tick.delay), e) then e.data else ""
  }

  /** What it hands over during a run. */
  function Arrived(w: World, ticks: seq<Tick>, script: Script, i: nat): string
    requires Sound(w)
    decreases |ticks|
  {
    if ticks == [] then ""
    else
      StepSound(w, ticks[0], script);
      Segment(w, ticks[0], i) + Arrived(Step(w, ticks[0], script), ticks[1..], script, i)
  }

  function Received(w: World, i: nat): string {
    if i < |w.streams| then w.streams[i].received else ""
  }

  lemma FlowsReceived(w: World, w': World, i: nat)
    requires Flows(w, w')
    ensures Received(w', i) == Received(w, i)
  {
  }

  lemma DataReceived(w: World, j: nat, data: string, script: Script, i: nat, m: nat)
    requires Sound(w) && Good(w, -1, m) && Enabled(w, Data(j, data)) && |data| <= m
    ensures Received(Happen(w, Data(j, data), script), i) == Received(w, i) + if j == i then data else ""
  {
    var w' := Arrive(w, j, data);
    ArriveGood(w, j, data, m);
    if !w.sheduled {
      TransferGood(w', script, m);
      FlowsReceived(w', Transfer(w', script), i);
    }
    assert Received(w, i) + "" == Received(w, i);
  }

  lemma TimerReceives(w: World, script: Script, i: nat, m: nat)
    requires Sound(w) && Good(w, -1, m) && w.armed > 0
    ensures Received(Transfer(w.(armed := w.armed - 1), script), i) == Received(w, i)
  {
    var w' := w.(armed := w.armed - 1);
    GoodElsewhere(w, w', m);
    TransferGood(w', script, m);
    FlowsReceived(w', Transfer(w', script), i);
  }

  lemma OthersReceive(w: World, e: Event, script: Script, i: nat, m: nat)
    requires Sound(w) && Good(w, -1, m) && 0 < w.limit * 4 % WORD && Enabled(w, e) && !e.Data?
    ensures Received(Happen(w, e, script), i) == Received(w, i)
  {
    match e
    case Eof(j) =>
    case Timer => TimerReceives(w, script, i, m);
    case Consumer(a) =>
      ApplyGood(w, a, -1, m);
      FlowsReceived(w, Apply(w, a), i);
  }

  lemma StepReceived(w: World, tick: Tick, script: Script, i: nat, m: nat)
    requires Sound(w) && Good(w, -1, m) && 0 < w.limit * 4 % WORD && Segments(tick, m)
    ensures Received(Step(w, tick, script), i) == Received(w, i) + Segment(w, tick, i)
  {
    var v, e := Later(w, tick.delay), tick.event;
    GoodElsewhere(w, v, m);
    if Enabled(v, e) {
      if e.Data? {
        DataReceived(v, e.id, e.data, script, i, m);
      } else {
        OthersReceive(v, e, script, i, m);
      }
    }
    assert Received(w, i) + "" == Received(w, i);
  }

  lemma {:induction false} RunReceived(w: World, ticks: seq<Tick>, script: Script, i: nat, m: nat)
    requires Sound(w) && Good(w, -1, m) && 0 < w.limit * 4 % WORD
    requires forall k | 0 <= k < |ticks| :: Segments(ticks[k], m)
    ensures Received(Run(w, ticks, script), i) == Received(w, i) + Arrived(w, ticks, script, i)
    decreases |ticks|
  {
    if ticks == [] {
      assert Received(w, i) + "" == Received(w, i);
    } else {
      var w' := Step(w, ticks[0], script);
      StepSound(w, ticks[0], script);
      StepGood(w, ticks[0], script, m);
      StepReceived(w, ticks[0], script, i, m);
      RunReceived(w', ticks[1..], script, i, m);
      Assoc(Received(w, i), Segment(w, ticks[0], i), Arrived(w', ticks[1..], script, i));
    }
  }

  /** Re-entrant FIFO: in every run, with every consumer, what a stream delivered followed by
      what it still buffers is what its socket handed over. */
  lemma BytesInOrder(limit: nat, ticks: seq<Tick>, script: Script, m: nat, i: nat)
    requires Usable(limit, ticks, m)
    ensures var w := Run(Init(limit), ticks, script);
            i < |w.streams| ==> w.streams[i].delivered + w.streams[i].buffered == Arrived(Init(limit), ticks, script, i)
  {
    FromInit(limit, ticks, script, m);
    RunReceived(Init(limit), ticks, script, i, m);
    var w := Run(Init(limit), ticks, script);
    assert i < |w.streams| ==> Settled(w.streams[i], m);
  }

  /** Conservation: the bytes published are the bytes delivered, over all streams. */
  lemma MovedIsDelivered(limit: nat, ticks: seq<Tick>, script: Script, m: nat)
    requires Usable(limit, ticks, m)
    ensures var w := Run(Init(limit), ticks, script); w.moved == Delivered(w.streams)
  {
    FromInit(limit, ticks, script, m);
  }

  /** Flow control: the socket of a stream that is not stopped is being read exactly while its
      buffer is below the limit, whoever stops and reads it when, and it calls itself active; one that is
      stopped does so exactly while its socket is being read all the same.  A paused stream is one
      that is full or has ended empty; so no buffer exceeds the limit by a segment. */
  lemma FlowControl(limit: nat, ticks: seq<Tick>, script: Script, m: nat, i: nat)
    requires Usable(limit, ticks, m)
    ensures
      var w := Run(Init(limit), ticks, script);
      i < |w.streams| ==>
        var s := w.streams[i];
        && s.maxLength == limit * 4 % WORD
        && (s.reading ==> !s.paused)
        && (!s.stopped ==> s.Active() && (s.reading <==> !s.paused))
        && (s.stopped ==> (s.Active() <==> s.reading))
        && (!s.paused ==> |s.buffered| < s.maxLength)
        && (s.paused ==> |s.buffered| >= s.maxLength || (s.eof && s.buffered == ""))
        && |s.buffered| < s.maxLength + m
  {
    FromInit(limit, ticks, script, m);
    RunLimit(Init(limit), ticks, script, m);
    var w := Run(Init(limit), ticks, script);
    assert i < |w.streams| ==> Settled(w.streams[i], m);
  }

  lemma {:induction false} RunLimit(w: World, ticks: seq<Tick>, script: Script, m: nat)
    requires Sound(w)
    ensures Run(w, ticks, script).limit == w.limit
    decreases |ticks|
  {
    RunRate(w, ticks, script);
  }

  /** The wrapped socket of stream `i` reports the end of the stream in this step. */
  predicate Ends(w: World, tick: Tick, i: nat) {
    tick.event == Eof(i) && Enabled(Later(w, tick.delay), tick.event)
  }

  /** It does so at some time of a run. */
  predicate HasEnded(w: World, ticks: seq<Tick>, script: Script, i: nat)
    requires Sound(w)
    decreases |ticks|
  {
    ticks != [] &&
    (StepSound(w, ticks[0], script);
     Ends(w, ticks[0], i) || HasEnded(Step(w, ticks[0], script), ticks[1..], script, i))
  }

  /** It does so at a time when the stream has bytes that are not delivered yet. */
  predicate EndedLoaded(w: World, ticks: seq<Tick>, script: Script, i: nat)
    requires Sound(w)
    decreases |ticks|
  {
    ticks != [] &&
    (StepSound(w, ticks[0], script);
     || (Ends(w, ticks[0], i) && i < |w.streams| && w.streams[i].delivered != w.streams[i].received)
     || EndedLoaded(Step(w, ticks[0], script), ticks[1..], script, i))
  }

  /** What is noted of the end of stream `i`. */
  ghost predicate Noted(w: World, i: nat, ended: bool, loaded: bool) {
    if i < |w.streams| then w.streams[i].eof == ended && w.streams[i].eofOnData == loaded else !ended && !loaded
  }

  lemma FlowsNoted(w: World, w': World, i: nat, ended: bool, loaded: bool)
    requires Flows(w, w') && Noted(w, i, ended, loaded)
    requires forall k | 0 <= k < |w'.streams| :: w'.streams[k].eofOnData ==> w'.streams[k].eof
    ensures Noted(w', i, ended, loaded)
  {
  }

  lemma EofNoted(w: World, j: nat, i: nat, ended: bool, loaded: bool, m: nat)
    requires Good(w, -1, m) && Enabled(w, Eof(j)) && Noted(w, i, ended, loaded)
    ensures var now := j == i && w.streams[i].delivered != w.streams[i].received;
            Noted(w.Put(j, w.streams[j].End()), i, ended || j == i, loaded || now)
  {
    if j == i {
      EmptyAdds(w.streams[i].delivered, w.streams[i].buffered);
    }
  }

  lemma EmptyAdds(a: string, b: string)
    ensures a != a + b <==> b != ""
  {
    assert |a + b| == |a| + |b|;
  }

  lemma TransferNoted(w: World, script: Script, i: nat, ended: bool, loaded: bool, m: nat)
    requires Sound(w) && Good(w, -1, m) && Noted(w, i, ended, loaded)
    ensures Noted(Transfer(w, script), i, ended, loaded)
  {
    TransferGood(w, script, m);
    FlowsNoted(w, Transfer(w, script), i, ended, loaded);
  }

  lemma DataNoted(w: World, j: nat, data: string, script: Script, i: nat, ended: bool, loaded: bool, m: nat)
    requires Sound(w) && Good(w, -1, m) && Enabled(w, Data(j, data)) && |data| <= m && Noted(w, i, ended, loaded)
    ensures Noted(SheduleTransfer(Arrive(w, j, data), script), i, ended, loaded)
  {
    ArriveGood(w, j, data, m);
    if !w.sheduled {
      TransferNoted(Arrive(w, j, data), script, i, ended, loaded, m);
    }
  }

  lemma HappenNoted(w: World, e: Event, script: Script, i: nat, ended: bool, loaded: bool, m: nat)
    requires Sound(w) && Good(w, -1, m) && 0 < w.limit * 4 % WORD && Enabled(w, e) && !e.Eof?
    requires (e.Data? ==> |e.data| <= m) && Noted(w, i, ended, loaded)
    ensures Noted(Happen(w, e, script), i, ended, loaded)
  {
    if e.Data? {
      DataNoted(w, e.id, e.data, script, i, ended, loaded, m);
    } else if e.Timer? {
      var v := w.(armed := w.armed - 1);
      GoodElsewhere(w, v, m);
      TransferNoted(v, script, i, ended, loaded, m);
    } else {
      ActNoted(w, e.action, i, ended, loaded, m);
    }
  }

  lemma ActNoted(w: World, a: Action, i: nat, ended: bool, loaded: bool, m: nat)
    requires Good(w, -1, m) && 0 < w.limit * 4 % WORD && Noted(w, i, ended, loaded)
    ensures Noted(Apply(w, a), i, ended, loaded)
  {
    ApplyGood(w, a, -1, m);
    FlowsNoted(w, Apply(w, a), i, ended, loaded);
  }

  lemma StepNoted(w: World, tick: Tick, script: Script, i: nat, ended: bool, loaded: bool, m: nat)
    requires Sound(w) && Good(w, -1, m) && 0 < w.limit * 4 % WORD && Segments(tick, m)
    requires Noted(w, i, ended, loaded)
    ensures var now := Ends(w, tick, i);
            var full := now && i < |w.streams| && w.streams[i].delivered != w.streams[i].received;
            Noted(Step(w, tick, script), i, ended || now, loaded || full)
  {
    var v := Later(w, tick.delay);
    GoodElsewhere(w, v, m);
    if Enabled(v, tick.event) {
      if tick.event.Eof? {
        EofNoted(v, tick.event.id, i, ended, loaded, m);
      } else {
        HappenNoted(v, tick.event, script, i, ended, loaded, m);
      }
    }
  }

  lemma {:induction false} RunNoted(w: World, ticks: seq<Tick>, script: Script, i: nat, ended: bool, loaded: bool,
                                    m: nat)
    requires Sound(w) && Good(w, -1, m) && 0 < w.limit * 4 % WORD && Segmented(ticks, m)
    requires Noted(w, i, ended, loaded)
    ensures Noted(Run(w, ticks, script), i, ended || HasEnded(w, ticks, script, i),
                  loaded || EndedLoaded(w, ticks, script, i))
    decreases |ticks|
  {
    if ticks != [] {
      var now := Ends(w, ticks[0], i);
      var full := now && i < |w.streams| && w.streams[i].delivered != w.streams[i].received;
      StepSound(w, ticks[0], script);
      StepGood(w, ticks[0], script, m);
      StepNoted(w, ticks[0], script, i, ended, loaded, m);
      RunNoted(Step(w, ticks[0], script), ticks[1..], script, i, ended || now, loaded || full, m);
    }
  }

  /** The end of a stream is noted exactly when its socket has reported it; and the EndEvent is
      published exactly once, when all that the socket had handed over is delivered, if some of it
      was not delivered at the end of the stream, and never otherwise. */
  lemma EndOfStream(limit: nat, ticks: seq<Tick>, script: Script, m: nat, i: nat)
    requires Usable(limit, ticks, m)
    ensures
      var w, start := Run(Init(limit), ticks, script), Init(limit);
      i < |w.streams| ==>
        var s, all := w.streams[i], Arrived(start, ticks, script, i);
        && (s.eof <==> HasEnded(start, ticks, script, i))
        && s.ends == (if EndedLoaded(start, ticks, script, i) && s.delivered == all then 1 else 0)
        && (HasEnded(start, ticks, script, i) && !EndedLoaded(start, ticks, script, i) ==> s.delivered == all)
  {
    FromInit(limit, ticks, script, m);
    BytesInOrder(limit, ticks, script, m, i);
    RunNoted(Init(limit), ticks, script, i, false, false, m);
    var w := Run(Init(limit), ticks, script);
    if i < |w.streams| {
      assert Settled(w.streams[i], m);
      EmptyAdds(w.streams[i].delivered, w.streams[i].buffered);
    }
  }

  /** The EndEvent comes with the last byte, in the same call. */
  lemma EndWithLastByte(w: World, i: nat, length: nat, script: Script, m: nat)
    requires Good(w, -1, m) && i < |w.streams| && w.streams[i].buffered != "" && !w.streams[i].stopped && length > 0
    ensures i < |TransferStream(w, i, length, script).streams|
    ensures
      var s, s' := w.streams[i], TransferStream(w, i, length, script).streams[i];
      && s'.buffered == s.buffered[Min(length, |s.buffered|)..]
      && s.ends == 0
      && s'.ends == if s.eof && length >= |s.buffered| then 1 else 0
  {
    TransferStreamGood(w, i, length, script, m);
    TransferMoves(w, i, length, script);
    var w' := TransferStream(w, i, length, script);
    assert Settled(w.streams[i], m) && Settled(w'.streams[i], m);
  }

  /** Every unclosed stream that exists owns exactly one node of the list, the one it was given. */
  lemma OneNodeEach(limit: nat, ticks: seq<Tick>, script: Script, m: nat, i: nat) returns (k: nat)
    requires Usable(limit, ticks, m)
    requires var w := Run(Init(limit), ticks, script); i < |w.streams| && w.streams[i].alive && !w.streams[i].closed
    ensures
      var w := Run(Init(limit), ticks, script);
      && k < |w.slots| && w.slots[k] == Slot(w.streams[i].conn, To(i))
      && (forall j | 0 <= j < |w.slots| && j != k :: w.slots[j].ref != To(i) && w.slots[j].node != w.streams[i].conn)
  {
    FromInit(limit, ticks, script, m);
    var w := Run(Init(limit), ticks, script);
    k :| 0 <= k < |w.slots| && w.slots[k] == Slot(w.streams[i].conn, To(i));
  }

  /** A closed stream is never visited again. */
  lemma ClosedIsUnlisted(limit: nat, ticks: seq<Tick>, script: Script, m: nat, i: nat)
    requires Usable(limit, ticks, m)
    requires var w := Run(Init(limit), ticks, script); i < |w.streams| && w.streams[i].closed
    ensures !Listed(Run(Init(limit), ticks, script).slots, i)
  {
    FromInit(limit, ticks, script, m);
  }

  // ------------------------------------------------------------------------- rate and timer

  /** The speed limit of the program: in every run without a wrapped subtraction, the bytes
      delivered by all streams are at most `limit` times the seconds passed. */
  lemma RateLimit(limit: nat, ticks: seq<Tick>, script: Script, m: nat)
    requires Usable(limit, ticks, m)
    ensures
      var w := Run(Init(limit), ticks, script);
      !w.wrapped ==> 1_000_000_000 * Delivered(w.streams) <= limit * w.clock
  {
    FromInit(limit, ticks, script, m);
    RunRate(Init(limit), ticks, script);
    RunGood(Init(limit), ticks, script, m);
    var w := Run(Init(limit), ticks, script);
    assert limit * w.last <= limit * w.clock by {
      Times(w.last, w.clock, limit);
    }
  }

  ghost predicate NoStops(ticks: seq<Tick>, script: Script) {
    && StopFree(script)
    && forall k | 0 <= k < |ticks| :: ticks[k].event.Consumer? ==> !ticks[k].event.action.Stop?
  }

  /** Every state of a run from the constructor in which nobody called stop() is such a state. */
  lemma LivelyAfter(limit: nat, ticks: seq<Tick>, script: Script, m: nat)
    requires Usable(limit, ticks, m) && NoStops(ticks, script)
    ensures Lively(Run(Init(limit), ticks, script), m) && Run(Init(limit), ticks, script).limit == limit
  {
    RunLively(Init(limit), ticks, script, m);
    RunLimit(Init(limit), ticks, script, m);
  }

  /** The state in which a step calls transfer(). */
  function Caller(w: World, tick: Tick): World {
    var v := Later(w, tick.delay);
    match tick.event
    case Data(j, data) => if j < |v.streams| then Arrive(v, j, data) else v
    case _ => if v.armed > 0 then v.(armed := v.armed - 1) else v
  }

  /** A step calls transfer() if data arrive while none is scheduled, or if the timer fires. */
  predicate CallsTransfer(w: World, tick: Tick) {
    Enabled(Later(w, tick.delay), tick.event)
    && ((tick.event.Data? && !w.sheduled) || tick.event.Timer?)
  }

  lemma CallerSound(w: World, tick: Tick, script: Script)
    requires Sound(w) && CallsTransfer(w, tick)
    ensures Sound(Caller(w, tick)) && Step(w, tick, script) == Transfer(Caller(w, tick), script)
  {
  }

  lemma CallerGood(w: World, tick: Tick, m: nat)
    requires Good(w, -1, m) && CallsTransfer(w, tick) && Segments(tick, m)
    ensures Good(Caller(w, tick), -1, m)
  {
    var v := Later(w, tick.delay);
    GoodElsewhere(w, v, m);
    if tick.event.Data? {
      ArriveGood(v, tick.event.id, tick.event.data, m);
    } else {
      GoodElsewhere(v, Caller(w, tick), m);
    }
  }

  /** In the run of `ticks` from `w` every round of every call begins with at least what its chunk
      costs. */
  predicate CoveredIn(w: World, ticks: seq<Tick>, script: Script)
    requires Sound(w)
    decreases |ticks|
  {
    ticks == [] ||
    (StepSound(w, ticks[0], script);
     && (CallsTransfer(w, ticks[0]) ==> (CallerSound(w, ticks[0], script); CallCovered(Caller(w, ticks[0]), script)))
     && CoveredIn(Step(w, ticks[0], script), ticks[1..], script))
  }

  lemma CallRate(w: World, script: Script)
    requires Sound(w) && CallCovered(w, script)
    ensures KeepsRate(Cleared(w), Cleared(Transfer(w, script)))
  {
    if w.slots != [] {
      BudgetRate(w.limit, w.clock - w.last);
      if Spends(w) {
        RoundsCovered(Opening(w), script);
        RoundsMoved(Opening(w), script);
        RoundsSound(Opening(w), script);
      }
    }
  }

  lemma CallerRate(w: World, tick: Tick)
    requires CallsTransfer(w, tick)
    ensures var v := Caller(w, tick); v.moved == w.moved && v.last == w.last && v.limit == w.limit
  {
  }

  lemma OthersRate(w: World, tick: Tick, script: Script)
    requires Sound(w) && !CallsTransfer(w, tick)
    ensures var v := Step(w, tick, script); v.moved == w.moved && v.last == w.last && v.limit == w.limit
  {
    if Enabled(Later(w, tick.delay), tick.event) && tick.event.Consumer? {
      ApplyShrinks(Later(w, tick.delay), tick.event.action);
      ApplyKept(Later(w, tick.delay), tick.event.action);
    }
  }

  lemma SameMarks(a: World, b: World)
    requires b.moved == a.moved && b.last == a.last && b.limit == a.limit
    ensures KeepsRate(Cleared(a), Cleared(b))
  {
  }

  lemma StepRate(w: World, tick: Tick, script: Script)
    requires Sound(w)
    requires CallsTransfer(w, tick) ==> Sound(Caller(w, tick)) && CallCovered(Caller(w, tick), script)
    ensures KeepsRate(Cleared(w), Cleared(Step(w, tick, script)))
  {
    if CallsTransfer(w, tick) {
      var v := Caller(w, tick);
      CallerSound(w, tick, script);
      CallerRate(w, tick);
      SameMarks(w, v);
      CallRate(v, script);
      RateOfSteps(Cleared(w), Cleared(v), Cleared(Transfer(v, script)));
    } else {
      OthersRate(w, tick, script);
      SameMarks(w, Step(w, tick, script));
    }
  }

  /** The rate over any window, for every consumer.  From whatever state a run has reached, the
      bytes moved are within the limit, measured between the marks of the clock, unless a round of
      the window begins with less than its chunk costs.  What happened before does not matter, and
      streams may be stopped, closed and created at any time. */
  lemma {:induction false} RateLimitOfRounds(w: World, window: seq<Tick>, script: Script)
    requires Sound(w) && CoveredIn(w, window, script)
    ensures KeepsRate(Cleared(w), Cleared(Run(w, window, script)))
    decreases |window|
  {
    if window != [] {
      var w' := Step(w, window[0], script);
      StepSound(w, window[0], script);
      if CallsTransfer(w, window[0]) {
        CallerSound(w, window[0], script);
      }
      StepRate(w, window[0], script);
      RateLimitOfRounds(w', window[1..], script);
      RateOfSteps(Cleared(w), Cleared(w'), Cleared(Run(w, window, script)));
    } else {
      SameMarks(w, w);
    }
  }

  lemma OthersWrap(w: World, tick: Tick, script: Script)
    requires Sound(w) && !CallsTransfer(w, tick)
    ensures Step(w, tick, script).wrapped == w.wrapped
  {
    if Enabled(Later(w, tick.delay), tick.event) && tick.event.Consumer? {
      ApplyShrinks(Later(w, tick.delay), tick.event.action);
    }
  }

  /** Exactly when a subtraction wraps in a run, for consumers that may stop anything at any time
      and close or release only outside of their handlers. */
  lemma {:induction false} RunWrapsIff(w: World, ticks: seq<Tick>, script: Script, m: nat)
    requires Sound(w) && Good(w, -1, m) && 0 < w.limit * 4 % WORD && Segmented(ticks, m) && Gentle(script)
    ensures Run(w, ticks, script).wrapped == (w.wrapped || !CoveredIn(w, ticks, script))
    decreases |ticks|
  {
    if ticks != [] {
      StepSound(w, ticks[0], script);
      StepGood(w, ticks[0], script, m);
      if CallsTransfer(w, ticks[0]) {
        CallerSound(w, ticks[0], script);
        CallerGood(w, ticks[0], m);
        CallWrapsIff(Caller(w, ticks[0]), script, m);
      } else {
        OthersWrap(w, ticks[0], script);
      }
      RunWrapsIff(Step(w, ticks[0], script), ticks[1..], script, m);
    }
  }

  // --------------------------------------------------------- runs in which nobody is stopped

  lemma CallerLively(w: World, tick: Tick, m: nat)
    requires Lively(w, m) && CallsTransfer(w, tick) && Segments(tick, m)
    ensures var v := Caller(w, tick); Good(v, -1, m) && Eager(v, -1) && v.limit == w.limit
  {
    CallerGood(w, tick, m);
  }

  lemma CallShort(w: World, script: Script, m: nat)
    requires Sound(w) && Good(w, -1, m) && Eager(w, -1) && StopFree(script)
    ensures CallCovered(w, script) || Transfer(w, script).short
  {
    if Spends(w) {
      BusyWithin(w.streams, w.slots);
      GoodElsewhere(w, Opening(w).w, m);
      RoundsShort(Opening(w), script, m);
    }
  }

  lemma StepLively(w: World, tick: Tick, script: Script, m: nat)
    requires Lively(w, m) && StopFree(script) && Segments(tick, m)
    requires tick.event.Consumer? ==> !tick.event.action.Stop?
    ensures Lively(Step(w, tick, script), m)
    ensures w.short ==> Step(w, tick, script).short
  {
    var v := Later(w, tick.delay);
    GoodElsewhere(w, v, m);
    if Enabled(v, tick.event) {
      HappenLively(v, tick.event, script, m);
      HappenShort(v, tick.event, script);
    }
  }

  lemma HappenShort(w: World, e: Event, script: Script)
    requires Sound(w) && Enabled(w, e)
    ensures w.short ==> Happen(w, e, script).short
  {
    match e
    case Data(i, data) =>
      if !w.sheduled { TransferFlags(Arrive(w, i, data), script); }
    case Eof(i) =>
    case Timer => TransferFlags(w.(armed := w.armed - 1), script);
    case Consumer(a) => ApplyShrinks(w, a);
  }

  lemma {:induction false} RunStaysShort(w: World, ticks: seq<Tick>, script: Script)
    requires Sound(w) && w.short
    ensures Run(w, ticks, script).short
    decreases |ticks|
  {
    if ticks != [] {
      StepSound(w, ticks[0], script);
      if Enabled(Later(w, ticks[0].delay), ticks[0].event) {
        HappenShort(Later(w, ticks[0].delay), ticks[0].event, script);
      }
      RunStaysShort(Step(w, ticks[0], script), ticks[1..], script);
    }
  }

  lemma {:induction false} LivelyCovers(w: World, window: seq<Tick>, script: Script, m: nat)
    requires Lively(w, m) && Segmented(window, m) && NoStops(window, script)
    ensures CoveredIn(w, window, script) || Run(w, window, script).short
    decreases |window|
  {
    if window != [] {
      var w' := Step(w, window[0], script);
      StepLively(w, window[0], script, m);
      if CallsTransfer(w, window[0]) {
        CallerSound(w, window[0], script);
        CallerLively(w, window[0], m);
        CallShort(Caller(w, window[0]), script, m);
      }
      if w'.short {
        RunStaysShort(w', window[1..], script);
      }
      LivelyCovers(w', window[1..], script, m);
    }
  }

  lemma {:induction false} CoveredAlike(t: Tally, u: Tally, script: Script)
    requires AlikeTally(t, u) && Entered(t)
    ensures Entered(u) && (Covered(t, script) <==> Covered(u, script))
    decreases !t.wrapped, if t.wrapped then t.pending else t.total
  {
    VisitAlike(Fresh(t), Fresh(u), Begin(t.w), Chunk(t), script);
    RoundDecreases(t, script);
    RoundDecreases(u, script);
    var r := Round(t, script);
    if r.total > 0 && r.pending > 0 {
      CoveredAlike(r, Round(u, script), script);
    }
  }

  lemma CallCoveredAlike(w: World, v: World, script: Script)
    requires Alike(w, v) && Sound(w)
    ensures Sound(v) && (CallCovered(w, script) <==> CallCovered(v, script))
  {
    if Spends(w) {
      CoveredAlike(Opening(w), Opening(v), script);
    }
  }

  lemma CallerAlike(w: World, v: World, tick: Tick)
    requires Alike(w, v) && CallsTransfer(w, tick)
    ensures CallsTransfer(v, tick) && Alike(Caller(w, tick), Caller(v, tick))
  {
  }

  lemma {:induction false} CoveredInAlike(w: World, v: World, ticks: seq<Tick>, script: Script)
    requires Alike(w, v) && Sound(w) && Sound(v) && CoveredIn(v, ticks, script)
    ensures CoveredIn(w, ticks, script)
    decreases |ticks|
  {
    if ticks != [] {
      var w', v' := Step(w, ticks[0], script), Step(v, ticks[0], script);
      StepSound(w, ticks[0], script);
      StepSound(v, ticks[0], script);
      StepAlike(w, v, ticks[0], script);
      CoveredInAlike(w', v', ticks[1..], script);
      if CallsTransfer(w, ticks[0]) {
        CallerAlike(w, v, ticks[0]);
        CallerSound(w, ticks[0], script);
        CallCoveredAlike(Caller(w, ticks[0]), Caller(v, ticks[0]), script);
      }
    }
  }

  /** In `ticks`, run from `w`, some round begins with fewer bytes than there are streams with bytes. */
  ghost predicate ShortIn(w: World, ticks: seq<Tick>, script: Script)
    requires Sound(w)
  {
    Run(Cleared(w), ticks, script).short
  }

  /** If nobody calls stop(), every window is covered unless one of its rounds begins with fewer
      bytes than there are streams with bytes. */
  lemma UnstoppedCovers(w: World, window: seq<Tick>, script: Script, m: nat)
    requires Lively(w, m) && Segmented(window, m) && NoStops(window, script)
    ensures CoveredIn(w, window, script) || ShortIn(w, window, script)
  {
    LivelyCovers(Cleared(w), window, script, m);
    if CoveredIn(Cleared(w), window, script) {
      CoveredInAlike(w, Cleared(w), window, script);
    }
  }

  /** One timer, armed exactly while a transfer is scheduled. */
  lemma OneTimer(limit: nat, ticks: seq<Tick>, script: Script)
    ensures var w := Run(Init(limit), ticks, script); w.armed == if w.sheduled then 1 else 0
  {
    RunTimed(Init(limit), ticks, script);
  }

  /** Nobody stops stream `i`. */
  ghost predicate NoStopsOf(ticks: seq<Tick>, script: Script, i: nat) {
    && Spared(script, i)
    && forall k | 0 <= k < |ticks| :: ticks[k].event != Consumer(Stop(i))
  }

  /** A stream that is not stopped and for which the timer is armed if it has bytes. */
  ghost predicate Awaited(w: World, i: nat) {
    Keen(w, i, -1) && (Open(w, i) && w.streams[i].buffered != "" ==> w.sheduled)
  }

  lemma ApplyAwaited(w: World, a: Action, i: nat)
    requires Awaited(w, i) && a != Stop(i)
    ensures Awaited(Apply(w, a), i)
  {
    ApplyKeen(w, a, i, -1);
    ApplyShrinks(w, a);
  }

  lemma HappenAwaited(w: World, e: Event, script: Script, i: nat, m: nat)
    requires Sound(w) && Good(w, -1, m) && Enabled(w, e) && (e.Data? ==> |e.data| <= m)
    requires Awaited(w, i) && Spared(script, i) && e != Consumer(Stop(i))
    ensures Awaited(Happen(w, e, script), i)
  {
    match e
    case Data(j, data) =>
      ArriveGood(w, j, data, m);
      if !w.sheduled { TransferWaits(Arrive(w, j, data), script, i, m); }
    case Eof(j) =>
    case Timer =>
      GoodElsewhere(w, w.(armed := w.armed - 1), m);
      TransferWaits(w.(armed := w.armed - 1), script, i, m);
    case Consumer(a) => ApplyAwaited(w, a, i);
  }

  lemma {:induction false} RunAwaited(w: World, ticks: seq<Tick>, script: Script, i: nat, m: nat)
    requires Sound(w) && Good(w, -1, m) && 0 < w.limit * 4 % WORD && Awaited(w, i) && NoStopsOf(ticks, script, i)
    requires forall k | 0 <= k < |ticks| :: Segments(ticks[k], m)
    ensures Awaited(Run(w, ticks, script), i)
    decreases |ticks|
  {
    if ticks != [] {
      var v := Later(w, ticks[0].delay);
      GoodElsewhere(w, v, m);
      if Enabled(v, ticks[0].event) {
        HappenAwaited(v, ticks[0].event, script, i, m);
      }
      StepSound(w, ticks[0], script);
      StepGood(w, ticks[0], script, m);
      RunAwaited(Step(w, ticks[0], script), ticks[1..], script, i, m);
    }
  }

  /** No lost wake-up: if nobody stops it, an open stream that still has bytes is waited for by
      the timer, whatever is stopped, closed or created around it. */
  lemma NoLostWakeUp(limit: nat, ticks: seq<Tick>, script: Script, m: nat, i: nat)
    requires Usable(limit, ticks, m) && NoStopsOf(ticks, script, i)
    ensures
      var w := Run(Init(limit), ticks, script);
      Open(w, i) && w.streams[i].buffered != "" ==> w.sheduled && w.armed == 1
  {
    RunAwaited(Init(limit), ticks, script, i, m);
    OneTimer(limit, ticks, script);
  }

  /** The last call of transfer() in a run forgot stream `i`: its last pass found the stream
      stopped with at most the chunk, and nothing was pending.  `before` says it of earlier calls. */
  predicate Forgotten(w: World, ticks: seq<Tick>, script: Script, i: nat, before: bool)
    requires Sound(w)
    decreases |ticks|
  {
    if ticks == [] then before
    else
      StepSound(w, ticks[0], script);
      var now :=
        if CallsTransfer(w, ticks[0]) then
          CallerSound(w, ticks[0], script);
          Forgets(Caller(w, ticks[0]), script, i)
        else before;
      Forgotten(Step(w, ticks[0], script), ticks[1..], script, i, now)
  }

  /** `known` is true only while no transfer is scheduled, and of every stream that waits. */
  ghost predicate Traced(w: World, i: nat, known: bool) {
    && (known ==> !w.sheduled)
    && (Open(w, i) && w.streams[i].buffered != "" && !w.sheduled ==> known)
  }

  lemma CallTraced(w: World, script: Script, i: nat, m: nat)
    requires Sound(w) && Good(w, -1, m)
    ensures Traced(Transfer(w, script), i, Forgets(w, script, i))
  {
    TransferGood(w, script, m);
    var w' := Transfer(w, script);
    if Spends(w) {
      SpendsShedules(w, script);
    }
    if i < |w.streams| && Open(w', i) && w'.streams[i].buffered != "" {
      TransferForgets(w, script, i, m);
    }
  }

  lemma ConsumerTraced(w: World, a: Action, i: nat, known: bool)
    requires Traced(w, i, known)
    ensures Traced(Apply(w, a), i, known)
  {
    ApplyShrinks(w, a);
    ApplyKept(w, a);
    if i < |w.streams| && w.streams[i].closed {
      ApplyLeaves(w, a, i);
    }
  }

  lemma OthersTraced(w: World, tick: Tick, script: Script, i: nat, known: bool)
    requires Sound(w) && Traced(w, i, known) && !CallsTransfer(w, tick)
    ensures Traced(Step(w, tick, script), i, known)
  {
    var v := Later(w, tick.delay);
    if Enabled(v, tick.event) {
      match tick.event
      case Data(j, data) => assert Happen(v, tick.event, script) == Arrive(v, j, data);
      case Eof(j) =>
      case Consumer(a) => ConsumerTraced(v, a, i, known);
    }
  }

  lemma {:induction false} RunTraced(w: World, ticks: seq<Tick>, script: Script, i: nat, known: bool, m: nat)
    requires Sound(w) && Good(w, -1, m) && 0 < w.limit * 4 % WORD && Traced(w, i, known)
    requires forall k | 0 <= k < |ticks| :: Segments(ticks[k], m)
    ensures Traced(Run(w, ticks, script), i, Forgotten(w, ticks, script, i, known))
    decreases |ticks|
  {
    if ticks != [] {
      var w' := Step(w, ticks[0], script);
      StepSound(w, ticks[0], script);
      StepGood(w, ticks[0], script, m);
      if CallsTransfer(w, ticks[0]) {
        CallerSound(w, ticks[0], script);
        CallerGood(w, ticks[0], m);
        CallTraced(Caller(w, ticks[0]), script, i, m);
        RunTraced(w', ticks[1..], script, i, Forgets(Caller(w, ticks[0]), script, i), m);
      } else {
        OthersTraced(w, ticks[0], script, i, known);
        RunTraced(w', ticks[1..], script, i, known, m);
      }
    }
  }

  /** Exactly when a wake-up is lost, for every run and every consumer: an open stream with
      undelivered bytes is not waited for by the timer if and only if the last call of transfer()
      ended with nothing pending, its last pass having found the stream stopped with at most the
      chunk.  That pass charged the bytes and did not count them. */
  lemma WakeUpLostIff(limit: nat, ticks: seq<Tick>, script: Script, m: nat, i: nat)
    requires Usable(limit, ticks, m)
    requires var w := Run(Init(limit), ticks, script); Open(w, i) && w.streams[i].buffered != ""
    ensures var w := Run(Init(limit), ticks, script);
            && (!w.sheduled <==> Forgotten(Init(limit), ticks, script, i, false))
            && w.armed == if Forgotten(Init(limit), ticks, script, i, false) then 0 else 1
  {
    RunTraced(Init(limit), ticks, script, i, false, m);
    OneTimer(limit, ticks, script);
  }

  // --------------------------------------------------- what a handler leaves behind

  /** What a consumer's actions can change of a stream for the consumer itself. */
  datatype Flags = Flags(alive: bool, closed: bool, stopped: bool)

  function FlagsOf(s: Stream): Flags {
    Flags(s.alive, s.closed, s.stopped)
  }

  /** One action of a handler, for stream `i`: the last of read(), stop() and the first close()
      counts, until the stream is released. */
  function Acted(f: Flags, a: Action, i: nat): Flags {
    if a.Create? || a.id != i || !f.alive then f
    else
      match a
      case Read(_) => f.(stopped := false)
      case Stop(_) => f.(stopped := true)
      case Close(_) => if f.closed then f else f.(closed := true, stopped := true)
      case Release(_) => f.(alive := false)
  }

  /** A whole handler. */
  function Leaves(f: Flags, actions: seq<Action>, i: nat): Flags
    decreases |actions|
  {
    if actions == [] then f else Leaves(Acted(f, actions[0], i), actions[1..], i)
  }

  /** From `s` to `s'` a consumer's own actions have left the flags `f`. */
  ghost predicate Left(s: Stream, s': Stream, f: Flags) {
    && FlagsOf(s') == f && s'.ends == s.ends && s'.paused == s.paused && s'.maxLength == s.maxLength
    && (s.paused && !s.reading ==> !s'.reading)
  }

  lemma ReadLeaves(s: Stream, i: nat)
    requires s.alive
    ensures Left(s, s.Read(), Acted(FlagsOf(s), Read(i), i))
  {
  }

  lemma StopLeaves(s: Stream, i: nat)
    requires s.alive
    ensures Left(s, s.Stop(), Acted(FlagsOf(s), Stop(i), i))
  {
  }

  lemma CloseLeaves(w: World, i: nat)
    requires i < |w.streams| && w.streams[i].alive
    ensures i < |Apply(w, Close(i)).streams|
    ensures Left(w.streams[i], Apply(w, Close(i)).streams[i], Acted(FlagsOf(w.streams[i]), Close(i), i))
  {
  }

  lemma ApplyLeaves(w: World, a: Action, i: nat)
    requires i < |w.streams|
    ensures i < |Apply(w, a).streams|
    ensures Left(w.streams[i], Apply(w, a).streams[i], Acted(FlagsOf(w.streams[i]), a, i))
  {
    if !a.Create? && a.id == i && w.streams[i].alive {
      match a
      case Read(_) => ReadLeaves(w.streams[i], i);
      case Stop(_) => StopLeaves(w.streams[i], i);
      case Close(_) => CloseLeaves(w, i);
      case Release(_) =>
    } else {
      ApplyElsewhere(w, a, i);
    }
  }

  lemma ApplyElsewhere(w: World, a: Action, i: nat)
    requires i < |w.streams| && (a.Create? || a.id != i || !w.streams[i].alive)
    ensures i < |Apply(w, a).streams| && Apply(w, a).streams[i] == w.streams[i]
  {
  }

  lemma {:induction false} ApplyAllLeaves(w: World, actions: seq<Action>, i: nat)
    requires i < |w.streams|
    ensures i < |ApplyAll(w, actions).streams|
    ensures Left(w.streams[i], ApplyAll(w, actions).streams[i], Leaves(FlagsOf(w.streams[i]), actions, i))
    decreases |actions|
  {
    if actions != [] {
      ApplyLeaves(w, actions[0], i);
      ApplyAllLeaves(Apply(w, actions[0]), actions[1..], i);
    }
  }

  /** The stream between the two halves of its transfer. */
  lemma DeliverLeaves(w: World, i: nat, length: nat, script: Script)
    requires i < |w.streams| && w.streams[i].paused && !w.streams[i].reading
    ensures var w', s, n := Deliver(w, i, length, script), w.streams[i], Min(length, |w.streams[i].buffered|);
            && i < |w'.streams| && FlagsOf(w'.streams[i]) == Leaves(FlagsOf(s), script(w.events), i)
            && w'.streams[i].paused && !w'.streams[i].reading && w'.streams[i].maxLength == s.maxLength
            && w'.streams[i].buffered == s.buffered[n..] && w'.streams[i].eof == s.eof
  {
    var n := Min(length, |w.streams[i].buffered|);
    var v := w.Put(i, w.streams[i].Pop(n)).(moved := w.moved + n);
    PublishKept(v, script);
    ApplyAllLeaves(v.(events := v.events + 1), script(w.events), i);
  }

  lemma EndLeaves(w: World, i: nat, script: Script)
    requires i < |w.streams| && w.streams[i].paused && !w.streams[i].reading
    requires w.streams[i].eof && w.streams[i].buffered == ""
    ensures i < |Settle(w, i, script).streams| && !Settle(w, i, script).streams[i].reading
  {
    var s := w.streams[i];
    var v := w.Put(i, s.(stopped := true, ends := s.ends + 1));
    ApplyAllLeaves(v.(events := v.events + 1), script(v.events), i);
  }

  /** A transfer of a paused stream resumes its socket if and only if what is left in the buffer
      is below the limit and the stream has not ended empty.  Whether the consumer stopped or
      closed the stream in its handler does not matter; so a stopped stream, and a closed one,
      is left with a socket that is being read exactly if the handler leaves it stopped, or
      closed, in that case. */
  lemma ResumesRegardless(w: World, i: nat, length: nat, script: Script, m: nat)
    requires Good(w, -1, m) && i < |w.streams| && length > 0
    requires !w.streams[i].stopped && w.streams[i].buffered != "" && w.streams[i].paused
    ensures i < |TransferStream(w, i, length, script).streams|
    ensures
      var s, s' := w.streams[i], TransferStream(w, i, length, script).streams[i];
      var left := |s.buffered| - Min(length, |s.buffered|);
      var resumes := left < s.maxLength && !(s.eof && left == 0);
      var leaves := Leaves(FlagsOf(s), script(w.events), i);
      && s'.reading == resumes
      && (s'.reading && s'.stopped <==> resumes && leaves.stopped)
      && (s'.reading && s'.closed <==> resumes && leaves.closed)
      && (!(s.eof && left == 0) ==> FlagsOf(s') == leaves)
  {
    DeliverShrinks(w, i, length, script);
    var v := Deliver(w, i, length, script);
    DeliverLeaves(w, i, length, script);
    if v.streams[i].eof && v.streams[i].buffered == "" {
      EndLeaves(v, i, script);
    }
  }

  /** What active() tells a consumer that stopped a full stream in its handler: the stream has not
      ended, and calls itself active if and only if the transfer made room in its buffer. */
  lemma ActiveAfterStop(w: World, i: nat, length: nat, script: Script, m: nat)
    requires Good(w, -1, m) && i < |w.streams| && length > 0
    requires !w.streams[i].stopped && w.streams[i].buffered != "" && w.streams[i].paused
    requires Leaves(FlagsOf(w.streams[i]), script(w.events), i).stopped
    requires !(w.streams[i].eof && length >= |w.streams[i].buffered|)
    ensures i < |TransferStream(w, i, length, script).streams|
    ensures var s, s' := w.streams[i], TransferStream(w, i, length, script).streams[i];
            s'.stopped && (s'.Active() <==> |s.buffered| - Min(length, |s.buffered|) < s.maxLength)
  {
    ResumesRegardless(w, i, length, script, m);
  }
}
