/** How much a call of `transfer` may hand out, and when the next call is due: the rate bound
    over whole runs, the rounds that break it, and the wake-up timer. */
module BandwidthRate {
  import opened BandwidthModel
  import opened BandwidthRounds
  import opened BandwidthSafety

  // --------------------------------------------------------------- what a transfer really does

  /** Nothing that was received or is buffered changes from `w` to `w'`. */
  ghost predicate Kept(w: World, w': World) {
    && |w.streams| <= |w'.streams|
    && w'.moved == w.moved
    && (forall i | 0 <= i < |w.streams| ::
          SameBytes(w.streams[i], w'.streams[i]))
  }

  ghost predicate SameBytes(s: Stream, s': Stream) {
    && s'.buffered == s.buffered && s'.delivered == s.delivered && s'.received == s.received
    && s'.eof == s.eof && s'.eofOnData == s.eofOnData
  }

  lemma ApplyKept(w: World, a: Action)
    ensures Kept(w, Apply(w, a))
  {
    if !a.Create? && a.id < |w.streams| {
      ApplyOne(w, a);
    }
  }

  lemma ApplyOne(w: World, a: Action)
    requires !a.Create? && a.id < |w.streams|
    ensures var w', s := Apply(w, a), w.streams[a.id];
            && w'.moved == w.moved && |w'.streams| == |w.streams|
            && (forall i | 0 <= i < |w.streams| && i != a.id :: w'.streams[i] == w.streams[i])
            && SameBytes(s, w'.streams[a.id])
  {
    var s := w.streams[a.id];
    assert SameBytes(s, s.Read()) && SameBytes(s, s.Stop());
  }

  lemma KeptTwice(a: World, b: World, c: World)
    requires Kept(a, b) && Kept(b, c)
    ensures Kept(a, c)
  {
  }

  lemma {:induction false} ApplyAllKept(w: World, actions: seq<Action>)
    ensures Kept(w, ApplyAll(w, actions))
    decreases |actions|
  {
    if actions != [] {
      ApplyKept(w, actions[0]);
      ApplyAllKept(Apply(w, actions[0]), actions[1..]);
      KeptTwice(w, Apply(w, actions[0]), ApplyAll(w, actions));
    }
  }

  lemma PublishKept(w: World, script: Script)
    ensures Kept(w, Publish(w, script))
  {
    ApplyAllKept(w.(events := w.events + 1), script(w.events));
  }

  lemma SettleKept(w: World, i: nat, script: Script)
    requires i < |w.streams|
    ensures Kept(w, Settle(w, i, script))
  {
    var s := w.streams[i];
    PublishKept(w.Put(i, s.(stopped := true, ends := s.ends + 1)), script);
  }

  lemma DeliverKept(w: World, i: nat, length: nat, script: Script)
    requires i < |w.streams|
    ensures var n := Min(length, |w.streams[i].buffered|);
            Kept(w.Put(i, w.streams[i].Pop(n)).(moved := w.moved + n), Deliver(w, i, length, script))
    ensures i < |Deliver(w, i, length, script).streams|
  {
    var n := Min(length, |w.streams[i].buffered|);
    PublishKept(w.Put(i, w.streams[i].Pop(n)).(moved := w.moved + n), script);
  }

  /** A stream that is not stopped gives its consumer the next `n` bytes, whatever the consumer
      does meanwhile; no other stream gives anything.  A stopped stream gives nothing. */
  lemma TransferMoves(w: World, i: nat, length: nat, script: Script)
    requires i < |w.streams|
    ensures var n := if w.streams[i].stopped then 0 else Min(length, |w.streams[i].buffered|);
            Kept(w.Put(i, w.streams[i].Pop(n)).(moved := w.moved + n), TransferStream(w, i, length, script))
  {
    if !w.streams[i].stopped && length > 0 {
      DeliverKept(w, i, length, script);
      SettleKept(Deliver(w, i, length, script), i, script);
      var n := Min(length, |w.streams[i].buffered|);
      KeptTwice(w.Put(i, w.streams[i].Pop(n)).(moved := w.moved + n),
                Deliver(w, i, length, script), TransferStream(w, i, length, script));
    } else {
      assert w.streams[i].Pop(0) == w.streams[i];
    }
  }

  // -------------------------------------------------------------------------- charged and moved

  lemma TurnMoved(t: Tally, k: nat, chunk: nat, script: Script)
    requires Ready(t, At(k), chunk)
    ensures var r := Turn(t, k, chunk, script).t;
            && t.w.moved <= r.w.moved <= t.w.moved + (r.charged - t.charged)
            && r.charged == t.charged + Min(Waiting(t.w.streams, t.w.slots[k]), chunk)
  {
    var n := Min(Waiting(t.w.streams, t.w.slots[k]), chunk);
    if n > 0 {
      TransferMoves(t.w, t.w.slots[k].ref.id, n, script);
    }
  }

  /** No more is moved than is charged, and no more is charged than `chunk` to each stream that
      has something to give. */
  lemma {:induction false} VisitMoved(t: Tally, it: Iter, chunk: nat, script: Script)
    requires Ready(t, it, chunk)
    ensures var r := Visit(t, it, chunk, script);
            && t.w.moved <= r.w.moved <= t.w.moved + (r.charged - t.charged)
            && r.charged <= t.charged + Busy(t.w.streams, Ahead(it, t.w.slots)) * chunk
    decreases Busy(t.w.streams, Ahead(it, t.w.slots)), |Ahead(it, t.w.slots)|
  {
    if it.At? {
      TurnAhead(t, it.k, chunk, script);
      TurnMoved(t, it.k, chunk, script);
      var r := Turn(t, it.k, chunk, script);
      VisitMoved(r.t, r.it, chunk, script);
      var before, after := Busy(t.w.streams, Ahead(it, t.w.slots)), Busy(r.t.w.streams, Ahead(r.it, r.t.w.slots));
      if after < before {
        OneMore(after, before, chunk);
      }
    }
  }

  lemma Times(a: nat, b: nat, c: nat)
    requires a <= b
    ensures a * c <= b * c
  {
    assert (b - a) * c >= 0;
  }

  lemma OneMore(a: nat, b: nat, c: nat)
    requires a < b
    ensures a * c + c <= b * c
  {
    Times(a + 1, b, c);
    assert (a + 1) * c == a * c + c;
  }

  lemma RoundMoved(t: Tally, script: Script)
    requires WellFormed(t.w) && 0 < t.total < WORD && t.pending > 0
    ensures var r := Round(t, script);
            && t.w.moved <= r.w.moved <= t.w.moved + (r.charged - t.charged)
            && r.charged <= t.charged + Busy(t.w.streams, t.w.slots) * Chunk(t)
  {
    FromBegin(t.w);
    VisitMoved(Fresh(t), Begin(t.w), Chunk(t), script);
  }

  /** Without a wrap the do/while hands out no more than it was given. */
  lemma {:induction false} RoundsMoved(t: Tally, script: Script)
    requires Entered(t)
    ensures var r := Rounds(t, script);
            && t.w.moved <= r.w.moved
            && (!r.wrapped ==> !t.wrapped && r.w.moved + r.total <= t.w.moved + t.total)
    decreases !t.wrapped, if t.wrapped then t.pending else t.total
  {
    RoundPassed(t, script);
    RoundDecreases(t, script);
    RoundMoved(t, script);
    var r := Round(t, script);
    if r.total > 0 && r.pending > 0 {
      RoundsMoved(r, script);
    }
  }

  /** Unless a subtraction from total_to_transfer wrapped, what was handed out between two
      marks of the clock is at most `limit` bytes per second; clock readings are nanoseconds. */
  ghost predicate KeepsRate(w: World, w': World) {
    && w.moved <= w'.moved && w.last <= w'.last && w'.limit == w.limit
    && (w.wrapped ==> w'.wrapped)
    && (!w'.wrapped ==> 1_000_000_000 * (w'.moved - w.moved) <= w.limit * (w'.last - w.last))
  }

  lemma TransferRate(w: World, script: Script)
    requires Sound(w)
    ensures KeepsRate(w, Transfer(w, script))
  {
    if w.slots != [] {
      var t := Opening(w);
      BudgetRate(w.limit, w.clock - w.last);
      if t.total > 0 {
        RoundsMoved(t, script);
        RoundsSound(t, script);
      }
    }
  }

  lemma BudgetRate(limit: nat, elapsed: nat)
    ensures 1_000_000_000 * Budget(limit, elapsed / 1_000_000) <= limit * elapsed
  {
    var ms := elapsed / 1_000_000;
    Times(ms * 1_000_000, elapsed, limit);
    assert (ms * 1_000_000) * limit == 1_000_000 * (limit * ms);
  }

  lemma RateOfSteps(a: World, b: World, c: World)
    requires KeepsRate(a, b) && KeepsRate(b, c)
    ensures KeepsRate(a, c)
  {
    assert a.limit * (c.last - a.last) == a.limit * (b.last - a.last) + a.limit * (c.last - b.last);
  }

  lemma HappenRate(w: World, e: Event, script: Script)
    requires Sound(w) && Enabled(w, e)
    ensures KeepsRate(w, Happen(w, e, script))
  {
    match e
    case Data(i, data) =>
      if !w.sheduled { TransferRate(Arrive(w, i, data), script); }
    case Eof(i) =>
    case Timer => TransferRate(w.(armed := w.armed - 1), script);
    case Consumer(a) => ApplyShrinks(w, a);
  }

  /** The rate bound holds for any run from any state, whatever the consumers do. */
  lemma {:induction false} RunRate(w: World, ticks: seq<Tick>, script: Script)
    requires Sound(w)
    ensures KeepsRate(w, Run(w, ticks, script))
    decreases |ticks|
  {
    if ticks != [] {
      StepSound(w, ticks[0], script);
      var v, w1 := Later(w, ticks[0].delay), Step(w, ticks[0], script);
      if Enabled(v, ticks[0].event) {
        HappenRate(v, ticks[0].event, script);
      }
      RunRate(w1, ticks[1..], script);
      RateOfSteps(w, w1, Run(w, ticks, script));
    }
  }

  // ------------------------------------------------------- consumers that never call stop()

  ghost predicate StopFree(script: Script) {
    forall n: nat, k | 0 <= k < |script(n)| :: !script(n)[k].Stop?
  }

  /** Open streams that have bytes, or whose socket is being read, are not stopped.
      Stream `x`, inside its own `transfer`, is not stopped either. */
  ghost predicate Eager(w: World, x: int) {
    forall i | 0 <= i < |w.streams| && w.streams[i].alive && !w.streams[i].closed ::
      i == x || w.streams[i].buffered != "" || (w.streams[i].reading && !w.streams[i].eof)
      ==> !w.streams[i].stopped
  }

  /** Nobody stops stream `i`. */
  ghost predicate Spared(script: Script, i: nat) {
    forall n: nat, k | 0 <= k < |script(n)| :: script(n)[k] != Stop(i)
  }

  /** The same of stream `i` alone. */
  ghost predicate Keen(w: World, i: nat, x: int) {
    i < |w.streams| && w.streams[i].alive && !w.streams[i].closed
    && (i == x || w.streams[i].buffered != "" || (w.streams[i].reading && !w.streams[i].eof))
    ==> !w.streams[i].stopped
  }

  lemma ApplyKeen(w: World, a: Action, i: nat, x: int)
    requires Keen(w, i, x) && x < |w.streams| && a != Stop(i)
    ensures Keen(Apply(w, a), i, x) && |w.streams| <= |Apply(w, a).streams|
  {
  }

  lemma {:induction false} ApplyAllKeen(w: World, actions: seq<Action>, i: nat, x: int)
    requires Keen(w, i, x) && x < |w.streams|
    requires forall k | 0 <= k < |actions| :: actions[k] != Stop(i)
    ensures Keen(ApplyAll(w, actions), i, x)
    decreases |actions|
  {
    if actions != [] {
      ApplyKeen(w, actions[0], i, x);
      ApplyAllKeen(Apply(w, actions[0]), actions[1..], i, x);
    }
  }

  lemma PublishKeen(w: World, script: Script, i: nat, x: int)
    requires Keen(w, i, x) && x < |w.streams| && Spared(script, i)
    ensures Keen(Publish(w, script), i, x)
  {
    ApplyAllKeen(w.(events := w.events + 1), script(w.events), i, x);
  }

  lemma DeliverKeen(w: World, j: nat, length: nat, script: Script, i: nat)
    requires Keen(w, i, -1) && j < |w.streams| && !w.streams[j].stopped && Spared(script, i)
    ensures j < |Deliver(w, j, length, script).streams| && Keen(Deliver(w, j, length, script), i, j)
  {
    var n := Min(length, |w.streams[j].buffered|);
    DeliverShrinks(w, j, length, script);
    PublishKeen(w.Put(j, w.streams[j].Pop(n)).(moved := w.moved + n), script, i, j);
  }

  lemma SettleKeen(w: World, j: nat, script: Script, i: nat)
    requires j < |w.streams| && Keen(w, i, j) && Spared(script, i)
    ensures Keen(Settle(w, j, script), i, -1)
  {
    var s := w.streams[j];
    if s.eof && s.buffered == "" {
      PublishKeen(w.Put(j, s.(stopped := true, ends := s.ends + 1)), script, i, -1);
    }
  }

  lemma TransferStreamKeen(w: World, j: nat, length: nat, script: Script, i: nat)
    requires Keen(w, i, -1) && j < |w.streams| && Spared(script, i)
    ensures Keen(TransferStream(w, j, length, script), i, -1)
  {
    if !w.streams[j].stopped && length > 0 {
      DeliverKeen(w, j, length, script, i);
      SettleKeen(Deliver(w, j, length, script), j, script, i);
    }
  }

  lemma TurnKeen(t: Tally, k: nat, chunk: nat, script: Script, i: nat)
    requires Ready(t, At(k), chunk) && Keen(t.w, i, -1) && Spared(script, i)
    ensures Keen(Turn(t, k, chunk, script).t.w, i, -1)
  {
    if Waiting(t.w.streams, t.w.slots[k]) > 0 {
      TransferStreamKeen(t.w, t.w.slots[k].ref.id, Min(Waiting(t.w.streams, t.w.slots[k]), chunk), script, i);
    }
  }

  lemma EagerIsKeen(w: World, x: int)
    ensures Eager(w, x) <==> forall i: nat :: Keen(w, i, x)
  {
    if forall i: nat :: Keen(w, i, x) {
      forall i | 0 <= i < |w.streams| && w.streams[i].alive && !w.streams[i].closed
        ensures i == x || w.streams[i].buffered != "" || (w.streams[i].reading && !w.streams[i].eof) ==>
                !w.streams[i].stopped
      {
        assert Keen(w, i, x);
      }
    }
  }

  lemma ApplyEager(w: World, a: Action)
    requires Eager(w, -1) && !a.Stop?
    ensures Eager(Apply(w, a), -1)
  {
    EagerIsKeen(w, -1);
    forall i: nat
      ensures Keen(Apply(w, a), i, -1)
    {
      ApplyKeen(w, a, i, -1);
    }
    EagerIsKeen(Apply(w, a), -1);
  }

  lemma TurnEager(t: Tally, k: nat, chunk: nat, script: Script)
    requires Ready(t, At(k), chunk) && Eager(t.w, -1) && StopFree(script)
    ensures Eager(Turn(t, k, chunk, script).t.w, -1)
  {
    EagerIsKeen(t.w, -1);
    forall i: nat
      ensures Keen(Turn(t, k, chunk, script).t.w, i, -1)
    {
      TurnKeen(t, k, chunk, script, i);
    }
    EagerIsKeen(Turn(t, k, chunk, script).t.w, -1);
  }

  /** The part of the list the cursor has passed. */
  function Behind(it: Iter, slots: seq<Slot>): seq<Slot>
    requires ValidIter(it, slots)
  {
    slots[..Index(it, slots)]
  }

  /** The nodes up to the cursor after node `k` was served. */
  lemma BehindShrinks(w: World, w': World, k: nat)
    requires Shrinks(w, w') && WellFormed(w) && k < |w.slots|
    ensures Busy(w'.streams, w'.slots[..k + 1])
            <= Busy(w.streams, w.slots[..k]) + if Waiting(w'.streams, w'.slots[k]) > 0 then 1 else 0
  {
    SumsShrink(w, w', 0, k);
    assert w.slots[0..k] == w.slots[..k] && w'.slots[0..k] == w'.slots[..k];
    assert w'.slots[..k + 1] == w'.slots[..k] + [w'.slots[k]];
    SumsConcat(w'.streams, w'.slots[..k], [w'.slots[k]]);
  }

  /** At the end of the list the cursor has passed all nodes, new ones too. */
  lemma AllBehind(w: World, w': World, k: nat)
    requires Shrinks(w, w') && k + 1 == |w.slots|
    ensures Busy(w'.streams, Behind(Forward(k + 1, w.slots), w'.slots)) == Busy(w'.streams, w'.slots[..k + 1])
  {
    SumsOfNew(w, w', k + 1);
    assert w'.slots == w'.slots[..k + 1] + w'.slots[k + 1..];
    SumsConcat(w'.streams, w'.slots[..k + 1], w'.slots[k + 1..]);
    assert w'.slots[..|w'.slots|] == w'.slots;
  }

  /** Who still has something to give after `n` bytes were given had more than that before. */
  lemma StillWaiting(w: World, i: nat, n: nat, slot': Slot, script: Script)
    requires i < |w.streams| && !w.streams[i].stopped && n <= |w.streams[i].buffered|
    requires slot'.ref == To(i) || slot'.ref == Null
    ensures Waiting(TransferStream(w, i, n, script).streams, slot') > 0 ==> |w.streams[i].buffered| > n
  {
    TransferMoves(w, i, n, script);
  }

  lemma ChargeBehind(t: Tally, k: nat, chunk: nat, script: Script)
    requires Ready(t, At(k), chunk) && Waiting(t.w.streams, t.w.slots[k]) > 0
    requires !t.w.streams[t.w.slots[k].ref.id].stopped
    requires Busy(t.w.streams, t.w.slots[..k]) <= t.pending
    ensures var r := Turn(t, k, chunk, script);
            ValidIter(r.it, r.t.w.slots) && Busy(r.t.w.streams, Behind(r.it, r.t.w.slots)) <= r.t.pending
  {
    var w, slot := t.w, t.w.slots[k];
    var n := Min(Waiting(w.streams, slot), chunk);
    var w' := TransferStream(w, slot.ref.id, n, script);
    TransferStreamShrinks(w, slot.ref.id, n, script);
    BehindShrinks(w, w', k);
    StillWaiting(w, slot.ref.id, n, w'.slots[k], script);
    if k + 1 == |w.slots| {
      AllBehind(w, w', k);
    }
  }

  lemma TurnBehind(t: Tally, k: nat, chunk: nat, script: Script)
    requires Ready(t, At(k), chunk) && Eager(t.w, -1) && Linked(t.w)
    requires Busy(t.w.streams, Behind(At(k), t.w.slots)) <= t.pending
    ensures var r := Turn(t, k, chunk, script);
            ValidIter(r.it, r.t.w.slots) && Busy(r.t.w.streams, Behind(r.it, r.t.w.slots)) <= r.t.pending
  {
    var w, slots := t.w, t.w.slots;
    if Waiting(w.streams, slots[k]) > 0 {
      ChargeBehind(t, k, chunk, script);
    } else if Locks(w.streams, slots[k]) {
      assert slots[..k + 1] == slots[..k] + [slots[k]];
      SumsConcat(w.streams, slots[..k], [slots[k]]);
      assert slots[..|slots|] == slots;
    } else {
      assert Erase(slots, k)[..k] == slots[..k];
    }
  }

  /** If no consumer calls stop(), every stream that still has bytes after a pass was counted. */
  lemma {:induction false} VisitBehind(t: Tally, it: Iter, chunk: nat, script: Script, m: nat)
    requires Ready(t, it, chunk) && Good(t.w, -1, m) && Eager(t.w, -1) && StopFree(script)
    requires Busy(t.w.streams, Behind(it, t.w.slots)) <= t.pending
    ensures var r := Visit(t, it, chunk, script);
            Eager(r.w, -1) && Busy(r.w.streams, r.w.slots) <= r.pending
    decreases Busy(t.w.streams, Ahead(it, t.w.slots)), |Ahead(it, t.w.slots)|
  {
    if it.At? {
      TurnAhead(t, it.k, chunk, script);
      TurnGood(t, it.k, chunk, script, m);
      TurnEager(t, it.k, chunk, script);
      TurnBehind(t, it.k, chunk, script);
      var r := Turn(t, it.k, chunk, script);
      VisitBehind(r.t, r.it, chunk, script, m);
    } else {
      assert t.w.slots[..|t.w.slots|] == t.w.slots;
    }
  }

  /** Holds whenever a round begins or ends: every stream that has bytes is counted. */
  ghost predicate Counted(t: Tally, m: nat) {
    Good(t.w, -1, m) && Eager(t.w, -1) && Busy(t.w.streams, t.w.slots) <= t.pending
  }

  lemma RoundCounted(t: Tally, script: Script, m: nat)
    requires WellFormed(t.w) && 0 < t.total < WORD && t.pending > 0
    requires Counted(t, m) && StopFree(script)
    ensures Counted(Round(t, script), m)
  {
    FromBegin(t.w);
    VisitBehind(Fresh(t), Begin(t.w), Chunk(t), script, m);
    RoundGood(t, script, m);
  }

  /** A round that begins with at least one byte for each stream that wants some does not wrap. */
  lemma ProductFits(busy: nat, pending: nat, each: nat, total: nat)
    requires busy <= pending && pending * each <= total
    ensures busy * each <= total
  {
    Times(busy, pending, each);
  }

  /** A chunk for each of the streams that want something does not exceed the total. */
  lemma ChunksFit(t: Tally, busy: nat)
    requires 0 < t.total < WORD && 0 < t.pending && busy <= t.pending && busy <= t.total
    ensures busy * Chunk(t) <= t.total
  {
    var each := t.total / t.pending;
    if each > 1 {
      QuotientBounds(t.total, t.pending);
      ProductFits(busy, t.pending, each, t.total);
    }
  }

  lemma RoundWraps(t: Tally, script: Script)
    requires Entered(t) && !t.wrapped
    requires Busy(t.w.streams, t.w.slots) <= t.pending
    ensures Round(t, script).wrapped ==> t.total < Busy(t.w.streams, t.w.slots)
    ensures Round(t, script).wrapped ==> Round(t, script).short
  {
    RoundPassed(t, script);
    RoundMoved(t, script);
    if Busy(t.w.streams, t.w.slots) <= t.total {
      ChunksFit(t, Busy(t.w.streams, t.w.slots));
    }
    RoundShort(t, script);
  }

  lemma RoundShort(t: Tally, script: Script)
    requires Entered(t)
    ensures Round(t, script).short == (t.short || t.total < Busy(t.w.streams, t.w.slots))
  {
    RoundPassed(t, script);
  }

  lemma {:induction false} RoundsCounted(t: Tally, script: Script, m: nat)
    requires Entered(t) && Counted(t, m) && StopFree(script)
    ensures Counted(Rounds(t, script), m)
    ensures t.short ==> Rounds(t, script).short
    ensures Rounds(t, script).wrapped && !t.wrapped ==> Rounds(t, script).short
    decreases !t.wrapped, if t.wrapped then t.pending else t.total
  {
    RoundDecreases(t, script);
    RoundCounted(t, script, m);
    RoundShort(t, script);
    if !t.wrapped { RoundWraps(t, script); }
    var r := Round(t, script);
    if r.total > 0 && r.pending > 0 {
      RoundsCounted(r, script, m);
    }
  }

  lemma {:induction false} BusyWithin(streams: seq<Stream>, slots: seq<Slot>)
    ensures Busy(streams, slots) <= |slots|
  {
    if slots != [] {
      BusyWithin(streams, slots[1..]);
    }
  }

  // ------------------------------------------------------------------------------- wake-up

  /** The timer is armed exactly once when a transfer is scheduled, and not at all otherwise. */
  ghost predicate Timed(w: World) {
    w.armed == if w.sheduled then 1 else 0
  }

  /** When no transfer is scheduled, no registered stream has a byte left. */
  ghost predicate Awake(w: World) {
    !w.sheduled ==> Busy(w.streams, w.slots) == 0
  }

  lemma TransferTimed(w: World, script: Script)
    requires Sound(w) && w.armed == 0
    ensures Timed(Transfer(w, script))
  {
    if w.slots != [] && Opening(w).total > 0 {
      RoundsSound(Opening(w), script);
    }
  }

  lemma TransferAwake(w: World, script: Script, m: nat)
    requires Sound(w) && Good(w, -1, m) && Eager(w, -1) && StopFree(script)
    ensures var w' := Transfer(w, script);
            Eager(w', -1) && Awake(w') && (w'.wrapped && !w.wrapped ==> w'.short)
  {
    if w.slots != [] {
      var t := Opening(w);
      BusyWithin(w.streams, w.slots);
      GoodElsewhere(w, t.w, m);
      if t.total > 0 {
        RoundsCounted(t, script, m);
        RoundsSound(t, script);
      }
    }
  }

  lemma HappenTimed(w: World, e: Event, script: Script)
    requires Sound(w) && Enabled(w, e) && Timed(w)
    ensures Timed(Happen(w, e, script))
  {
    match e
    case Data(i, data) =>
      if !w.sheduled { TransferTimed(Arrive(w, i, data), script); }
    case Eof(i) =>
    case Timer => TransferTimed(w.(armed := w.armed - 1), script);
    case Consumer(a) => ApplyShrinks(w, a);
  }

  /** In every run there is at most one handler waiting for the timer, and there is one exactly
      when a transfer is scheduled. */
  lemma {:induction false} RunTimed(w: World, ticks: seq<Tick>, script: Script)
    requires Sound(w) && Timed(w)
    ensures Timed(Run(w, ticks, script))
    decreases |ticks|
  {
    if ticks != [] {
      StepSound(w, ticks[0], script);
      if Enabled(Later(w, ticks[0].delay), ticks[0].event) {
        HappenTimed(Later(w, ticks[0].delay), ticks[0].event, script);
      }
      RunTimed(Step(w, ticks[0], script), ticks[1..], script);
    }
  }

  /** The state of a run whose consumers never call stop(). */
  ghost predicate Lively(w: World, m: nat) {
    && Sound(w) && Good(w, -1, m) && 0 < w.limit * 4 % WORD
    && Eager(w, -1) && Awake(w)
    && (w.wrapped ==> w.short)
  }

  lemma OnDataLively(w: World, i: nat, data: string, script: Script, m: nat)
    requires Lively(w, m) && Enabled(w, Data(i, data)) && |data| <= m && StopFree(script)
    ensures Lively(SheduleTransfer(Arrive(w, i, data), script), m)
  {
    var v := Arrive(w, i, data);
    ArriveGood(w, i, data, m);
    assert Eager(v, -1);
    if !w.sheduled {
      TransferLively(v, script, m);
    }
  }

  lemma TransferLively(w: World, script: Script, m: nat)
    requires Sound(w) && Good(w, -1, m) && 0 < w.limit * 4 % WORD && Eager(w, -1) && StopFree(script)
    requires w.wrapped ==> w.short
    ensures Lively(Transfer(w, script), m)
  {
    TransferSound(w, script);
    TransferGood(w, script, m);
    TransferAwake(w, script, m);
    TransferFlags(w, script);
  }

  lemma TransferFlags(w: World, script: Script)
    requires Sound(w)
    ensures w.short ==> Transfer(w, script).short
    ensures Transfer(w, script).limit == w.limit
  {
    if w.slots != [] && Opening(w).total > 0 {
      RoundsSound(Opening(w), script);
    }
  }

  lemma EofLively(w: World, i: nat, m: nat)
    requires Lively(w, m) && Enabled(w, Eof(i))
    ensures Lively(w.Put(i, w.streams[i].End()), m)
  {
    var v := w.Put(i, w.streams[i].End());
    EofGood(w, i, m);
    SmallerSound(w, v);
    SumsShrinkAll(w, v);
  }

  lemma ConsumerLively(w: World, a: Action, m: nat)
    requires Lively(w, m) && !a.Stop?
    ensures Lively(Apply(w, a), m)
  {
    ApplyGood(w, a, -1, m);
    ApplyShrinks(w, a);
    SmallerSound(w, Apply(w, a));
    SumsShrinkAll(w, Apply(w, a));
    ApplyEager(w, a);
  }

  lemma HappenLively(w: World, e: Event, script: Script, m: nat)
    requires Lively(w, m) && Enabled(w, e) && StopFree(script)
    requires e.Data? ==> |e.data| <= m
    requires e.Consumer? ==> !e.action.Stop?
    ensures Lively(Happen(w, e, script), m)
  {
    match e
    case Data(i, data) => OnDataLively(w, i, data, script, m);
    case Eof(i) => EofLively(w, i, m);
    case Timer =>
      GoodElsewhere(w, w.(armed := w.armed - 1), m);
      TransferLively(w.(armed := w.armed - 1), script, m);
    case Consumer(a) => ConsumerLively(w, a, m);
  }

  lemma {:induction false} RunLively(w: World, ticks: seq<Tick>, script: Script, m: nat)
    requires Lively(w, m) && StopFree(script)
    requires forall k | 0 <= k < |ticks| :: Segments(ticks[k], m)
    requires forall k | 0 <= k < |ticks| :: ticks[k].event.Consumer? ==> !ticks[k].event.action.Stop?
    ensures Lively(Run(w, ticks, script), m)
    decreases |ticks|
  {
    if ticks != [] {
      var v := Later(w, ticks[0].delay);
      GoodElsewhere(w, v, m);
      if Enabled(v, ticks[0].event) {
        HappenLively(v, ticks[0].event, script, m);
      }
      RunLively(Step(w, ticks[0], script), ticks[1..], script, m);
    }
  }
}
