/** What every reachable state of the limiter satisfies, for every consumer and every
    interleaving: the byte streams, their flow control, their ends, and the controller's list. */
module BandwidthSafety {
  import opened BandwidthModel
  import opened BandwidthRounds

  // ------------------------------------------------------------------------------ invariants

  /** Holds of a stream at all times, also while its consumer is being called.
      `m` bounds the length of a segment the wrapped socket hands over. */
  ghost predicate Flowing(s: Stream, m: nat) {
    && s.received == s.delivered + s.buffered
    && (s.reading ==> !s.paused)
    && (!s.stopped && !s.paused ==> s.reading)
    && (!s.paused ==> |s.buffered| < s.maxLength)
    && |s.buffered| < s.maxLength + m
    && (s.eofOnData ==> s.eof)
    && (s.eof && !s.eofOnData ==> s.buffered == "")
  }

  /** Holds of a stream whenever it is not inside its own `transfer`. */
  ghost predicate Settled(s: Stream, m: nat) {
    && Flowing(s, m)
    && (s.paused ==> |s.buffered| >= s.maxLength || (s.eof && s.buffered == ""))
    && s.ends == if s.eofOnData && s.buffered == "" then 1 else 0
  }

  /** Holds of a stream between the two halves of its `transfer`. */
  ghost predicate Midway(s: Stream, m: nat) {
    && Flowing(s, m)
    && s.ends == 0
    && (s.eof ==> s.eofOnData)
  }

  /** The controller's list: its nodes are distinct, a node refers only to an unclosed stream
      that holds this very node as its connection, and every unclosed stream that still exists
      owns a node. */
  ghost predicate Linked(w: World) {
    && (forall k | 0 <= k < |w.slots| :: w.slots[k].node < w.nextNode)
    && (forall j, k | 0 <= j < k < |w.slots| :: w.slots[j].node != w.slots[k].node)
    && (forall k | 0 <= k < |w.slots| && w.slots[k].ref.To? ::
          && w.slots[k].ref.id < |w.streams|
          && w.streams[w.slots[k].ref.id].conn == w.slots[k].node
          && !w.streams[w.slots[k].ref.id].closed)
    && (forall i | 0 <= i < |w.streams| ::
          w.streams[i].alive && !w.streams[i].closed ==> Slot(w.streams[i].conn, To(i)) in w.slots)
  }

  /** Number of bytes all consumers together were given. */
  function Delivered(streams: seq<Stream>): nat {
    if streams == [] then 0 else |streams[0].delivered| + Delivered(streams[1..])
  }

  /** The invariant; stream `x`, if there is one, is inside its own `transfer`. */
  ghost predicate Good(w: World, x: int, m: nat) {
    && Linked(w)
    && w.moved == Delivered(w.streams)
    && (forall i | 0 <= i < |w.streams| ::
          && 0 < w.streams[i].maxLength == w.limit * 4 % WORD
          && if i == x then Midway(w.streams[i], m) else Settled(w.streams[i], m))
  }

  /** From `w` to `w'` no stream received anything, met its end, lost or changed anything it had
      delivered, or was closed and opened again. */
  ghost predicate Flows(w: World, w': World) {
    && |w.streams| <= |w'.streams|
    && w'.limit == w.limit
    && (forall i | 0 <= i < |w.streams| ::
          && w'.streams[i].received == w.streams[i].received
          && w.streams[i].delivered <= w'.streams[i].delivered
          && w'.streams[i].eof == w.streams[i].eof
          && w'.streams[i].eofOnData == w.streams[i].eofOnData
          && (w.streams[i].closed ==> w'.streams[i].closed)
          && (w'.streams[i].alive ==> w.streams[i].alive))
    && (forall i | |w.streams| <= i < |w'.streams| :: w'.streams[i].received == "" && !w'.streams[i].eof)
  }

  lemma FlowsTwice(a: World, b: World, c: World)
    requires Flows(a, b) && Flows(b, c)
    ensures Flows(a, c)
  {
  }

  // ---------------------------------------------------------------------------- conservation

  lemma {:induction false} DeliveredPut(streams: seq<Stream>, i: nat, s: Stream)
    requires i < |streams|
    ensures Delivered(streams[i := s]) + |streams[i].delivered| == Delivered(streams) + |s.delivered|
  {
    if i > 0 {
      assert streams[i := s][1..] == streams[1..][i - 1 := s];
      DeliveredPut(streams[1..], i - 1, s);
    } else {
      assert streams[i := s][1..] == streams[1..];
    }
  }

  lemma {:induction false} DeliveredNew(streams: seq<Stream>, s: Stream)
    ensures Delivered(streams + [s]) == Delivered(streams) + |s.delivered|
  {
    if streams != [] {
      assert (streams + [s])[1..] == streams[1..] + [s];
      DeliveredNew(streams[1..], s);
    } else {
      assert (streams + [s])[1..] == [];
    }
  }

  // -------------------------------------------------------------------------------- the list

  lemma LinkedPut(w: World, i: nat, s: Stream)
    requires Linked(w) && i < |w.streams|
    requires s.conn == w.streams[i].conn && s.closed == w.streams[i].closed
    requires s.alive ==> w.streams[i].alive
    ensures Linked(w.Put(i, s))
  {
  }

  lemma LinkedCreate(w: World)
    requires Linked(w)
    ensures Linked(Apply(w, Create))
  {
    var w' := Apply(w, Create);
    assert w'.slots[|w.slots|] == Slot(w.nextNode, To(|w.streams|));
    forall i | 0 <= i < |w'.streams| && w'.streams[i].alive && !w'.streams[i].closed
      ensures Slot(w'.streams[i].conn, To(i)) in w'.slots
    {
      if i < |w.streams| {
        assert Slot(w.streams[i].conn, To(i)) in w.slots;
      }
    }
  }

  lemma LinkedClose(w: World, i: nat)
    requires Linked(w) && i < |w.streams|
    ensures Linked(Apply(w, Close(i)))
  {
    var w' := Apply(w, Close(i));
    if w.streams[i].alive && !w.streams[i].closed {
      var own :| 0 <= own < |w.slots| && w.slots[own] == Slot(w.streams[i].conn, To(i));
      forall j | 0 <= j < |w'.streams| && w'.streams[j].alive && !w'.streams[j].closed
        ensures Slot(w'.streams[j].conn, To(j)) in w'.slots
      {
        var k :| 0 <= k < |w.slots| && w.slots[k] == Slot(w.streams[j].conn, To(j));
        assert k != own;
        assert w'.slots[k] == w.slots[k];
      }
    }
  }

  lemma LinkedErase(w: World, k: nat)
    requires Linked(w) && k < |w.slots| && !Locks(w.streams, w.slots[k])
    ensures Linked(w.(slots := Erase(w.slots, k)))
  {
    var w' := w.(slots := Erase(w.slots, k));
    forall i | 0 <= i < |w.streams| && w.streams[i].alive && !w.streams[i].closed
      ensures Slot(w.streams[i].conn, To(i)) in w'.slots
    {
      var j :| 0 <= j < |w.slots| && w.slots[j] == Slot(w.streams[i].conn, To(i));
      assert j != k;
      assert w'.slots[if j < k then j else j - 1] == w.slots[j];
    }
  }

  // ------------------------------------------------------------------------- every operation

  /** Changing stream `i` alone.  Stream `x` was inside its `transfer`, now stream `y` is. */
  lemma GoodPut(w: World, i: nat, s: Stream, moved: nat, x: int, y: int, m: nat)
    requires Good(w, x, m) && i < |w.streams|
    requires x == y || (x == i && y == -1) || (x == -1 && y == i)
    requires s.conn == w.streams[i].conn && s.closed == w.streams[i].closed
    requires s.alive ==> w.streams[i].alive
    requires s.maxLength == w.streams[i].maxLength
    requires if i == y then Midway(s, m) else Settled(s, m)
    requires moved + |w.streams[i].delivered| == w.moved + |s.delivered|
    ensures Good(w.Put(i, s).(moved := moved), y, m)
  {
    DeliveredPut(w.streams, i, s);
    LinkedPut(w, i, s);
  }

  /** The same for a change that touches neither what was received nor what was delivered. */
  lemma GoodTouch(w: World, i: nat, s: Stream, x: int, y: int, m: nat)
    requires Good(w, x, m) && i < |w.streams|
    requires x == y || (x == i && y == -1)
    requires s.conn == w.streams[i].conn && s.closed == w.streams[i].closed
    requires s.alive ==> w.streams[i].alive
    requires s.maxLength == w.streams[i].maxLength
    requires s.received == w.streams[i].received && s.delivered == w.streams[i].delivered
    requires s.eof == w.streams[i].eof && s.eofOnData == w.streams[i].eofOnData
    requires if i == y then Midway(s, m) else Settled(s, m)
    ensures Good(w.Put(i, s), y, m) && Flows(w, w.Put(i, s))
  {
    GoodPut(w, i, s, w.moved, x, y, m);
    assert w.Put(i, s).(moved := w.moved) == w.Put(i, s);
  }

  lemma CreateGood(w: World, x: int, m: nat)
    requires Good(w, x, m) && 0 < w.limit * 4 % WORD && x < |w.streams|
    ensures Good(Apply(w, Create), x, m) && Flows(w, Apply(w, Create))
  {
    var s := NewStream(w.nextNode, w.limit * 4 % WORD);
    DeliveredNew(w.streams, s);
    LinkedCreate(w);
    assert Settled(s, m);
  }

  lemma CloseGood(w: World, i: nat, x: int, m: nat)
    requires Good(w, x, m) && i < |w.streams|
    ensures Good(Apply(w, Close(i)), x, m) && Flows(w, Apply(w, Close(i)))
  {
    LinkedClose(w, i);
    DeliveredPut(w.streams, i, w.streams[i].(closed := true, stopped := true, reading := false));
  }

  lemma ApplyGood(w: World, a: Action, x: int, m: nat)
    requires Good(w, x, m) && 0 < w.limit * 4 % WORD && x < |w.streams|
    ensures Good(Apply(w, a), x, m) && Flows(w, Apply(w, a))
  {
    if a.Create? {
      CreateGood(w, x, m);
    } else if a.id < |w.streams| && w.streams[a.id].alive {
      match a
      case Read(i) => GoodTouch(w, i, w.streams[i].Read(), x, x, m);
      case Stop(i) => GoodTouch(w, i, w.streams[i].Stop(), x, x, m);
      case Release(i) => GoodTouch(w, i, w.streams[i].(alive := false), x, x, m);
      case Close(i) => CloseGood(w, i, x, m);
    }
  }

  lemma {:induction false} ApplyAllGood(w: World, actions: seq<Action>, x: int, m: nat)
    requires Good(w, x, m) && 0 < w.limit * 4 % WORD && x < |w.streams|
    ensures Good(ApplyAll(w, actions), x, m) && Flows(w, ApplyAll(w, actions))
    decreases |actions|
  {
    if actions != [] {
      var w' := Apply(w, actions[0]);
      ApplyGood(w, actions[0], x, m);
      ApplyAllGood(w', actions[1..], x, m);
      FlowsTwice(w, w', ApplyAll(w, actions));
    }
  }

  lemma PublishGood(w: World, script: Script, x: int, m: nat)
    requires Good(w, x, m) && 0 < w.limit * 4 % WORD && x < |w.streams|
    ensures Good(Publish(w, script), x, m) && Flows(w, Publish(w, script))
  {
    var v := w.(events := w.events + 1);
    ApplyAllGood(v, script(w.events), x, m);
    FlowsTwice(w, v, Publish(w, script));
  }

  lemma PopKeeps(s: Stream, n: nat)
    requires n <= |s.buffered|
    ensures s.Pop(n).delivered + s.Pop(n).buffered == s.delivered + s.buffered
  {
    assert s.buffered == s.buffered[..n] + s.buffered[n..];
  }

  lemma PopFlows(w: World, i: nat, n: nat)
    requires i < |w.streams| && n <= |w.streams[i].buffered|
    ensures Flows(w, w.Put(i, w.streams[i].Pop(n)).(moved := w.moved + n))
  {
  }

  lemma PopGood(w: World, i: nat, n: nat, m: nat)
    requires Good(w, -1, m) && i < |w.streams| && w.streams[i].buffered != "" && n <= |w.streams[i].buffered|
    ensures var v := w.Put(i, w.streams[i].Pop(n)).(moved := w.moved + n); Good(v, i, m) && Flows(w, v)
  {
    PopKeeps(w.streams[i], n);
    PopFlows(w, i, n);
    GoodPut(w, i, w.streams[i].Pop(n), w.moved + n, -1, i, m);
  }

  lemma DeliverGood(w: World, i: nat, length: nat, script: Script, m: nat)
    requires Good(w, -1, m) && i < |w.streams| && w.streams[i].buffered != ""
    ensures Good(Deliver(w, i, length, script), i, m) && Flows(w, Deliver(w, i, length, script))
  {
    var n := Min(length, |w.streams[i].buffered|);
    var v := w.Put(i, w.streams[i].Pop(n)).(moved := w.moved + n);
    PopGood(w, i, n, m);
    PublishGood(v, script, i, m);
    FlowsTwice(w, v, Deliver(w, i, length, script));
  }

  lemma EndGood(w: World, i: nat, script: Script, m: nat)
    requires Good(w, i, m) && i < |w.streams| && w.streams[i].eof && w.streams[i].buffered == ""
    ensures Good(Settle(w, i, script), -1, m) && Flows(w, Settle(w, i, script))
  {
    var s := w.streams[i].(stopped := true, ends := w.streams[i].ends + 1);
    GoodTouch(w, i, s, i, -1, m);
    PublishGood(w.Put(i, s), script, -1, m);
    FlowsTwice(w, w.Put(i, s), Settle(w, i, script));
  }

  lemma SettleGood(w: World, i: nat, script: Script, m: nat)
    requires Good(w, i, m) && i < |w.streams|
    ensures Good(Settle(w, i, script), -1, m) && Flows(w, Settle(w, i, script))
  {
    var s := w.streams[i];
    if s.eof && s.buffered == "" {
      EndGood(w, i, script, m);
    } else {
      StayGood(w, i, if s.paused && |s.buffered| < s.maxLength then s.(paused := false, reading := true) else s, m);
    }
  }

  lemma StayGood(w: World, i: nat, s: Stream, m: nat)
    requires Good(w, i, m) && i < |w.streams| && !(w.streams[i].eof && w.streams[i].buffered == "")
    requires s == if w.streams[i].paused && |w.streams[i].buffered| < w.streams[i].maxLength
                  then w.streams[i].(paused := false, reading := true) else w.streams[i]
    ensures Good(w.Put(i, s), -1, m) && Flows(w, w.Put(i, s)) && (s == w.streams[i] ==> w.Put(i, s) == w)
  {
    GoodTouch(w, i, s, i, -1, m);
  }

  lemma TransferStreamGood(w: World, i: nat, length: nat, script: Script, m: nat)
    requires Good(w, -1, m) && i < |w.streams| && w.streams[i].buffered != ""
    ensures Good(TransferStream(w, i, length, script), -1, m) && Flows(w, TransferStream(w, i, length, script))
  {
    if !w.streams[i].stopped && length > 0 {
      var v := Deliver(w, i, length, script);
      DeliverShrinks(w, i, length, script);
      DeliverGood(w, i, length, script, m);
      SettleGood(v, i, script, m);
      FlowsTwice(w, v, Settle(v, i, script));
    }
  }

  lemma TurnGood(t: Tally, k: nat, chunk: nat, script: Script, m: nat)
    requires Ready(t, At(k), chunk) && Good(t.w, -1, m)
    ensures Good(Turn(t, k, chunk, script).t.w, -1, m) && Flows(t.w, Turn(t, k, chunk, script).t.w)
  {
    if !Locks(t.w.streams, t.w.slots[k]) {
      LinkedErase(t.w, k);
    } else if Waiting(t.w.streams, t.w.slots[k]) > 0 {
      TransferStreamGood(t.w, t.w.slots[k].ref.id, Min(Waiting(t.w.streams, t.w.slots[k]), chunk), script, m);
    }
  }

  lemma {:induction false} VisitGood(t: Tally, it: Iter, chunk: nat, script: Script, m: nat)
    requires Ready(t, it, chunk) && Good(t.w, -1, m)
    ensures Good(Visit(t, it, chunk, script).w, -1, m) && Flows(t.w, Visit(t, it, chunk, script).w)
    decreases Busy(t.w.streams, Ahead(it, t.w.slots)), |Ahead(it, t.w.slots)|
  {
    if it.At? {
      TurnAhead(t, it.k, chunk, script);
      TurnGood(t, it.k, chunk, script, m);
      var r := Turn(t, it.k, chunk, script);
      VisitGood(r.t, r.it, chunk, script, m);
      FlowsTwice(t.w, r.t.w, Visit(t, it, chunk, script).w);
    }
  }

  lemma RoundGood(t: Tally, script: Script, m: nat)
    requires WellFormed(t.w) && 0 < t.total < WORD && t.pending > 0 && Good(t.w, -1, m)
    ensures Good(Round(t, script).w, -1, m) && Flows(t.w, Round(t, script).w)
  {
    VisitGood(Fresh(t), Begin(t.w), Chunk(t), script, m);
  }

  lemma {:induction false} RoundsGood(t: Tally, script: Script, m: nat)
    requires Entered(t) && Good(t.w, -1, m)
    ensures Good(Rounds(t, script).w, -1, m) && Flows(t.w, Rounds(t, script).w)
    decreases !t.wrapped, if t.wrapped then t.pending else t.total
  {
    RoundPassed(t, script);
    RoundDecreases(t, script);
    RoundGood(t, script, m);
    var r := Round(t, script);
    if r.total > 0 && r.pending > 0 {
      RoundsGood(r, script, m);
      FlowsTwice(t.w, r.w, Rounds(t, script).w);
    }
  }

  /** Clock, timer and flags play no part in the invariant. */
  lemma GoodElsewhere(w: World, v: World, m: nat)
    requires Good(w, -1, m)
    requires v.streams == w.streams && v.slots == w.slots && v.nextNode == w.nextNode
    requires v.limit == w.limit && v.moved == w.moved
    ensures Good(v, -1, m)
  {
  }

  lemma FlowsElsewhere(w: World, v: World, m: nat)
    requires Good(w, -1, m)
    requires v.streams == w.streams && v.limit == w.limit
    ensures Flows(w, v)
  {
  }

  lemma TransferGood(w: World, script: Script, m: nat)
    requires Sound(w) && Good(w, -1, m)
    ensures Good(Transfer(w, script), -1, m) && Flows(w, Transfer(w, script))
  {
    var w' := Transfer(w, script);
    if w.slots == [] || Opening(w).total == 0 {
      GoodElsewhere(w, w', m);
      FlowsElsewhere(w, w', m);
    } else {
      var t := Opening(w);
      GoodElsewhere(w, t.w, m);
      FlowsElsewhere(w, t.w, m);
      RoundsGood(t, script, m);
      var r := Rounds(t, script);
      GoodElsewhere(r.w, w', m);
      FlowsElsewhere(r.w, w', m);
      FlowsTwice(w, t.w, r.w);
      FlowsTwice(w, r.w, w');
    }
  }

  /** Segments are not longer than `m`. */
  ghost predicate Segments(tick: Tick, m: nat) {
    tick.event.Data? ==> |tick.event.data| <= m
  }

  lemma ArriveGood(w: World, i: nat, data: string, m: nat)
    requires Good(w, -1, m) && Enabled(w, Data(i, data)) && |data| <= m
    ensures Good(Arrive(w, i, data), -1, m)
  {
    var s := w.streams[i].Push(data);
    assert s.received == s.delivered + s.buffered;
    GoodPut(w, i, s, w.moved, -1, -1, m);
    assert w.Put(i, s).(moved := w.moved) == w.Put(i, s);
  }

  lemma EofGood(w: World, i: nat, m: nat)
    requires Good(w, -1, m) && Enabled(w, Eof(i))
    ensures Good(w.Put(i, w.streams[i].End()), -1, m)
  {
    var s := w.streams[i].End();
    GoodPut(w, i, s, w.moved, -1, -1, m);
    assert w.Put(i, s).(moved := w.moved) == w.Put(i, s);
  }

  lemma OnDataGood(w: World, i: nat, data: string, script: Script, m: nat)
    requires Sound(w) && Good(w, -1, m) && Enabled(w, Data(i, data)) && |data| <= m
    ensures Good(SheduleTransfer(Arrive(w, i, data), script), -1, m)
    ensures SheduleTransfer(Arrive(w, i, data), script).limit == w.limit
  {
    ArriveGood(w, i, data, m);
    if !w.sheduled {
      TransferGood(Arrive(w, i, data), script, m);
    }
  }

  lemma OnTimerGood(w: World, script: Script, m: nat)
    requires Sound(w) && Good(w, -1, m) && w.armed > 0
    ensures Good(Transfer(w.(armed := w.armed - 1), script), -1, m)
    ensures Transfer(w.(armed := w.armed - 1), script).limit == w.limit
  {
    var v := w.(armed := w.armed - 1);
    GoodElsewhere(w, v, m);
    TransferGood(v, script, m);
  }

  lemma HappenGood(w: World, e: Event, script: Script, m: nat)
    requires Sound(w) && Good(w, -1, m) && 0 < w.limit * 4 % WORD && Enabled(w, e)
    requires e.Data? ==> |e.data| <= m
    ensures Good(Happen(w, e, script), -1, m) && Happen(w, e, script).limit == w.limit
  {
    match e
    case Data(i, data) => OnDataGood(w, i, data, script, m);
    case Eof(i) => EofGood(w, i, m);
    case Timer => OnTimerGood(w, script, m);
    case Consumer(a) => ApplyGood(w, a, -1, m);
  }

  lemma StepGood(w: World, tick: Tick, script: Script, m: nat)
    requires Sound(w) && Good(w, -1, m) && 0 < w.limit * 4 % WORD && Segments(tick, m)
    ensures Good(Step(w, tick, script), -1, m) && Step(w, tick, script).limit == w.limit
  {
    var v := Later(w, tick.delay);
    GoodElsewhere(w, v, m);
    if Enabled(v, tick.event) {
      HappenGood(v, tick.event, script, m);
    }
  }

  lemma {:induction false} RunGood(w: World, ticks: seq<Tick>, script: Script, m: nat)
    requires Sound(w) && Good(w, -1, m) && 0 < w.limit * 4 % WORD
    requires forall k | 0 <= k < |ticks| :: Segments(ticks[k], m)
    ensures Good(Run(w, ticks, script), -1, m) && Sound(Run(w, ticks, script))
    decreases |ticks|
  {
    if ticks != [] {
      StepSound(w, ticks[0], script);
      StepGood(w, ticks[0], script, m);
      RunGood(Step(w, ticks[0], script), ticks[1..], script, m);
    }
  }
}
