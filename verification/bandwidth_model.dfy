/** The bandwidth limiter as a state machine over values.

    `World` is everything `ControllerSimple` and its `TCPSocketBandwidth` streams hold,
    together with what has happened so far.  Every operation of the source is a function
    on worlds; the classes in bandwidth_objects.dfy are proved to compute them, and the
    theorems are about these functions.

    A consumer is called back from the middle of the controller's loop.  What it does there
    is a `Script`: `script(n)` lists what the consumer does during the n-th published event.
    A statement for all scripts is a statement for all consumers.  */
module BandwidthModel {

  /** Number of values of a 64-bit `size_t`. */
  const WORD: nat := 0x1_0000_0000_0000_0000

  /** No process can hold more buffered bytes than this: 2^56, far above any address space. */
  const MEMORY: nat := 0x100_0000_0000_0000

  /** What a `TCPSocketBandwidth` holds.  `buffered` is the unread content of its chunk queue.
      The last six fields are not in the source's class: the state of the wrapped socket,
      whether the object still exists, and the history of the stream. */
  datatype Stream = Stream(
    conn: nat,            // the list node given out by add_stream
    buffered: string,
    maxLength: nat,
    paused: bool,
    stopped: bool,
    eof: bool,
    closed: bool,
    reading: bool,        // the wrapped socket has been asked to read
    alive: bool,          // a weak reference to the stream can be locked
    received: string,     // every byte handed over by the wrapped socket
    delivered: string,    // every byte published to the consumer
    ends: nat,            // number of EndEvents published
    eofOnData: bool)      // bytes were still buffered when the end of the stream arrived
  {
    function Read(): Stream {
      this.(stopped := false, reading := !paused || reading)
    }

    function Stop(): Stream {
      this.(stopped := true, reading := paused && reading)
    }

    predicate Active() {
      !stopped || reading
    }

    function Push(data: string): Stream {
      var s := this.(buffered := buffered + data, received := received + data);
      if |s.buffered| >= maxLength then s.(paused := true, reading := false) else s
    }

    function End(): Stream {
      this.(eof := true, eofOnData := buffered != "")
    }

    function Pop(n: nat): Stream
      requires n <= |buffered|
    {
      this.(buffered := buffered[n..], delivered := delivered + buffered[..n])
    }
  }

  /** `std::weak_ptr<Stream>`; streams are numbered in the order of their creation. */
  datatype WeakRef = Null | To(id: nat)

  /** One node of the controller's `std::list`; `node` is its identity, what an iterator holds. */
  datatype Slot = Slot(node: nat, ref: WeakRef)

  datatype World = World(
    limit: nat,
    streams: seq<Stream>,
    slots: seq<Slot>,
    nextNode: nat,
    sheduled: bool,
    armed: nat,           // TimerEvent handlers waiting for the timer
    clock: nat,           // the steady clock, in nanoseconds
    last: nat,            // the mark left by the last call of Time::elapsed
    events: nat,          // number of events published so far
    moved: nat,           // number of bytes published so far
    wrapped: bool,        // some subtraction from total_to_transfer went below zero
    short: bool)          // some round began with fewer bytes to give than streams that want some
  {
    function Put(i: nat, s: Stream): World
      requires i < |streams|
    {
      this.(streams := streams[i := s])
    }
  }

  /** What a consumer can do with the sockets. */
  datatype Action = Create | Read(id: nat) | Stop(id: nat) | Close(id: nat) | Release(id: nat)

  type Script = nat -> seq<Action>

  // -------------------------------------------------------------------------------- consumer

  function NewStream(conn: nat, maxLength: nat): Stream {
    Stream(conn, "", maxLength, false, true, false, false, false, true, "", "", 0, false)
  }

  /** remove_stream: the node stays in the list and loses its reference. */
  function Unlink(slots: seq<Slot>, node: nat): (r: seq<Slot>)
    ensures |r| == |slots|
  {
    seq(|slots|, k requires 0 <= k < |slots| =>
      if slots[k].node == node then slots[k].(ref := Null) else slots[k])
  }

  function Apply(w: World, a: Action): World {
    if a.Create? then
      w.(streams := w.streams + [NewStream(w.nextNode, w.limit * 4 % WORD)],
         slots := w.slots + [Slot(w.nextNode, To(|w.streams|))],
         nextNode := w.nextNode + 1)
    else if a.id >= |w.streams| || !w.streams[a.id].alive then
      w
    else
      var s := w.streams[a.id];
      match a
      case Read(i) => w.Put(i, s.Read())
      case Stop(i) => w.Put(i, s.Stop())
      case Release(i) => w.Put(i, s.(alive := false))
      case Close(i) =>
        if s.closed then w
        else w.Put(i, s.(closed := true, stopped := true, reading := false)).(slots := Unlink(w.slots, s.conn))
  }

  function ApplyAll(w: World, actions: seq<Action>): World
    decreases |actions|
  {
    if actions == [] then w else ApplyAll(Apply(w, actions[0]), actions[1..])
  }

  /** Publishing an event runs whatever the consumer does in its handler. */
  function Publish(w: World, script: Script): World {
    ApplyAll(w.(events := w.events + 1), script(w.events))
  }

  // ---------------------------------------------------------------------------------- stream

  function Min(a: nat, b: nat): nat {
    if a < b then a else b
  }

  /** TCPSocketBandwidth::transfer up to and including the publication of the DataEvent. */
  function Deliver(w: World, i: nat, length: nat, script: Script): World
    requires i < |w.streams|
  {
    var n := Min(length, |w.streams[i].buffered|);
    Publish(w.Put(i, w.streams[i].Pop(n)).(moved := w.moved + n), script)
  }

  /** The rest of TCPSocketBandwidth::transfer. */
  function Settle(w: World, i: nat, script: Script): World
    requires i < |w.streams|
  {
    var s := w.streams[i];
    if s.eof && s.buffered == "" then
      Publish(w.Put(i, s.(stopped := true, ends := s.ends + 1)), script)
    else if s.paused && |s.buffered| < s.maxLength then
      w.Put(i, s.(paused := false, reading := true))
    else
      w
  }

  function TransferStream(w: World, i: nat, length: nat, script: Script): World
    requires i < |w.streams|
  {
    if w.streams[i].stopped || length == 0 then
      w
    else
      DeliverShrinks(w, i, length, script);
      Settle(Deliver(w, i, length, script), i, script)
  }

  // -------------------------------------------------------------------------- slots and sums

  /** Every reference in the list is to a stream that was once created. */
  predicate WellFormed(w: World) {
    forall k | 0 <= k < |w.slots| :: w.slots[k].ref.To? ==> w.slots[k].ref.id < |w.streams|
  }

  predicate Locks(streams: seq<Stream>, slot: Slot) {
    slot.ref.To? && slot.ref.id < |streams| && streams[slot.ref.id].alive
  }

  /** Bytes waiting in the stream a list node refers to. */
  function Waiting(streams: seq<Stream>, slot: Slot): nat {
    if Locks(streams, slot) then |streams[slot.ref.id].buffered| else 0
  }

  function Buffered(streams: seq<Stream>, slots: seq<Slot>): nat {
    if slots == [] then 0 else Waiting(streams, slots[0]) + Buffered(streams, slots[1..])
  }

  /** Number of registered streams that have bytes to give. */
  function Busy(streams: seq<Stream>, slots: seq<Slot>): nat {
    if slots == [] then 0
    else (if Waiting(streams, slots[0]) > 0 then 1 else 0) + Busy(streams, slots[1..])
  }

  ghost predicate SameController(w: World, w': World) {
    && w'.limit == w.limit && w'.sheduled == w.sheduled && w'.armed == w.armed
    && w'.clock == w.clock && w'.last == w.last && w'.wrapped == w.wrapped && w'.short == w.short
  }

  /** How a list looks to the sums above after some steps: some streams gave bytes away or
      vanished, some nodes lost their reference, and new nodes refer to new, empty streams. */
  ghost predicate Shrinks(w: World, w': World) {
    && SameController(w, w')
    && |w.streams| <= |w'.streams|
    && |w.slots| <= |w'.slots|
    && (forall i | 0 <= i < |w.streams| ::
          && |w'.streams[i].buffered| <= |w.streams[i].buffered|
          && (w'.streams[i].alive ==> w.streams[i].alive))
    && (forall i | |w.streams| <= i < |w'.streams| :: w'.streams[i].buffered == "")
    && (forall k | 0 <= k < |w.slots| ::
          && w'.slots[k].node == w.slots[k].node
          && (w'.slots[k].ref == w.slots[k].ref || w'.slots[k].ref == Null))
    && (forall k | |w.slots| <= k < |w'.slots| ::
          w'.slots[k].ref.To? ==> |w.streams| <= w'.slots[k].ref.id < |w'.streams|)
  }

  lemma PutShrinks(w: World, i: nat, s: Stream)
    requires i < |w.streams| && |s.buffered| <= |w.streams[i].buffered| && (s.alive ==> w.streams[i].alive)
    ensures Shrinks(w, w.Put(i, s))
  {
  }

  lemma CreateShrinks(w: World)
    ensures Shrinks(w, Apply(w, Create))
  {
  }

  lemma CloseShrinks(w: World, i: nat)
    requires i < |w.streams|
    ensures Shrinks(w, Apply(w, Close(i)))
  {
  }

  lemma ApplyShrinks(w: World, a: Action)
    ensures Shrinks(w, Apply(w, a))
  {
    if a.Create? {
      CreateShrinks(w);
    } else if a.id < |w.streams| && w.streams[a.id].alive {
      match a
      case Read(i) => PutShrinks(w, i, w.streams[i].Read());
      case Stop(i) => PutShrinks(w, i, w.streams[i].Stop());
      case Release(i) => PutShrinks(w, i, w.streams[i].(alive := false));
      case Close(i) => CloseShrinks(w, i);
    } else {
      PutNothing(w, a);
    }
  }

  lemma PutNothing(w: World, a: Action)
    requires !a.Create? && (a.id >= |w.streams| || !w.streams[a.id].alive)
    ensures Apply(w, a) == w && Shrinks(w, w)
  {
  }

  lemma ShrinksTwice(a: World, b: World, c: World)
    requires Shrinks(a, b) && Shrinks(b, c)
    ensures Shrinks(a, c)
  {
  }

  lemma {:induction false} ApplyAllShrinks(w: World, actions: seq<Action>)
    ensures Shrinks(w, ApplyAll(w, actions))
    decreases |actions|
  {
    if actions != [] {
      ApplyShrinks(w, actions[0]);
      ApplyAllShrinks(Apply(w, actions[0]), actions[1..]);
      ShrinksTwice(w, Apply(w, actions[0]), ApplyAll(w, actions));
    }
  }

  lemma PublishShrinks(w: World, script: Script)
    ensures Shrinks(w, Publish(w, script))
  {
    ApplyAllShrinks(w.(events := w.events + 1), script(w.events));
  }

  lemma DeliverShrinks(w: World, i: nat, length: nat, script: Script)
    requires i < |w.streams|
    ensures Shrinks(w, Deliver(w, i, length, script))
  {
    var n := Min(length, |w.streams[i].buffered|);
    PublishShrinks(w.Put(i, w.streams[i].Pop(n)).(moved := w.moved + n), script);
  }

  lemma SettleShrinks(w: World, i: nat, script: Script)
    requires i < |w.streams|
    ensures Shrinks(w, Settle(w, i, script))
  {
    var s := w.streams[i];
    PublishShrinks(w.Put(i, s.(stopped := true, ends := s.ends + 1)), script);
  }

  lemma TransferStreamShrinks(w: World, i: nat, length: nat, script: Script)
    requires i < |w.streams|
    ensures Shrinks(w, TransferStream(w, i, length, script))
    ensures WellFormed(w) ==> WellFormed(TransferStream(w, i, length, script))
  {
    if !w.streams[i].stopped && length > 0 {
      DeliverShrinks(w, i, length, script);
      SettleShrinks(Deliver(w, i, length, script), i, script);
    }
  }

  lemma {:induction false} SumsConcat(streams: seq<Stream>, a: seq<Slot>, b: seq<Slot>)
    ensures Buffered(streams, a + b) == Buffered(streams, a) + Buffered(streams, b)
    ensures Busy(streams, a + b) == Busy(streams, a) + Busy(streams, b)
  {
    if a == [] {
      assert a + b == b;
    } else {
      assert (a + b)[1..] == a[1..] + b;
      SumsConcat(streams, a[1..], b);
    }
  }

  /** The sums over any stretch of the list do not grow. */
  lemma {:induction false} SumsShrink(w: World, w': World, lo: nat, hi: nat)
    requires Shrinks(w, w') && WellFormed(w)
    requires lo <= hi <= |w.slots|
    ensures Buffered(w'.streams, w'.slots[lo..hi]) <= Buffered(w.streams, w.slots[lo..hi])
    ensures Busy(w'.streams, w'.slots[lo..hi]) <= Busy(w.streams, w.slots[lo..hi])
    decreases hi - lo
  {
    if lo < hi {
      SumsShrink(w, w', lo + 1, hi);
      assert w.slots[lo..hi][1..] == w.slots[lo + 1..hi];
      assert w'.slots[lo..hi][1..] == w'.slots[lo + 1..hi];
    }
  }

  lemma {:induction false} SumsOfNew(w: World, w': World, lo: nat)
    requires Shrinks(w, w')
    requires |w.slots| <= lo <= |w'.slots|
    ensures Buffered(w'.streams, w'.slots[lo..]) == 0
    ensures Busy(w'.streams, w'.slots[lo..]) == 0
    decreases |w'.slots| - lo
  {
    if lo < |w'.slots| {
      SumsOfNew(w, w', lo + 1);
      assert w'.slots[lo..][1..] == w'.slots[lo + 1..];
    }
  }

  lemma TailsShrink(w: World, w': World, lo: nat)
    requires Shrinks(w, w') && WellFormed(w)
    requires lo <= |w.slots|
    ensures Buffered(w'.streams, w'.slots[lo..]) <= Buffered(w.streams, w.slots[lo..])
    ensures Busy(w'.streams, w'.slots[lo..]) <= Busy(w.streams, w.slots[lo..])
  {
    var n := |w.slots|;
    SumsShrink(w, w', lo, n);
    SumsOfNew(w, w', n);
    assert w'.slots[lo..] == w'.slots[lo..n] + w'.slots[n..];
    SumsConcat(w'.streams, w'.slots[lo..n], w'.slots[n..]);
    assert w.slots[lo..] == w.slots[lo..n];
  }

  // ------------------------------------------------------------------------------ controller

  /** The controller's loop cursor.  A node appended while the cursor is past the end is not
      seen by it; that is why the end is not a position. */
  datatype Iter = At(k: nat) | End

  function Forward(k: nat, slots: seq<Slot>): Iter {
    if k < |slots| then At(k) else End
  }

  function Index(it: Iter, slots: seq<Slot>): nat {
    match it case At(k) => k case End => |slots|
  }

  predicate ValidIter(it: Iter, slots: seq<Slot>) {
    it.At? ==> it.k < |slots|
  }

  /** The local variables of ControllerSimple::transfer; `charged` is the sum of all
      subtractions made so far. */
  datatype Tally = Tally(w: World, total: nat, pending: nat, charged: nat, wrapped: bool, short: bool)

  /** `total - n` on `size_t`. */
  function Minus(total: nat, n: nat): nat
    requires total < WORD && n <= WORD
  {
    if n <= total then total - n else total + WORD - n
  }

  function Erase(slots: seq<Slot>, k: nat): seq<Slot>
    requires k < |slots|
  {
    slots[..k] + slots[k + 1..]
  }

  /** One turn of the inner loop on a node whose stream has `n` bytes to give in this round. */
  function Charge(t: Tally, i: nat, n: nat, script: Script): Tally
    requires i < |t.w.streams| && t.total < WORD && n <= WORD
  {
    Tally(TransferStream(t.w, i, n, script), Minus(t.total, n),
          if |t.w.streams[i].buffered| > n then t.pending + 1 else t.pending,
          t.charged + n, t.wrapped || t.total < n, t.short)
  }

  lemma EraseDead(w: World, k: nat)
    requires k < |w.slots| && !Locks(w.streams, w.slots[k])
    ensures Buffered(w.streams, Erase(w.slots, k)) == Buffered(w.streams, w.slots)
    ensures Busy(w.streams, Erase(w.slots, k)) == Busy(w.streams, w.slots)
    ensures Buffered(w.streams, Erase(w.slots, k)[k..]) == Buffered(w.streams, w.slots[k..])
    ensures Busy(w.streams, Erase(w.slots, k)[k..]) == Busy(w.streams, w.slots[k..])
  {
    assert w.slots == w.slots[..k] + w.slots[k..];
    SumsConcat(w.streams, w.slots[..k], w.slots[k..]);
    SumsConcat(w.streams, w.slots[..k], w.slots[k + 1..]);
    assert w.slots[k..][1..] == w.slots[k + 1..];
    assert Erase(w.slots, k)[k..] == w.slots[k + 1..];
  }

  /** The part of the list the cursor has not passed. */
  function Ahead(it: Iter, slots: seq<Slot>): seq<Slot>
    requires ValidIter(it, slots)
  {
    slots[Index(it, slots)..]
  }

  lemma AheadOf(streams: seq<Stream>, slots: seq<Slot>, k: nat)
    requires k < |slots|
    ensures Ahead(Forward(k + 1, slots), slots) == slots[k..][1..]
    ensures Busy(streams, slots[k..]) ==
            (if Waiting(streams, slots[k]) > 0 then 1 else 0) + Busy(streams, Ahead(Forward(k + 1, slots), slots))
    ensures Buffered(streams, slots[k..]) ==
            Waiting(streams, slots[k]) + Buffered(streams, Ahead(Forward(k + 1, slots), slots))
  {
    assert slots[k..][1..] == slots[k + 1..];
  }

  lemma AheadShrinks(w: World, w': World, it: Iter)
    requires Shrinks(w, w') && WellFormed(w) && ValidIter(it, w.slots)
    ensures ValidIter(it, w'.slots)
    ensures Buffered(w'.streams, Ahead(it, w'.slots)) <= Buffered(w.streams, Ahead(it, w.slots))
    ensures Busy(w'.streams, Ahead(it, w'.slots)) <= Busy(w.streams, Ahead(it, w.slots))
  {
    if it.At? {
      TailsShrink(w, w', it.k);
    }
  }

  lemma ChargeAhead(w: World, k: nat, n: nat, script: Script)
    requires WellFormed(w) && k < |w.slots| && Locks(w.streams, w.slots[k])
    requires 0 < n <= Waiting(w.streams, w.slots[k])
    ensures
      var next, w' := Forward(k + 1, w.slots), TransferStream(w, w.slots[k].ref.id, n, script);
      && WellFormed(w') && ValidIter(next, w'.slots)
      && Busy(w'.streams, Ahead(next, w'.slots)) + 1 <= Busy(w.streams, w.slots[k..])
      && Buffered(w'.streams, Ahead(next, w'.slots)) + Waiting(w.streams, w.slots[k])
         <= Buffered(w.streams, w.slots[k..])
  {
    TransferStreamShrinks(w, w.slots[k].ref.id, n, script);
    AheadOf(w.streams, w.slots, k);
    AheadShrinks(w, TransferStream(w, w.slots[k].ref.id, n, script), Forward(k + 1, w.slots));
  }

  /** Where the inner loop stands. */
  datatype Turned = Turned(t: Tally, it: Iter)

  predicate Ready(t: Tally, it: Iter, chunk: nat) {
    WellFormed(t.w) && ValidIter(it, t.w.slots) && t.total < WORD && 0 < chunk < WORD
  }

  /** One turn of the inner loop. */
  function Turn(t: Tally, k: nat, chunk: nat, script: Script): Turned
    requires Ready(t, At(k), chunk)
  {
    var w := t.w;
    if Locks(w.streams, w.slots[k]) then
      var next := Forward(k + 1, w.slots);
      var n := Min(Waiting(w.streams, w.slots[k]), chunk);
      if n == 0 then Turned(t, next) else Turned(Charge(t, w.slots[k].ref.id, n, script), next)
    else
      var slots := Erase(w.slots, k);
      Turned(t.(w := w.(slots := slots)), Forward(k, slots))
  }

  /** The cursor has moved on from node `k` of `w`: what was ahead of it has become less. */
  ghost predicate Advanced(w: World, k: nat, w': World, it: Iter)
    requires k < |w.slots| && ValidIter(it, w'.slots)
  {
    && Buffered(w'.streams, Ahead(it, w'.slots)) + Waiting(w.streams, w.slots[k]) <= Buffered(w.streams, w.slots[k..])
    && (if Waiting(w.streams, w.slots[k]) > 0
        then Busy(w'.streams, Ahead(it, w'.slots)) < Busy(w.streams, w.slots[k..])
        else Busy(w'.streams, Ahead(it, w'.slots)) == Busy(w.streams, w.slots[k..])
             && |Ahead(it, w'.slots)| < |w.slots[k..]|)
  }

  lemma EraseAdvances(w: World, k: nat)
    requires k < |w.slots| && !Locks(w.streams, w.slots[k])
    ensures var slots := Erase(w.slots, k); Advanced(w, k, w.(slots := slots), Forward(k, slots))
  {
    EraseDead(w, k);
  }

  lemma SkipAdvances(w: World, k: nat)
    requires k < |w.slots| && Waiting(w.streams, w.slots[k]) == 0
    ensures Advanced(w, k, w, Forward(k + 1, w.slots))
  {
    AheadOf(w.streams, w.slots, k);
  }

  /** What one turn leaves ahead of the cursor. */
  lemma TurnAhead(t: Tally, k: nat, chunk: nat, script: Script)
    requires Ready(t, At(k), chunk)
    ensures var r := Turn(t, k, chunk, script); Ready(r.t, r.it, chunk) && Advanced(t.w, k, r.t.w, r.it)
  {
    var n := Min(Waiting(t.w.streams, t.w.slots[k]), chunk);
    if !Locks(t.w.streams, t.w.slots[k]) {
      EraseAdvances(t.w, k);
    } else if n > 0 {
      ChargeAhead(t.w, k, n, script);
    } else {
      SkipAdvances(t.w, k);
    }
  }

  /** The inner loop from `it` to the end of the list. */
  function Visit(t: Tally, it: Iter, chunk: nat, script: Script): Tally
    requires Ready(t, it, chunk)
    decreases Busy(t.w.streams, Ahead(it, t.w.slots)), |Ahead(it, t.w.slots)|
  {
    if it.End? then t
    else
      TurnAhead(t, it.k, chunk, script);
      var r := Turn(t, it.k, chunk, script);
      Visit(r.t, r.it, chunk, script)
  }
}
