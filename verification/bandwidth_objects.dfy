/** The source's classes, updated in place, computing the functions of the model. */
module BandwidthObjects {
  import opened BandwidthModel
  import opened BandwidthRounds
  import opened DataChunks

  class TCPSocketBandwidth {
    const id: nat
    const conn: nat
    var bufferUsed: nat
    var bufferMaxLength: nat
    var paused: bool
    var stopped: bool
    var eof: bool
    var closed: bool
    var buffer: seq<DataChunk>
    var socketReading: bool        // the wrapped socket was last asked to read
    var alive: bool                // some shared_ptr still holds the object
    ghost var received: string
    ghost var delivered: string
    ghost var ends: nat
    ghost var eofOnData: bool

    ghost predicate Valid()
      reads this
    {
      ValidChunks(buffer) && bufferUsed == |Content(buffer)|
    }

    ghost function View(): Stream
      requires Valid()
      reads this
    {
      Stream(conn, Content(buffer), bufferMaxLength, paused, stopped, eof, closed, socketReading, alive,
             received, delivered, ends, eofOnData)
    }

    constructor (id: nat, conn: nat)
      ensures this.id == id && this.conn == conn
      ensures Valid() && View() == NewStream(conn, 0)
    {
      this.id, this.conn := id, conn;
      bufferUsed, bufferMaxLength, buffer := 0, 0, [];
      paused, stopped, eof, closed := false, true, false, false;
      socketReading, alive := false, true;
      received, delivered, ends, eofOnData := "", "", 0, false;
    }

    method SetBuffer(length: nat)
      requires Valid()
      modifies this
      ensures Valid() && View() == old(View()).(maxLength := length)
    {
      bufferMaxLength := length;
    }

    method Available() returns (n: nat)
      requires Valid()
      ensures n == |View().buffered|
    {
      n := bufferUsed;
    }

    method Read()
      requires Valid()
      modifies this
      ensures Valid() && View() == old(View()).Read()
    {
      stopped := false;
      if !paused {
        socketReading := true;
      }
    }

    method Stop()
      requires Valid()
      modifies this
      ensures Valid() && View() == old(View()).Stop()
    {
      stopped := true;
      if !paused {
        socketReading := false;
      }
    }

    method Active() returns (active: bool)
      requires Valid()
      ensures active == View().Active()
    {
      active := !stopped || socketReading;
    }

    method Release()
      requires Valid()
      modifies this
      ensures Valid() && View() == old(View()).(alive := false)
    {
      alive := false;
    }

    method Close(controller: ControllerSimple)
      requires Valid()
      modifies this, controller`streams
      ensures Valid()
      ensures View() == if old(closed) then old(View())
                        else old(View()).(closed := true, stopped := true, reading := false)
      ensures controller.streams ==
              if old(closed) then old(controller.streams) else Unlink(old(controller.streams), conn)
    {
      if !closed {
        closed, stopped := true, true;
        controller.RemoveStream(conn);
        socketReading := false;
      }
    }

    /** The body of the loop below: what the first chunk has goes to `data`, as far as there is room. */
    method PopChunk(data: array<char>, offset: nat, length: nat, ghost all: string) returns (n: nat)
      requires ValidChunks(buffer) && 0 < length && offset + length <= data.Length <= |all|
      requires Content(buffer) == all[offset..]
      modifies data, this`buffer
      ensures n <= length && ValidChunks(buffer) && (n == 0 ==> |buffer| < old(|buffer|))
      ensures offset + n <= |all| && Content(buffer) == all[offset + n..]
      ensures forall k :: 0 <= k < offset ==> data[k] == old(data[k])
      ensures forall k :: offset <= k < offset + n ==> data[k] == all[k]
    {
      var chunk := buffer[0];
      var available := |chunk.data| - chunk.offset;
      n := if length < available then length else available;
      Front(all, offset, buffer, n);
      forall k | 0 <= k < n {
        data[offset + k] := chunk.Rest()[k];
      }
      if length < available {
        buffer := [chunk.(offset := chunk.offset + length)] + buffer[1..];
      } else {
        buffer := buffer[1..];
      }
    }

    method PopInto(data: array<char>, ghost all: string)
      requires ValidChunks(buffer) && 0 < data.Length <= |all| && Content(buffer) == all
      modifies data, this`buffer
      ensures ValidChunks(buffer) && Content(buffer) == all[data.Length..]
      ensures forall k :: 0 <= k < data.Length ==> data[k] == all[k]
    {
      var offset := 0;
      while offset < data.Length
        invariant offset <= data.Length
        invariant ValidChunks(buffer) && Content(buffer) == all[offset..]
        invariant forall k :: 0 <= k < offset ==> data[k] == all[k]
        decreases data.Length - offset, |buffer|
      {
        var n := PopChunk(data, offset, data.Length - offset, all);
        offset := offset + n;
      }
    }

    /** Takes `length` bytes from the front of the queue, across the borders of its chunks. */
    method PopBuffer(length: nat) returns (data: array<char>)
      requires ValidChunks(buffer) && 0 < length <= |Content(buffer)|
      modifies this`buffer
      ensures fresh(data) && ValidChunks(buffer)
      ensures data[..] == old(Content(buffer))[..length]
      ensures Content(buffer) == old(Content(buffer))[length..]
    {
      data := new char[length](_ => ' ');
      PopInto(data, Content(buffer));
    }

    ghost predicate Of(controller: ControllerSimple)
      reads this, controller, controller.objects
    {
      controller.Valid() && id < |controller.objects| && controller.objects[id] == this
    }

    /** `world` says what `this` holds now, and no other object has changed. */
    twostate lemma KeepsOthers(controller: ControllerSimple)
      requires old(Of(controller)) && controller.objects == old(controller.objects)
      requires Valid() && forall o | o in controller.objects && o != this :: unchanged(o)
      requires controller.world == old(controller.world).Put(id, View())
               .(moved := controller.world.moved, sheduled := controller.world.sheduled)
      requires unchanged(controller`clock) && unchanged(controller`last) && unchanged(controller`streams)
      requires unchanged(controller`nextNode) && unchanged(controller`sheduled) && unchanged(controller`armed)
      requires unchanged(controller`events) && controller.world.sheduled == controller.sheduled
      ensures controller.Valid()
    {
      forall i | 0 <= i < |controller.objects|
        ensures controller.objects[i].id == i && controller.objects[i].Valid()
        ensures controller.objects[i].View() == controller.world.streams[i]
      {
        assert old(controller.objects[i].id == i && controller.objects[i].Valid());
        if i != id {
          assert controller.objects[i] in controller.objects && controller.objects[i] != this;
        }
      }
    }

    method TakeOut(n: nat, controller: ControllerSimple) returns (data: array<char>)
      requires Of(controller) && 0 < n <= bufferUsed
      modifies this, controller`world
      ensures Of(controller) && controller.objects == old(controller.objects)
      ensures data[..] == old(View().buffered)[..n]
      ensures controller.world ==
              old(controller.world).Put(id, old(View()).Pop(n)).(moved := old(controller.world).moved + n)
    {
      data := PopBuffer(n);
      bufferUsed := bufferUsed - n;
      delivered := delivered + data[..];
      controller.world := controller.world.Put(id, View()).(moved := controller.world.moved + n);
      KeepsOthers(controller);
    }

    method Finish(controller: ControllerSimple)
      requires Of(controller)
      modifies this, controller`world
      ensures Of(controller) && controller.objects == old(controller.objects)
      ensures controller.world ==
              old(controller.world).Put(id, old(View()).(stopped := true, ends := old(ends) + 1))
    {
      stopped := true;
      ends := ends + 1;
      controller.world := controller.world.Put(id, View());
      KeepsOthers(controller);
    }

    method Resume(controller: ControllerSimple)
      requires Of(controller)
      modifies this, controller`world
      ensures Of(controller) && controller.objects == old(controller.objects)
      ensures controller.world == old(controller.world).Put(id, old(View()).(paused := false, reading := true))
    {
      paused := false;
      socketReading := true;
      controller.world := controller.world.Put(id, View());
      KeepsOthers(controller);
    }

    /** Hands the next bytes to the consumer, which may do anything in its handler. */
    method Hand(length: nat, controller: ControllerSimple, script: Script)
      requires Of(controller) && bufferUsed > 0 && length > 0
      modifies controller, controller.objects
      ensures Of(controller) && controller.Grown()
      ensures controller.world == Deliver(old(controller.world), id, length, script)
    {
      var n := if length < bufferUsed then length else bufferUsed;
      DeliverShrinks(controller.world, id, length, script);
      var data := TakeOut(n, controller);
      controller.Call(script);
    }

    /** Reports the end after the last byte, or resumes the wrapped socket. */
    method AfterHand(controller: ControllerSimple, script: Script)
      requires Of(controller)
      modifies controller, controller.objects
      ensures Of(controller) && controller.Grown()
      ensures controller.world == Settle(old(controller.world), id, script)
    {
      if eof && bufferUsed == 0 {
        Finish(controller);
        controller.Call(script);
      } else if paused && bufferUsed < bufferMaxLength {
        Resume(controller);
      }
    }

    method Transfer(length: nat, controller: ControllerSimple, script: Script)
      requires Of(controller) && (stopped || length == 0 || bufferUsed > 0)
      modifies controller, controller.objects
      ensures controller.Valid() && controller.Grown()
      ensures controller.world == TransferStream(old(controller.world), id, length, script)
    {
      if stopped || length == 0 {
        return;
      }
      Hand(length, controller, script);
      AfterHand(controller, script);
    }

    /** on_data, as far as the stream is concerned. */
    method Push(data: string)
      requires Valid()
      modifies this
      ensures Valid() && View() == old(View()).Push(data)
    {
      ContentPush(buffer, DataChunk(data, 0));
      buffer := buffer + [DataChunk(data, 0)];
      bufferUsed := bufferUsed + |data|;
      received := received + data;
      if bufferUsed >= bufferMaxLength {
        paused := true;
        socketReading := false;
      }
    }

    method Store(data: string, controller: ControllerSimple)
      requires Of(controller)
      modifies this, controller`world
      ensures Of(controller) && controller.objects == old(controller.objects)
      ensures controller.world == Arrive(old(controller.world), id, data)
    {
      Push(data);
      controller.world := Arrive(controller.world, id, data);
      KeepsOthers(controller);
    }

    /** The wrapped socket hands over a segment. */
    method OnData(data: string, controller: ControllerSimple, script: Script)
      requires Of(controller) && Sound(controller.world) && Enabled(controller.world, Data(id, data))
      modifies controller, controller.objects
      ensures controller.Valid() && controller.Grown()
      ensures controller.world == Happen(old(controller.world), Data(id, data), script)
    {
      Store(data, controller);
      controller.SheduleTransfer(script);
    }

    /** The wrapped socket reports the end of its stream. */
    method OnEnd(controller: ControllerSimple)
      requires Of(controller)
      modifies this, controller`world
      ensures Of(controller) && controller.objects == old(controller.objects)
      ensures controller.world == old(controller.world).Put(id, old(View()).End())
    {
      eof := true;
      eofOnData := bufferUsed > 0;
      controller.world := controller.world.Put(id, View());
      KeepsOthers(controller);
    }

    /** `n` bytes of the first chunk, and what is left without them. */
    static lemma Front(all: string, offset: nat, buffer: seq<DataChunk>, n: nat)
      requires ValidChunks(buffer) && buffer != [] && offset <= |all| && Content(buffer) == all[offset..]
      requires n <= |buffer[0].Rest()|
      ensures offset + n <= |all|
      ensures forall k :: 0 <= k < n ==> buffer[0].Rest()[k] == all[offset + k]
      ensures n == |buffer[0].Rest()| ==> Content(buffer[1..]) == all[offset + n..]
      ensures var rest := [buffer[0].(offset := buffer[0].offset + n)] + buffer[1..];
              ValidChunks(rest) && Content(rest) == all[offset + n..]
    {
      var first, others, used := buffer[0].Rest(), Content(buffer[1..]), buffer[0].(offset := buffer[0].offset + n);
      Drop(all, offset, n, first, others);
      RestOf(buffer[0], n, used);
      assert ([used] + buffer[1..])[1..] == buffer[1..];
    }

    static lemma RestOf(chunk: DataChunk, n: nat, used: DataChunk)
      requires chunk.Valid() && n <= |chunk.Rest()| && used == chunk.(offset := chunk.offset + n)
      ensures used.Valid() && used.Rest() == chunk.Rest()[n..]
    {
    }

    static lemma Drop(all: string, offset: nat, n: nat, first: string, others: string)
      requires offset <= |all| && all[offset..] == first + others && n <= |first|
      ensures offset + n <= |all| && all[offset + n..] == first[n..] + others
      ensures forall k :: 0 <= k < n ==> first[k] == all[offset + k]
      ensures n == |first| ==> all[offset + n..] == others
    {
      assert all[offset + n..] == all[offset..][n..];
      assert forall k :: 0 <= k < n ==> first[k] == all[offset..][k];
    }
  }

  class ControllerSimple {
    const limit: nat
    var clock: nat                          // the steady clock
    var last: nat                           // Time's mark
    var streams: seq<Slot>
    var nextNode: nat                       // identity of the next list node
    var sheduled: bool
    var armed: nat                          // handlers waiting for the timer
    var events: nat
    var objects: seq<TCPSocketBandwidth>    // every stream object ever made
    ghost var world: World

    /** The fields and the stream objects hold exactly what the model's world says. */
    ghost predicate Valid()
      reads this, objects
    {
      && world.limit == limit && world.clock == clock && world.last == last
      && world.slots == streams && world.nextNode == nextNode
      && world.sheduled == sheduled && world.armed == armed && world.events == events
      && |world.streams| == |objects|
      && forall i | 0 <= i < |objects| ::
           objects[i].id == i && objects[i].Valid() && objects[i].View() == world.streams[i]
    }

    /** Objects made since are new. */
    twostate predicate Grown()
      reads this
    {
      && old(objects) <= objects
      && forall i | |old(objects)| <= i < |objects| :: fresh(objects[i])
    }

    constructor (limit: nat)
      ensures Valid() && world == Init(limit) && objects == []
    {
      this.limit := limit;
      clock, last, streams, nextNode, sheduled, armed, events, objects := 0, 0, [], 0, false, 0, 0, [];
      world := Init(limit);
    }

    method AddStream()
      requires Valid()
      modifies this
      ensures Valid() && Grown() && world == Apply(old(world), Create)
    {
      var stream := new TCPSocketBandwidth(|objects|, nextNode);
      stream.SetBuffer(limit * 4 % WORD);
      streams := streams + [Slot(nextNode, To(|objects|))];
      nextNode := nextNode + 1;
      objects := objects + [stream];
      world := Apply(world, Create);
    }

    method RemoveStream(conn: nat)
      modifies this`streams
      ensures streams == Unlink(old(streams), conn)
    {
      streams := Unlink(streams, conn);
    }

    method ActOn(stream: TCPSocketBandwidth, a: Action, ghost w: World)
      requires stream.Valid() && stream.alive && !a.Create?
      requires a.id < |w.streams| && w.streams[a.id] == stream.View() && w.slots == streams
      modifies stream, this`streams
      ensures stream.Valid()
      ensures stream.View() == Apply(w, a).streams[a.id] && streams == Apply(w, a).slots
    {
      match a {
        case Read(_) => stream.Read();
        case Stop(_) => stream.Stop();
        case Release(_) => stream.Release();
        case Close(_) => stream.Close(this);
      }
    }

    /** What a consumer does with one of the objects it was given. */
    method Act(a: Action)
      requires Valid()
      modifies this, objects
      ensures Valid() && Grown() && world == Apply(old(world), a)
    {
      if a.Create? {
        AddStream();
      } else if a.id < |objects| && objects[a.id].alive {
        Alone(a.id);
        ApplyElsewhere(world, a);
        ActOn(objects[a.id], a, world);
        world := Apply(world, a);
        Acted(a.id);
      }
    }

    lemma Alone(i: nat)
      requires Valid() && i < |objects|
      ensures forall o | o in objects && o != objects[i] :: o.id != i
    {
    }

    /** One object and the list were changed, and `world` says so. */
    twostate lemma Acted(i: nat)
      requires old(Valid()) && objects == old(objects) && i < |objects| && objects[i].Valid()
      requires forall o | o in objects && o != objects[i] :: unchanged(o)
      requires world == old(world).(streams := old(world.streams)[i := objects[i].View()], slots := streams)
      requires unchanged(this`clock) && unchanged(this`last) && unchanged(this`nextNode)
      requires unchanged(this`sheduled) && unchanged(this`armed) && unchanged(this`events)
      ensures Valid()
    {
      forall j | 0 <= j < |objects|
        ensures objects[j].id == j && objects[j].Valid() && objects[j].View() == world.streams[j]
      {
        assert old(objects[j].id == j && objects[j].Valid() && objects[j].View() == world.streams[j]);
        if j != i {
          assert objects[j] in objects && objects[j] != objects[i];
        }
      }
    }

    static lemma ApplyElsewhere(w: World, a: Action)
      requires !a.Create? && a.id < |w.streams|
      ensures var w' := Apply(w, a);
              |w'.streams| == |w.streams| && w' == w.(streams := w.streams[a.id := w'.streams[a.id]], slots := w'.slots)
    {
    }

    /** Calls the consumer's handler of the next event. */
    method Call(script: Script)
      requires Valid()
      modifies this, objects
      ensures Valid() && Grown() && world == Publish(old(world), script)
    {
      var actions := script(events);
      events := events + 1;
      world := world.(events := world.events + 1);
      ghost var w := world;
      var k := 0;
      while k < |actions|
        invariant k <= |actions| && Valid() && Grown()
        invariant ApplyAll(world, actions[k..]) == ApplyAll(w, actions)
      {
        assert actions[k..][1..] == actions[k + 1..];
        Act(actions[k]);
        k := k + 1;
      }
    }
  
    /** defer_transfer */
    method Defer()
      requires Valid()
      modifies this
      ensures Valid() && objects == old(objects) && world == BandwidthRounds.Defer(old(world))
    {
      sheduled := true;
      armed := armed + 1;
      world := BandwidthRounds.Defer(world);
    }

    /** The body of the inner loop of transfer, on the node under the cursor. */
    method VisitNode(k: nat, chunk: nat, total0: nat, pending0: nat, ghost t: Tally, script: Script)
      returns (it: Iter, total: nat, pending: nat)
      requires Valid() && t.w == world && t.total == total0 && t.pending == pending0 && Ready(t, At(k), chunk)
      modifies this, objects
      ensures Valid() && Grown()
      ensures var r := Turn(t, k, chunk, script);
              it == r.it && world == r.t.w && total == r.t.total && pending == r.t.pending
    {
      total, pending := total0, pending0;
      var ref := streams[k].ref;
      if ref.To? && objects[ref.id].alive {
        it := Forward(k + 1, streams);
        var stream := objects[ref.id];
        var available := stream.Available();
        var toTransfer := if available < chunk then available else chunk;
        if toTransfer == 0 {
          return;
        }
        stream.Transfer(toTransfer, this, script);
        total := Minus(total, toTransfer);
        if available - toTransfer > 0 {
          pending := pending + 1;
        }
      } else {
        streams := Erase(streams, k);
        it := Forward(k, streams);
        world := world.(slots := streams);
      }
    }

    /** The inner loop of transfer: one pass over the list. */
    method Pass(total0: nat, chunk: nat, ghost t0: Tally, script: Script)
      returns (total: nat, pending: nat, ghost t: Tally)
      requires Valid() && t0.w == world && t0.total == total0 && t0.pending == 0
      requires WellFormed(world) && total0 < WORD && 0 < chunk < WORD
      modifies this, objects
      ensures Valid() && Grown()
      ensures t == Visit(t0, Begin(old(world)), chunk, script)
      ensures world == t.w && total == t.total && pending == t.pending
    {
      t, total, pending := t0, total0, 0;
      var it := Forward(0, streams);
      while it != End
        invariant Valid() && Grown()
        invariant t.w == world && t.total == total && t.pending == pending
        invariant Ready(t, it, chunk) && Visit(t, it, chunk, script) == Visit(t0, Begin(old(world)), chunk, script)
        decreases Busy(world.streams, Ahead(it, streams)), |Ahead(it, streams)|
      {
        TurnAhead(t, it.k, chunk, script);
        ghost var r := Turn(t, it.k, chunk, script);
        it, total, pending := VisitNode(it.k, chunk, total, pending, t, script);
        t := r.t;
      }
    }

    /** The do/while of transfer. */
    method ShareOut(total0: nat, pending0: nat, ghost t0: Tally, script: Script) returns (pending: nat, ghost t: Tally)
      requires Valid() && t0.w == world && t0.total == total0 && t0.pending == pending0 && Entered(t0)
      modifies this, objects
      ensures Valid() && Grown() && t == Rounds(t0, script) && world == t.w && pending == t.pending
    {
      var total := total0;
      pending, t := pending0, t0;
      var again := true;
      while again
        invariant Valid() && Grown()
        invariant t.w == world && t.total == total && t.pending == pending
        invariant again ==> Entered(t) && Rounds(t, script) == Rounds(t0, script)
        invariant !again ==> t == Rounds(t0, script)
        decreases again, !t.wrapped, if t.wrapped then t.pending else t.total
      {
        RoundPassed(t, script);
        RoundDecreases(t, script);
        var chunk := if total / pending > 1 then total / pending else 1;
        total, pending, t := Pass(total, chunk, Fresh(t), script);
        again := total > 0 && pending > 0;
      }
    }

    /** The second half of transfer: share the budget out, and come back later if need be. */
    method Spend(total: nat, pending0: nat, ghost t0: Tally, script: Script)
      requires Valid() && t0.w == world && t0.total == total && t0.pending == pending0 && Entered(t0)
      modifies this, objects
      ensures Valid() && Grown() && world == Closing(Rounds(t0, script))
    {
      ghost var t;
      var pending;
      pending, t := ShareOut(total, pending0, t0, script);
      world := world.(wrapped := world.wrapped || t.wrapped, short := world.short || t.short);
      if pending > 0 {
        Defer();
      }
    }

    /** ControllerSimple::transfer */
    method Transfer(script: Script)
      requires Valid() && Sound(world)
      modifies this, objects
      ensures Valid() && Grown() && world == BandwidthRounds.Transfer(old(world), script)
    {
      sheduled := false;
      world := world.(sheduled := false);
      var pending := |streams|;
      if pending == 0 {
        return;
      }
      var elapsed := (clock - last) / 1_000_000;
      last := clock;
      world := world.(last := clock);
      var total := limit * elapsed % WORD / 1000;
      if total == 0 {
        Defer();
      } else {
        Spend(total, pending, Opening(old(world)), script);
      }
    }

    method SheduleTransfer(script: Script)
      requires Valid() && Sound(world)
      modifies this, objects
      ensures Valid() && Grown() && world == BandwidthRounds.SheduleTransfer(old(world), script)
    {
      if sheduled {
        return;
      }
      Transfer(script);
    }

    /** The timer fires. */
    method OnTimer(script: Script)
      requires Valid() && Sound(world) && armed > 0
      modifies this, objects
      ensures Valid() && Grown() && world == Happen(old(world), Timer, script)
    {
      armed := armed - 1;
      world := world.(armed := armed);
      Transfer(script);
    }
  }
}
