/** When the wrapped socket of a stopped stream is being read, in whole runs and for every
    consumer: the history of who touched the socket last. */
module BandwidthSockets {
  import opened BandwidthModel
  import opened BandwidthRounds
  import opened BandwidthSafety
  import opened BandwidthVisits
  import opened BandwidthTheorems

  // --------------------------------------------------------------------- what touches a socket

  function FlagsAt(w: World, i: nat): Flags {
    if i < |w.streams| then FlagsOf(w.streams[i]) else Flags(false, false, false)
  }

  /** read(), stop() and the first close() of a stream that exists. */
  predicate Touches(f: Flags, a: Action, i: nat) {
    !a.Create? && a.id == i && f.alive && (a.Read? || a.Stop? || (a.Close? && !f.closed))
  }

  /** A handler does nothing of the kind. */
  predicate Untouched(f: Flags, actions: seq<Action>, i: nat)
    decreases |actions|
  {
    actions == [] || (!Touches(f, actions[0], i) && Untouched(Acted(f, actions[0], i), actions[1..], i))
  }

  /** `known` tells of every stream that is stopped, and has not ended, whether its socket is
      being read. */
  ghost predicate Held(w: World, i: nat, known: bool) {
    if i >= |w.streams| then !known
    else
      var s := w.streams[i];
      && (s.reading ==> !s.paused)
      && (known ==> s.reading)
      && (s.reading && s.stopped && s.ends == 0 ==> known)
  }

  lemma ApplyHeld(w: World, a: Action, i: nat, known: bool)
    requires Held(w, i, known)
    ensures Held(Apply(w, a), i, known && !Touches(FlagsAt(w, i), a, i))
    ensures known ==> FlagsAt(Apply(w, a), i) == Acted(FlagsAt(w, i), a, i)
  {
    if i < |w.streams| {
      ApplyLeaves(w, a, i);
      if a.Create? || a.id != i || !w.streams[i].alive {
        ApplyElsewhere(w, a, i);
      }
    }
  }

  lemma {:induction false} ApplyAllHeld(w: World, actions: seq<Action>, i: nat, known: bool)
    requires Held(w, i, known)
    ensures Held(ApplyAll(w, actions), i, known && Untouched(FlagsAt(w, i), actions, i))
    decreases |actions|
  {
    if actions != [] {
      var now := known && !Touches(FlagsAt(w, i), actions[0], i);
      ApplyHeld(w, actions[0], i, known);
      ApplyAllHeld(Apply(w, actions[0]), actions[1..], i, now);
    }
  }

  // ------------------------------------------------------------------------------ one transfer

  /** Whether stream `i` is known to be read after `j` was asked for `length` bytes: it was, and no
      handler has touched it since, or the transfer was its own and resumed it. */
  predicate TransferKeeps(w: World, j: nat, length: nat, script: Script, i: nat, known: bool)
    requires j < |w.streams|
  {
    if w.streams[j].stopped || length == 0 then known
    else
      DeliverShrinks(w, j, length, script);
      var v := Deliver(w, j, length, script);
      var s, now := v.streams[j], known && Untouched(FlagsAt(w, i), script(w.events), i);
      if s.eof && s.buffered == "" then
        now && Untouched(FlagsAt(v.Put(j, s.(stopped := true)), i), script(v.events), i)
      else
        now || (j == i && s.paused && |s.buffered| < s.maxLength)
  }

  lemma DeliverHeld(w: World, j: nat, length: nat, script: Script, i: nat, known: bool)
    requires j < |w.streams| && Held(w, i, known)
    ensures Held(Deliver(w, j, length, script), i, known && Untouched(FlagsAt(w, i), script(w.events), i))
  {
    var n := Min(length, |w.streams[j].buffered|);
    var v := w.Put(j, w.streams[j].Pop(n)).(moved := w.moved + n, events := w.events + 1);
    assert FlagsAt(v, i) == FlagsAt(w, i);
    ApplyAllHeld(v, script(w.events), i, known);
  }

  lemma EndHeld(w: World, j: nat, script: Script, i: nat, known: bool)
    requires j < |w.streams| && Held(w, i, known) && w.streams[j].eof && w.streams[j].buffered == ""
    ensures var f := FlagsAt(w.Put(j, w.streams[j].(stopped := true)), i);
            Held(Settle(w, j, script), i, known && Untouched(f, script(w.events), i))
  {
    var v := w.Put(j, w.streams[j].(stopped := true, ends := w.streams[j].ends + 1)).(events := w.events + 1);
    assert FlagsAt(v, i) == FlagsAt(w.Put(j, w.streams[j].(stopped := true)), i);
    ApplyAllHeld(v, script(w.events), i, known);
  }

  lemma TransferHeld(w: World, j: nat, length: nat, script: Script, i: nat, known: bool)
    requires j < |w.streams| && Held(w, i, known)
    ensures Held(TransferStream(w, j, length, script), i, TransferKeeps(w, j, length, script, i, known))
  {
    if !w.streams[j].stopped && length > 0 {
      var v := Deliver(w, j, length, script);
      var now := known && Untouched(FlagsAt(w, i), script(w.events), i);
      DeliverShrinks(w, j, length, script);
      DeliverHeld(w, j, length, script, i, known);
      if v.streams[j].eof && v.streams[j].buffered == "" {
        EndHeld(v, j, script, i, now);
      }
    }
  }

  // ---------------------------------------------------------------------------------- one call

  /** The same over the turns of a pass. */
  predicate VisitKeeps(t: Tally, it: Iter, chunk: nat, script: Script, i: nat, known: bool)
    requires Ready(t, it, chunk)
    decreases Busy(t.w.streams, Ahead(it, t.w.slots)), |Ahead(it, t.w.slots)|
  {
    if it.End? then known
    else
      TurnAhead(t, it.k, chunk, script);
      var r, n := Turn(t, it.k, chunk, script), Min(Waiting(t.w.streams, t.w.slots[it.k]), chunk);
      var now := if n > 0 then TransferKeeps(t.w, t.w.slots[it.k].ref.id, n, script, i, known) else known;
      VisitKeeps(r.t, r.it, chunk, script, i, now)
  }

  lemma {:induction false} VisitHeld(t: Tally, it: Iter, chunk: nat, script: Script, i: nat, known: bool)
    requires Ready(t, it, chunk) && Held(t.w, i, known)
    ensures Held(Visit(t, it, chunk, script).w, i, VisitKeeps(t, it, chunk, script, i, known))
    decreases Busy(t.w.streams, Ahead(it, t.w.slots)), |Ahead(it, t.w.slots)|
  {
    if it.At? {
      TurnAhead(t, it.k, chunk, script);
      var r, n := Turn(t, it.k, chunk, script), Min(Waiting(t.w.streams, t.w.slots[it.k]), chunk);
      if n > 0 {
        TransferHeld(t.w, t.w.slots[it.k].ref.id, n, script, i, known);
        VisitHeld(r.t, r.it, chunk, script, i, TransferKeeps(t.w, t.w.slots[it.k].ref.id, n, script, i, known));
      } else {
        VisitHeld(r.t, r.it, chunk, script, i, known);
      }
    }
  }

  /** Over the rounds of a call. */
  predicate RoundsKeep(t: Tally, script: Script, i: nat, known: bool)
    requires Entered(t)
    decreases !t.wrapped, if t.wrapped then t.pending else t.total
  {
    RoundDecreases(t, script);
    var r, now := Round(t, script), VisitKeeps(Fresh(t), Begin(t.w), Chunk(t), script, i, known);
    if r.total > 0 && r.pending > 0 then RoundsKeep(r, script, i, now) else now
  }

  lemma {:induction false} RoundsHeld(t: Tally, script: Script, i: nat, known: bool)
    requires Entered(t) && Held(t.w, i, known)
    ensures Held(Rounds(t, script).w, i, RoundsKeep(t, script, i, known))
    decreases !t.wrapped, if t.wrapped then t.pending else t.total
  {
    RoundDecreases(t, script);
    VisitHeld(Fresh(t), Begin(t.w), Chunk(t), script, i, known);
    var r, now := Round(t, script), VisitKeeps(Fresh(t), Begin(t.w), Chunk(t), script, i, known);
    if r.total > 0 && r.pending > 0 {
      RoundsHeld(r, script, i, now);
    }
  }

  predicate CallKeeps(w: World, script: Script, i: nat, known: bool)
    requires Sound(w)
  {
    if Spends(w) then RoundsKeep(Opening(w), script, i, known) else known
  }

  lemma CallHeld(w: World, script: Script, i: nat, known: bool)
    requires Sound(w) && Held(w, i, known)
    ensures Held(Transfer(w, script), i, CallKeeps(w, script, i, known))
  {
    if Spends(w) {
      RoundsHeld(Opening(w), script, i, known);
    }
  }

  // --------------------------------------------------------------------------------- whole runs

  /** What an event does to the socket before any transfer: a segment may fill the buffer, a
      consumer may touch the stream. */
  predicate EventKeeps(w: World, e: Event, i: nat, known: bool) {
    match e
    case Data(j, data) =>
      known && !(j == i && i < |w.streams| && |w.streams[i].buffered| + |data| >= w.streams[i].maxLength)
    case Consumer(a) => known && !Touches(FlagsAt(w, i), a, i)
    case _ => known
  }

  /** The last transfer of stream `i` in a run has resumed its socket, and since then no segment
      has filled its buffer and its consumer has not touched it.  `known` says it of the time
      before the run. */
  predicate Resumed(w: World, ticks: seq<Tick>, script: Script, i: nat, known: bool)
    requires Sound(w)
    decreases |ticks|
  {
    if ticks == [] then known
    else
      StepSound(w, ticks[0], script);
      var v := Later(w, ticks[0].delay);
      var now := if Enabled(v, ticks[0].event) then EventKeeps(v, ticks[0].event, i, known) else known;
      var after :=
        if CallsTransfer(w, ticks[0]) then
          CallerSound(w, ticks[0], script);
          CallKeeps(Caller(w, ticks[0]), script, i, now)
        else now;
      Resumed(Step(w, ticks[0], script), ticks[1..], script, i, after)
  }

  lemma ArriveHeld(w: World, j: nat, data: string, i: nat, known: bool)
    requires Held(w, i, known) && j < |w.streams|
    ensures Held(Arrive(w, j, data), i, EventKeeps(w, Data(j, data), i, known))
  {
  }

  lemma CallerHeld(w: World, tick: Tick, i: nat, known: bool)
    requires Held(w, i, known) && CallsTransfer(w, tick)
    ensures Held(Caller(w, tick), i, EventKeeps(Later(w, tick.delay), tick.event, i, known))
  {
    if tick.event.Data? {
      ArriveHeld(Later(w, tick.delay), tick.event.id, tick.event.data, i, known);
    }
  }

  lemma OthersHeld(w: World, tick: Tick, script: Script, i: nat, known: bool)
    requires Sound(w) && Held(w, i, known) && !CallsTransfer(w, tick) && Enabled(Later(w, tick.delay), tick.event)
    ensures Held(Step(w, tick, script), i, EventKeeps(Later(w, tick.delay), tick.event, i, known))
  {
    var v := Later(w, tick.delay);
    match tick.event
    case Data(j, data) => ArriveHeld(v, j, data, i, known);
    case Eof(j) =>
    case Consumer(a) => ApplyHeld(v, a, i, known);
  }

  lemma {:induction false} RunHeld(w: World, ticks: seq<Tick>, script: Script, i: nat, known: bool)
    requires Sound(w) && Held(w, i, known)
    ensures Held(Run(w, ticks, script), i, Resumed(w, ticks, script, i, known))
    decreases |ticks|
  {
    if ticks != [] {
      var v, w' := Later(w, ticks[0].delay), Step(w, ticks[0], script);
      var now := if Enabled(v, ticks[0].event) then EventKeeps(v, ticks[0].event, i, known) else known;
      StepSound(w, ticks[0], script);
      if CallsTransfer(w, ticks[0]) {
        CallerSound(w, ticks[0], script);
        CallerHeld(w, ticks[0], i, known);
        CallHeld(Caller(w, ticks[0]), script, i, now);
        RunHeld(w', ticks[1..], script, i, CallKeeps(Caller(w, ticks[0]), script, i, now));
      } else {
        if Enabled(v, ticks[0].event) {
          OthersHeld(w, ticks[0], script, i, known);
        }
        RunHeld(w', ticks[1..], script, i, now);
      }
    }
  }

  /** Exactly when the socket of a stopped stream, open or closed, is being read at any time of any
      run, before its EndEvent: the last transfer of the stream has resumed the socket, and since
      then its consumer has not touched it and no segment has filled its buffer. */
  lemma ReadWhileStoppedIff(limit: nat, ticks: seq<Tick>, script: Script, i: nat)
    requires var w := Run(Init(limit), ticks, script);
             i < |w.streams| && w.streams[i].stopped && w.streams[i].ends == 0
    ensures Run(Init(limit), ticks, script).streams[i].reading <==> Resumed(Init(limit), ticks, script, i, false)
  {
    RunHeld(Init(limit), ticks, script, i, false);
  }
}
