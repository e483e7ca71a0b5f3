/** The flags `wrapped` and `short` of a world are history: nothing depends on them.  So they can
    be cleared at any time, and tell what has happened since. */
module BandwidthWindows {
  import opened BandwidthModel
  import opened BandwidthRounds

  function Cleared(w: World): World {
    w.(wrapped := false, short := false)
  }

  /** The same world but for the flags. */
  ghost predicate Alike(w: World, v: World) {
    Cleared(v) == Cleared(w)
  }

  lemma ApplyAlike(w: World, v: World, a: Action)
    requires Alike(w, v)
    ensures Alike(Apply(w, a), Apply(v, a))
  {
  }

  lemma {:induction false} ApplyAllAlike(w: World, v: World, actions: seq<Action>)
    requires Alike(w, v)
    ensures Alike(ApplyAll(w, actions), ApplyAll(v, actions))
    decreases |actions|
  {
    if actions != [] {
      ApplyAlike(w, v, actions[0]);
      ApplyAllAlike(Apply(w, actions[0]), Apply(v, actions[0]), actions[1..]);
    }
  }

  lemma PublishAlike(w: World, v: World, script: Script)
    requires Alike(w, v)
    ensures Alike(Publish(w, script), Publish(v, script))
  {
    ApplyAllAlike(w.(events := w.events + 1), v.(events := v.events + 1), script(w.events));
  }

  lemma DeliverAlike(w: World, v: World, i: nat, length: nat, script: Script)
    requires Alike(w, v) && i < |w.streams|
    ensures Alike(Deliver(w, i, length, script), Deliver(v, i, length, script))
  {
    var n := Min(length, |w.streams[i].buffered|);
    var s := w.streams[i].Pop(n);
    PublishAlike(w.Put(i, s).(moved := w.moved + n), v.Put(i, s).(moved := v.moved + n), script);
  }

  lemma SettleAlike(w: World, v: World, i: nat, script: Script)
    requires Alike(w, v) && i < |w.streams|
    ensures Alike(Settle(w, i, script), Settle(v, i, script))
  {
    var s := w.streams[i].(stopped := true, ends := w.streams[i].ends + 1);
    PublishAlike(w.Put(i, s), v.Put(i, s), script);
  }

  lemma TransferStreamAlike(w: World, v: World, i: nat, length: nat, script: Script)
    requires Alike(w, v) && i < |w.streams|
    ensures Alike(TransferStream(w, i, length, script), TransferStream(v, i, length, script))
  {
    if !w.streams[i].stopped && length > 0 {
      DeliverShrinks(w, i, length, script);
      DeliverAlike(w, v, i, length, script);
      SettleAlike(Deliver(w, i, length, script), Deliver(v, i, length, script), i, script);
    }
  }

  ghost predicate AlikeTally(t: Tally, u: Tally) {
    Alike(t.w, u.w) && u == t.(w := u.w)
  }

  lemma TurnAlike(t: Tally, u: Tally, k: nat, chunk: nat, script: Script)
    requires AlikeTally(t, u) && Ready(t, At(k), chunk)
    ensures AlikeTally(Turn(t, k, chunk, script).t, Turn(u, k, chunk, script).t)
    ensures Turn(t, k, chunk, script).it == Turn(u, k, chunk, script).it
  {
    var n := Min(Waiting(t.w.streams, t.w.slots[k]), chunk);
    if n > 0 {
      TransferStreamAlike(t.w, u.w, t.w.slots[k].ref.id, n, script);
    }
  }

  lemma {:induction false} VisitAlike(t: Tally, u: Tally, it: Iter, chunk: nat, script: Script)
    requires AlikeTally(t, u) && Ready(t, it, chunk)
    ensures AlikeTally(Visit(t, it, chunk, script), Visit(u, it, chunk, script))
    decreases Busy(t.w.streams, Ahead(it, t.w.slots)), |Ahead(it, t.w.slots)|
  {
    if it.At? {
      TurnAhead(t, it.k, chunk, script);
      TurnAlike(t, u, it.k, chunk, script);
      var r := Turn(t, it.k, chunk, script);
      VisitAlike(r.t, Turn(u, it.k, chunk, script).t, r.it, chunk, script);
    }
  }

  lemma {:induction false} RoundsAlike(t: Tally, u: Tally, script: Script)
    requires AlikeTally(t, u) && Entered(t)
    ensures Entered(u) && AlikeTally(Rounds(t, script), Rounds(u, script))
    decreases !t.wrapped, if t.wrapped then t.pending else t.total
  {
    VisitAlike(Fresh(t), Fresh(u), Begin(t.w), Chunk(t), script);
    RoundDecreases(t, script);
    RoundDecreases(u, script);
    var r := Round(t, script);
    if r.total > 0 && r.pending > 0 {
      RoundsAlike(r, Round(u, script), script);
    }
  }

  lemma TransferAlike(w: World, v: World, script: Script)
    requires Alike(w, v) && Sound(w)
    ensures Sound(v) && Alike(Transfer(w, script), Transfer(v, script))
  {
    if w.slots != [] && Opening(w).total > 0 {
      RoundsAlike(Opening(w), Opening(v), script);
    }
  }

  lemma HappenAlike(w: World, v: World, e: Event, script: Script)
    requires Alike(w, v) && Sound(w) && Enabled(w, e)
    ensures Sound(v) && Enabled(v, e) && Alike(Happen(w, e, script), Happen(v, e, script))
  {
    match e
    case Data(i, data) =>
      if !w.sheduled { TransferAlike(Arrive(w, i, data), Arrive(v, i, data), script); }
    case Eof(i) =>
    case Timer => TransferAlike(w.(armed := w.armed - 1), v.(armed := v.armed - 1), script);
    case Consumer(a) => ApplyAlike(w, v, a);
  }

  lemma StepAlike(w: World, v: World, tick: Tick, script: Script)
    requires Alike(w, v) && Sound(w)
    ensures Sound(v) && Alike(Step(w, tick, script), Step(v, tick, script))
  {
    var w', v' := Later(w, tick.delay), Later(v, tick.delay);
    if Enabled(w', tick.event) {
      HappenAlike(w', v', tick.event, script);
    }
  }

  lemma {:induction false} RunAlike(w: World, v: World, ticks: seq<Tick>, script: Script)
    requires Alike(w, v) && Sound(w)
    ensures Sound(v) && Alike(Run(w, ticks, script), Run(v, ticks, script))
    decreases |ticks|
  {
    if ticks != [] {
      StepSound(w, ticks[0], script);
      StepSound(v, ticks[0], script);
      StepAlike(w, v, ticks[0], script);
      RunAlike(Step(w, ticks[0], script), Step(v, ticks[0], script), ticks[1..], script);
    }
  }
}
