/** The rounds of `ControllerSimple::transfer`, why they end, and the runs of the limiter. */
module BandwidthRounds {
  import opened BandwidthModel

  /** What one pass over the list does to the tally: it charges no more than is buffered, the
      subtractions wrap exactly if they sum to more than the total, and every stream still
      counted as pending had more than `chunk` bytes. */
  ghost predicate Passed(t: Tally, buffered: nat, chunk: nat, r: Tally) {
    && WellFormed(r.w)
    && r.short == t.short
    && t.charged <= r.charged <= t.charged + buffered
    && t.pending <= r.pending
    && r.pending - t.pending <= r.charged - t.charged
    && (r.pending - t.pending) * (chunk + 1) <= buffered
    && (var spent := r.charged - t.charged;
        if spent <= t.total then r.total == t.total - spent && r.wrapped == t.wrapped
        else r.total == t.total + WORD - spent && r.wrapped)
  }

  lemma PassedStep(t: Tally, i: nat, n: nat, waiting: nat, rest: nat, chunk: nat, script: Script, r: Tally)
    requires i < |t.w.streams| && t.total < WORD && waiting + rest <= MEMORY
    requires waiting == |t.w.streams[i].buffered| && 0 < n == Min(waiting, chunk)
    requires Passed(Charge(t, i, n, script), rest, chunk, r)
    ensures Passed(t, waiting + rest, chunk, r)
  {
    var p := r.pending - Charge(t, i, n, script).pending;
    assert (p + 1) * (chunk + 1) == p * (chunk + 1) + (chunk + 1);
  }

  lemma PassedWithin(t: Tally, few: nat, many: nat, chunk: nat, r: Tally)
    requires Passed(t, few, chunk, r) && few <= many
    ensures Passed(t, many, chunk, r)
  {
  }

  lemma TurnPassed(t: Tally, k: nat, chunk: nat, script: Script, r: Tally)
    requires Ready(t, At(k), chunk) && Buffered(t.w.streams, t.w.slots[k..]) <= MEMORY
    requires var q := Turn(t, k, chunk, script);
             ValidIter(q.it, q.t.w.slots) && Passed(q.t, Buffered(q.t.w.streams, Ahead(q.it, q.t.w.slots)), chunk, r)
    ensures Passed(t, Buffered(t.w.streams, t.w.slots[k..]), chunk, r)
  {
    TurnAhead(t, k, chunk, script);
    var q, waiting := Turn(t, k, chunk, script), Waiting(t.w.streams, t.w.slots[k]);
    var rest := Buffered(q.t.w.streams, Ahead(q.it, q.t.w.slots));
    if waiting > 0 {
      PassedStep(t, t.w.slots[k].ref.id, Min(waiting, chunk), waiting, rest, chunk, script, r);
      PassedWithin(t, waiting + rest, Buffered(t.w.streams, t.w.slots[k..]), chunk, r);
    } else {
      PassedWithin(t, rest, Buffered(t.w.streams, t.w.slots[k..]), chunk, r);
    }
  }

  lemma {:induction false} VisitPassed(t: Tally, it: Iter, chunk: nat, script: Script)
    requires Ready(t, it, chunk) && Buffered(t.w.streams, Ahead(it, t.w.slots)) <= MEMORY
    ensures Passed(t, Buffered(t.w.streams, Ahead(it, t.w.slots)), chunk, Visit(t, it, chunk, script))
    decreases Busy(t.w.streams, Ahead(it, t.w.slots)), |Ahead(it, t.w.slots)|
  {
    if it.At? {
      TurnAhead(t, it.k, chunk, script);
      var q := Turn(t, it.k, chunk, script);
      VisitPassed(q.t, q.it, chunk, script);
      TurnPassed(t, it.k, chunk, script, Visit(t, it, chunk, script));
    }
  }

  lemma TurnShrinks(t: Tally, k: nat, chunk: nat, script: Script)
    requires Ready(t, At(k), chunk)
    ensures var w' := Turn(t, k, chunk, script).t.w;
            && Buffered(w'.streams, w'.slots) <= Buffered(t.w.streams, t.w.slots)
            && SameController(t.w, w')
  {
    var w := t.w;
    if !Locks(w.streams, w.slots[k]) {
      EraseDead(w, k);
    } else if Waiting(w.streams, w.slots[k]) > 0 {
      var i, n := w.slots[k].ref.id, Min(Waiting(w.streams, w.slots[k]), chunk);
      var w' := TransferStream(w, i, n, script);
      TransferStreamShrinks(w, i, n, script);
      SumsShrinkAll(w, w');
    }
  }

  /** A pass never makes the list hold more bytes. */
  lemma {:induction false} VisitShrinks(t: Tally, it: Iter, chunk: nat, script: Script)
    requires Ready(t, it, chunk)
    ensures var w' := Visit(t, it, chunk, script).w;
            && Buffered(w'.streams, w'.slots) <= Buffered(t.w.streams, t.w.slots)
            && SameController(t.w, w')
    decreases Busy(t.w.streams, Ahead(it, t.w.slots)), |Ahead(it, t.w.slots)|
  {
    if it.At? {
      TurnAhead(t, it.k, chunk, script);
      TurnShrinks(t, it.k, chunk, script);
      var r := Turn(t, it.k, chunk, script);
      VisitShrinks(r.t, r.it, chunk, script);
    }
  }

  /** What the rounds after a wrap may take altogether, if each halves the number of pending streams. */
  function Reserve(pending: nat): nat {
    if pending == 0 then 0 else MEMORY + Reserve(pending / 2)
  }

  lemma {:induction false} ReserveMonotone(m: nat, n: nat)
    requires m <= n
    ensures Reserve(m) <= Reserve(n)
  {
    if m > 0 {
      ReserveMonotone(m / 2, n / 2);
    }
  }

  function Pow2(k: nat): nat {
    if k == 0 then 1 else 2 * Pow2(k - 1)
  }

  lemma {:induction false} Pow2Sum(j: nat, k: nat)
    ensures Pow2(j + k) == Pow2(j) * Pow2(k)
  {
    if j > 0 {
      Pow2Sum(j - 1, k);
    }
  }

  lemma {:induction false} ReserveBelow(n: nat, k: nat)
    requires n < Pow2(k)
    ensures Reserve(n) <= k * MEMORY
  {
    if n > 0 {
      ReserveBelow(n / 2, k - 1);
    }
  }

  lemma ReserveOfMemory(n: nat)
    requires n <= MEMORY
    ensures Reserve(n) <= 57 * MEMORY
  {
    assert Pow2(14) == 0x4000;
    Pow2Sum(14, 14);
    Pow2Sum(28, 28);
    ReserveBelow(n, 57);
  }

  /** Once the total has wrapped, it stays enormous for longer than the rounds can last. */
  ghost predicate Afloat(t: Tally) {
    t.wrapped ==> t.total >= WORD / 2 + Reserve(t.pending)
  }

  /** What holds whenever a round begins. */
  ghost predicate Entered(t: Tally) {
    && WellFormed(t.w) && 0 < t.total < WORD && t.pending > 0
    && Buffered(t.w.streams, t.w.slots) <= MEMORY
    && Afloat(t)
  }

  function Chunk(t: Tally): (chunk: nat)
    requires 0 < t.total < WORD && t.pending > 0
    ensures 0 < chunk < WORD
  {
    if t.total / t.pending > 1 then t.total / t.pending else 1
  }

  lemma QuotientBounds(total: nat, pending: nat)
    requires pending > 0
    ensures pending * (total / pending) <= total < pending * (total / pending + 1)
  {
  }

  /** A round after a wrap at least halves the number of pending streams. */
  lemma HalvesPending(total: nat, pending: nat, chunk: nat, pending': nat)
    requires pending > 0 && chunk >= total / pending && total >= 2 * MEMORY
    requires pending' * (chunk + 1) <= MEMORY
    ensures pending' <= pending / 2
  {
    QuotientBounds(total, pending);
    assert 2 * (pending' * (chunk + 1)) == (2 * pending') * (chunk + 1);
    assert pending * (total / pending + 1) <= pending * (chunk + 1);
    Cancel(2 * pending', pending, chunk + 1);
  }

  lemma Cancel(a: nat, b: nat, c: nat)
    requires a * c < b * c
    ensures a < b
  {
    assert (b - a) * c > 0;
  }

  /** A round begins by forgetting how many streams were pending. */
  function Fresh(t: Tally): Tally {
    t.(pending := 0, short := t.short || t.total < Busy(t.w.streams, t.w.slots))
  }

  function Begin(w: World): (it: Iter)
    ensures ValidIter(it, w.slots)
  {
    Forward(0, w.slots)
  }

  lemma FromBegin(w: World)
    ensures Ahead(Begin(w), w.slots) == w.slots
    ensures w.slots[..Index(Begin(w), w.slots)] == []
  {
  }

  /** One round of the do/while. */
  function Round(t: Tally, script: Script): Tally
    requires WellFormed(t.w) && 0 < t.total < WORD && t.pending > 0
  {
    Visit(Fresh(t), Begin(t.w), Chunk(t), script)
  }

  lemma RoundPassed(t: Tally, script: Script)
    requires WellFormed(t.w) && 0 < t.total < WORD && t.pending > 0
    requires Buffered(t.w.streams, t.w.slots) <= MEMORY
    ensures var r := Round(t, script);
            && Passed(Fresh(t), Buffered(t.w.streams, t.w.slots), Chunk(t), r)
            && r.total < WORD
            && Buffered(r.w.streams, r.w.slots) <= Buffered(t.w.streams, t.w.slots)
            && SameController(t.w, r.w)
  {
    FromBegin(t.w);
    VisitPassed(Fresh(t), Begin(t.w), Chunk(t), script);
    VisitShrinks(Fresh(t), Begin(t.w), Chunk(t), script);
  }

  /** Termination of the do/while: total falls until it wraps, and after that the number of
      pending streams falls. */
  lemma RoundDecreases(t: Tally, script: Script)
    requires Entered(t)
    ensures var r := Round(t, script);
            && (r.total > 0 && r.pending > 0 ==> Entered(r))
            && Afloat(r)
            && (t.wrapped ==> r.wrapped && r.pending < t.pending)
            && (!r.wrapped && r.pending > 0 ==> r.total < t.total)
  {
    var r := Round(t, script);
    RoundPassed(t, script);
    if t.wrapped {
      HalvesPending(t.total, t.pending, Chunk(t), r.pending);
      ReserveMonotone(r.pending, t.pending / 2);
    } else if r.wrapped {
      ReserveOfMemory(r.pending);
    }
  }

  /** The do/while of ControllerSimple::transfer. */
  function Rounds(t: Tally, script: Script): Tally
    requires Entered(t)
    decreases !t.wrapped, if t.wrapped then t.pending else t.total
  {
    RoundPassed(t, script);
    RoundDecreases(t, script);
    var r := Round(t, script);
    if r.total > 0 && r.pending > 0 then Rounds(r, script) else r
  }

  lemma {:induction false} RoundsSound(t: Tally, script: Script)
    requires Entered(t)
    ensures var r := Rounds(t, script);
            && WellFormed(r.w) && SameController(t.w, r.w)
            && Buffered(r.w.streams, r.w.slots) <= Buffered(t.w.streams, t.w.slots)
            && (r.total == 0 || r.pending == 0)
    decreases !t.wrapped, if t.wrapped then t.pending else t.total
  {
    RoundPassed(t, script);
    RoundDecreases(t, script);
    var r := Round(t, script);
    if r.total > 0 && r.pending > 0 {
      RoundsSound(r, script);
    }
  }

  // ---------------------------------------------------------------------------------- events

  /** The budget of one call: limit * elapsed / 1000 on `size_t`. */
  function Budget(limit: nat, elapsed: nat): (total: nat)
    ensures total < WORD && 1000 * total <= limit * elapsed
  {
    assert limit * elapsed % WORD <= limit * elapsed by { Remainder(limit * elapsed); }
    limit * elapsed % WORD / 1000
  }

  lemma Remainder(n: nat)
    ensures n % WORD <= n
  {
  }

  /** What every state of a run satisfies as far as the functions below need it. */
  predicate Sound(w: World) {
    WellFormed(w) && Buffered(w.streams, w.slots) <= MEMORY && w.last <= w.clock
  }

  /** defer_transfer: arm the 50 ms timer. */
  function Defer(w: World): World {
    w.(sheduled := true, armed := w.armed + 1)
  }

  /** Time::elapsed, in whole milliseconds. */
  function Elapsed(w: World): nat
    requires w.last <= w.clock
  {
    (w.clock - w.last) / 1_000_000
  }

  /** The tally with which the do/while of a call is entered. */
  function Opening(w: World): Tally
    requires w.last <= w.clock
  {
    Tally(w.(sheduled := false, last := w.clock), Budget(w.limit, Elapsed(w)), |w.slots|, 0, false, false)
  }

  function Closing(r: Tally): World {
    var w := r.w.(wrapped := r.w.wrapped || r.wrapped, short := r.w.short || r.short);
    if r.pending > 0 then Defer(w) else w
  }

  /** ControllerSimple::transfer. */
  function Transfer(w: World, script: Script): World
    requires Sound(w)
  {
    if w.slots == [] then
      w.(sheduled := false)
    else
      var t := Opening(w);
      if t.total == 0 then Defer(t.w) else Closing(Rounds(t, script))
  }

  function SheduleTransfer(w: World, script: Script): World
    requires Sound(w)
  {
    if w.sheduled then w else Transfer(w, script)
  }

  function Arrive(w: World, i: nat, data: string): World
    requires i < |w.streams|
  {
    w.Put(i, w.streams[i].Push(data))
  }

  /** What the event loop can report, and what a consumer can do of its own accord. */
  datatype Event = Data(id: nat, data: string) | Eof(id: nat) | Timer | Consumer(action: Action)

  /** An event together with the time that passes before it, in nanoseconds. */
  datatype Tick = Tick(delay: nat, event: Event)

  /** A socket reports only to a stream that still listens, data only while it is being read
      and before its end, and only what fits into memory.  The timer fires only when armed. */
  predicate Enabled(w: World, e: Event) {
    match e
    case Data(i, data) =>
      && i < |w.streams| && w.streams[i].alive && !w.streams[i].closed
      && w.streams[i].reading && !w.streams[i].eof
      && Buffered(Arrive(w, i, data).streams, w.slots) <= MEMORY
    case Eof(i) => i < |w.streams| && w.streams[i].alive && !w.streams[i].closed && !w.streams[i].eof
    case Timer => w.armed > 0
    case Consumer(_) => true
  }

  /** The source's on_data, end-of-stream and timer callbacks. */
  function Happen(w: World, e: Event, script: Script): World
    requires Sound(w) && Enabled(w, e)
  {
    match e
    case Data(i, data) => SheduleTransfer(Arrive(w, i, data), script)
    case Eof(i) => w.Put(i, w.streams[i].End())
    case Timer => Transfer(w.(armed := w.armed - 1), script)
    case Consumer(a) => Apply(w, a)
  }

  function Later(w: World, delay: nat): World {
    w.(clock := w.clock + delay)
  }

  /** One step of a run; an event that cannot happen only lets time pass. */
  function Step(w: World, tick: Tick, script: Script): World
    requires Sound(w)
  {
    var w := Later(w, tick.delay);
    if Enabled(w, tick.event) then Happen(w, tick.event, script) else w
  }

  lemma TransferSound(w: World, script: Script)
    requires Sound(w)
    ensures Sound(Transfer(w, script))
  {
    if w.slots != [] && Opening(w).total > 0 {
      RoundsSound(Opening(w), script);
    }
  }

  lemma SumsShrinkAll(w: World, w': World)
    requires Shrinks(w, w') && WellFormed(w)
    ensures Buffered(w'.streams, w'.slots) <= Buffered(w.streams, w.slots)
    ensures Busy(w'.streams, w'.slots) <= Busy(w.streams, w.slots)
  {
    TailsShrink(w, w', 0);
    assert w.slots[0..] == w.slots && w'.slots[0..] == w'.slots;
  }

  lemma SmallerSound(w: World, w': World)
    requires Sound(w) && Shrinks(w, w')
    ensures Sound(w')
  {
    SumsShrinkAll(w, w');
  }

  lemma HappenSound(w: World, e: Event, script: Script)
    requires Sound(w) && Enabled(w, e)
    ensures Sound(Happen(w, e, script))
  {
    match e
    case Data(i, data) =>
      if !w.sheduled { TransferSound(Arrive(w, i, data), script); }
    case Eof(i) => SmallerSound(w, w.Put(i, w.streams[i].End()));
    case Timer => TransferSound(w.(armed := w.armed - 1), script);
    case Consumer(a) =>
      ApplyShrinks(w, a);
      SmallerSound(w, Apply(w, a));
  }

  lemma StepSound(w: World, tick: Tick, script: Script)
    requires Sound(w)
    ensures Sound(Step(w, tick, script))
  {
    var v := Later(w, tick.delay);
    if Enabled(v, tick.event) {
      HappenSound(v, tick.event, script);
    }
  }

  /** A whole run, for any sequence of events and any consumer. */
  function Run(w: World, ticks: seq<Tick>, script: Script): World
    requires Sound(w)
    decreases |ticks|
  {
    if ticks == [] then w
    else
      StepSound(w, ticks[0], script);
      Run(Step(w, ticks[0], script), ticks[1..], script)
  }

  /** A controller as its constructor leaves it. */
  function Init(limit: nat): World {
    World(limit, [], [], 0, false, 0, 0, 0, 0, 0, false, false)
  }
}
