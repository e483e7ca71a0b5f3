/** Runs of the limiter in which it does not do what one might expect. */
module BandwidthExamples {
  import opened BandwidthModel
  import opened BandwidthRounds
  import opened BandwidthSafety
  import opened BandwidthRate
  import opened BandwidthFairness
  import opened BandwidthTheorems
  import opened BandwidthVisits
  import opened BandwidthCosts

  // ------------------------------------------------------------------- a budget is not kept

  const SILENT: Script := (n: nat) => []

  /** A reading stream with `n` bytes, of a controller with limit 1000. */
  function Holding(i: nat, n: nat): Stream {
    var bytes := seq(n, _ => 'x');
    Stream(i, bytes, 4000, false, false, false, false, true, true, bytes, "", 0, false)
  }

  function Loaded(i: nat): Stream {
    Holding(i, 300)
  }

  function Three(a: Stream, b: Stream, c: Stream, sheduled: bool): World {
    World(1000, [a, b, c], [Slot(0, To(0)), Slot(1, To(1)), Slot(2, To(2))], 3,
          sheduled, if sheduled then 1 else 0, 0, 0, 0, 0, false, false)
  }

  /** Three connections are made... */
  function Opens(): seq<Tick> {
    [Tick(0, Consumer(Create)), Tick(0, Consumer(Create)), Tick(0, Consumer(Create))]
  }

  /** ... and read... */
  function Reads(): seq<Tick> {
    [Tick(0, Consumer(Read(0))), Tick(0, Consumer(Read(1))), Tick(0, Consumer(Read(2)))]
  }

  /** ... each socket hands over a segment of the given length... */
  function Loads(a: nat, b: nat, c: nat): seq<Tick> {
    [Tick(0, Data(0, Holding(0, a).received)), Tick(0, Data(1, Holding(1, b).received)),
     Tick(0, Data(2, Holding(2, c).received))]
  }

  /** ... of 300 bytes, and 451 ms later the timer fires. */
  function OverrunTicks(): seq<Tick> {
    Opens() + (Reads() + (Loads(300, 300, 300) + [Tick(451_000_000, Timer)]))
  }

  lemma ThreeSound(a: Stream, b: Stream, c: Stream, sheduled: bool)
    requires |a.buffered| <= 300 && |b.buffered| <= 300 && |c.buffered| <= 300
    ensures Buffered([a, b, c], Three(a, b, c, sheduled).slots) <= 900 && Sound(Three(a, b, c, sheduled))
  {
    var w := Three(a, b, c, sheduled);
    assert w.slots[1..][1..] == [w.slots[2]];
    assert Buffered(w.streams, w.slots[1..][1..]) <= 300;
  }

  lemma RunOnce(w: World, x: Tick, script: Script)
    requires Sound(w)
    ensures Run(w, [x], script) == Step(w, x, script) && Sound(Step(w, x, script))
  {
    StepSound(w, x, script);
    assert [x][1..] == [];
  }

  lemma RunThrice(w: World, x: Tick, y: Tick, z: Tick, w1: World, w2: World, script: Script)
    requires Sound(w) && w1 == Step(w, x, script) && Sound(w1) && w2 == Step(w1, y, script) && Sound(w2)
    ensures Run(w, [x, y, z], script) == Step(w2, z, script)
  {
    RunOnce(w, x, script);
    RunOnce(w1, y, script);
    RunOnce(w2, z, script);
    RunConcat(w1, [y], [z], script);
    RunConcat(w, [x], [y] + [z], script);
    assert [x, y, z] == [x] + ([y] + [z]);
  }

  /** The first `n` streams are made. */
  function Made(n: nat): World
    requires n <= 3
  {
    World(1000, [NewStream(0, 4000), NewStream(1, 4000), NewStream(2, 4000)][..n],
          [Slot(0, To(0)), Slot(1, To(1)), Slot(2, To(2))][..n], n, false, 0, 0, 0, 0, 0, false, false)
  }

  lemma CreateStep(n: nat, w: World, w': World)
    requires n < 3 && w == Made(n) && w' == Made(n + 1) && Sound(w)
    ensures Step(w, Tick(0, Consumer(Create)), SILENT) == w' && Sound(w')
  {
    MadeNext(n, w);
    StepSound(w, Tick(0, Consumer(Create)), SILENT);
  }

  lemma MadeNext(n: nat, w: World)
    requires n < 3 && w == Made(n)
    ensures Apply(w, Create) == Made(n + 1)
  {
    var streams := [NewStream(0, 4000), NewStream(1, 4000), NewStream(2, 4000)];
    var slots := [Slot(0, To(0)), Slot(1, To(1)), Slot(2, To(2))];
    assert streams[..n + 1] == streams[..n] + [streams[n]] && slots[..n + 1] == slots[..n] + [slots[n]];
  }

  lemma MadeEnds()
    ensures Made(0) == Init(1000) && Sound(Made(0))
    ensures Made(3) == Three(NewStream(0, 4000), NewStream(1, 4000), NewStream(2, 4000), false)
  {
  }

  lemma RunOpens(w: World, w1: World, w2: World, w3: World)
    requires w == Made(0) && w1 == Made(1) && w2 == Made(2) && w3 == Made(3) && Sound(w)
    ensures Run(w, Opens(), SILENT) == w3
  {
    var c := Tick(0, Consumer(Create));
    CreateStep(0, w, w1);
    CreateStep(1, w1, w2);
    CreateStep(2, w2, w3);
    RunThrice(w, c, c, c, w1, w2, SILENT);
  }

  lemma OverrunOpens()
    ensures Run(Init(1000), Opens(), SILENT) == Three(NewStream(0, 4000), NewStream(1, 4000), NewStream(2, 4000), false)
  {
    MadeEnds();
    RunOpens(Made(0), Made(1), Made(2), Made(3));
  }

  lemma ReadStep(w: World, i: nat, r: World)
    requires Sound(w) && i < |w.streams| && w.streams[i].alive && r == w.Put(i, w.streams[i].Read())
    ensures Step(w, Tick(0, Consumer(Read(i))), SILENT) == r
  {
  }

  lemma OverrunReads()
    ensures Sound(Three(NewStream(0, 4000), NewStream(1, 4000), NewStream(2, 4000), false))
    ensures Run(Three(NewStream(0, 4000), NewStream(1, 4000), NewStream(2, 4000), false), Reads(), SILENT)
            == Three(NewStream(0, 4000).Read(), NewStream(1, 4000).Read(), NewStream(2, 4000).Read(), false)
  {
    var a, b, c := NewStream(0, 4000), NewStream(1, 4000), NewStream(2, 4000);
    var w, w1, w2 := Three(a, b, c, false), Three(a.Read(), b, c, false), Three(a.Read(), b.Read(), c, false);
    ThreeSound(a, b, c, false);
    ThreeSound(a.Read(), b, c, false);
    ThreeSound(a.Read(), b.Read(), c, false);
    ReadStep(w, 0, w1);
    ReadStep(w1, 1, w2);
    ReadStep(w2, 2, Three(a.Read(), b.Read(), c.Read(), false));
    RunThrice(w, Tick(0, Consumer(Read(0))), Tick(0, Consumer(Read(1))), Tick(0, Consumer(Read(2))), w1, w2, SILENT);
  }

  lemma Loading(i: nat, n: nat)
    requires n < 4000
    ensures NewStream(i, 4000).Read().Push(Holding(i, n).received) == Holding(i, n)
  {
    assert "" + Holding(i, n).received == Holding(i, n).received;
  }

  /** The first segment finds no budget and arms the timer. */
  lemma FirstLoads(b: Stream, c: Stream, n: nat)
    requires b.buffered == "" && c.buffered == "" && n <= 300
    ensures var start := Three(NewStream(0, 4000).Read(), b, c, false);
            && Sound(start)
            && Step(start, Tick(0, Data(0, Holding(0, n).received)), SILENT) == Three(Holding(0, n), b, c, true)
  {
    var start := Three(NewStream(0, 4000).Read(), b, c, false);
    ThreeSound(start.streams[0], b, c, false);
    ThreeSound(Holding(0, n), b, c, false);
    Loading(0, n);
    assert Arrive(start, 0, Holding(0, n).received) == Three(Holding(0, n), b, c, false);
  }

  /** The others only wait. */
  lemma SecondLoads(a: Stream, c: Stream, n: nat)
    requires |a.buffered| <= 300 && c.buffered == "" && n <= 300
    ensures var w := Three(a, NewStream(1, 4000).Read(), c, true);
            Sound(w) && Step(w, Tick(0, Data(1, Holding(1, n).received)), SILENT) == Three(a, Holding(1, n), c, true)
  {
    var w := Three(a, NewStream(1, 4000).Read(), c, true);
    ThreeSound(a, NewStream(1, 4000).Read(), c, true);
    ThreeSound(a, Holding(1, n), c, true);
    Loading(1, n);
    assert Arrive(w, 1, Holding(1, n).received) == Three(a, Holding(1, n), c, true);
  }

  lemma ThirdLoads(a: Stream, b: Stream, n: nat)
    requires |a.buffered| <= 300 && |b.buffered| <= 300 && n <= 300
    ensures var w := Three(a, b, NewStream(2, 4000).Read(), true);
            Sound(w) && Step(w, Tick(0, Data(2, Holding(2, n).received)), SILENT) == Three(a, b, Holding(2, n), true)
  {
    var w := Three(a, b, NewStream(2, 4000).Read(), true);
    ThreeSound(a, b, NewStream(2, 4000).Read(), true);
    ThreeSound(a, b, Holding(2, n), true);
    Loading(2, n);
    assert Arrive(w, 2, Holding(2, n).received) == Three(a, b, Holding(2, n), true);
  }

  function Reading(): World {
    Three(NewStream(0, 4000).Read(), NewStream(1, 4000).Read(), NewStream(2, 4000).Read(), false)
  }

  lemma RunLoads(a: nat, b: nat, c: nat)
    requires a <= 300 && b <= 300 && c <= 300
    ensures Sound(Reading())
    ensures Run(Reading(), Loads(a, b, c), SILENT) == Three(Holding(0, a), Holding(1, b), Holding(2, c), true)
  {
    var y, z := NewStream(1, 4000).Read(), NewStream(2, 4000).Read();
    FirstLoads(y, z, a);
    SecondLoads(Holding(0, a), z, b);
    ThirdLoads(Holding(0, a), Holding(1, b), c);
    RunThrice(Reading(), Loads(a, b, c)[0], Loads(a, b, c)[1], Loads(a, b, c)[2],
              Three(Holding(0, a), y, z, true), Three(Holding(0, a), Holding(1, b), z, true), SILENT);
  }

  lemma RunParts(w: World, a: seq<Tick>, b: seq<Tick>, c: seq<Tick>, d: seq<Tick>, w1: World, w2: World, w3: World)
    requires Sound(w) && w1 == Run(w, a, SILENT) && Sound(w1) && w2 == Run(w1, b, SILENT) && Sound(w2)
    requires w3 == Run(w2, c, SILENT)
    ensures Sound(w3) && Run(w, a + (b + (c + d)), SILENT) == Run(w3, d, SILENT)
  {
    RunConcat(w, a, b + (c + d), SILENT);
    RunConcat(w1, b, c + d, SILENT);
    RunConcat(w2, c, d, SILENT);
  }

  /** What the timer finds. */
  function Overrun(): World {
    Later(Three(Loaded(0), Loaded(1), Loaded(2), true), 451_000_000).(armed := 0)
  }

  lemma OverrunWaits()
    ensures forall k | 0 <= k < 3 :: Waiting(Overrun().streams, Overrun().slots[k]) == 300
    ensures Buffered(Overrun().streams, Overrun().slots) == 900
    ensures Opening(Overrun()).total == 451
  {
    var w := Overrun();
    assert w.slots[1..][1..] == [w.slots[2]];
    assert Buffered(w.streams, w.slots[1..][1..]) == 300;
  }

  /** Three open streams that have delivered nothing, each with its own node. */
  lemma ThreeGood(w: World, m: nat)
    requires |w.streams| == 3 && w.slots == [Slot(0, To(0)), Slot(1, To(1)), Slot(2, To(2))]
    requires w.nextNode == 3 && w.limit == 1000 && w.moved == 0
    requires forall i | 0 <= i < 3 :: Settled(w.streams[i], m) && w.streams[i].maxLength == 4000
    requires forall i | 0 <= i < 3 :: w.streams[i].conn == i && !w.streams[i].closed && w.streams[i].delivered == ""
    ensures Good(w, -1, m)
  {
    assert forall i | 0 <= i < 3 :: w.slots[i] == Slot(w.streams[i].conn, To(i));
    assert w.streams[1..][1..] == [w.streams[2]];
    assert Delivered(w.streams[1..][1..]) == 0;
  }

  lemma HoldingSettled(i: nat, n: nat, stopped: bool, m: nat)
    requires n < 4000 && 0 < m
    ensures var s := if stopped then Holding(i, n).Stop() else Holding(i, n); Settled(s, m) && s.delivered == ""
  {
    assert "" + Holding(i, n).buffered == Holding(i, n).buffered;
  }

  lemma OverrunGood()
    ensures Good(Overrun(), -1, 300)
  {
    HoldingSettled(0, 300, false, 300);
    HoldingSettled(1, 300, false, 300);
    HoldingSettled(2, 300, false, 300);
    ThreeGood(Overrun(), 300);
  }

  lemma OverrunShares()
    ensures Sharing(Overrun(), SILENT, 300)
  {
    OverrunWaits();
    OverrunGood();
  }

  lemma ThreeFit(level: nat)
    ensures Fill(Overrun().streams, Overrun().slots, level) == 3 * Min(300, level)
  {
    var w := Overrun();
    OverrunWaits();
    assert w.slots[1..][1..] == [w.slots[2]];
    assert Fill(w.streams, w.slots[1..][1..], level) == Min(300, level);
  }

  lemma OverrunTransfers()
    ensures Sound(Overrun()) && Opening(Overrun()).total == 451
    ensures Transfer(Overrun(), SILENT).moved == 900 && Transfer(Overrun(), SILENT).wrapped
  {
    var w := Overrun();
    OverrunShares();
    OverrunWaits();
    if Exact(w.streams, w.slots, 451) {
      var level :| 0 <= level <= 451 && Fill(w.streams, w.slots, level) == 451;
      ThreeFit(level);
      assert false;
    }
    BudgetOutcome(w, SILENT, 300);
  }

  lemma OverrunFires()
    ensures Sound(Three(Loaded(0), Loaded(1), Loaded(2), true))
    ensures var w := Run(Three(Loaded(0), Loaded(1), Loaded(2), true), [Tick(451_000_000, Timer)], SILENT);
            w.moved == 900 && w.wrapped
  {
    ThreeSound(Loaded(0), Loaded(1), Loaded(2), true);
    RunOnce(Three(Loaded(0), Loaded(1), Loaded(2), true), Tick(451_000_000, Timer), SILENT);
    OverrunTransfers();
  }

  /** A call does not always keep its budget.  In this run the timer has 451 bytes to give, and
      three streams with 300 bytes each are given all of their 900 bytes. */
  lemma BudgetOverrun(ticks: seq<Tick>)
    requires ticks == OverrunTicks()
    ensures Run(Init(1000), ticks, SILENT).moved == 900 && Run(Init(1000), ticks, SILENT).wrapped
  {
    OverrunOpens();
    OverrunReads();
    RunLoads(300, 300, 300);
    OverrunFires();
    RunParts(Init(1000), Opens(), Reads(), Loads(300, 300, 300), [Tick(451_000_000, Timer)],
             Three(NewStream(0, 4000), NewStream(1, 4000), NewStream(2, 4000), false),
             Three(NewStream(0, 4000).Read(), NewStream(1, 4000).Read(), NewStream(2, 4000).Read(), false),
             Three(Loaded(0), Loaded(1), Loaded(2), true));
  }

  // ------------------------------------------------------------- stopped streams are charged

  /** Three and three bytes for streams that are stopped then, a hundred for one that reads on. */
  function StoppedTicks(): seq<Tick> {
    Opens() + (Reads() + (Loads(3, 3, 100)
      + [Tick(0, Consumer(Stop(0))), Tick(0, Consumer(Stop(1))), Tick(50_000_000, Timer)]))
  }

  function Waiting3(): World {
    Three(Holding(0, 3).Stop(), Holding(1, 3).Stop(), Holding(2, 100), true)
  }

  /** What the timer finds 50 ms later, with 50 bytes to give. */
  function Stopped(): World {
    Later(Waiting3(), 50_000_000).(armed := 0)
  }

  lemma StopStep(w: World, i: nat, r: World)
    requires Sound(w) && i < |w.streams| && w.streams[i].alive && r == w.Put(i, w.streams[i].Stop())
    ensures Step(w, Tick(0, Consumer(Stop(i))), SILENT) == r
  {
  }

  lemma StopsRun(w: World)
    requires w == Three(Holding(0, 3), Holding(1, 3), Holding(2, 100), true)
    ensures Sound(w) && Sound(Stopped())
    ensures Run(w, [Tick(0, Consumer(Stop(0))), Tick(0, Consumer(Stop(1))), Tick(50_000_000, Timer)], SILENT)
            == Transfer(Stopped(), SILENT)
  {
    var a, b, c := Holding(0, 3), Holding(1, 3), Holding(2, 100);
    var w1 := Three(a.Stop(), b, c, true);
    ThreeSound(a, b, c, true);
    ThreeSound(a.Stop(), b, c, true);
    ThreeSound(a.Stop(), b.Stop(), c, true);
    StopStep(w, 0, w1);
    StopStep(w1, 1, Waiting3());
    RunThrice(w, Tick(0, Consumer(Stop(0))), Tick(0, Consumer(Stop(1))), Tick(50_000_000, Timer), w1, Waiting3(),
        SILENT);
  }

  lemma StoppedSound()
    ensures Sound(Stopped())
  {
    var w := Stopped();
    ThreeSound(w.streams[0], w.streams[1], w.streams[2], true);
  }

  /** Two stopped streams with three bytes each, and one that reads on and has `left`. */
  ghost predicate Trio(w: World, left: nat) {
    && w.slots == [Slot(0, To(0)), Slot(1, To(1)), Slot(2, To(2))] && |w.streams| == 3
    && (forall i | 0 <= i < 3 :: w.streams[i].alive)
    && (forall i | 0 <= i < 2 :: w.streams[i].stopped && |w.streams[i].buffered| == 3)
    && !w.streams[2].stopped && !w.streams[2].paused && !w.streams[2].eof && |w.streams[2].buffered| == left
  }

  lemma TrioBusy(w: World, left: nat)
    requires Trio(w, left)
    ensures Busy(w.streams, w.slots) <= 3
  {
    BusyWithin(w.streams, w.slots);
  }

  /** A turn on one of the stopped streams. */
  lemma PassStopped(t: Tally, left: nat, k: nat, chunk: nat, r: Tally)
    requires Trio(t.w, left) && k < 2 && 3 <= t.total < WORD && 3 <= chunk < WORD
    requires r == t.(total := t.total - 3, charged := t.charged + 3)
    ensures Ready(t, At(k), chunk) && Ready(r, At(k + 1), chunk)
    ensures Visit(t, At(k), chunk, SILENT) == Visit(r, At(k + 1), chunk, SILENT)
  {
    assert Turn(t, k, chunk, SILENT) == Turned(r, At(k + 1));
  }

  /** What a turn on the other makes of the tally. */
  function Served(t: Tally, n: nat): Tally
    requires 2 < |t.w.streams| && n <= |t.w.streams[2].buffered| && t.total < WORD && n <= WORD
  {
    Tally(Popped(t.w, 2, n).(events := t.w.events + 1), Minus(t.total, n),
          if |t.w.streams[2].buffered| > n then t.pending + 1 else t.pending,
          t.charged + n, t.wrapped || t.total < n, t.short)
  }

  lemma PassReading(t: Tally, left: nat, chunk: nat)
    requires Trio(t.w, left) && t.total < WORD && 0 < chunk < WORD && 0 < left < WORD
    ensures Ready(t, At(2), chunk)
    ensures Visit(t, At(2), chunk, SILENT) == Served(t, Min(left, chunk))
    ensures Trio(Served(t, Min(left, chunk)).w, left - Min(left, chunk))
  {
    var r := Served(t, Min(left, chunk));
    TurnReading(t, left, chunk, r);
    assert Visit(r, End, chunk, SILENT) == r;
  }

  lemma TurnReading(t: Tally, left: nat, chunk: nat, r: Tally)
    requires Trio(t.w, left) && t.total < WORD && 0 < chunk < WORD && 0 < left < WORD
    requires r == Served(t, Min(left, chunk))
    ensures Ready(t, At(2), chunk) && Turn(t, 2, chunk, SILENT) == Turned(r, End) && Trio(r.w, left - Min(left, chunk))
  {
  }

  /** A whole round. */
  lemma TrioRound(t: Tally, left: nat, t2: Tally)
    requires Entered(t) && Trio(t.w, left) && 6 <= t.total && 3 <= Chunk(t) && 0 < left < WORD
    requires t2 == t.(pending := 0, total := t.total - 6, charged := t.charged + 6)
    ensures Round(t, SILENT) == Served(t2, Min(left, Chunk(t)))
    ensures Trio(Round(t, SILENT).w, left - Min(left, Chunk(t)))
  {
    TrioBusy(t.w, left);
    var t0 := Fresh(t);
    var t1 := t0.(total := t.total - 3, charged := t.charged + 3);
    PassStopped(t0, left, 0, Chunk(t), t1);
    PassStopped(t1, left, 1, Chunk(t), t2);
    PassReading(t2, left, Chunk(t));
  }

  /** After the wrap the last round gives all that is left. */
  lemma LastRoundGives(t: Tally, left: nat)
    requires Entered(t) && Trio(t.w, left) && t.wrapped && !t.short && t.pending == 1 && 0 < left <= 100
    ensures var r := Rounds(t, SILENT); r.wrapped && !r.short && r.w.moved == t.w.moved + left
  {
    assert Chunk(t) == t.total;
    TrioRound(t, left, t.(pending := 0, total := t.total - 6, charged := t.charged + 6));
  }

  /** The second round begins with 28 bytes and charges 3 + 3 + 28. */
  lemma SecondRoundWraps(t: Tally)
    requires Entered(t) && Trio(t.w, 84) && t.total == 28 && t.pending == 1 && !t.wrapped && !t.short && t.w.moved == 16
    ensures var r := Rounds(t, SILENT); r.wrapped && !r.short && r.w.moved == 100
  {
    TrioRound(t, 84, t.(pending := 0, total := 22, charged := t.charged + 6));
    RoundDecreases(t, SILENT);
    LastRoundGives(Round(t, SILENT), 56);
  }

  /** The first gives out fifty bytes as 3 + 3 + 16, of which the stopped streams take none. */
  lemma StoppedRounds(t: Tally)
    requires Entered(t) && Trio(t.w, 100) && t.total == 50 && t.pending == 3 && !t.wrapped && !t.short && t.w.moved == 0
    ensures var r := Rounds(t, SILENT); r.wrapped && !r.short && r.w.moved == 100
  {
    TrioRound(t, 100, t.(pending := 0, total := 44, charged := t.charged + 6));
    RoundDecreases(t, SILENT);
    SecondRoundWraps(Round(t, SILENT));
  }

  lemma StoppedTrio(w: World)
    requires w.streams == Stopped().streams && w.slots == Stopped().slots
    ensures Trio(w, 100)
  {
  }

  lemma StoppedBudget(w: World)
    requires w == Stopped()
    ensures w.last <= w.clock && Spends(w)
    ensures Opening(w) == Tally(w.(sheduled := false, last := 50_000_000), 50, 3, 0, false, false)
  {
    assert Elapsed(w) == 50;
  }

  lemma StoppedOpens(w: World, t: Tally)
    requires w == Stopped() && t == Tally(w.(sheduled := false, last := 50_000_000), 50, 3, 0, false, false)
    ensures Sound(w) && Spends(w) && Opening(w) == t && Entered(t) && Trio(t.w, 100)
  {
    StoppedSound();
    StoppedBudget(w);
    StoppedTrio(t.w);
  }

  lemma StoppedTransfers(w: World)
    requires w == Stopped()
    ensures Sound(w)
    ensures var r := Transfer(w, SILENT); r.wrapped && !r.short && r.moved == 100 && r.clock == 50_000_000
  {
    var t := Tally(w.(sheduled := false, last := 50_000_000), 50, 3, 0, false, false);
    StoppedOpens(w, t);
    StoppedRounds(t);
    SpentFlags(w, Rounds(t, SILENT));
  }

  lemma SpentFlags(w: World, r: Tally)
    requires Sound(w) && Spends(w) && r == Rounds(Opening(w), SILENT) && r.wrapped && !r.short && !w.short
    ensures var w' := Transfer(w, SILENT); w'.wrapped && w'.short == r.w.short && w'.moved == r.w.moved
                                               && w'.clock == w.clock
    ensures r.w.short == w.short
  {
    RoundsSound(Opening(w), SILENT);
  }

  lemma StoppedFires(w: World)
    requires w == Three(Holding(0, 3), Holding(1, 3), Holding(2, 100), true)
    ensures Sound(w)
    ensures var r := Run(w, [Tick(0, Consumer(Stop(0))), Tick(0, Consumer(Stop(1))), Tick(50_000_000, Timer)], SILENT);
            r.wrapped && !r.short && r.moved == 100 && r.clock == 50_000_000
  {
    StopsRun(w);
    StoppedTransfers(Stopped());
  }

  /** Streams that are stopped break the rate, although every round begins with a byte for each
      stream that has some: 50 ms with a limit of 1000 bytes per second, and 100 bytes are moved. */
  lemma RateOverrun(ticks: seq<Tick>)
    requires ticks == StoppedTicks()
    ensures var w := Run(Init(1000), ticks, SILENT); w.wrapped && !w.short && w.moved == 100 && w.clock == 50_000_000
    ensures var w := Run(Init(1000), ticks, SILENT); 1_000_000_000 * w.moved > 1000 * w.clock
  {
    OverrunOpens();
    OverrunReads();
    RunLoads(3, 3, 100);
    StoppedFires(Three(Holding(0, 3), Holding(1, 3), Holding(2, 100), true));
    RunParts(Init(1000), Opens(), Reads(), Loads(3, 3, 100),
             [Tick(0, Consumer(Stop(0))), Tick(0, Consumer(Stop(1))), Tick(50_000_000, Timer)],
             Three(NewStream(0, 4000), NewStream(1, 4000), NewStream(2, 4000), false),
             Three(NewStream(0, 4000).Read(), NewStream(1, 4000).Read(), NewStream(2, 4000).Read(), false),
             Three(Holding(0, 3), Holding(1, 3), Holding(2, 100), true));
  }

  // ----------------------------------------------------------------------- a lost wake-up

  /** A stream of a controller with limit 1000 that has one undelivered byte. */
  function OneByte(stopped: bool): Stream {
    Stream(0, "a", 4000, false, stopped, false, false, !stopped, true, "a", "", 0, false)
  }

  function OneStream(s: Stream, sheduled: bool, clock: nat, last: nat): World {
    World(1000, [s], [Slot(0, To(0))], 1, sheduled, if sheduled then 1 else 0, clock, last, 0, 0, false, false)
  }

  lemma ByteArrives()
    ensures Run(Init(1000), [Tick(0, Consumer(Create)), Tick(0, Consumer(Read(0))), Tick(0, Data(0, "a"))], SILENT)
            == OneStream(OneByte(false), true, 0, 0)
  {
    var ticks := [Tick(0, Consumer(Create)), Tick(0, Consumer(Read(0))), Tick(0, Data(0, "a"))];
    var s := NewStream(0, 4000);
    var w1, w2 := OneStream(s, false, 0, 0), OneStream(s.Read(), false, 0, 0);
    assert Step(Init(1000), ticks[0], SILENT) == w1;
    assert Step(w1, ticks[1], SILENT) == w2 by {
      assert w1.streams[0 := s.Read()] == w2.streams;
    }
    assert Step(w2, ticks[2], SILENT) == OneStream(OneByte(false), true, 0, 0) by {
      assert "" + "a" == "a";
      assert s.Read().Push("a") == OneByte(false);
      assert w2.streams[0 := s.Read().Push("a")] == [OneByte(false)];
    }
    assert ticks[1..][1..] == [ticks[2]];
  }

  /** The timer finds the only stream stopped: the byte is charged, not delivered, and the stream
      is not counted as pending. */
  lemma TimerSkips()
    ensures Sound(OneStream(OneByte(true), true, 0, 0))
    ensures Step(OneStream(OneByte(true), true, 0, 0), Tick(50_000_000, Timer), SILENT)
            == OneStream(OneByte(true), false, 50_000_000, 50_000_000)
  {
    var v := Later(OneStream(OneByte(true), true, 0, 0), 50_000_000).(armed := 0);
    var t := Opening(v);
    assert t.total == 50;
    var t0 := Fresh(t);
    assert Turn(t0, 0, 50, SILENT) == Turned(Charge(t0, 0, 1, SILENT), End);
    assert Round(t, SILENT) == Charge(t0, 0, 1, SILENT);
    assert Rounds(t, SILENT) == Round(t, SILENT);
  }

  /** NoLostWakeUp needs its condition: here the consumer stops before the timer fires and reads
      on afterwards, and an open, reading stream is left with a byte nobody will deliver. */
  lemma LostWakeUp()
    ensures
      var ticks := [Tick(0, Consumer(Create)), Tick(0, Consumer(Read(0))), Tick(0, Data(0, "a"))];
      var start := Run(Init(1000), ticks, SILENT);
      Sound(start) &&
      var w := Run(start, [Tick(0, Consumer(Stop(0))), Tick(50_000_000, Timer), Tick(0, Consumer(Read(0)))], SILENT);
      && |w.streams| == 1 && w.streams[0].buffered == "a"
      && w.streams[0].alive && !w.streams[0].closed && !w.streams[0].stopped
      && !w.sheduled && w.armed == 0
  {
    ByteArrives();
    TimerSkips();
    var ticks := [Tick(0, Consumer(Stop(0))), Tick(50_000_000, Timer), Tick(0, Consumer(Read(0)))];
    var w3, w4 := OneStream(OneByte(false), true, 0, 0), OneStream(OneByte(true), true, 0, 0);
    var w5 := OneStream(OneByte(true), false, 50_000_000, 50_000_000);
    assert Step(w3, ticks[0], SILENT) == w4 by {
      assert w3.streams[0 := OneByte(false).Stop()] == w4.streams;
    }
    assert ticks[1..][1..] == [ticks[2]];
  }

  // ------------------------------------------------------------- a socket is read regardless

  /** A consumer that does one thing in its first handler. */
  function Once(a: Action): Script {
    (n: nat) => if n == 0 then [a] else []
  }

  /** The stream of a controller with limit 1, whose buffer of four bytes is full. */
  function Full(): Stream {
    Stream(0, "abcd", 4, true, false, false, false, false, true, "abcd", "", 0, false)
  }

  function FullStream(clock: nat, armed: nat): World {
    World(1, [Full()], [Slot(0, To(0))], 1, true, armed, clock, 0, 0, 0, false, false)
  }

  lemma FullSound(w: World)
    requires w.streams == [Full()] && w.slots == [Slot(0, To(0))] && w.last <= w.clock
    ensures Sound(w) && Buffered(w.streams, w.slots) == 4
  {
  }

  function Single(s: Stream): World {
    World(1, [s], [Slot(0, To(0))], 1, false, 0, 0, 0, 0, 0, false, false)
  }

  /** The segment finds no budget and arms the timer. */
  lemma SegmentFills(w: World, script: Script)
    requires w == Single(NewStream(0, 4).Read())
    ensures Sound(w) && Step(w, Tick(0, Data(0, "abcd")), script) == FullStream(0, 1)
  {
    assert "" + "abcd" == "abcd" && NewStream(0, 4).Read().Push("abcd") == Full();
    assert w.streams[0 := Full()] == [Full()];
    FullSound(FullStream(0, 1));
    assert Arrive(w, 0, "abcd") == w.(streams := [Full()]);
    FullSound(w.(streams := [Full()]));
  }

  function FillTicks(): seq<Tick> {
    [Tick(0, Consumer(Create)), Tick(0, Consumer(Read(0))), Tick(0, Data(0, "abcd"))]
  }

  lemma FillCreates(script: Script)
    ensures Sound(Init(1)) && Step(Init(1), Tick(0, Consumer(Create)), script) == Single(NewStream(0, 4))
  {
  }

  lemma FillReads(w: World, script: Script)
    requires w == Single(NewStream(0, 4))
    ensures Sound(w) && Step(w, Tick(0, Consumer(Read(0))), script) == Single(NewStream(0, 4).Read())
  {
    assert w.Put(0, NewStream(0, 4).Read()) == Single(NewStream(0, 4).Read());
  }

  lemma BufferFills(w: World, w1: World, w2: World, script: Script)
    requires w == Init(1) && w1 == Single(NewStream(0, 4)) && w2 == Single(NewStream(0, 4).Read())
    ensures Sound(w) && Run(w, FillTicks(), script) == FullStream(0, 1) && Sound(FullStream(0, 1))
  {
    FillCreates(script);
    FillReads(w1, script);
    SegmentFills(w2, script);
    FullSound(FullStream(0, 1));
    RunThrice(w, FillTicks()[0], FillTicks()[1], FillTicks()[2], w1, w2, script);
  }

  /** After four seconds there are four bytes to give. */
  lemma FullTransfers(w: World, script: Script)
    requires w == FullStream(4_000_000_000, 0)
    ensures Sound(w) && Transfer(w, script).streams == TransferStream(Opening(w).w, 0, 4, script).streams
  {
    FullSound(w);
    var t := Opening(w);
    assert t.total == 4;
    var t0 := Fresh(t);
    assert Turn(t0, 0, 4, script) == Turned(Charge(t0, 0, 4, script), End);
    assert Round(t, script) == Charge(t0, 0, 4, script);
    assert Rounds(t, script) == Round(t, script);
  }

  lemma FullResumes(w: World, a: Action, script: Script)
    requires w == FullStream(4_000_000_000, 0) && (a == Stop(0) || a == Close(0)) && script == Once(a)
    ensures Sound(w)
    ensures var streams := Transfer(w, script).streams;
            && |streams| > 0 && streams[0].stopped && streams[0].reading && streams[0].closed == a.Close?
            && streams[0].delivered == "abcd"
  {
    FullTransfers(w, script);
    TransferMoves(Opening(w).w, 0, 4, script);
    assert "" + "abcd"[..4] == "abcd";
    FullGood(Opening(w).w);
    ResumesRegardless(Opening(w).w, 0, 4, script, 4);
    assert Leaves(FlagsOf(Full()), [a], 0) == Acted(FlagsOf(Full()), a, 0);
  }

  /** The consumer stops or closes the stream in the handler of its only DataEvent; its socket is
      read all the same. */
  lemma ResumedAfter(a: Action, script: Script, ticks: seq<Tick>)
    requires (a == Stop(0) || a == Close(0)) && script == Once(a)
    requires ticks == FillTicks() + [Tick(4_000_000_000, Timer)]
    ensures var streams := Run(Init(1), ticks, script).streams;
            && |streams| > 0 && streams[0].stopped && streams[0].reading && streams[0].closed == a.Close?
            && streams[0].delivered == "abcd"
  {
    var w, tick := FullStream(0, 1), Tick(4_000_000_000, Timer);
    BufferFills(Init(1), Single(NewStream(0, 4)), Single(NewStream(0, 4).Read()), script);
    RunConcat(Init(1), FillTicks(), [tick], script);
    RunOnce(w, tick, script);
    FullTicks(w, tick, script);
    FullResumes(FullStream(4_000_000_000, 0), a, script);
  }

  lemma FullTicks(w: World, tick: Tick, script: Script)
    requires w == FullStream(0, 1) && tick == Tick(4_000_000_000, Timer) && Sound(w)
    ensures Sound(FullStream(4_000_000_000, 0))
    ensures Step(w, tick, script) == Transfer(FullStream(4_000_000_000, 0), script)
  {
    FullSound(FullStream(4_000_000_000, 0));
  }

  lemma FullGood(w: World)
    requires w.streams == [Full()] && w.slots == [Slot(0, To(0))] && w.nextNode == 1 && w.limit == 1 && w.moved == 0
    ensures Good(w, -1, 4)
  {
    assert "" + "abcd" == "abcd";
    assert w.slots[0] == Slot(0, To(0));
    assert w.streams[1..] == [];
  }

  // ------------------------------------------------------------------ an end is not announced

  /** The end of the stream arrives while its buffer is empty: nobody is told. */
  lemma EndUnannounced()
    ensures var w := Run(Init(1000), [Tick(0, Consumer(Create)), Tick(0, Consumer(Read(0))), Tick(0, Eof(0))], SILENT);
            |w.streams| == 1 && w.streams[0].eof && w.streams[0].buffered == "" && w.streams[0].ends == 0
  {
    var s := NewStream(0, 4000);
    var w1, w2 := OneStream(s, false, 0, 0), OneStream(s.Read(), false, 0, 0);
    assert Step(Init(1000), Tick(0, Consumer(Create)), SILENT) == w1;
    assert w1.streams[0 := s.Read()] == w2.streams;
    RunThrice(Init(1000), Tick(0, Consumer(Create)), Tick(0, Consumer(Read(0))), Tick(0, Eof(0)), w1, w2, SILENT);
  }
}
