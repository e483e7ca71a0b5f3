/** How one call of `transfer` shares its budget among reading streams: every stream gets up to
    one common level, and the budget is kept exactly when some level uses it up exactly. */
module BandwidthFairness {
  import opened BandwidthModel
  import opened BandwidthRounds
  import opened BandwidthSafety
  import opened BandwidthRate

  /** Consumers that read on, and may open new connections, but never stop or close one. */
  ghost predicate Quiet(script: Script) {
    forall n: nat, k | 0 <= k < |script(n)| :: script(n)[k].Read? || script(n)[k].Create?
  }

  /** Consumers that may also stop any connection, but do not close or release one in a handler. */
  ghost predicate Gentle(script: Script) {
    forall n: nat, k | 0 <= k < |script(n)| :: !script(n)[k].Close? && !script(n)[k].Release?
  }

  /** The bytes needed to give every registered stream up to `level` of what it has. */
  function Fill(streams: seq<Stream>, slots: seq<Slot>, level: nat): nat {
    if slots == [] then 0 else Min(Waiting(streams, slots[0]), level) + Fill(streams, slots[1..], level)
  }

  predicate Listed(slots: seq<Slot>, i: nat) {
    exists k | 0 <= k < |slots| :: slots[k].ref == To(i)
  }

  // ------------------------------------------------------------------- arithmetic of levels

  lemma {:induction false} FillConcat(streams: seq<Stream>, a: seq<Slot>, b: seq<Slot>, level: nat)
    ensures Fill(streams, a + b, level) == Fill(streams, a, level) + Fill(streams, b, level)
  {
    if a == [] {
      assert a + b == b;
    } else {
      assert (a + b)[1..] == a[1..] + b;
      FillConcat(streams, a[1..], b, level);
    }
  }

  lemma {:induction false} FillSame(streams: seq<Stream>, slots: seq<Slot>, streams': seq<Stream>, slots': seq<Slot>,
      level: nat)
    requires |slots| == |slots'|
    requires forall k | 0 <= k < |slots| :: Waiting(streams, slots[k]) == Waiting(streams', slots'[k])
    ensures Fill(streams, slots, level) == Fill(streams', slots', level)
  {
    if slots != [] {
      FillSame(streams, slots[1..], streams', slots'[1..], level);
    }
  }

  lemma {:induction false} FillNothing(streams: seq<Stream>, slots: seq<Slot>, level: nat)
    requires forall k | 0 <= k < |slots| :: Waiting(streams, slots[k]) == 0
    ensures Fill(streams, slots, level) == 0
  {
    if slots != [] {
      FillNothing(streams, slots[1..], level);
    }
  }

  /** A level costs at most itself for each busy stream, and at least one byte for each. */
  lemma {:induction false} FillBounds(streams: seq<Stream>, slots: seq<Slot>, level: nat)
    ensures level > 0 ==> Fill(streams, slots, level) >= Busy(streams, slots)
    ensures Fill(streams, slots, level) <= Buffered(streams, slots)
    ensures level >= Buffered(streams, slots) ==> Fill(streams, slots, level) == Buffered(streams, slots)
  {
    if slots != [] {
      FillBounds(streams, slots[1..], level);
    }
  }

  lemma {:induction false} FillTimes(streams: seq<Stream>, slots: seq<Slot>, level: nat)
    ensures Fill(streams, slots, level) <= Busy(streams, slots) * level
  {
    if slots != [] {
      FillTimes(streams, slots[1..], level);
      var busy := Busy(streams, slots[1..]);
      assert (1 + busy) * level == level + busy * level;
    }
  }

  lemma {:induction false} FillMonotone(streams: seq<Stream>, slots: seq<Slot>, low: nat, high: nat)
    requires low <= high
    ensures Fill(streams, slots, low) <= Fill(streams, slots, high)
  {
    if slots != [] {
      FillMonotone(streams, slots[1..], low, high);
    }
  }

  // ----------------------------------------------------------------- transfers to the gentle

  /** What a gentle consumer changes of the buffers: new, empty streams may appear. */
  ghost predicate Hushed(w: World, w': World) {
    && |w.streams| <= |w'.streams| && |w.slots| <= |w'.slots| && w'.moved == w.moved
    && (forall i | 0 <= i < |w.streams| ::
          w'.streams[i].alive == w.streams[i].alive && w'.streams[i].buffered == w.streams[i].buffered)
    && (forall i | |w.streams| <= i < |w'.streams| :: w'.streams[i].buffered == "")
    && (forall k | 0 <= k < |w.slots| :: w'.slots[k] == w.slots[k])
    && (forall k | |w.slots| <= k < |w'.slots| ::
          w'.slots[k].ref.To? ==> |w.streams| <= w'.slots[k].ref.id < |w'.streams|)
  }

  lemma HushedTwice(a: World, b: World, c: World)
    requires Hushed(a, b) && Hushed(b, c)
    ensures Hushed(a, c)
  {
  }

  lemma {:induction false} ApplyAllHushed(w: World, actions: seq<Action>)
    requires forall k | 0 <= k < |actions| :: !actions[k].Close? && !actions[k].Release?
    ensures Hushed(w, ApplyAll(w, actions))
    decreases |actions|
  {
    if actions != [] {
      var w' := Apply(w, actions[0]);
      assert Hushed(w, w');
      ApplyAllHushed(w', actions[1..]);
      HushedTwice(w, w', ApplyAll(w, actions));
    }
  }

  lemma PublishHushed(w: World, script: Script)
    requires Gentle(script)
    ensures Hushed(w, Publish(w, script))
  {
    ApplyAllHushed(w.(events := w.events + 1), script(w.events));
  }

  lemma SettleHushed(w: World, i: nat, script: Script)
    requires i < |w.streams| && Gentle(script)
    ensures Hushed(w, Settle(w, i, script))
  {
    var s := w.streams[i];
    var v := w.Put(i, s.(stopped := true, ends := s.ends + 1));
    PublishHushed(v, script);
    HushedTwice(w, v, Publish(v, script));
  }

  /** The world right after `n` bytes have left stream `i`. */
  function Popped(w: World, i: nat, n: nat): World
    requires i < |w.streams| && n <= |w.streams[i].buffered|
  {
    w.Put(i, w.streams[i].Pop(n)).(moved := w.moved + n)
  }

  lemma TransferHushed(w: World, i: nat, n: nat, script: Script)
    requires i < |w.streams| && !w.streams[i].stopped && 0 < n <= |w.streams[i].buffered| && Gentle(script)
    ensures Hushed(Popped(w, i, n), TransferStream(w, i, n, script))
  {
    DeliverShrinks(w, i, n, script);
    PublishHushed(Popped(w, i, n), script);
    SettleHushed(Deliver(w, i, n, script), i, script);
    HushedTwice(Popped(w, i, n), Deliver(w, i, n, script), TransferStream(w, i, n, script));
  }

  lemma HushedSums(w: World, w': World, lo: nat, hi: nat, level: nat)
    requires WellFormed(w) && Hushed(w, w') && lo <= hi <= |w.slots|
    ensures Fill(w'.streams, w'.slots[lo..hi], level) == Fill(w.streams, w.slots[lo..hi], level)
    ensures Fill(w'.streams, w'.slots[lo..], level) == Fill(w.streams, w.slots[lo..], level)
  {
    var n := |w.slots|;
    FillSame(w'.streams, w'.slots[lo..hi], w.streams, w.slots[lo..hi], level);
    FillSame(w'.streams, w'.slots[lo..n], w.streams, w.slots[lo..n], level);
    FillNothing(w'.streams, w'.slots[n..], level);
    FillConcat(w'.streams, w'.slots[lo..n], w'.slots[n..], level);
    assert w'.slots[lo..] == w'.slots[lo..n] + w'.slots[n..];
    assert w.slots[lo..] == w.slots[lo..n];
  }

  lemma PoppedSums(w: World, k: nat, n: nat, level: nat)
    requires Linked(w) && k < |w.slots| && Locks(w.streams, w.slots[k]) && n <= Waiting(w.streams, w.slots[k])
    ensures
      var v := Popped(w, w.slots[k].ref.id, n);
      && Fill(v.streams, v.slots[..k], level) == Fill(w.streams, w.slots[..k], level)
      && Fill(v.streams, v.slots[k + 1..], level) == Fill(w.streams, w.slots[k + 1..], level)
      && Waiting(v.streams, v.slots[k]) == Waiting(w.streams, w.slots[k]) - n
  {
    var v := Popped(w, w.slots[k].ref.id, n);
    FillSame(v.streams, v.slots[..k], w.streams, w.slots[..k], level);
    FillSame(v.streams, v.slots[k + 1..], w.streams, w.slots[k + 1..], level);
  }

  // ------------------------------------------------------------------------------- one pass

  /** The cost of raising everyone to `level` once the pass that gives `chunk` is over, seen
      from the middle of the pass. */
  function Outlook(w: World, it: Iter, chunk: nat, level: nat): int
    requires ValidIter(it, w.slots)
  {
    Fill(w.streams, Behind(it, w.slots), level)
    + Fill(w.streams, Ahead(it, w.slots), level + chunk) - Fill(w.streams, Ahead(it, w.slots), chunk)
  }

  lemma FillSplit(w: World, k: nat, level: nat)
    requires k < |w.slots|
    ensures Fill(w.streams, w.slots[k..], level) ==
            Min(Waiting(w.streams, w.slots[k]), level) + Fill(w.streams, w.slots[k + 1..], level)
    ensures Fill(w.streams, w.slots[..k + 1], level) ==
            Fill(w.streams, w.slots[..k], level) + Min(Waiting(w.streams, w.slots[k]), level)
  {
    assert w.slots[k..] == [w.slots[k]] + w.slots[k + 1..];
    FillConcat(w.streams, [w.slots[k]], w.slots[k + 1..], level);
    assert w.slots[..k + 1] == w.slots[..k] + [w.slots[k]];
    FillConcat(w.streams, w.slots[..k], [w.slots[k]], level);
  }

  /** `w'` is what `w` becomes when the stream of node `k` gives `n` bytes to a gentle consumer. */
  ghost predicate Gave(w: World, k: nat, n: nat, w': World) {
    && Linked(w) && k < |w.slots| && Locks(w.streams, w.slots[k])
    && n <= Waiting(w.streams, w.slots[k])
    && Hushed(Popped(w, w.slots[k].ref.id, n), w')
  }

  lemma GaveAhead(w: World, k: nat, n: nat, w': World, level: nat)
    requires Gave(w, k, n, w')
    ensures ValidIter(Forward(k + 1, w.slots), w'.slots)
    ensures Fill(w'.streams, Ahead(Forward(k + 1, w.slots), w'.slots), level) ==
            Fill(w.streams, w.slots[k + 1..], level)
  {
    var v := Popped(w, w.slots[k].ref.id, n);
    PoppedSums(w, k, n, level);
    HushedSums(v, w', k + 1, k + 1, level);
  }

  lemma GaveBehind(w: World, k: nat, n: nat, w': World, level: nat)
    requires Gave(w, k, n, w')
    ensures ValidIter(Forward(k + 1, w.slots), w'.slots)
    ensures Fill(w'.streams, Behind(Forward(k + 1, w.slots), w'.slots), level) ==
            Fill(w.streams, w.slots[..k], level) + Min(Waiting(w.streams, w.slots[k]) - n, level)
  {
    var v := Popped(w, w.slots[k].ref.id, n);
    PoppedSums(w, k, n, level);
    HushedSums(v, w', 0, k, level);
    HushedSums(v, w', k + 1, k + 1, level);
    FillSplit(w', k, level);
    assert v.slots[0..k] == v.slots[..k] && w'.slots[0..k] == w'.slots[..k];
    if k + 1 == |w.slots| {
      assert w'.slots[..|w'.slots|] == w'.slots[..k + 1] + w'.slots[k + 1..];
      FillConcat(w'.streams, w'.slots[..k + 1], w'.slots[k + 1..], level);
    }
  }

  lemma GaveOutlook(w: World, k: nat, chunk: nat, w': World, level: nat)
    requires k < |w.slots| && Gave(w, k, Min(Waiting(w.streams, w.slots[k]), chunk), w')
    ensures
      var n, next := Min(Waiting(w.streams, w.slots[k]), chunk), Forward(k + 1, w.slots);
      && ValidIter(next, w'.slots)
      && Outlook(w', next, chunk, level) == Outlook(w, At(k), chunk, level)
      && n + Fill(w'.streams, Ahead(next, w'.slots), chunk) == Fill(w.streams, w.slots[k..], chunk)
  {
    var n := Min(Waiting(w.streams, w.slots[k]), chunk);
    FillSplit(w, k, chunk);
    FillSplit(w, k, level + chunk);
    GaveBehind(w, k, n, w', level);
    GaveAhead(w, k, n, w', chunk);
    GaveAhead(w, k, n, w', level + chunk);
  }

  lemma SkipOutlook(w: World, k: nat, chunk: nat, level: nat)
    requires k < |w.slots| && Waiting(w.streams, w.slots[k]) == 0
    ensures Outlook(w, Forward(k + 1, w.slots), chunk, level) == Outlook(w, At(k), chunk, level)
    ensures Fill(w.streams, Ahead(Forward(k + 1, w.slots), w.slots), chunk) == Fill(w.streams, w.slots[k..], chunk)
  {
    FillSplit(w, k, level);
    FillSplit(w, k, chunk);
    FillSplit(w, k, level + chunk);
    assert w.slots[..|w.slots|] == w.slots;
  }

  lemma EraseOutlook(w: World, k: nat, chunk: nat, level: nat)
    requires k < |w.slots| && Waiting(w.streams, w.slots[k]) == 0
    ensures
      var v := w.(slots := Erase(w.slots, k));
      && Outlook(v, Forward(k, v.slots), chunk, level) == Outlook(w, At(k), chunk, level)
      && Fill(v.streams, Ahead(Forward(k, v.slots), v.slots), chunk) == Fill(w.streams, w.slots[k..], chunk)
  {
    FillSplit(w, k, chunk);
    FillSplit(w, k, level + chunk);
    assert Erase(w.slots, k)[..k] == w.slots[..k];
    assert Erase(w.slots, k)[k..] == w.slots[k + 1..];
  }

  lemma QuietIsGentle(script: Script)
    requires Quiet(script)
    ensures Gentle(script)
  {
    forall n: nat, k | 0 <= k < |script(n)|
      ensures !script(n)[k].Close? && !script(n)[k].Release?
    {
    }
  }

  lemma TurnGave(t: Tally, k: nat, chunk: nat, script: Script)
    requires Ready(t, At(k), chunk) && Linked(t.w) && Gentle(script)
    requires Waiting(t.w.streams, t.w.slots[k]) > 0 && !t.w.streams[t.w.slots[k].ref.id].stopped
    ensures
      var r, n := Turn(t, k, chunk, script), Min(Waiting(t.w.streams, t.w.slots[k]), chunk);
      && Gave(t.w, k, n, r.t.w)
      && r.it == Forward(k + 1, t.w.slots)
      && r.t.charged == t.charged + n && r.t.w.moved == t.w.moved + n
  {
    TransferHushed(t.w, t.w.slots[k].ref.id, Min(Waiting(t.w.streams, t.w.slots[k]), chunk), script);
  }

  /** What a turn must keep for `VisitOutlook`. */
  ghost predicate KeepsOutlook(t: Tally, k: nat, chunk: nat, r: Turned, level: nat)
    requires k < |t.w.slots| && ValidIter(r.it, r.t.w.slots)
  {
    && Outlook(r.t.w, r.it, chunk, level) == Outlook(t.w, At(k), chunk, level)
    && r.t.charged + Fill(r.t.w.streams, Ahead(r.it, r.t.w.slots), chunk) ==
       t.charged + Fill(t.w.streams, t.w.slots[k..], chunk)
    && r.t.w.moved - t.w.moved == r.t.charged - t.charged
  }

  lemma TurnOutlook(t: Tally, k: nat, chunk: nat, script: Script, level: nat)
    requires Ready(t, At(k), chunk) && Linked(t.w) && Eager(t.w, -1) && Quiet(script)
    ensures ValidIter(Turn(t, k, chunk, script).it, Turn(t, k, chunk, script).t.w.slots)
    ensures KeepsOutlook(t, k, chunk, Turn(t, k, chunk, script), level)
  {
    var w, r := t.w, Turn(t, k, chunk, script);
    if Waiting(w.streams, w.slots[k]) > 0 {
      QuietIsGentle(script);
      TurnGave(t, k, chunk, script);
      GaveOutlook(w, k, chunk, r.t.w, level);
    } else if Locks(w.streams, w.slots[k]) {
      SkipOutlook(w, k, chunk, level);
    } else {
      EraseOutlook(w, k, chunk, level);
    }
  }

  lemma {:induction false} VisitOutlook(t: Tally, it: Iter, chunk: nat, script: Script, level: nat, m: nat)
    requires Ready(t, it, chunk) && Good(t.w, -1, m) && Eager(t.w, -1) && Quiet(script)
    ensures var r := Visit(t, it, chunk, script);
            && Fill(r.w.streams, r.w.slots, level) == Outlook(t.w, it, chunk, level)
            && r.charged == t.charged + Fill(t.w.streams, Ahead(it, t.w.slots), chunk)
            && r.w.moved - t.w.moved == r.charged - t.charged
    decreases Busy(t.w.streams, Ahead(it, t.w.slots)), |Ahead(it, t.w.slots)|
  {
    if it.At? {
      TurnAhead(t, it.k, chunk, script);
      TurnGood(t, it.k, chunk, script, m);
      TurnEager(t, it.k, chunk, script);
      TurnOutlook(t, it.k, chunk, script, level);
      var r := Turn(t, it.k, chunk, script);
      VisitOutlook(r.t, r.it, chunk, script, level, m);
    } else {
      assert t.w.slots[..|t.w.slots|] == t.w.slots;
    }
  }

  /** Stream `i` may take part in the sharing. */
  predicate Takes(w: World, i: nat)
    requires i < |w.streams|
  {
    w.streams[i].alive && Listed(w.slots, i)
  }

  /** From `w` to `w'` every stream that exists and is listed in `todo` gave up to `level` bytes
      of what it had, and the others gave nothing; the same streams can go on taking part. */
  ghost predicate Passing(w: World, todo: seq<Slot>, level: nat, w': World) {
    && |w.streams| <= |w'.streams|
    && (forall i | 0 <= i < |w.streams| ::
          && w'.streams[i].buffered ==
             w.streams[i].buffered[
               if w.streams[i].alive && Listed(todo, i) then Min(|w.streams[i].buffered|, level) else 0..]
          && Takes(w', i) == Takes(w, i))
  }

  /** Every stream that takes part gave up to `level`. */
  ghost predicate Leveled(w: World, w': World, level: nat) {
    Passing(w, w.slots, level, w')
  }

  lemma LeveledTwice(a: World, b: World, c: World, low: nat, high: nat)
    requires Leveled(a, b, low) && Leveled(b, c, high)
    ensures Leveled(a, c, low + high)
  {
  }

  lemma AheadListed(slots: seq<Slot>, k: nat, i: nat)
    requires k < |slots|
    ensures Listed(slots[k..], i) == (slots[k].ref == To(i) || Listed(slots[k + 1..], i))
  {
    if slots[k].ref == To(i) {
      assert slots[k..][0].ref == To(i);
    }
    if Listed(slots[k + 1..], i) {
      var j :| 0 <= j < |slots[k + 1..]| && slots[k + 1..][j].ref == To(i);
      assert slots[k..][j + 1].ref == To(i);
    }
    if Listed(slots[k..], i) {
      var j :| 0 <= j < |slots[k..]| && slots[k..][j].ref == To(i);
      if j > 0 {
        assert slots[k + 1..][j - 1].ref == To(i);
      }
    }
  }

  lemma EraseListed(slots: seq<Slot>, k: nat, i: nat)
    requires k < |slots| && slots[k].ref != To(i)
    ensures Listed(Erase(slots, k), i) == Listed(slots, i)
  {
    if Listed(slots, i) {
      var j :| 0 <= j < |slots| && slots[j].ref == To(i);
      assert Erase(slots, k)[if j < k then j else j - 1].ref == To(i);
    }
    if Listed(Erase(slots, k), i) {
      var j :| 0 <= j < |Erase(slots, k)| && Erase(slots, k)[j].ref == To(i);
      assert slots[if j < k then j else j + 1].ref == To(i);
    }
  }

  lemma HushedListed(w: World, w': World, lo: nat, i: nat)
    requires Hushed(w, w') && lo <= |w.slots| && i < |w.streams|
    ensures Listed(w'.slots[lo..], i) == Listed(w.slots[lo..], i)
  {
    if Listed(w.slots[lo..], i) {
      var j :| 0 <= j < |w.slots[lo..]| && w.slots[lo..][j].ref == To(i);
      assert w'.slots[lo..][j].ref == To(i);
    }
    if Listed(w'.slots[lo..], i) {
      var j :| 0 <= j < |w'.slots[lo..]| && w'.slots[lo..][j].ref == To(i);
      assert w.slots[lo..][j].ref == To(i);
    }
  }

  lemma SkipPassing(w: World, k: nat, chunk: nat, w': World)
    requires k < |w.slots| && Locks(w.streams, w.slots[k]) && Waiting(w.streams, w.slots[k]) == 0
    requires Passing(w, w.slots[k + 1..], chunk, w')
    ensures Passing(w, w.slots[k..], chunk, w')
  {
    forall i | 0 <= i < |w.streams|
      ensures Listed(w.slots[k..], i) == (w.slots[k].ref == To(i) || Listed(w.slots[k + 1..], i))
    {
      AheadListed(w.slots, k, i);
    }
  }

  lemma ErasePassing(w: World, k: nat, chunk: nat, w': World)
    requires k < |w.slots| && !Locks(w.streams, w.slots[k])
    requires Passing(w.(slots := Erase(w.slots, k)), w.slots[k + 1..], chunk, w')
    ensures Passing(w, w.slots[k..], chunk, w')
  {
    var v := w.(slots := Erase(w.slots, k));
    forall i | 0 <= i < |w.streams| && w.streams[i].alive
      ensures Listed(w.slots[k + 1..], i) == Listed(w.slots[k..], i)
      ensures Takes(v, i) == Takes(w, i)
    {
      AheadListed(w.slots, k, i);
      EraseListed(w.slots, k, i);
    }
  }

  lemma GavePassing(w: World, k: nat, chunk: nat, u: World, w': World)
    requires k < |w.slots| && Gave(w, k, Min(Waiting(w.streams, w.slots[k]), chunk), u)
    requires ValidIter(Forward(k + 1, w.slots), u.slots)
    requires Passing(u, Ahead(Forward(k + 1, w.slots), u.slots), chunk, w')
    ensures Passing(w, w.slots[k..], chunk, w')
  {
    var id := w.slots[k].ref.id;
    var v := Popped(w, id, Min(Waiting(w.streams, w.slots[k]), chunk));
    forall i | 0 <= i < |w.streams|
      ensures Listed(Ahead(Forward(k + 1, w.slots), u.slots), i) == (i != id && Listed(w.slots[k..], i))
      ensures Takes(u, i) == Takes(w, i)
    {
      AheadListed(w.slots, k, i);
      HushedListed(v, u, k + 1, i);
      HushedListed(v, u, 0, i);
      assert w.slots[0..] == w.slots && u.slots[0..] == u.slots;
    }
  }

  lemma TurnSkips(t: Tally, k: nat, chunk: nat, script: Script)
    requires Ready(t, At(k), chunk) && Waiting(t.w.streams, t.w.slots[k]) == 0
    ensures Turn(t, k, chunk, script).t.w ==
            (if Locks(t.w.streams, t.w.slots[k]) then t.w else t.w.(slots := Erase(t.w.slots, k)))
    ensures Ahead(Turn(t, k, chunk, script).it, Turn(t, k, chunk, script).t.w.slots) == t.w.slots[k + 1..]
  {
    assert Erase(t.w.slots, k)[k..] == t.w.slots[k + 1..];
  }

  lemma TurnPassing(t: Tally, k: nat, chunk: nat, script: Script, r: Turned, w': World)
    requires Ready(t, At(k), chunk) && Linked(t.w) && Eager(t.w, -1) && Quiet(script)
    requires r == Turn(t, k, chunk, script)
    requires ValidIter(r.it, r.t.w.slots) && Passing(r.t.w, Ahead(r.it, r.t.w.slots), chunk, w')
    ensures Passing(t.w, t.w.slots[k..], chunk, w')
  {
    var w := t.w;
    if Waiting(w.streams, w.slots[k]) > 0 {
      QuietIsGentle(script);
      TurnGave(t, k, chunk, script);
      GavePassing(w, k, chunk, r.t.w, w');
    } else {
      TurnSkips(t, k, chunk, script);
      if Locks(w.streams, w.slots[k]) {
        SkipPassing(w, k, chunk, w');
      } else {
        ErasePassing(w, k, chunk, w');
      }
    }
  }

  lemma {:induction false} VisitPassing(t: Tally, it: Iter, chunk: nat, script: Script, m: nat)
    requires Ready(t, it, chunk) && Good(t.w, -1, m) && Eager(t.w, -1) && Quiet(script)
    ensures Passing(t.w, Ahead(it, t.w.slots), chunk, Visit(t, it, chunk, script).w)
    decreases Busy(t.w.streams, Ahead(it, t.w.slots)), |Ahead(it, t.w.slots)|
  {
    if it.At? {
      TurnAhead(t, it.k, chunk, script);
      TurnGood(t, it.k, chunk, script, m);
      TurnEager(t, it.k, chunk, script);
      var r := Turn(t, it.k, chunk, script);
      VisitPassing(r.t, r.it, chunk, script, m);
      TurnPassing(t, it.k, chunk, script, r, Visit(t, it, chunk, script).w);
    }
  }

  // ----------------------------------------------------------------------------- all rounds

  /** The sums after a round of streams that all read on. */
  lemma RoundShares(t: Tally, script: Script, level: nat, m: nat)
    requires Entered(t) && Counted(t, m) && Quiet(script)
    ensures
      var r, w, chunk := Round(t, script), t.w, Chunk(t);
      && Fill(r.w.streams, r.w.slots, level) + Fill(w.streams, w.slots, chunk)
         == Fill(w.streams, w.slots, level + chunk)
      && r.charged == t.charged + Fill(w.streams, w.slots, chunk)
      && r.w.moved - w.moved == r.charged - t.charged
  {
    VisitOutlook(Fresh(t), Begin(t.w), Chunk(t), script, level, m);
    OutlookAtBegin(t.w, Chunk(t), level);
  }

  lemma OutlookAtBegin(w: World, chunk: nat, level: nat)
    ensures Outlook(w, Begin(w), chunk, level) ==
            Fill(w.streams, w.slots, level + chunk) - Fill(w.streams, w.slots, chunk)
    ensures Ahead(Begin(w), w.slots) == w.slots
  {
    FromBegin(w);
  }

  /** The streams after such a round. */
  lemma RoundLevels(t: Tally, script: Script, m: nat)
    requires Entered(t) && Counted(t, m) && Quiet(script)
    ensures Leveled(t.w, Round(t, script).w, Chunk(t))
  {
    VisitPassing(Fresh(t), Begin(t.w), Chunk(t), script, m);
    FromBegin(t.w);
  }

  /** What is left after a round. */
  lemma RoundLeaves(t: Tally, script: Script, m: nat)
    requires Entered(t) && Counted(t, m) && Quiet(script)
    ensures
      var r, w := Round(t, script), t.w;
      Buffered(r.w.streams, r.w.slots) + Fill(w.streams, w.slots, Chunk(t)) == Buffered(w.streams, w.slots)
  {
    var r, w := Round(t, script), t.w;
    var most := Buffered(w.streams, w.slots) + Buffered(r.w.streams, r.w.slots);
    RoundShares(t, script, most, m);
    FillBounds(w.streams, w.slots, most + Chunk(t));
    FillBounds(r.w.streams, r.w.slots, most);
  }

  /** Some level uses up `total` exactly. */
  predicate Exact(streams: seq<Stream>, slots: seq<Slot>, total: nat) {
    exists level | 0 <= level <= total :: Fill(streams, slots, level) == total
  }

  lemma ExactAt(streams: seq<Stream>, slots: seq<Slot>, total: nat, level: nat)
    requires Fill(streams, slots, level) == total
    ensures Exact(streams, slots, total)
  {
    if level > total {
      FillCapped(streams, slots, total, level);
    }
  }

  lemma {:induction false} FillCapped(streams: seq<Stream>, slots: seq<Slot>, total: nat, level: nat)
    requires Fill(streams, slots, level) <= total < level
    ensures Fill(streams, slots, total) == Fill(streams, slots, level)
  {
    if slots != [] {
      FillCapped(streams, slots[1..], total, level);
    }
  }

  /** The budget suffices for everything, or some level uses it up. */
  predicate Fits(w: World, total: nat) {
    Buffered(w.streams, w.slots) <= total || Exact(w.streams, w.slots, total)
  }

  /** From `t` to `r` every stream gave what it had, up to `level`, and that is what was charged. */
  ghost predicate Shared(t: Tally, r: Tally, level: nat) {
    && Leveled(t.w, r.w, level)
    && r.w.moved - t.w.moved == r.charged - t.charged
    && r.charged - t.charged + Buffered(r.w.streams, r.w.slots) == Buffered(t.w.streams, t.w.slots)
  }

  lemma RoundShared(t: Tally, script: Script, m: nat)
    requires Entered(t) && Counted(t, m) && Quiet(script)
    ensures Shared(t, Round(t, script), Chunk(t))
  {
    RoundShares(t, script, 0, m);
    RoundLevels(t, script, m);
    RoundLeaves(t, script, m);
  }

  lemma SharedTwice(a: Tally, b: Tally, c: Tally, level: nat, more: nat)
    requires Shared(a, b, level) && Shared(b, c, more)
    ensures Shared(a, c, level + more)
  {
    LeveledTwice(a.w, b.w, c.w, level, more);
  }

  /** The level of all rounds together. */
  lemma {:induction false} RoundsLevel(t: Tally, script: Script, m: nat, end: Tally)
    requires Entered(t) && Counted(t, m) && Quiet(script) && end == Rounds(t, script)
    ensures exists level: nat :: Shared(t, end, level)
    decreases !t.wrapped, if t.wrapped then t.pending else t.total
  {
    var r := Round(t, script);
    RoundDecreases(t, script);
    RoundShared(t, script, m);
    if r.total > 0 && r.pending > 0 {
      RoundCounted(t, script, m);
      RoundsLevel(r, script, m, end);
      var more: nat :| Shared(r, end, more);
      SharedTwice(t, r, end, Chunk(t), more);
    }
  }

  lemma {:induction false} NobodyBusy(streams: seq<Stream>, slots: seq<Slot>)
    requires Busy(streams, slots) == 0
    ensures Buffered(streams, slots) == 0
  {
    if slots != [] {
      NobodyBusy(streams, slots[1..]);
    }
  }

  /** After a wrap the rounds go on until every stream is empty. */
  lemma {:induction false} WrappedRounds(t: Tally, script: Script, m: nat)
    requires Entered(t) && Counted(t, m) && Quiet(script) && t.wrapped
    ensures Rounds(t, script).wrapped
    ensures Buffered(Rounds(t, script).w.streams, Rounds(t, script).w.slots) == 0
    decreases t.pending
  {
    var r := Round(t, script);
    RoundDecreases(t, script);
    RoundCounted(t, script, m);
    if r.pending > 0 {
      WrappedRounds(r, script, m);
    } else {
      NobodyBusy(r.w.streams, r.w.slots);
    }
  }

  /** A round wraps only if the budget does not fit. */
  lemma RoundWrapsUnfit(t: Tally, script: Script, m: nat)
    requires Entered(t) && Counted(t, m) && Quiet(script) && !t.wrapped
    ensures Round(t, script).wrapped ==> !Fits(t.w, t.total)
    ensures !Round(t, script).wrapped ==> Round(t, script).total == t.total - Fill(t.w.streams, t.w.slots, Chunk(t))
  {
    RoundPassed(t, script);
    RoundShares(t, script, 0, m);
    FillBounds(t.w.streams, t.w.slots, Chunk(t));
    if Exact(t.w.streams, t.w.slots, t.total) {
      var level := ExactNeverWraps(t);
    }
  }

  /** A round that does not wrap keeps the question whether the budget fits. */
  lemma RoundFits(t: Tally, script: Script, m: nat)
    requires Entered(t) && Counted(t, m) && Quiet(script) && !t.wrapped && !Round(t, script).wrapped
    ensures Fits(t.w, t.total) == (Round(t, script).total == 0 || Fits(Round(t, script).w, Round(t, script).total))
  {
    var r, w, chunk := Round(t, script), t.w, Chunk(t);
    RoundWrapsUnfit(t, script, m);
    RoundLeaves(t, script, m);
    if r.total == 0 {
      ExactAt(w.streams, w.slots, t.total, chunk);
    } else {
      ExactStays(t, script, m, r, chunk);
      ExactBefore(t, script, m, r, chunk);
    }
  }

  /** A level that uses the total up is still there after a round... */
  lemma ExactStays(t: Tally, script: Script, m: nat, r: Tally, chunk: nat)
    requires Entered(t) && Counted(t, m) && Quiet(script) && !t.wrapped && r == Round(t, script) && chunk == Chunk(t)
    requires !r.wrapped && r.total + Fill(t.w.streams, t.w.slots, chunk) == t.total
    ensures Exact(t.w.streams, t.w.slots, t.total) ==> Exact(r.w.streams, r.w.slots, r.total)
  {
    if Exact(t.w.streams, t.w.slots, t.total) {
      var level := ExactNeverWraps(t);
      RoundShares(t, script, level - chunk, m);
      ExactAt(r.w.streams, r.w.slots, r.total, level - chunk);
    }
  }

  /** ... and one that is there then was there before. */
  lemma ExactBefore(t: Tally, script: Script, m: nat, r: Tally, chunk: nat)
    requires Entered(t) && Counted(t, m) && Quiet(script) && !t.wrapped && r == Round(t, script) && chunk == Chunk(t)
    requires !r.wrapped && r.total + Fill(t.w.streams, t.w.slots, chunk) == t.total
    ensures Exact(r.w.streams, r.w.slots, r.total) ==> Exact(t.w.streams, t.w.slots, t.total)
  {
    if Exact(r.w.streams, r.w.slots, r.total) {
      var level :| 0 <= level <= r.total && Fill(r.w.streams, r.w.slots, level) == r.total;
      RoundShares(t, script, level, m);
      ExactAt(t.w.streams, t.w.slots, t.total, level + chunk);
    }
  }

  /** If some level uses the total up, the next chunk does not go beyond that level. */
  lemma ExactNeverWraps(t: Tally) returns (level: nat)
    requires 0 < t.total < WORD && t.pending > 0
    requires Busy(t.w.streams, t.w.slots) <= t.pending
    requires Exact(t.w.streams, t.w.slots, t.total)
    ensures Fill(t.w.streams, t.w.slots, level) == t.total && Chunk(t) <= level
    ensures Fill(t.w.streams, t.w.slots, Chunk(t)) <= t.total
  {
    level :| 0 <= level <= t.total && Fill(t.w.streams, t.w.slots, level) == t.total;
    FillTimes(t.w.streams, t.w.slots, 0);
    FillTimes(t.w.streams, t.w.slots, level);
    Times(Busy(t.w.streams, t.w.slots), t.pending, level);
    ChunkWithin(t, level);
    FillMonotone(t.w.streams, t.w.slots, Chunk(t), level);
  }

  lemma ChunkWithin(t: Tally, level: nat)
    requires 0 < t.total < WORD && t.pending > 0
    requires 0 < level && t.total <= t.pending * level
    ensures Chunk(t) <= level
  {
    var each := t.total / t.pending;
    QuotientBounds(t.total, t.pending);
    Below(t.pending, each, level, t.total);
  }

  lemma Below(c: nat, a: nat, b: nat, total: nat)
    requires c > 0 && c * a <= total <= c * b
    ensures a <= b
  {
    assert (b + 1) * c == c * b + c;
    Cancel(a, b + 1, c);
  }

  /** The outcome of the do/while for streams that all read on. */
  lemma {:induction false} RoundsOutcome(t: Tally, script: Script, m: nat)
    requires Entered(t) && Counted(t, m) && Quiet(script) && !t.wrapped
    ensures
      var r := Rounds(t, script);
      && r.wrapped == !Fits(t.w, t.total)
      && Buffered(r.w.streams, r.w.slots) ==
         if Fits(t.w, t.total) && t.total < Buffered(t.w.streams, t.w.slots)
         then Buffered(t.w.streams, t.w.slots) - t.total else 0
    decreases t.total
  {
    var r := Round(t, script);
    RoundDecreases(t, script);
    RoundCounted(t, script, m);
    RoundWrapsUnfit(t, script, m);
    RoundLeaves(t, script, m);
    if r.pending == 0 {
      NobodyBusy(r.w.streams, r.w.slots);
    }
    if r.wrapped {
      if r.total > 0 && r.pending > 0 { WrappedRounds(r, script, m); }
    } else {
      RoundFits(t, script, m);
      if r.total > 0 && r.pending > 0 { RoundsOutcome(r, script, m); }
    }
  }
}
