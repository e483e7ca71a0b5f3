/** Runs of the limiter and of a downloader that reads one of its streams, together.  Every step of
    the limiter may publish any number of events in the middle of its loops; those of the stream
    are handled by the downloader, whose calls are what the consumer script does to that stream.
    The stream object exists as long as the run goes on. */
module DownloadRuns {
  import B = BandwidthModel
  import BR = BandwidthRounds
  import BM = BandwidthRate
  import BV = BandwidthVisits
  import BT = BandwidthTheorems
  import BK = BandwidthSockets
  import D = DownloaderModel
  import DT = DownloaderTheorems
  import DS = DownloadStreams
  import opened DownloadCalls
  import opened StatusDownloader

  /** What the parser makes of the n-th published event. */
  type Parser = nat -> Parsed

  /** It decides on a redirect before it yields any body. */
  predicate Obeys(p: Parsed, d: D.Download) {
    p.verdict == D.Moved ==> p.data == [] && !d.writer.file
  }

  /** What a handler does to stream `i`. */
  function Own(actions: seq<B.Action>, i: nat): seq<B.Action>
    decreases |actions|
  {
    if actions == [] then []
    else (if !actions[0].Create? && actions[0].id == i then [actions[0]] else []) + Own(actions[1..], i)
  }

  lemma {:induction false} OwnLeaves(f: BT.Flags, actions: seq<B.Action>, i: nat)
    ensures BT.Leaves(f, actions, i) == BT.Leaves(f, Own(actions, i), i)
    decreases |actions|
  {
    if actions != [] {
      var own := Own(actions[1..], i);
      OwnLeaves(BT.Acted(f, actions[0], i), actions[1..], i);
      if !actions[0].Create? && actions[0].id == i {
        assert ([actions[0]] + own)[1..] == own;
      } else {
        assert [] + own == own;
      }
    }
  }

  // ------------------------------------------------------------------------------- the downloader

  /** The downloader's side of a run. */
  datatype Link = Link(
    d: D.Download,
    events: seq<D.Event>,   // what has happened to it
    heard: string,          // the bytes of the DataEvents it listened to
    late: bool,             // some DataEvent found it not listening, or with a full queue
    agreed: bool)           // the script has done to the stream what the downloader asked for

  predicate Ready(d: D.Download) {
    Listening(d) && !d.sockStopped && (d.backlog > 0 ==> |d.writer.buffer| < d.backlog)
  }

  function Next(l: Link, e: D.Event): Link {
    l.(d := D.Step(l.d, e), events := l.events + [e])
  }

  /** The stream publishes `bytes`, and the handler does `actions`. */
  function Hears(l: Link, s: B.Stream, bytes: string, p: Parsed, actions: seq<B.Action>, i: nat): Link {
    var r := OnData(l.d, s, p, i);
    Next(l, r.event).(
      heard := if D.Enabled(l.d, r.event) then l.heard + bytes else l.heard,
      late := l.late || !Ready(l.d),
      agreed := l.agreed && Own(actions, i) == r.calls && Obeys(p, l.d))
  }

  /** The stream publishes its EndEvent. */
  function HearsEnd(l: Link, p: Parsed, actions: seq<B.Action>, i: nat): Link {
    var r := OnEnd(l.d, p.verdict, i);
    Next(l, r.event).(agreed := l.agreed && Own(actions, i) == r.calls && Obeys(p, l.d))
  }

  /** Somebody else's handler leaves the stream alone. */
  function Overhears(l: Link, actions: seq<B.Action>, i: nat): Link {
    l.(agreed := l.agreed && Own(actions, i) == [])
  }

  /** What holds between the two as long as they agree. */
  ghost predicate Bound(s: B.Stream, l: Link) {
    l.agreed ==> Tied(l.d, BT.FlagsOf(s), s.ends > 0) && !l.late && l.heard == s.delivered
  }

  ghost predicate Joined(w: B.World, i: nat, backlog: nat, l: Link) {
    && i < |w.streams| && Bound(w.streams[i], l)
    && l.d == D.Run(D.Started(backlog), l.events)
  }

  lemma {:induction false} RunNext(d: D.Download, events: seq<D.Event>, e: D.Event)
    ensures D.Run(d, events + [e]) == D.Step(D.Run(d, events), e)
    decreases |events|
  {
    if events == [] {
      assert [e][1..] == [];
    } else {
      assert (events + [e])[1..] == events[1..] + [e];
      RunNext(D.Step(d, events[0]), events[1..], e);
    }
  }

  // ------------------------------------------------------------------------------- one transfer

  lemma HearsBound(l: Link, v: B.Stream, s': B.Stream, before: string, bytes: string, p: Parsed,
                   actions: seq<B.Action>, i: nat, backlog: nat)
    requires l.agreed ==> Tied(l.d, BT.FlagsOf(v), v.ends > 0) && !l.late && l.heard == before
    requires !v.stopped && l.d == D.Run(D.Started(backlog), l.events)
    requires s'.delivered == before + bytes && s'.ends == v.ends
    requires BT.FlagsOf(s') == BT.Leaves(BT.FlagsOf(v), actions, i)
    ensures Bound(s', Hears(l, v, bytes, p, actions, i))
  {
    var r := OnData(l.d, v, p, i);
    if l.agreed && Obeys(p, l.d) && Own(actions, i) == r.calls {
      OnDataTied(l.d, v, p, v.ends > 0, i);
      OwnLeaves(BT.FlagsOf(v), actions, i);
      assert Tied(D.Step(l.d, r.event), BT.FlagsOf(s'), s'.ends > 0);
      DT.RunConsistent(D.Started(backlog), l.events);
      FlowsReady(l.d, BT.FlagsOf(v), v.ends > 0);
    }
  }

  /** A stream that is not stopped has a downloader that is ready for its bytes. */
  lemma FlowsReady(d: D.Download, f: BT.Flags, ended: bool)
    requires DT.Consistent(d) && Tied(d, f, ended) && !f.stopped
    ensures Ready(d)
  {
  }

  lemma EndBound(l: Link, f: BT.Flags, s': B.Stream, p: Parsed, actions: seq<B.Action>, i: nat)
    requires l.agreed ==> Tied(l.d, f, true) && !l.late && l.heard == s'.delivered
    requires f.stopped && s'.ends > 0 && BT.FlagsOf(s') == BT.Leaves(f, actions, i)
    ensures Bound(s', HearsEnd(l, p, actions, i))
  {
    if l.agreed {
      OnEndTied(l.d, p.verdict, f, i);
      OwnLeaves(f, actions, i);
    }
  }

  /** The DataEvent of a transfer of stream `j`. */
  function AfterData(w: B.World, j: nat, length: nat, script: B.Script, parser: Parser, i: nat, l: Link): Link
    requires j < |w.streams|
  {
    var n := B.Min(length, |w.streams[j].buffered|);
    if j == i then Hears(l, w.streams[i].Pop(n), w.streams[i].buffered[..n], parser(w.events), script(w.events), i)
    else Overhears(l, script(w.events), i)
  }

  /** What a handler leaves of the stream. */
  ghost predicate Handled(s: B.Stream, s': B.Stream, actions: seq<B.Action>, i: nat) {
    s'.delivered == s.delivered && s'.ends == s.ends && BT.FlagsOf(s') == BT.Leaves(BT.FlagsOf(s), actions, i)
  }

  lemma PublishHandles(w: B.World, script: B.Script, i: nat)
    requires i < |w.streams|
    ensures i < |B.Publish(w, script).streams|
    ensures Handled(w.streams[i], B.Publish(w, script).streams[i], script(w.events), i)
  {
    BM.PublishKept(w, script);
    BT.ApplyAllLeaves(w.(events := w.events + 1), script(w.events), i);
  }

  lemma ApplyHandles(w: B.World, a: B.Action, i: nat)
    requires i < |w.streams|
    ensures i < |B.Apply(w, a).streams|
    ensures Handled(w.streams[i], B.Apply(w, a).streams[i], [a], i)
  {
    BT.ApplyLeaves(w, a, i);
    BM.ApplyKept(w, a);
    LeavesOne(BT.FlagsOf(w.streams[i]), a, i);
  }

  lemma OverhearsBound(l: Link, s: B.Stream, s': B.Stream, actions: seq<B.Action>, i: nat)
    requires Bound(s, l) && Handled(s, s', actions, i)
    ensures Bound(s', Overhears(l, actions, i))
  {
    OwnLeaves(BT.FlagsOf(s), actions, i);
  }

  lemma OwnDelivered(w: B.World, length: nat, script: B.Script, parser: Parser, i: nat, backlog: nat, l: Link)
    requires Joined(w, i, backlog, l) && !w.streams[i].stopped
    ensures Joined(B.Deliver(w, i, length, script), i, backlog, AfterData(w, i, length, script, parser, i, l))
  {
    var n, s, p := B.Min(length, |w.streams[i].buffered|), w.streams[i], parser(w.events);
    var u := s.Pop(n);
    var v := w.Put(i, u).(moved := w.moved + n);
    PublishHandles(v, script, i);
    RunNext(D.Started(backlog), l.events, OnData(l.d, u, p, i).event);
    var s' := B.Publish(v, script).streams[i];
    PopFlags(s, n, u);
    HearsBound(l, u, s', s.delivered, s.buffered[..n], p, script(w.events), i, backlog);
  }

  lemma PopFlags(s: B.Stream, n: nat, u: B.Stream)
    requires n <= |s.buffered| && u == s.Pop(n)
    ensures BT.FlagsOf(u) == BT.FlagsOf(s) && u.ends == s.ends && u.delivered == s.delivered + s.buffered[..n]
  {
  }

  lemma OtherDelivered(w: B.World, j: nat, length: nat, script: B.Script, i: nat, backlog: nat, l: Link)
    requires Joined(w, i, backlog, l) && j < |w.streams| && j != i
    ensures Joined(B.Deliver(w, j, length, script), i, backlog, Overhears(l, script(w.events), i))
  {
    var n := B.Min(length, |w.streams[j].buffered|);
    var v := w.Put(j, w.streams[j].Pop(n)).(moved := w.moved + n);
    PublishHandles(v, script, i);
    OverhearsBound(l, w.streams[i], B.Publish(v, script).streams[i], script(w.events), i);
  }

  lemma DeliverJoined(w: B.World, j: nat, length: nat, script: B.Script, parser: Parser, i: nat, backlog: nat, l: Link)
    requires Joined(w, i, backlog, l) && j < |w.streams| && !w.streams[j].stopped
    ensures Joined(B.Deliver(w, j, length, script), i, backlog, AfterData(w, j, length, script, parser, i, l))
  {
    if j == i {
      OwnDelivered(w, length, script, parser, i, backlog, l);
    } else {
      OtherDelivered(w, j, length, script, i, backlog, l);
    }
  }

  /** The EndEvent, if there is one. */
  function AfterEnd(w: B.World, j: nat, script: B.Script, parser: Parser, i: nat, l: Link): Link
    requires j < |w.streams|
  {
    if !(w.streams[j].eof && w.streams[j].buffered == "") then l
    else if j == i then HearsEnd(l, parser(w.events), script(w.events), i)
    else Overhears(l, script(w.events), i)
  }

  lemma EndJoined(w: B.World, j: nat, script: B.Script, parser: Parser, i: nat, backlog: nat, l: Link)
    requires Joined(w, i, backlog, l) && j < |w.streams| && w.streams[j].eof && w.streams[j].buffered == ""
    ensures Joined(B.Settle(w, j, script), i, backlog, AfterEnd(w, j, script, parser, i, l))
  {
    var actions := script(w.events);
    var v := w.Put(j, w.streams[j].(stopped := true, ends := w.streams[j].ends + 1));
    PublishHandles(v, script, i);
    var u, s' := v.streams[i], B.Publish(v, script).streams[i];
    if j == i {
      RunNext(D.Started(backlog), l.events, OnEnd(l.d, parser(w.events).verdict, i).event);
      EndBound(l, BT.FlagsOf(u), s', parser(w.events), actions, i);
    } else {
      OverhearsBound(l, u, s', actions, i);
    }
  }

  lemma SettleJoined(w: B.World, j: nat, script: B.Script, parser: Parser, i: nat, backlog: nat, l: Link)
    requires Joined(w, i, backlog, l) && j < |w.streams|
    ensures Joined(B.Settle(w, j, script), i, backlog, AfterEnd(w, j, script, parser, i, l))
  {
    if w.streams[j].eof && w.streams[j].buffered == "" {
      EndJoined(w, j, script, parser, i, backlog, l);
    }
  }

  /** A transfer of stream `j`. */
  function AfterTransfer(w: B.World, j: nat, length: nat, script: B.Script, parser: Parser, i: nat, l: Link): Link
    requires j < |w.streams|
  {
    if w.streams[j].stopped || length == 0 then l
    else
      B.DeliverShrinks(w, j, length, script);
      AfterEnd(B.Deliver(w, j, length, script), j, script, parser, i, AfterData(w, j, length, script, parser, i, l))
  }

  lemma TransferJoined(w: B.World, j: nat, length: nat, script: B.Script, parser: Parser, i: nat, backlog: nat, l: Link)
    requires Joined(w, i, backlog, l) && j < |w.streams|
    ensures Joined(B.TransferStream(w, j, length, script), i, backlog,
                   AfterTransfer(w, j, length, script, parser, i, l))
  {
    if !w.streams[j].stopped && length > 0 {
      var v, l' := B.Deliver(w, j, length, script), AfterData(w, j, length, script, parser, i, l);
      B.DeliverShrinks(w, j, length, script);
      DeliverJoined(w, j, length, script, parser, i, backlog, l);
      SettleJoined(v, j, script, parser, i, backlog, l');
    }
  }

  // ----------------------------------------------------------------------------------- one call

  /** The turns of a pass. */
  function AfterVisit(t: B.Tally, it: B.Iter, chunk: nat, script: B.Script, parser: Parser, i: nat, l: Link): Link
    requires B.Ready(t, it, chunk)
    decreases B.Busy(t.w.streams, B.Ahead(it, t.w.slots)), |B.Ahead(it, t.w.slots)|
  {
    if it.End? then l
    else
      B.TurnAhead(t, it.k, chunk, script);
      var r, n := B.Turn(t, it.k, chunk, script), B.Min(B.Waiting(t.w.streams, t.w.slots[it.k]), chunk);
      var l' := if n > 0 then AfterTransfer(t.w, t.w.slots[it.k].ref.id, n, script, parser, i, l) else l;
      AfterVisit(r.t, r.it, chunk, script, parser, i, l')
  }

  lemma {:induction false} VisitJoined(t: B.Tally, it: B.Iter, chunk: nat, script: B.Script, parser: Parser, i: nat,
                                       backlog: nat, l: Link)
    requires B.Ready(t, it, chunk) && Joined(t.w, i, backlog, l)
    ensures Joined(B.Visit(t, it, chunk, script).w, i, backlog, AfterVisit(t, it, chunk, script, parser, i, l))
    decreases B.Busy(t.w.streams, B.Ahead(it, t.w.slots)), |B.Ahead(it, t.w.slots)|
  {
    if it.At? {
      B.TurnAhead(t, it.k, chunk, script);
      var r, n := B.Turn(t, it.k, chunk, script), B.Min(B.Waiting(t.w.streams, t.w.slots[it.k]), chunk);
      if n > 0 {
        var j := t.w.slots[it.k].ref.id;
        TransferJoined(t.w, j, n, script, parser, i, backlog, l);
        VisitJoined(r.t, r.it, chunk, script, parser, i, backlog, AfterTransfer(t.w, j, n, script, parser, i, l));
      } else {
        VisitJoined(r.t, r.it, chunk, script, parser, i, backlog, l);
      }
    }
  }

  function AfterRound(t: B.Tally, script: B.Script, parser: Parser, i: nat, l: Link): Link
    requires BR.Entered(t)
  {
    AfterVisit(BR.Fresh(t), BR.Begin(t.w), BR.Chunk(t), script, parser, i, l)
  }

  /** The rounds of a call. */
  function AfterRounds(t: B.Tally, script: B.Script, parser: Parser, i: nat, l: Link): Link
    requires BR.Entered(t)
    decreases !t.wrapped, if t.wrapped then t.pending else t.total
  {
    BR.RoundDecreases(t, script);
    var r, l' := BR.Round(t, script), AfterRound(t, script, parser, i, l);
    if r.total > 0 && r.pending > 0 then AfterRounds(r, script, parser, i, l') else l'
  }

  lemma {:induction false} RoundsJoined(t: B.Tally, script: B.Script, parser: Parser, i: nat, backlog: nat, l: Link)
    requires BR.Entered(t) && Joined(t.w, i, backlog, l)
    ensures Joined(BR.Rounds(t, script).w, i, backlog, AfterRounds(t, script, parser, i, l))
    decreases !t.wrapped, if t.wrapped then t.pending else t.total
  {
    BR.RoundDecreases(t, script);
    VisitJoined(BR.Fresh(t), BR.Begin(t.w), BR.Chunk(t), script, parser, i, backlog, l);
    var r, l' := BR.Round(t, script), AfterRound(t, script, parser, i, l);
    if r.total > 0 && r.pending > 0 {
      RoundsJoined(r, script, parser, i, backlog, l');
    }
  }

  function AfterCall(w: B.World, script: B.Script, parser: Parser, i: nat, l: Link): Link
    requires BR.Sound(w)
  {
    if BV.Spends(w) then AfterRounds(BR.Opening(w), script, parser, i, l) else l
  }

  lemma CallJoined(w: B.World, script: B.Script, parser: Parser, i: nat, backlog: nat, l: Link)
    requires BR.Sound(w) && Joined(w, i, backlog, l)
    ensures Joined(BR.Transfer(w, script), i, backlog, AfterCall(w, script, parser, i, l))
  {
    if BV.Spends(w) {
      RoundsJoined(BR.Opening(w), script, parser, i, backlog, l);
    }
  }

  // ---------------------------------------------------------------------------------- whole runs

  /** A step of the limiter, or an event of one of the downloader's other handles. */
  datatype Moment = Limiter(tick: BR.Tick) | Handle(event: D.Event)

  /** Both, and the steps of the limiter so far. */
  datatype Joint = Joint(w: B.World, l: Link, ticks: seq<BR.Tick>)

  /** What a step of the limiter is to the downloader; the calls of others leave its stream alone. */
  function AfterTick(w: B.World, tick: BR.Tick, script: B.Script, parser: Parser, i: nat, l: Link): Link
    requires BR.Sound(w)
  {
    if BT.CallsTransfer(w, tick) then
      BT.CallerSound(w, tick, script);
      AfterCall(BT.Caller(w, tick), script, parser, i, l)
    else if tick.event.Consumer? then Overhears(l, [tick.event.action], i)
    else l
  }

  lemma TickJoined(w: B.World, tick: BR.Tick, script: B.Script, parser: Parser, i: nat, backlog: nat, l: Link)
    requires BR.Sound(w) && Joined(w, i, backlog, l)
    ensures Joined(BR.Step(w, tick, script), i, backlog, AfterTick(w, tick, script, parser, i, l))
  {
    if BT.CallsTransfer(w, tick) {
      BT.CallerSound(w, tick, script);
      CallJoined(BT.Caller(w, tick), script, parser, i, backlog, l);
    } else if tick.event.Consumer? {
      ConsumerJoined(w, tick, script, i, backlog, l);
    }
  }

  lemma ConsumerJoined(w: B.World, tick: BR.Tick, script: B.Script, i: nat, backlog: nat, l: Link)
    requires BR.Sound(w) && Joined(w, i, backlog, l) && tick.event.Consumer?
    ensures Joined(BR.Step(w, tick, script), i, backlog, Overhears(l, [tick.event.action], i))
  {
    var v, a := BR.Later(w, tick.delay), tick.event.action;
    ApplyHandles(v, a, i);
    OverhearsBound(l, w.streams[i], B.Apply(v, a).streams[i], [a], i);
  }

  /** The ticks by which a handler's calls reach the limiter. */
  function CallTicks(calls: seq<B.Action>): seq<BR.Tick> {
    if calls == [] then [] else [BR.Tick(0, BR.Consumer(calls[0]))]
  }

  /** One moment. */
  function Step(j: Joint, m: Moment, script: B.Script, parser: Parser, i: nat): Joint
    requires BR.Sound(j.w) && i < |j.w.streams|
  {
    if m.Limiter? then
      Joint(BR.Step(j.w, m.tick, script), AfterTick(j.w, m.tick, script, parser, i, j.l), j.ticks + [m.tick])
    else
      var e := Facing(m.event, j.w.streams[i]);
      if IsSocket(e) || !D.Enabled(j.l.d, e) then j
      else
        var ticks := CallTicks(Calls(j.l.d, e, j.w.streams[i], i));
        Joint(BR.Run(j.w, ticks, script), Next(j.l, e), j.ticks + ticks)
  }

  ghost predicate Sound(j: Joint, limit: nat, script: B.Script, i: nat, backlog: nat) {
    && BR.Sound(j.w) && Joined(j.w, i, backlog, j.l)
    && j.w == BR.Run(BR.Init(limit), j.ticks, script)
  }

  lemma CallsHandled(w: B.World, calls: seq<B.Action>, script: B.Script, i: nat)
    requires BR.Sound(w) && i < |w.streams| && |calls| <= 1
    ensures var w' := BR.Run(w, CallTicks(calls), script);
            BR.Sound(w') && i < |w'.streams| && Handled(w.streams[i], w'.streams[i], calls, i)
  {
    if calls != [] {
      var tick := BR.Tick(0, BR.Consumer(calls[0]));
      BR.StepSound(w, tick, script);
      assert [tick][1..] == [] && calls == [calls[0]];
      ApplyHandles(BR.Later(w, 0), calls[0], i);
    }
  }

  lemma OwnJoined(w: B.World, e: D.Event, script: B.Script, i: nat, backlog: nat, l: Link)
    requires BR.Sound(w) && Joined(w, i, backlog, l)
    requires e == Facing(e, w.streams[i]) && !IsSocket(e) && D.Enabled(l.d, e)
    ensures var w' := BR.Run(w, CallTicks(Calls(l.d, e, w.streams[i], i)), script);
            BR.Sound(w') && Joined(w', i, backlog, Next(l, e))
  {
    CallsHandled(w, Calls(l.d, e, w.streams[i], i), script, i);
    RunNext(D.Started(backlog), l.events, e);
    DT.RunConsistent(D.Started(backlog), l.events);
    if l.agreed {
      CallsTied(l.d, e, w.streams[i], i);
    }
  }

  lemma StepSound(j: Joint, m: Moment, limit: nat, script: B.Script, parser: Parser, i: nat, backlog: nat)
    requires Sound(j, limit, script, i, backlog)
    ensures Sound(Step(j, m, script, parser, i), limit, script, i, backlog)
  {
    if m.Limiter? {
      BR.StepSound(j.w, m.tick, script);
      TickJoined(j.w, m.tick, script, parser, i, backlog, j.l);
      BT.RunConcat(BR.Init(limit), j.ticks, [m.tick], script);
      assert [m.tick][1..] == [];
    } else {
      var e := Facing(m.event, j.w.streams[i]);
      if !IsSocket(e) && D.Enabled(j.l.d, e) {
        OwnJoined(j.w, e, script, i, backlog, j.l);
        BT.RunConcat(BR.Init(limit), j.ticks, CallTicks(Calls(j.l.d, e, j.w.streams[i], i)), script);
      }
    }
  }

  /** Every step leaves a state that can take the next one. */
  lemma StepFits(j: Joint, m: Moment, script: B.Script, parser: Parser, i: nat)
    requires BR.Sound(j.w) && i < |j.w.streams|
    ensures BR.Sound(Step(j, m, script, parser, i).w) && i < |Step(j, m, script, parser, i).w.streams|
  {
    if m.Limiter? {
      BR.StepSound(j.w, m.tick, script);
      TickJoined(j.w, m.tick, script, parser, i, 0, Link(D.Started(0), [], "", false, false));
    } else {
      var e := Facing(m.event, j.w.streams[i]);
      if !IsSocket(e) && D.Enabled(j.l.d, e) {
        CallsHandled(j.w, Calls(j.l.d, e, j.w.streams[i], i), script, i);
      }
    }
  }

  function Run(j: Joint, moments: seq<Moment>, script: B.Script, parser: Parser, i: nat): (r: Joint)
    requires BR.Sound(j.w) && i < |j.w.streams|
    ensures i < |r.w.streams| && BR.Sound(r.w)
    decreases |moments|
  {
    if moments == [] then j
    else
      StepFits(j, moments[0], script, parser, i);
      Run(Step(j, moments[0], script, parser, i), moments[1..], script, parser, i)
  }

  lemma {:induction false} RunSound(j: Joint, moments: seq<Moment>, limit: nat, script: B.Script, parser: Parser,
                                    i: nat, backlog: nat)
    requires Sound(j, limit, script, i, backlog)
    ensures Sound(Run(j, moments, script, parser, i), limit, script, i, backlog)
    decreases |moments|
  {
    if moments != [] {
      StepSound(j, moments[0], limit, script, parser, i, backlog);
      RunSound(Step(j, moments[0], script, parser, i), moments[1..], limit, script, parser, i, backlog);
    }
  }

  /** A new downloader gets stream `i`, which nobody has used, after the limiter has made `ticks`. */
  function Start(limit: nat, ticks: seq<BR.Tick>, script: B.Script, backlog: nat): Joint {
    Joint(BR.Run(BR.Init(limit), ticks, script), Link(D.Started(backlog), [], "", false, true), ticks)
  }

  predicate Unused(w: B.World, i: nat) {
    i < |w.streams| &&
    var s := w.streams[i]; s.alive && !s.closed && s.stopped && s.delivered == ""
  }

  lemma Starts(limit: nat, ticks: seq<BR.Tick>, script: B.Script, backlog: nat, i: nat)
    requires Unused(BR.Run(BR.Init(limit), ticks, script), i)
    ensures Sound(Start(limit, ticks, script, backlog), limit, script, i, backlog)
  {
    BT.RunConcat(BR.Init(limit), ticks, [], script);
  }

  // ----------------------------------------------------------------------------------- theorems

  /** Both sides of a joint run are runs of their own. */
  lemma JointRuns(limit: nat, ticks: seq<BR.Tick>, backlog: nat, moments: seq<Moment>, script: B.Script,
                  parser: Parser, i: nat)
    requires Unused(BR.Run(BR.Init(limit), ticks, script), i)
    ensures BR.Sound(Start(limit, ticks, script, backlog).w)
    ensures var j := Run(Start(limit, ticks, script, backlog), moments, script, parser, i);
            && j.w == BR.Run(BR.Init(limit), j.ticks, script)
            && j.l.d == D.Run(D.Started(backlog), j.l.events)
  {
    Starts(limit, ticks, script, backlog, i);
    RunSound(Start(limit, ticks, script, backlog), moments, limit, script, parser, i, backlog);
  }

  /** Whatever the limiter does, and whenever the downloader's other handles report: every DataEvent
      of the stream finds the downloader listening, with a queue below its backlog; no byte that the
      limiter hands over is lost on it; the stream of a downloader that does not listen is stopped;
      and before the EndEvent that of one that listens is stopped exactly if it has stopped it. */
  lemma NothingUnheard(limit: nat, ticks: seq<BR.Tick>, backlog: nat, moments: seq<Moment>, script: B.Script,
                       parser: Parser, i: nat)
    requires Unused(BR.Run(BR.Init(limit), ticks, script), i)
    ensures BR.Sound(Start(limit, ticks, script, backlog).w)
    ensures var j := Run(Start(limit, ticks, script, backlog), moments, script, parser, i);
            j.l.agreed ==>
              var d, s := j.l.d, j.w.streams[i];
              && j.l.heard == s.delivered && !j.l.late
              && (!Listening(d) || d.sockStopped ==> s.stopped)
              && (Listening(d) && s.ends == 0 ==> (s.stopped <==> d.sockStopped))
  {
    Starts(limit, ticks, script, backlog, i);
    RunSound(Start(limit, ticks, script, backlog), moments, limit, script, parser, i, backlog);
  }

  /** Exactly when the limiter makes the downloader starve: a write is over, and it was of the last
      bytes, and the last transfer of the stream has resumed the socket that the downloader had
      stopped. */
  lemma StarvesJointlyIff(limit: nat, ticks: seq<BR.Tick>, backlog: nat, moments: seq<Moment>, script: B.Script,
                          parser: Parser, i: nat, n: nat)
    requires Unused(BR.Run(BR.Init(limit), ticks, script), i)
    requires BR.Sound(Start(limit, ticks, script, backlog).w)
    requires var j := Run(Start(limit, ticks, script, backlog), moments, script, parser, i);
             && j.l.agreed && j.l.d.phase.Reading? && j.w.streams[i].ends == 0
             && D.Enabled(j.l.d, D.Written(n, j.w.streams[i].reading))
    ensures var j := Run(Start(limit, ticks, script, backlog), moments, script, parser, i);
            DT.Starving(Step(j, Handle(D.Written(n, false)), script, parser, i).l.d)
            <==> j.l.d.sockStopped && D.Used(j.l.d.writer.buffer, n) == []
                 && BK.Resumed(BR.Init(limit), j.ticks, script, i, false)
  {
    var start := Start(limit, ticks, script, backlog);
    Starts(limit, ticks, script, backlog, i);
    RunSound(start, moments, limit, script, parser, i, backlog);
    WriteStarves(Run(start, moments, script, parser, i), limit, script, parser, i, backlog, n);
  }

  lemma WriteStarves(j: Joint, limit: nat, script: B.Script, parser: Parser, i: nat, backlog: nat, n: nat)
    requires Sound(j, limit, script, i, backlog)
    requires j.l.agreed && j.l.d.phase.Reading? && j.w.streams[i].ends == 0
    requires D.Enabled(j.l.d, D.Written(n, j.w.streams[i].reading))
    ensures DT.Starving(Step(j, Handle(D.Written(n, false)), script, parser, i).l.d)
            <==> j.l.d.sockStopped && D.Used(j.l.d.writer.buffer, n) == []
                 && BK.Resumed(BR.Init(limit), j.ticks, script, i, false)
  {
    var d, s := j.l.d, j.w.streams[i];
    DT.RunConsistent(D.Started(backlog), j.l.events);
    assert Facing(D.Written(n, false), s) == D.Written(n, s.reading);
    if d.sockStopped {
      DS.StarvesIffResumed(limit, j.ticks, script, i, d, n);
    } else {
      WriteReads(d, n, s.reading);
    }
  }

  lemma WriteReads(d: D.Download, n: nat, under: bool)
    requires DT.Consistent(d) && d.phase.Reading? && !d.sockStopped && D.Enabled(d, D.Written(n, under))
    ensures !DT.Starving(D.Happen(d, D.Written(n, under)))
  {
  }
}
