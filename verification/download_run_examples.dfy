/** A joint run in which the limiter makes the downloader starve: four bytes fill the buffer of a
    stream, four seconds later the limiter hands them over, the downloader, with a backlog of one
    chunk, stops its socket in the handler, and the transfer resumes it all the same. */
module DownloadRunExamples {
  import B = BandwidthModel
  import BR = BandwidthRounds
  import BM = BandwidthRate
  import BT = BandwidthTheorems
  import BV = BandwidthVisits
  import BE = BandwidthExamples
  import D = DownloaderModel
  import DE = DownloaderExamples
  import DT = DownloaderTheorems
  import opened DownloadCalls
  import opened DownloadRuns
  import opened StatusDownloader

  const TICK: BR.Tick := BR.Tick(4_000_000_000, BR.Timer)

  /** The first event is an unfinished response with one piece. */
  function OnePiece(): Parser {
    n => Parsed(if n == 0 then ["abcd"] else [], D.InProgress)
  }

  function Connects(): seq<Moment> {
    [Handle(D.Resolved), Handle(D.Connected), Handle(D.RequestWritten)]
  }

  function Transfers(): seq<Moment> {
    [Limiter(BR.Tick(0, BR.Data(0, "abcd"))), Limiter(TICK)]
  }

  function Writes(): seq<Moment> {
    [Handle(D.Opened(false)), Handle(D.Written(4, false))]
  }

  /** Where a joint run has got to. */
  predicate At(j: Joint, w: B.World, d: D.Download) {
    j.w == w && j.l.d == d && j.l.agreed
  }

  lemma RunTwice(j: Joint, x: Moment, y: Moment, script: B.Script, parser: Parser, i: nat, j1: Joint)
    requires BR.Sound(j.w) && i < |j.w.streams| && j1 == Step(j, x, script, parser, i)
    ensures BR.Sound(j1.w) && i < |j1.w.streams|
    ensures Run(j, [x, y], script, parser, i) == Step(j1, y, script, parser, i)
  {
    StepFits(j, x, script, parser, i);
    RunOnce(j1, y, script, parser, i);
    assert [x, y][1..] == [y];
  }

  lemma RunOnce(j: Joint, x: Moment, script: B.Script, parser: Parser, i: nat)
    requires BR.Sound(j.w) && i < |j.w.streams|
    ensures Run(j, [x], script, parser, i) == Step(j, x, script, parser, i)
  {
    StepFits(j, x, script, parser, i);
    assert [x][1..] == [];
  }

  lemma {:induction false} RunConcat(j: Joint, a: seq<Moment>, b: seq<Moment>, script: B.Script, parser: Parser, i: nat)
    requires BR.Sound(j.w) && i < |j.w.streams|
    ensures Run(j, a + b, script, parser, i) == Run(Run(j, a, script, parser, i), b, script, parser, i)
    decreases |a|
  {
    if a == [] {
      assert a + b == b;
    } else {
      StepFits(j, a[0], script, parser, i);
      assert (a + b)[1..] == a[1..] + b;
      RunConcat(Step(j, a[0], script, parser, i), a[1..], b, script, parser, i);
    }
  }

  /** A handler that asks nothing of the stream; `e` is the event as it faces the stream. */
  lemma NoCall(j: Joint, m: D.Event, e: D.Event, w: B.World, d: D.Download, d': D.Download, script: B.Script,
               parser: Parser)
    requires BR.Sound(w) && 0 < |w.streams| && At(j, w, d) && e == Facing(m, w.streams[0])
    requires !IsSocket(e) && D.Enabled(d, e) && Calls(d, e, w.streams[0], 0) == []
    requires D.Step(d, e) == d'
    ensures At(Step(j, Handle(m), script, parser, 0), w, d')
  {
  }

  // ------------------------------------------------------------------------------------ the parts

  lemma Connected(j: Joint, script: B.Script, parser: Parser)
    requires At(j, BE.Single(B.NewStream(0, 4)), D.Started(1)) && BR.Sound(j.w)
    ensures At(Run(j, Connects(), script, parser, 0), BE.Single(B.NewStream(0, 4).Read()), DE.Requested(1))
  {
    var d1 := D.Started(1).(phase := D.Connecting, timer := D.On);
    var d2 := d1.(phase := D.Requesting, socketConnected := true);
    var j1 := Step(j, Handle(D.Resolved), script, parser, 0);
    NoCall(j, D.Resolved, D.Resolved, j.w, D.Started(1), d1, script, parser);
    StepFits(j, Handle(D.Resolved), script, parser, 0);
    NoCall(j1, D.Connected, D.Connected, j.w, d1, d2, script, parser);
    var j2 := Step(j1, Handle(D.Connected), script, parser, 0);
    assert Connects()[1..] == [Handle(D.Connected), Handle(D.RequestWritten)];
    RunTwice(j1, Handle(D.Connected), Handle(D.RequestWritten), script, parser, 0, j2);
    Requests(j2, d2, script, parser);
  }

  lemma Requests(j: Joint, d: D.Download, script: B.Script, parser: Parser)
    requires At(j, BE.Single(B.NewStream(0, 4)), d) && BR.Sound(j.w)
    requires d == D.Started(1).(phase := D.Requesting, timer := D.On, socketConnected := true)
    ensures At(Step(j, Handle(D.RequestWritten), script, parser, 0),
               BE.Single(B.NewStream(0, 4).Read()), DE.Requested(1))
  {
    var tick := BR.Tick(0, BR.Consumer(B.Read(0)));
    BE.FillReads(j.w, script);
    BE.RunOnce(j.w, tick, script);
    assert CallTicks([B.Read(0)]) == [tick];
  }

  /** The handler of the only DataEvent. */
  lemma StopsInHandler(l: Link, s: B.Stream, script: B.Script)
    requires l.agreed && l.d == DE.Requested(1) && !s.stopped && !s.reading && script == BE.Once(B.Stop(0))
    ensures var l' := Hears(l, s, "abcd", OnePiece()(0), script(0), 0);
            l'.agreed && l'.d == DE.Held("abcd", DE.PieceQueued("abcd", D.Opening, false))
  {
    var d := D.Answered(DE.Requested(1)).(timer := D.Off);
    var fed := Feed(d, s, ["abcd"], 0);
    assert ["abcd"][1..] == [];
    assert fed.pieces == [D.Piece("abcd", false)] && fed.calls == [B.Stop(0)];
    assert [B.Stop(0)][1..] == [] && Own([B.Stop(0)], 0) == [B.Stop(0)];
    var e := D.Received([D.Piece("abcd", false)], D.InProgress);
    DE.ReachHeld("abcd", []);
    assert [e] + [] == [e] && [e][1..] == [];
    assert D.Run(DE.Requested(1), [e]) == D.Step(DE.Requested(1), e);
  }

  lemma TransferStops(w: B.World, l: Link, script: B.Script)
    requires w.streams == [BE.Full()] && w.events == 0 && script == BE.Once(B.Stop(0))
    requires l.agreed && l.d == DE.Requested(1)
    ensures var l' := AfterTransfer(w, 0, 4, script, OnePiece(), 0, l);
            l'.agreed && l'.d == DE.Held("abcd", DE.PieceQueued("abcd", D.Opening, false))
  {
    assert "abcd"[..4] == "abcd";
    StopsInHandler(l, w.streams[0].Pop(4), script);
    BM.DeliverKept(w, 0, 4, script);
  }

  /** The call of the limiter four seconds later. */
  lemma CallStops(w: B.World, l: Link, script: B.Script)
    requires w == BE.FullStream(4_000_000_000, 0) && script == BE.Once(B.Stop(0))
    requires l.agreed && l.d == DE.Requested(1)
    ensures BR.Sound(w)
    ensures var l' := AfterCall(w, script, OnePiece(), 0, l);
            l'.agreed && l'.d == DE.Held("abcd", DE.PieceQueued("abcd", D.Opening, false))
  {
    BE.FullSound(w);
    var t := BR.Opening(w);
    assert t.total == 4;
    var t0 := BR.Fresh(t);
    var r := B.Charge(t0, 0, 4, script);
    assert B.Turn(t0, 0, 4, script) == B.Turned(r, B.End);
    assert BR.Round(t, script) == r;
    TransferStops(t0.w, l, script);
    assert AfterRound(t, script, OnePiece(), 0, l) == AfterTransfer(t0.w, 0, 4, script, OnePiece(), 0, l);
  }

  lemma Transferred(j: Joint, w: B.World, script: B.Script)
    requires w == BE.FullStream(4_000_000_000, 0) && BR.Sound(w)
    requires At(j, BE.Single(B.NewStream(0, 4).Read()), DE.Requested(1)) && BR.Sound(j.w)
    requires script == BE.Once(B.Stop(0))
    ensures var j' := Run(j, Transfers(), script, OnePiece(), 0);
            && j'.l.agreed && j'.l.d == DE.Held("abcd", DE.PieceQueued("abcd", D.Opening, false))
            && j'.w == BR.Transfer(w, script)
  {
    var fills, full := BR.Tick(0, BR.Data(0, "abcd")), BE.FullStream(0, 1);
    var j1 := Step(j, Limiter(fills), script, OnePiece(), 0);
    BE.SegmentFills(j.w, script);
    RunTwice(j, Limiter(fills), Limiter(TICK), script, OnePiece(), 0, j1);
    FillsQuietly(j.w, j.l, script);
    Fires(full, w, j1.l, script);
    CallStops(w, j1.l, script);
  }

  lemma Fires(full: B.World, w: B.World, l: Link, script: B.Script)
    requires full == BE.FullStream(0, 1) && w == BE.FullStream(4_000_000_000, 0)
    ensures BR.Sound(full) && BR.Sound(w) && BR.Step(full, TICK, script) == BR.Transfer(w, script)
    ensures AfterTick(full, TICK, script, OnePiece(), 0, l) == AfterCall(w, script, OnePiece(), 0, l)
  {
    BE.FullSound(full);
    BE.FullTicks(full, TICK, script);
    assert BT.Caller(full, TICK) == w;
  }

  /** Without a budget nothing is published. */
  lemma FillsQuietly(w: B.World, l: Link, script: B.Script)
    requires w == BE.Single(B.NewStream(0, 4).Read()) && BR.Sound(w)
    ensures AfterTick(w, BR.Tick(0, BR.Data(0, "abcd")), script, OnePiece(), 0, l) == l
  {
    var tick := BR.Tick(0, BR.Data(0, "abcd"));
    if BT.CallsTransfer(w, tick) {
      BT.CallerSound(w, tick, script);
      NoBudget(BT.Caller(w, tick));
    }
  }

  lemma NoBudget(w: B.World)
    requires w.clock == w.last
    ensures !BV.Spends(w)
  {
    assert BR.Elapsed(w) == 0;
    assert BR.Budget(w.limit, 0) == 0;
  }

  lemma OpensFile(j: Joint, w: B.World, script: B.Script)
    requires At(j, w, DE.Held("abcd", DE.PieceQueued("abcd", D.Opening, false))) && BR.Sound(w)
    requires 0 < |w.streams| && w.streams[0].reading
    ensures At(Step(j, Handle(D.Opened(false)), script, OnePiece(), 0), w,
               DE.Held("abcd", DE.PieceQueued("abcd", D.Writing(0, "abcd"), true)))
  {
    var d := DE.Held("abcd", DE.PieceQueued("abcd", D.Opening, false));
    var d' := DE.Held("abcd", DE.PieceQueued("abcd", D.Writing(0, "abcd"), true));
    DE.HeldOpens("abcd", true);
    NoCall(j, D.Opened(false), D.Opened(true), w, d, d', script, OnePiece());
  }

  lemma WritesFile(j: Joint, w: B.World, script: B.Script)
    requires At(j, w, DE.Held("abcd", DE.PieceQueued("abcd", D.Writing(0, "abcd"), true))) && BR.Sound(w)
    requires 0 < |w.streams| && w.streams[0].reading
    ensures At(Step(j, Handle(D.Written(4, false)), script, OnePiece(), 0), w,
               DE.Held("abcd", DE.PieceWritten("abcd", D.Idle, false)))
  {
    var d := DE.Held("abcd", DE.PieceQueued("abcd", D.Writing(0, "abcd"), true));
    var d' := DE.Held("abcd", DE.PieceWritten("abcd", D.Idle, false));
    DE.HeldStarves("abcd");
    NoCall(j, D.Written(4, false), D.Written(4, true), w, d, d', script, OnePiece());
  }

  lemma Written(j: Joint, w: B.World, script: B.Script)
    requires At(j, w, DE.Held("abcd", DE.PieceQueued("abcd", D.Opening, false))) && BR.Sound(w)
    requires 0 < |w.streams| && w.streams[0].reading
    ensures At(Run(j, Writes(), script, OnePiece(), 0), w, DE.Held("abcd", DE.PieceWritten("abcd", D.Idle, false)))
  {
    var j1 := Step(j, Handle(D.Opened(false)), script, OnePiece(), 0);
    OpensFile(j, w, script);
    WritesFile(j1, w, script);
    RunTwice(j, Handle(D.Opened(false)), Handle(D.Written(4, false)), script, OnePiece(), 0, j1);
  }

  // -------------------------------------------------------------------------------------- the run

  /** The downloader has heard and written everything, its stream is stopped and being read, and
      nothing is outstanding that would resume it. */
  lemma StarvesJointly(script: B.Script, ticks: seq<BR.Tick>, moments: seq<Moment>)
    requires script == BE.Once(B.Stop(0)) && ticks == [BR.Tick(0, BR.Consumer(B.Create))]
    requires moments == Connects() + (Transfers() + Writes())
    ensures Unused(BR.Run(BR.Init(1), ticks, script), 0) && BR.Sound(Start(1, ticks, script, 1).w)
    ensures var j := Run(Start(1, ticks, script, 1), moments, script, OnePiece(), 0);
            && j.l.agreed && DT.Starving(j.l.d) && j.l.d.reports == []
            && j.l.heard == j.l.d.writer.disk == "abcd"
            && j.w.streams[0].stopped && j.w.streams[0].reading
  {
    var start := Start(1, ticks, script, 1);
    BE.FillCreates(script);
    BE.RunOnce(BR.Init(1), ticks[0], script);
    Connected(start, script, OnePiece());
    var j3 := Run(start, Connects(), script, OnePiece(), 0);
    var full := BE.FullStream(4_000_000_000, 0);
    BE.FullSound(full);
    Transferred(j3, full, script);
    var j5 := Run(j3, Transfers(), script, OnePiece(), 0);
    BE.FullResumes(full, B.Stop(0), script);
    Written(j5, j5.w, script);
    RunConcat(start, Connects(), Transfers() + Writes(), script, OnePiece(), 0);
    RunConcat(j3, Transfers(), Writes(), script, OnePiece(), 0);
    NothingUnheard(1, ticks, 1, moments, script, OnePiece(), 0);
  }
}
