/** Runs of the downloader in which it does not do what one might expect. */
module DownloaderExamples {
  import opened DataChunks
  import opened DownloaderModel
  import opened DownloaderTheorems
  import opened StatusDownloader

  lemma RunFirst(d: Download, e: Event, events: seq<Event>, d': Download)
    requires Step(d, e) == d'
    ensures Run(d, [e] + events) == Run(d', events)
  {
    assert ([e] + events)[1..] == events;
  }

  /** The writer while one piece is on its way to the file. */
  function PieceQueued(data: string, op: FileOp, isOpen: bool): Writer {
    Writer([DataChunk(data, 0)], true, isOpen, true, 0, |data|, op, data, "", false)
  }

  function PieceWritten(data: string, op: FileOp, started: bool): Writer {
    Writer([], true, true, started, |data|, |data|, op, data, data, false)
  }

  lemma PieceOpens(data: string)
    ensures Requested(10).writer.Push(data).Open() == PieceQueued(data, Opening, false)
  {
    assert "" + data == data;
    assert [] + [DataChunk(data, 0)] == [DataChunk(data, 0)];
  }

  lemma PieceMoves(data: string)
    ensures PieceQueued(data, Writing(0, data), true).Advance(|data|) == PieceWritten(data, Idle, true)
  {
    assert [DataChunk(data, 0)][1..] == [];
    assert "" + seq(0, _ => '\0') + data[..|data|] == data;
  }

  /** Ready to read the response. */
  function Requested(backlog: nat): Download {
    Started(backlog).(phase := Waiting, timer := On, socketConnected := true, sockStopped := false)
  }

  lemma ReachRequested(backlog: nat, events: seq<Event>)
    ensures Run(Started(backlog), [Resolved] + ([Connected] + ([RequestWritten] + events))) ==
            Run(Requested(backlog), events)
  {
    var d1 := Started(backlog).(phase := Connecting, timer := On);
    var d2 := d1.(phase := Requesting, socketConnected := true);
    RunFirst(Started(backlog), Resolved, [Connected] + ([RequestWritten] + events), d1);
    RunFirst(d1, Connected, [RequestWritten] + events, d2);
    RunFirst(d2, RequestWritten, events, Requested(backlog));
  }

  function PieceRead(data: string): Download {
    Requested(10).(phase := Reading(false), timer := Off, writer := PieceQueued(data, Opening, false))
  }

  lemma ReachPieceRead(data: string)
    ensures Feed(Answered(Requested(10)).(timer := Off), [Piece(data, false)]) == PieceRead(data)
  {
    PieceOpens(data);
    assert OnData(Answered(Requested(10)).(timer := Off), data, false) == PieceRead(data);
    assert [Piece(data, false)][1..] == [];
  }

  /** A complete response whose file is not open yet, and the same once the socket is gone. */
  function Answer(data: string): Download {
    PieceRead(data).(sockStopped := true, phase := Closing(false), timer := Closed, receiveDone := true)
  }

  function Overtaken(data: string, w: Writer): Download {
    Answer(data).(socketConnected := false, phase := Detached, early := true, state := Done, reports := [Done],
        writer := w)
  }

  lemma ReachAnswer(data: string, events: seq<Event>)
    ensures Run(Requested(10), [Received([Piece(data, false)], Complete)] + events) == Run(Answer(data), events)
  {
    ReachPieceRead(data);
    RunFirst(Requested(10), Received([Piece(data, false)], Complete), events, Answer(data));
  }

  lemma ReachOvertaken(data: string, events: seq<Event>)
    ensures Run(Answer(data), [ShutDown] + events) == Run(Overtaken(data, PieceQueued(data, Opening, false)), events)
  {
    RunFirst(Answer(data), ShutDown, events, Overtaken(data, PieceQueued(data, Opening, false)));
  }

  /** Opening and writing the file, whatever else the download is doing. */
  lemma ReachWritten(d: Download, data: string, events: seq<Event>)
    requires d.writer == PieceQueued(data, Opening, false) && (d.receiveDone || !d.sockStopped)
    ensures
      var w := if d.receiveDone then PieceWritten(data, ClosingFile, true) else PieceWritten(data, Idle, false);
      Run(d, [Opened(false)] + ([Written(|data|, false)] + events)) == Run(d.(writer := w), events)
  {
    var d1 := d.(writer := PieceQueued(data, Writing(0, data), true));
    OpenStep(d, data, d1);
    WriteStep(d1, data);
    RunFirst(d, Opened(false), [Written(|data|, false)] + events, d1);
    RunFirst(d1, Written(|data|, false), events, Step(d1, Written(|data|, false)));
  }

  lemma OpenStep(d: Download, data: string, d1: Download)
    requires d.writer == PieceQueued(data, Opening, false)
    requires d1 == d.(writer := PieceQueued(data, Writing(0, data), true))
    ensures Step(d, Opened(false)) == d1
  {
    assert DataChunk(data, 0).Rest() == data;
  }

  lemma WriteStep(d: Download, data: string)
    requires d.writer == PieceQueued(data, Writing(0, data), true) && (d.receiveDone || !d.sockStopped)
    ensures Step(d, Written(|data|, false)) ==
            d.(writer := if d.receiveDone then PieceWritten(data, ClosingFile, true)
                         else PieceWritten(data, Idle, false))
  {
    PieceMoves(data);
  }

  lemma OvertakenCloses(data: string)
    ensures Run(Overtaken(data, PieceWritten(data, ClosingFile, true)), [FileClosed]).reports == [Done, Done]
  {
    var d := Overtaken(data, PieceWritten(data, ClosingFile, true));
    assert [FileClosed] == [FileClosed] + [];
    RunFirst(d, FileClosed, [], Step(d, FileClosed));
  }

  function TwiceEvents(data: string): seq<Event> {
    [Resolved] + ([Connected] + ([RequestWritten] + ([Received([Piece(data, false)], Complete)]
      + ([ShutDown] + ([Opened(false)] + ([Written(|data|, false)] + [FileClosed]))))))
  }

  /** AtMostOneReport needs its condition, for any content of the response. */
  lemma DoneTwice(data: string, events: seq<Event>)
    requires events == TwiceEvents(data)
    ensures Run(Started(10), events).reports == [Done, Done]
  {
    var e := Received([Piece(data, false)], Complete);
    var rest := [Opened(false)] + ([Written(|data|, false)] + [FileClosed]);
    ReachRequested(10, [e] + ([ShutDown] + rest));
    ReachAnswer(data, [ShutDown] + rest);
    ReachOvertaken(data, rest);
    ReachWritten(Overtaken(data, PieceQueued(data, Opening, false)), data, [FileClosed]);
    OvertakenCloses(data);
  }

  function Pending(data: string, w: Writer): Download {
    PieceRead(data).(timer := On, writer := w)
  }

  lemma ReachPending(data: string, events: seq<Event>)
    ensures Run(Requested(10), [Received([Piece(data, false)], InProgress)] + events)
            == Run(Pending(data, PieceQueued(data, Opening, false)), events)
  {
    ReachPieceRead(data);
    RunFirst(Requested(10), Received([Piece(data, false)], InProgress), events,
        Pending(data, PieceQueued(data, Opening, false)));
  }

  function Unclosed(data: string): Download {
    Answer(data).(writer := PieceWritten(data, Idle, false), idleAtDone := true)
  }

  lemma IdleReports(data: string)
    ensures Run(Pending(data, PieceWritten(data, Idle, false)), [Received([], Complete)] + [ShutDown])
            == Unclosed(data).(socketConnected := false, phase := Detached)
  {
    var d := Unclosed(data).(socketConnected := false, phase := Detached);
    RunFirst(Pending(data, PieceWritten(data, Idle, false)), Received([], Complete), [ShutDown], Unclosed(data));
    assert [ShutDown] == [ShutDown] + [];
    RunFirst(Unclosed(data), ShutDown, [], d);
  }

  function NeverEvents(data: string): seq<Event> {
    [Resolved] + ([Connected] + ([RequestWritten] + ([Received([Piece(data, false)], InProgress)]
      + ([Opened(false)] + ([Written(|data|, false)] + ([Received([], Complete)] + [ShutDown]))))))
  }

  /** DoneUnlessIdle needs its exception: here the whole body is on disk before the parser reports
      the end of the message. */
  lemma DoneNever(data: string, events: seq<Event>)
    requires events == NeverEvents(data)
    ensures var d := Run(Started(10), events);
            d.reports == [] && d.writer.disk == d.writer.body == data && d.phase == Detached && d.writer.op == Idle
  {
    var e, last := Received([Piece(data, false)], InProgress), [Received([], Complete)] + [ShutDown];
    ReachRequested(10, [e] + ([Opened(false)] + ([Written(|data|, false)] + last)));
    ReachPending(data, [Opened(false)] + ([Written(|data|, false)] + last));
    ReachWritten(Pending(data, PieceQueued(data, Opening, false)), data, last);
    IdleReports(data);
  }

  // ------------------------------------------------------------------------------- starvation

  /** One piece fills the queue of a downloader with backlog 1, which stops the socket. */
  function Held(data: string, w: Writer): Download {
    Requested(1).(phase := Reading(false), timer := On, sockStopped := true, writer := w)
  }

  lemma ReachHeld(data: string, events: seq<Event>)
    ensures Run(Requested(1), [Received([Piece(data, false)], InProgress)] + events)
            == Run(Held(data, PieceQueued(data, Opening, false)), events)
  {
    PieceOpens(data);
    var d := Answered(Requested(1)).(timer := Off);
    assert OnData(d, data, false) == Held(data, PieceQueued(data, Opening, false)).(timer := Off);
    assert [Piece(data, false)][1..] == [];
    assert Feed(d, [Piece(data, false)]) == Held(data, PieceQueued(data, Opening, false)).(timer := Off);
    RunFirst(Requested(1), Received([Piece(data, false)], InProgress), events,
        Held(data, PieceQueued(data, Opening, false)));
  }

  lemma HeldOpens(data: string, under: bool)
    ensures Step(Held(data, PieceQueued(data, Opening, false)), Opened(under))
            == Held(data, PieceQueued(data, Writing(0, data), true))
  {
    assert DataChunk(data, 0).Rest() == data;
  }

  /** Everything is written; but the socket, although stopped, says that it is active. */
  lemma HeldStarves(data: string)
    ensures Step(Held(data, PieceQueued(data, Writing(0, data), true)), Written(|data|, true))
            == Held(data, PieceWritten(data, Idle, false))
  {
    PieceMoves(data);
  }

  function StarvingTicks(data: string, under: bool): seq<Event> {
    [Resolved] + ([Connected] + ([RequestWritten] + ([Received([Piece(data, false)], InProgress)]
      + ([Opened(under)] + ([Written(|data|, under)] + [])))))
  }

  /** With a socket that is not honest a downloader starves: the whole queue is on disk, no file
      request is outstanding, the socket stays stopped, and nothing is reported before the timer
      expires. */
  lemma StarvesOnce(data: string, events: seq<Event>)
    requires events == StarvingTicks(data, true)
    ensures var d := Run(Started(1), events);
            Starving(d) && d.reports == [] && d.state == OnTheGo && d.writer.disk == data && d.writer.buffer == []
  {
    var e := Received([Piece(data, false)], InProgress);
    var last := [Written(|data|, true)] + [];
    ReachRequested(1, [e] + ([Opened(true)] + last));
    ReachHeld(data, [Opened(true)] + last);
    HeldOpens(data, true);
    RunFirst(Held(data, PieceQueued(data, Opening, false)), Opened(true), last,
        Held(data, PieceQueued(data, Writing(0, data), true)));
    HeldStarves(data);
    RunFirst(Held(data, PieceQueued(data, Writing(0, data), true)), Written(|data|, true), [],
        Held(data, PieceWritten(data, Idle, false)));
  }
}
