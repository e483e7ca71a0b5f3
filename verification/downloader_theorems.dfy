/** What every download guarantees, whatever order its handles report in. */
module DownloaderTheorems {
  import opened DataChunks
  import opened DownloaderModel
  import opened StatusDownloader

  // ------------------------------------------------------------------------------ invariants

  /** What is on disk, followed by what is queued, is what the parser yielded. */
  ghost predicate Pipeline(w: Writer) {
    && ValidChunks(w.buffer)
    && w.disk + Content(w.buffer) == w.body
    && |w.disk| == w.offsetFile
    && |w.body| == w.downloaded
  }

  /** One file request at a time, and the right one. */
  ghost predicate FileInOrder(w: Writer, receiveDone: bool) {
    && !w.clash
    && w.operationStarted == (w.op != Idle)
    && (!w.file ==> w.op == Idle && !w.fileOpened && w.buffer == [] && w.body == "")
    && match w.op
       case Idle => w.buffer == [] && (w.file && !w.fileOpened ==> receiveDone)
       case Opening => w.file && !w.fileOpened && w.buffer != []
       case Writing(offset, data) =>
         w.file && w.fileOpened && w.buffer != [] && offset == w.offsetFile && data == w.buffer[0].Rest()
       case ClosingFile => w.file && w.fileOpened && w.buffer == [] && receiveDone
       case Discarding => false
  }

  ghost predicate SocketInOrder(d: Download) {
    && d.socketConnected == (d.phase.Requesting? || d.phase.Waiting? || d.phase.Reading? || d.phase.Closing?)
    && (d.phase.Resolving? || d.phase.Connecting? || d.phase.Requesting? || d.phase.Waiting? ==> !d.writer.file)
    && (d.receiveDone ==> d.phase == Closing(false) || d.phase == Detached)
    && (d.phase == Closing(false) ==> d.receiveDone)
    && ((d.phase == Closing(true) || d.phase == Detached) && !d.receiveDone ==> !d.writer.file)
    && ((d.timer == Closed) == (d.phase.Closing? || d.phase == Detached))
  }

  /** A full queue has stopped the socket. */
  ghost predicate HeldBack(d: Download) {
    (d.phase.Waiting? || d.phase.Reading?) && 0 < d.backlog <= |d.writer.buffer| ==> d.sockStopped
  }

  /** The response is complete, the socket is gone, and so is the file, if there was one. */
  predicate Over(d: Download) {
    d.phase == Detached && d.receiveDone && !d.writer.fileOpened && d.writer.op == Idle
  }

  /** What on_tick has been told; if the socket is shut down while the file is being opened, Done
      comes once too early and once more when the file is complete. */
  ghost predicate ReportsInOrder(d: Download) {
    && (d.idleAtDone <==> d.receiveDone && d.writer.fileOpened && d.writer.op == Idle)
    && (d.early ==>
          && d.phase == Detached && d.receiveDone && (d.writer.op == Idle ==> !d.writer.fileOpened)
          && d.reports == (if d.writer.op == Idle then [Done, Done] else [Done]))
    && (!d.early ==>
          d.reports == (if Over(d) then [Done]
                        else if d.phase == Detached && !d.receiveDone then [Redirect] else []))
  }

  ghost predicate Running(d: Download) {
    && d.state != Failed
    && Pipeline(d.writer) && FileInOrder(d.writer, d.receiveDone)
    && SocketInOrder(d) && HeldBack(d) && ReportsInOrder(d)
  }

  ghost predicate Terminated(d: Download) {
    && d.state == Failed && d.phase == Detached && d.timer == Closed
    && (d.writer.op == Idle || d.writer.op == Discarding)
    && d.reports == (if d.early then [Done, Failed] else [Failed])
  }

  ghost predicate Consistent(d: Download) {
    Running(d) || Terminated(d)
  }

  // -------------------------------------------------------------------------------- the queue

  lemma PushPipeline(w: Writer, data: string)
    requires Pipeline(w)
    ensures Pipeline(w.Push(data))
  {
    ContentPush(w.buffer, DataChunk(data, 0));
    Assoc(w.disk, Content(w.buffer), data);
  }

  lemma ContentUsed(buffer: seq<DataChunk>, n: nat)
    requires ValidChunks(buffer) && buffer != [] && n <= |buffer[0].Rest()|
    ensures ValidChunks(Used(buffer, n))
    ensures Content(buffer) == buffer[0].Rest()[..n] + Content(Used(buffer, n))
  {
    if buffer[0].offset + n == |buffer[0].data| {
      WholeRest(buffer[0], n);
    } else {
      PartUsed(buffer, n, buffer[0].(offset := buffer[0].offset + n), buffer[1..]);
    }
  }

  lemma WholeRest(chunk: DataChunk, n: nat)
    requires chunk.Valid() && n == |chunk.Rest()|
    ensures chunk.Rest()[..n] == chunk.Rest()
  {
  }

  lemma PartUsed(buffer: seq<DataChunk>, n: nat, chunk: DataChunk, others: seq<DataChunk>)
    requires ValidChunks(buffer) && buffer != [] && n < |buffer[0].Rest()|
    requires chunk == buffer[0].(offset := buffer[0].offset + n) && others == buffer[1..]
    ensures ValidChunks([chunk] + others)
    ensures Content(buffer) == buffer[0].Rest()[..n] + Content([chunk] + others)
  {
    ContentCut(chunk, others);
    Cut(buffer[0], n, chunk);
    Assoc(buffer[0].Rest()[..n], chunk.Rest(), Content(others));
  }

  lemma ContentCut(chunk: DataChunk, others: seq<DataChunk>)
    ensures Content([chunk] + others) == chunk.Rest() + Content(others)
  {
    assert ([chunk] + others)[1..] == others;
  }

  lemma Cut(chunk: DataChunk, n: nat, used: DataChunk)
    requires chunk.Valid() && n <= |chunk.Rest()| && used == chunk.(offset := chunk.offset + n)
    ensures chunk.Rest()[..n] + used.Rest() == chunk.Rest()
  {
    assert used.Rest() == chunk.Rest()[n..];
  }

  /** Writing at the end of the file. */
  lemma Append(disk: string, data: string)
    ensures WriteAt(disk, |disk|, data) == disk + data
  {
    assert disk + seq(0, _ => '\0') + data == disk + data;
  }

  lemma AdvancePipeline(w: Writer, n: nat)
    requires Pipeline(w) && w.buffer != [] && w.op == Writing(w.offsetFile, w.buffer[0].Rest()) && n <= |w.op.data|
    ensures Pipeline(w.Advance(n))
  {
    ContentUsed(w.buffer, n);
    Append(w.disk, w.op.data[..n]);
    Assoc(w.disk, w.op.data[..n], Content(Used(w.buffer, n)));
  }

  /** The file handle is free and on_write is about to give it something to do. */
  ghost predicate Free(w: Writer) {
    Pipeline(w) && !w.clash && w.operationStarted && w.op == Idle && w.file && w.fileOpened
  }

  lemma NextInOrder(w: Writer, receiveDone: bool)
    requires Free(w)
    ensures Pipeline(w.Next(receiveDone)) && FileInOrder(w.Next(receiveDone), receiveDone)
  {
  }

  lemma PushInOrder(w: Writer, data: string)
    requires Pipeline(w) && FileInOrder(w, false)
    ensures
      var v := w.Push(data);
      var v' := if !v.file then v.Open()
                else if v.fileOpened && !v.operationStarted then v.(operationStarted := true).Next(false) else v;
      Pipeline(v') && FileInOrder(v', false) && v'.op != Idle && v'.file
  {
    PushPipeline(w, data);
    assert w.buffer != [] ==> w.Push(data).buffer[0] == w.buffer[0];
  }

  // ------------------------------------------------------------------------------- each step

  lemma OnErrorTerminates(d: Download, w: Writer)
    requires w.op == Idle || w.file
    requires d.reports == if d.early then [Done] else []
    requires w.op != Discarding
    ensures Terminated(OnError(d, w))
  {
  }

  /** Holds while the response is being read. */
  ghost predicate Fed(d: Download) {
    Running(d) && d.phase.Reading?
  }

  lemma OnDataFed(d: Download, data: string, under: bool)
    requires Fed(d)
    ensures Fed(OnData(d, data, under))
    ensures OnData(d, data, under).writer.op != Idle && OnData(d, data, under).writer.file
  {
    PushInOrder(d.writer, data);
  }

  lemma {:induction false} FeedFed(d: Download, pieces: seq<Piece>)
    requires Fed(d)
    ensures Fed(Feed(d, pieces))
    ensures pieces == [] ==> Feed(d, pieces) == d
    ensures pieces != [] ==> Feed(d, pieces).writer.op != Idle && Feed(d, pieces).writer.file
    decreases |pieces|
  {
    if pieces != [] {
      OnDataFed(d, pieces[0].data, pieces[0].under);
      FeedFed(OnData(d, pieces[0].data, pieces[0].under), pieces[1..]);
    }
  }

  lemma JudgeConsistent(d: Download, verdict: Verdict)
    requires Fed(d) && (verdict == Moved ==> !d.writer.file)
    ensures Consistent(Judge(d, verdict))
  {
    if verdict == Invalid {
      OnErrorTerminates(d, d.writer);
    }
  }

  lemma OnReadConsistent(d: Download, pieces: seq<Piece>, verdict: Verdict)
    requires Fed(d.(timer := Off))
    requires verdict == Moved ==> pieces == [] && !d.writer.file
    ensures Consistent(OnRead(d, pieces, verdict))
  {
    FeedFed(d.(timer := Off), pieces);
    JudgeConsistent(Feed(d.(timer := Off), pieces), verdict);
  }

  lemma OnWriteRunning(d: Download, w: Writer, under: bool)
    requires d.state != Failed && Free(w) && |w.buffer| <= |d.writer.buffer| && d.writer.file
    requires SocketInOrder(d) && HeldBack(d) && ReportsInOrder(d) && d.writer.op != Idle
    ensures Running(OnWrite(d, w, under))
  {
    NextInOrder(w, d.receiveDone);
  }

  lemma OpenedConsistent(d: Download, under: bool)
    requires Running(d) && d.writer.op == Opening
    ensures Consistent(OnOpened(d, under))
  {
    OnWriteRunning(d, d.writer.(op := Idle, fileOpened := true), under);
  }

  lemma WrittenConsistent(d: Download, n: nat, under: bool)
    requires Running(d) && d.writer.op.Writing? && n <= |d.writer.op.data| && d.writer.buffer != []
    ensures Consistent(OnWritten(d, n, under))
  {
    AdvancePipeline(d.writer, n);
    OnWriteRunning(d, d.writer.Advance(n), under);
  }

  lemma FileErrorConsistent(d: Download)
    requires Running(d) && d.writer.op != Idle
    ensures Consistent(OnFileError(d))
  {
    OnErrorTerminates(d, d.writer.(op := Idle, operationStarted := false));
  }

  lemma CloseErrorConsistent(d: Download)
    requires Running(d) && d.writer.op == ClosingFile
    ensures Consistent(OnCloseError(d))
  {
    OnErrorTerminates(d, d.writer.(op := Idle, operationStarted := false, file := false));
  }

  lemma FileClosedConsistent(d: Download)
    requires Running(d) && d.writer.op == ClosingFile
    ensures Consistent(OnFileClosed(d))
  {
  }

  lemma FileReportsConsistent(d: Download, e: Event)
    requires Running(d) && Enabled(d, e)
    requires IsFile(e)
    ensures Consistent(FileReports(d, e))
  {
    if e.Opened? {
      OpenedConsistent(d, e.under);
    } else if e.Written? {
      WrittenConsistent(d, e.n, e.under);
    } else if e.OpenFailed? || e.WriteFailed? {
      FileErrorConsistent(d);
    } else if e.FileClosed? {
      FileClosedConsistent(d);
    } else {
      CloseErrorConsistent(d);
    }
  }

  lemma TerminatedStays(d: Download, e: Event)
    requires Terminated(d) && Enabled(d, e)
    ensures Terminated(Happen(d, e))
  {
  }

  lemma SocketDataConsistent(d: Download, pieces: seq<Piece>, verdict: Verdict)
    requires Running(d) && Enabled(d, Received(pieces, verdict))
    ensures Consistent(OnSocketData(d, pieces, verdict))
  {
    OnReadConsistent(Answered(d), pieces, verdict);
  }

  lemma SocketEndConsistent(d: Download, verdict: Verdict)
    requires Running(d) && Enabled(d, Ended(verdict))
    ensures Consistent(OnSocketEnd(d, verdict))
  {
    if d.phase.Waiting? {
      OnErrorTerminates(d, d.writer);
    } else {
      OnReadConsistent(d.(phase := Reading(true)), [], verdict);
    }
  }

  lemma ShutdownConsistent(d: Download)
    requires Running(d) && d.phase.Closing?
    ensures Consistent(OnShutdown(d))
  {
  }

  lemma NetConsistent(d: Download, e: Event)
    requires Running(d) && Enabled(d, e) && !IsFile(e) && !e.Received? && !e.Ended? && !e.ShutDown?
    ensures Consistent(NetReports(d, e))
  {
    if !e.Resolved? && !e.Connected? && !e.RequestWritten? {
      OnErrorTerminates(d, d.writer);
    }
  }

  lemma HappenConsistent(d: Download, e: Event)
    requires Consistent(d) && Enabled(d, e)
    ensures Consistent(Happen(d, e))
  {
    if Terminated(d) {
      TerminatedStays(d, e);
    } else if IsFile(e) {
      FileReportsConsistent(d, e);
    } else {
      match e
      case Received(pieces, verdict) => SocketDataConsistent(d, pieces, verdict);
      case Ended(verdict) => SocketEndConsistent(d, verdict);
      case ShutDown => ShutdownConsistent(d);
      case _ => NetConsistent(d, e);
    }
  }

  lemma {:induction false} RunConsistent(d: Download, events: seq<Event>)
    requires Consistent(d)
    ensures Consistent(Run(d, events))
    decreases |events|
  {
    if events != [] {
      if Enabled(d, events[0]) {
        HappenConsistent(d, events[0]);
      }
      RunConsistent(Step(d, events[0]), events[1..]);
    }
  }

  // --------------------------------------------------------------------------------- results

  /** The write pipeline: in every state of every run that has not failed, for all sizes of
      partial writes, file and queue together hold the body so far, and the file is closed only
      when it holds the whole body. */
  lemma WritePipeline(backlog: nat, events: seq<Event>)
    ensures
      var d := Run(Started(backlog), events);
      d.state != Failed ==>
        && d.writer.disk + Content(d.writer.buffer) == d.writer.body
        && d.writer.offsetFile == |d.writer.disk|
        && d.writer.offsetFile + |Content(d.writer.buffer)| == d.writer.downloaded
        && (d.writer.op == ClosingFile ==> d.receiveDone && d.writer.disk == d.writer.body)
  {
    RunConsistent(Started(backlog), events);
  }

  /** One file request at a time: file_operation_started says whether one is outstanding, none is
      issued while another is, and a write continues the file with what comes next in the queue. */
  lemma OneFileRequest(backlog: nat, events: seq<Event>)
    ensures
      var d := Run(Started(backlog), events);
      var w := d.writer;
      d.state != Failed ==>
        && !w.clash
        && (w.operationStarted <==> w.op != Idle)
        && (w.op.Writing? ==> w.fileOpened && w.op.offset == |w.disk| && w.op.data <= Content(w.buffer))
        && (w.op == Opening ==> !w.fileOpened)
  {
    RunConsistent(Started(backlog), events);
  }

  /** Everything the parser's callback was given during a run. */
  function Yielded(d: Download, events: seq<Event>): string
    decreases |events|
  {
    if events == [] then ""
    else
      (if events[0].Received? && Enabled(d, events[0]) then Joined(events[0].pieces) else "")
      + Yielded(Step(d, events[0]), events[1..])
  }

  function Joined(pieces: seq<Piece>): string {
    if pieces == [] then "" else pieces[0].data + Joined(pieces[1..])
  }

  lemma OnDataBody(d: Download, data: string, under: bool)
    ensures var d' := OnData(d, data, under);
            d'.writer.body == d.writer.body + data && d'.backlog == d.backlog && d'.early == d.early
  {
    var w := d.writer.Push(data);
    assert w.body == d.writer.body + data;
    NextBody(w.(operationStarted := true), d.receiveDone);
  }

  lemma NextBody(w: Writer, receiveDone: bool)
    ensures w.Next(receiveDone).body == w.body && w.Open().body == w.body
  {
  }

  lemma {:induction false} FeedBody(d: Download, pieces: seq<Piece>)
    ensures Feed(d, pieces).writer.body == d.writer.body + Joined(pieces)
    ensures Feed(d, pieces).backlog == d.backlog && Feed(d, pieces).early == d.early
    decreases |pieces|
  {
    if pieces == [] {
      assert d.writer.body + "" == d.writer.body;
    } else {
      OnDataBody(d, pieces[0].data, pieces[0].under);
      FeedBody(OnData(d, pieces[0].data, pieces[0].under), pieces[1..]);
      Assoc(d.writer.body, pieces[0].data, Joined(pieces[1..]));
    }
  }

  lemma JudgeBody(d: Download, verdict: Verdict)
    ensures NoBody(d, Judge(d, verdict))
  {
  }

  lemma OnReadBody(d: Download, pieces: seq<Piece>, verdict: Verdict)
    ensures OnRead(d, pieces, verdict).writer.body == d.writer.body + Joined(pieces)
    ensures OnRead(d, pieces, verdict).backlog == d.backlog && OnRead(d, pieces, verdict).early == d.early
  {
    FeedBody(d.(timer := Off), pieces);
    JudgeBody(Feed(d.(timer := Off), pieces), verdict);
  }

  /** No byte was yielded, and the rest that only happens elsewhere did not happen either. */
  ghost predicate NoBody(d: Download, d': Download) {
    d'.writer.body == d.writer.body && d'.backlog == d.backlog && d'.early == d.early
  }

  lemma OnWriteBody(d: Download, w: Writer, under: bool)
    requires w.body == d.writer.body
    ensures NoBody(d, OnWrite(d, w, under))
  {
  }

  lemma OnErrorBody(d: Download, w: Writer)
    requires w.body == d.writer.body
    ensures NoBody(d, OnError(d, w))
  {
  }

  lemma ClosedBody(d: Download)
    ensures NoBody(d, OnFileClosed(d)) && NoBody(d, OnCloseError(d)) && NoBody(d, OnDiscarded(d))
  {
    OnErrorBody(d, d.writer.(op := Idle, operationStarted := false, file := false));
  }

  lemma FileReportsBody(d: Download, e: Event)
    requires Enabled(d, e)
    requires IsFile(e)
    ensures NoBody(d, FileReports(d, e))
  {
    if e.Opened? {
      OnWriteBody(d, d.writer.(op := Idle, fileOpened := true), e.under);
    } else if e.Written? {
      OnWriteBody(d, d.writer.Advance(e.n), e.under);
    } else if e.OpenFailed? || e.WriteFailed? {
      OnErrorBody(d, d.writer.(op := Idle, operationStarted := false));
    } else {
      ClosedBody(d);
    }
  }

  lemma EndBody(d: Download, verdict: Verdict)
    ensures NoBody(d, OnSocketEnd(d, verdict))
  {
    if d.phase.Waiting? {
      OnErrorBody(d, d.writer);
    } else {
      JudgeBody(d.(phase := Reading(true), timer := Off), verdict);
    }
  }

  lemma NetBody(d: Download, e: Event)
    ensures NoBody(d, NetReports(d, e))
  {
  }

  lemma ShutdownBody(d: Download)
    requires d.phase.Closing?
    ensures var d' := OnShutdown(d);
            && d'.writer.body == d.writer.body && d'.backlog == d.backlog
            && d'.early == (d.early || d.writer.op == Opening)
  {
  }

  lemma OthersBody(d: Download, e: Event)
    requires Enabled(d, e) && !IsFile(e) && !e.Received?
    ensures Happen(d, e).writer.body == d.writer.body && Happen(d, e).backlog == d.backlog
    ensures Happen(d, e).early == (d.early || (e == ShutDown && d.writer.op == Opening))
  {
    if e.Ended? {
      EndBody(d, e.verdict);
    } else if e.ShutDown? {
      ShutdownBody(d);
    } else {
      NetBody(d, e);
    }
  }

  /** What a step adds to the body, and what it never changes. */
  lemma HappenBody(d: Download, e: Event)
    requires Enabled(d, e)
    ensures Happen(d, e).writer.body == if e.Received? then d.writer.body + Joined(e.pieces) else d.writer.body
    ensures Happen(d, e).backlog == d.backlog
    ensures Happen(d, e).early == (d.early || (e == ShutDown && d.writer.op == Opening))
  {
    if IsFile(e) {
      FileReportsBody(d, e);
    } else if e.Received? {
      OnReadBody(Answered(d), e.pieces, e.verdict);
    } else {
      OthersBody(d, e);
    }
  }

  lemma {:induction false} RunBody(d: Download, events: seq<Event>)
    ensures Run(d, events).writer.body == d.writer.body + Yielded(d, events)
    decreases |events|
  {
    if events == [] {
      assert d.writer.body + "" == d.writer.body;
    } else {
      var more := if events[0].Received? && Enabled(d, events[0]) then Joined(events[0].pieces) else "";
      if Enabled(d, events[0]) {
        HappenBody(d, events[0]);
      }
      RunBody(Step(d, events[0]), events[1..]);
      assert d.writer.body + "" == d.writer.body;
      Assoc(d.writer.body, more, Yielded(Step(d, events[0]), events[1..]));
    }
  }

  lemma {:induction false} RunBacklog(d: Download, events: seq<Event>)
    ensures Run(d, events).backlog == d.backlog
    decreases |events|
  {
    if events != [] {
      if Enabled(d, events[0]) {
        HappenBody(d, events[0]);
      }
      RunBacklog(Step(d, events[0]), events[1..]);
    }
  }

  lemma BodyYielded(d: Download, events: seq<Event>)
    requires d.writer.body == ""
    ensures Run(d, events).writer.body == Yielded(d, events)
  {
    RunBody(d, events);
    assert "" + Yielded(d, events) == Yielded(d, events);
  }

  /** File and queue together hold exactly what the parser yielded during the run. */
  lemma FileHoldsBody(backlog: nat, events: seq<Event>)
    ensures
      var d := Run(Started(backlog), events);
      d.state != Failed ==> d.writer.disk + Content(d.writer.buffer) == Yielded(Started(backlog), events)
  {
    WritePipeline(backlog, events);
    BodyYielded(Started(backlog), events);
  }

  lemma ShortQueue(d: Download, pieces: seq<Piece>, verdict: Verdict)
    requires Consistent(d) && Enabled(d, Received(pieces, verdict))
    ensures |d.writer.buffer| < d.backlog <==> d.backlog > 0
  {
  }

  /** Back-pressure: data reaches the downloader only when its queue is shorter than the backlog,
      if and only if the backlog is positive. */
  lemma BackPressure(backlog: nat, events: seq<Event>, pieces: seq<Piece>, verdict: Verdict)
    requires Enabled(Run(Started(backlog), events), Received(pieces, verdict))
    ensures |Run(Started(backlog), events).writer.buffer| < backlog <==> backlog > 0
  {
    RunConsistent(Started(backlog), events);
    RunBacklog(Started(backlog), events);
    ShortQueue(Run(Started(backlog), events), pieces, verdict);
  }

  /** Somewhere in the run the socket is shut down while the file is still being opened. */
  predicate ShutBeforeOpen(d: Download, events: seq<Event>)
    decreases |events|
  {
    events != [] &&
    ((Enabled(d, ShutDown) && events[0] == ShutDown && d.writer.op == Opening)
     || ShutBeforeOpen(Step(d, events[0]), events[1..]))
  }

  lemma {:induction false} EarlyIff(d: Download, events: seq<Event>)
    ensures Run(d, events).early == (d.early || ShutBeforeOpen(d, events))
    decreases |events|
  {
    if events != [] {
      if Enabled(d, events[0]) {
        HappenBody(d, events[0]);
      }
      EarlyIff(Step(d, events[0]), events[1..]);
    }
  }

  /** Completion: unless the socket is shut down before the file is open, on_tick hears at most
      one of Done, Failed and Redirect; it hears Done only when the whole body is on disk and the
      file is closed, and Failed if and only if the download has failed. */
  lemma AtMostOneReport(backlog: nat, events: seq<Event>)
    requires !ShutBeforeOpen(Started(backlog), events)
    ensures
      var d := Run(Started(backlog), events);
      && |d.reports| <= 1
      && (d.reports == [Done] ==>
            d.writer.disk == d.writer.body && !d.writer.fileOpened && d.writer.op == Idle && d.receiveDone)
      && (d.reports == [Redirect] ==> d.writer.body == "" && !d.writer.file)
      && (d.reports == [Failed] <==> d.state == Failed)
  {
    RunConsistent(Started(backlog), events);
    EarlyIff(Started(backlog), events);
    var d := Run(Started(backlog), events);
    EmptyQueue(d.writer);
  }

  lemma EmptyQueue(w: Writer)
    ensures w.buffer == [] ==> Content(w.buffer) == ""
  {
  }

  /** Exactly when on_tick hears more than that: once the file handle has nothing left to do for
      the download, there have been two reports if and only if the socket was shut down while the
      file was being opened, and the first of them was Done. */
  lemma TwoReportsIff(backlog: nat, events: seq<Event>)
    requires var d := Run(Started(backlog), events); d.writer.op == Idle || d.state == Failed
    ensures var reports := Run(Started(backlog), events).reports;
            if ShutBeforeOpen(Started(backlog), events) then reports == [Done, Done] || reports == [Done, Failed]
            else |reports| <= 1
  {
    RunConsistent(Started(backlog), events);
    EarlyIff(Started(backlog), events);
  }

  lemma DoneReporter(d: Download, e: Event)
    requires Running(d) && !d.early && Enabled(d, e) && (e == ShutDown || e == FileClosed)
    requires Happen(d, e).reports == d.reports + [Done]
    ensures var w := Happen(d, e).writer;
            && (if e == ShutDown then !d.writer.fileOpened else !d.socketConnected)
            && (w.disk == w.body && w.op == Idle && !w.fileOpened <==> !(e == ShutDown && d.writer.op == Opening))
  {
    EmptyQueue(d.writer);
  }

  /** Whichever of socket shutdown and file close comes second reports Done, and the report is
      true exactly if it is not the shutdown that overtakes the opening of the file. */
  lemma SecondReports(backlog: nat, events: seq<Event>, e: Event)
    requires !ShutBeforeOpen(Started(backlog), events)
    requires Enabled(Run(Started(backlog), events), e)
    requires var d := Run(Started(backlog), events); Happen(d, e).reports == d.reports + [Done]
    ensures
      var d, w := Run(Started(backlog), events), Happen(Run(Started(backlog), events), e).writer;
      && ((e == FileClosed && !d.socketConnected) || (e == ShutDown && !d.writer.fileOpened))
      && (w.disk == w.body && w.op == Idle && !w.fileOpened <==> !(e == ShutDown && d.writer.op == Opening))
  {
    var d := Run(Started(backlog), events);
    RunConsistent(Started(backlog), events);
    EarlyIff(Started(backlog), events);
    if e == ShutDown || e == FileClosed {
      if Terminated(d) {
        TerminatedIsSilent(d, e);
      } else {
        DoneReporter(d, e);
      }
    } else {
      OthersReport(d, e);
    }
  }

  lemma TerminatedIsSilent(d: Download, e: Event)
    requires Terminated(d) && Enabled(d, e)
    ensures Happen(d, e).reports == d.reports != d.reports + [Done]
  {
    assert |d.reports| < |d.reports + [Done]|;
  }

  lemma JudgeReports(d: Download, verdict: Verdict)
    ensures var d' := Judge(d, verdict); d'.reports == d.reports || d'.reports == d.reports + [Failed]
  {
  }

  lemma ReadReports(d: Download, pieces: seq<Piece>, verdict: Verdict)
    ensures var d' := OnRead(d, pieces, verdict); d'.reports == d.reports || d'.reports == d.reports + [Failed]
  {
    FeedReports(d.(timer := Off), pieces);
    JudgeReports(Feed(d.(timer := Off), pieces), verdict);
  }

  lemma FilesReport(d: Download, e: Event)
    requires Enabled(d, e) && IsFile(e) && !e.FileClosed?
    ensures var d' := FileReports(d, e); d'.reports == d.reports || d'.reports == d.reports + [Failed]
  {
  }

  lemma NetsReport(d: Download, e: Event)
    ensures var d' := NetReports(d, e); d'.reports == d.reports || d'.reports == d.reports + [Failed]
  {
  }

  lemma OthersReport(d: Download, e: Event)
    requires Enabled(d, e) && !e.ShutDown? && !e.FileClosed?
    ensures Happen(d, e).reports != d.reports + [Done]
  {
    OneMore(d.reports, Failed);
    if IsFile(e) {
      FilesReport(d, e);
    } else if e.Received? {
      ReadReports(Answered(d), e.pieces, e.verdict);
    } else if e.Ended? {
      ReadReports(d.(phase := Reading(true)), [], e.verdict);
    } else {
      NetsReport(d, e);
    }
  }

  lemma OneMore(reports: seq<State>, state: State)
    requires state != Done
    ensures reports + [state] != reports + [Done] && reports != reports + [Done]
  {
    assert (reports + [state])[|reports|] != (reports + [Done])[|reports|];
  }

  lemma {:induction false} FeedReports(d: Download, pieces: seq<Piece>)
    ensures Feed(d, pieces).reports == d.reports
    decreases |pieces|
  {
    if pieces != [] {
      FeedReports(OnData(d, pieces[0].data, pieces[0].under), pieces[1..]);
    }
  }

  /** The response is complete, by its last bytes or by the end of the connection, while the file
      is open and no request is outstanding, and no new bytes come with it: on_data, which would
      set the writer going, is not called. */
  predicate CompletesIdle(d: Download, e: Event) {
    && Enabled(d, e) && d.writer.fileOpened && d.writer.op == Idle
    && (e == Received([], Complete) || (e == Ended(Complete) && d.phase.Reading?))
  }

  /** That happens somewhere in the run. */
  predicate CompletedIdle(d: Download, events: seq<Event>)
    decreases |events|
  {
    events != [] && (CompletesIdle(d, events[0]) || CompletedIdle(Step(d, events[0]), events[1..]))
  }

  /** idleAtDone, which was recorded with the verdict, says just that. */
  lemma JudgeIdle(d: Download, verdict: Verdict)
    ensures Judge(d, verdict).idleAtDone
            == if verdict == Complete then d.writer.fileOpened && !d.writer.operationStarted else d.idleAtDone
  {
  }

  lemma {:induction false} FeedIdle(d: Download, pieces: seq<Piece>)
    ensures Feed(d, pieces).idleAtDone == d.idleAtDone
    decreases |pieces|
  {
    if pieces != [] {
      FeedIdle(OnData(d, pieces[0].data, pieces[0].under), pieces[1..]);
    }
  }

  lemma ReceivedIdle(d: Download, pieces: seq<Piece>, verdict: Verdict)
    requires Running(d) && Enabled(d, Received(pieces, verdict))
    ensures OnSocketData(d, pieces, verdict).idleAtDone == (d.idleAtDone || CompletesIdle(d, Received(pieces, verdict)))
  {
    var d' := Answered(d).(timer := Off);
    FeedFed(d', pieces);
    FeedIdle(d', pieces);
    JudgeIdle(Feed(d', pieces), verdict);
  }

  lemma EndedIdle(d: Download, verdict: Verdict)
    requires Running(d) && Enabled(d, Ended(verdict))
    ensures OnSocketEnd(d, verdict).idleAtDone == (d.idleAtDone || CompletesIdle(d, Ended(verdict)))
  {
    JudgeIdle(d.(phase := Reading(true), timer := Off), verdict);
  }

  lemma FileReportsIdle(d: Download, e: Event)
    requires Enabled(d, e) && IsFile(e)
    ensures FileReports(d, e).idleAtDone == d.idleAtDone
  {
  }

  lemma HappenIdle(d: Download, e: Event)
    requires Consistent(d) && Enabled(d, e)
    ensures Happen(d, e).idleAtDone == (d.idleAtDone || CompletesIdle(d, e))
  {
    if IsFile(e) {
      FileReportsIdle(d, e);
    } else if e.Received? {
      ReceivedIdle(d, e.pieces, e.verdict);
    } else if e.Ended? {
      EndedIdle(d, e.verdict);
    }
  }

  lemma {:induction false} RunIdle(d: Download, events: seq<Event>)
    requires Consistent(d)
    ensures Run(d, events).idleAtDone == (d.idleAtDone || CompletedIdle(d, events))
    decreases |events|
  {
    if events != [] {
      if Enabled(d, events[0]) {
        HappenConsistent(d, events[0]);
        HappenIdle(d, events[0]);
      }
      RunIdle(Step(d, events[0]), events[1..]);
    }
  }

  /** The guard behind it, for both ways in which a response can be completed. */
  lemma IdleAtDoneIff(backlog: nat, events: seq<Event>, e: Event)
    requires Enabled(Run(Started(backlog), events), e) && (e.Received? || e.Ended?) && e.verdict == Complete
    ensures
      var d := Run(Started(backlog), events);
      Happen(d, e).idleAtDone
      <==> d.writer.fileOpened && d.writer.op == Idle && (if e.Received? then e.pieces == [] else d.phase.Reading?)
  {
    RunConsistent(Started(backlog), events);
    HappenIdle(Run(Started(backlog), events), e);
  }

  /** Exactly when Done is never reported.  When a complete response leaves nothing to wait for,
      Done has been reported, once, unless the response was completed while the writer was idle
      with its file open: then nobody closes the file and nothing is ever reported. */
  lemma DoneUnlessIdle(backlog: nat, events: seq<Event>)
    requires !ShutBeforeOpen(Started(backlog), events)
    requires var d := Run(Started(backlog), events);
             d.state != Failed && d.receiveDone && d.phase == Detached && d.writer.op == Idle
    ensures var d := Run(Started(backlog), events);
            && d.reports == (if CompletedIdle(Started(backlog), events) then [] else [Done])
            && (CompletedIdle(Started(backlog), events) <==> d.writer.fileOpened)
  {
    RunConsistent(Started(backlog), events);
    EarlyIff(Started(backlog), events);
    RunIdle(Started(backlog), events);
  }

  // --------------------------------------------------------------------- resuming the socket

  /** The socket never claims to be active once it was stopped. */
  predicate Honest(e: Event) {
    match e
    case Received(pieces, _) => forall k | 0 <= k < |pieces| :: !pieces[k].under
    case Opened(under) => !under
    case Written(_, under) => !under
    case _ => true
  }

  /** The downloader has stopped its socket while reading, and nothing is outstanding whose
      completion would let it read on. */
  predicate Starving(d: Download) {
    d.phase.Reading? && d.sockStopped && d.writer.op == Idle
  }

  /** The last queued bytes are written while the stopped socket calls itself active. */
  predicate Starves(d: Download, e: Event) {
    && e.Written? && Enabled(d, e) && d.phase.Reading? && d.sockStopped
    && e.under && Used(d.writer.buffer, e.n) == []
  }

  lemma FileStarves(d: Download, e: Event)
    requires Running(d) && d.phase.Reading? && Enabled(d, e) && IsFile(e)
    ensures FileReports(d, e).phase.Reading? ==> (Starving(FileReports(d, e)) <==> Starves(d, e))
    ensures d.writer.op != Idle
  {
  }

  lemma DataStarves(d: Download, pieces: seq<Piece>, verdict: Verdict)
    requires Running(d) && Enabled(d, Received(pieces, verdict))
    ensures !Starving(OnSocketData(d, pieces, verdict)) && !Starving(d)
  {
    FeedFed(Answered(d).(timer := Off), pieces);
  }

  /** Whatever happens to a downloader that goes on reading, only that makes it starve, and
      nothing ends it. */
  lemma HappenStarves(d: Download, e: Event)
    requires Consistent(d) && Enabled(d, e)
    ensures Happen(d, e).phase.Reading? ==> (Starving(Happen(d, e)) <==> Starving(d) || Starves(d, e))
  {
    if Terminated(d) {
      TerminatedStays(d, e);
    } else if IsFile(e) {
      if d.phase.Reading? { FileStarves(d, e); }
    } else if e.Received? {
      DataStarves(d, e.pieces, e.verdict);
    }
  }

  /** The downloader is past reading, for good. */
  predicate Past(d: Download) {
    d.phase.Closing? || d.phase == Detached
  }

  lemma FilePast(d: Download, e: Event)
    requires Enabled(d, e) && IsFile(e) && (Past(d) || Starving(d))
    ensures Past(FileReports(d, e))
  {
  }

  lemma HappenPast(d: Download, e: Event)
    requires Enabled(d, e) && (Past(d) || Starving(d))
    ensures Past(Happen(d, e)) || Happen(d, e).phase.Reading?
    ensures Past(d) ==> Past(Happen(d, e))
  {
    if IsFile(e) {
      FilePast(d, e);
    }
  }

  /** Somewhere in the run the downloader is made to starve. */
  predicate Starved(d: Download, events: seq<Event>)
    decreases |events|
  {
    events != [] && (Starves(d, events[0]) || Starved(Step(d, events[0]), events[1..]))
  }

  lemma {:induction false} RunStarves(d: Download, events: seq<Event>, known: bool)
    requires Consistent(d) && (Starving(d) ==> known) && (known ==> Starving(d) || Past(d))
    ensures Starving(Run(d, events)) <==> Run(d, events).phase.Reading? && (known || Starved(d, events))
    decreases |events|
  {
    if events != [] {
      var d', now := Step(d, events[0]), known || Starves(d, events[0]);
      if Enabled(d, events[0]) {
        HappenConsistent(d, events[0]);
        HappenStarves(d, events[0]);
        StarvesReads(d, events[0]);
        if known { HappenPast(d, events[0]); }
      }
      RunStarves(d', events[1..], now);
    }
  }

  lemma StarvesReads(d: Download, e: Event)
    requires Consistent(d)
    ensures Starves(d, e) ==> Happen(d, e).phase.Reading?
  {
  }

  /** Exactly when a downloader starves, in any run: it reads, has stopped its socket and has no file
      request outstanding if and only if its last queued bytes were written at a moment when the
      socket called itself active although it was stopped. */
  lemma StarvingIff(backlog: nat, events: seq<Event>)
    ensures var d := Run(Started(backlog), events);
            Starving(d) <==> d.phase.Reading? && Starved(Started(backlog), events)
  {
    RunStarves(Started(backlog), events, false);
  }

  lemma {:induction false} HonestNeverStarves(d: Download, events: seq<Event>)
    requires forall k | 0 <= k < |events| :: Honest(events[k])
    ensures !Starved(d, events)
    decreases |events|
  {
    if events != [] {
      HonestNeverStarves(Step(d, events[0]), events[1..]);
    }
  }

  /** Between the attempt to connect and the end of the response the timer runs. */
  predicate Ticking(d: Download) {
    d.phase.Connecting? || d.phase.Requesting? || d.phase.Waiting? || d.phase.Reading? ==> d.timer == On
  }

  lemma FileTicks(d: Download, e: Event)
    requires Ticking(d) && Enabled(d, e) && IsFile(e)
    ensures Ticking(FileReports(d, e))
  {
  }

  lemma JudgeTicks(d: Download, verdict: Verdict)
    ensures Ticking(Judge(d, verdict))
  {
  }

  lemma OnReadTicks(d: Download, pieces: seq<Piece>, verdict: Verdict)
    ensures Ticking(OnRead(d, pieces, verdict))
  {
    JudgeTicks(Feed(d.(timer := Off), pieces), verdict);
  }

  lemma ShutDownTicks(d: Download)
    requires d.phase.Closing?
    ensures Ticking(OnShutdown(d))
  {
  }

  lemma NetTicks(d: Download, e: Event)
    requires Ticking(d)
    ensures Ticking(NetReports(d, e))
  {
  }

  lemma HappenTicks(d: Download, e: Event)
    requires Ticking(d) && Enabled(d, e)
    ensures Ticking(Happen(d, e))
  {
    if IsFile(e) {
      FileTicks(d, e);
    } else if e.Received? {
      OnReadTicks(Answered(d), e.pieces, e.verdict);
    } else if e.Ended? {
      OnReadTicks(d.(phase := Reading(true)), [], e.verdict);
    } else if e.ShutDown? {
      ShutDownTicks(d);
    } else {
      NetTicks(d, e);
    }
  }

  lemma {:induction false} RunTicks(d: Download, events: seq<Event>)
    requires Ticking(d)
    ensures Ticking(Run(d, events))
    decreases |events|
  {
    if events != [] {
      if Enabled(d, events[0]) {
        HappenTicks(d, events[0]);
      }
      RunTicks(Step(d, events[0]), events[1..]);
    }
  }

  /** What ends it: the timer still runs, nothing has been reported, and when the timer expires
      the download fails, although the whole queue is on disk. */
  lemma StarvingTimesOut(backlog: nat, events: seq<Event>)
    requires Starving(Run(Started(backlog), events))
    ensures var d := Run(Started(backlog), events);
            && Enabled(d, Timeout) && d.reports == [] && d.writer.disk == d.writer.body
            && Happen(d, Timeout).reports == [Failed]
  {
    RunTicks(Started(backlog), events);
    RunConsistent(Started(backlog), events);
    EmptyQueue(Run(Started(backlog), events).writer);
  }

  /** So if the socket is honest about being active, a downloader that has stopped it while reading
      is waiting for a file request, whose completion will let it read on. */
  lemma NeverStarves(backlog: nat, events: seq<Event>)
    requires forall k | 0 <= k < |events| :: Honest(events[k])
    ensures var d := Run(Started(backlog), events);
            d.phase.Reading? && d.sockStopped ==> d.writer.op != Idle
  {
    HonestNeverStarves(Started(backlog), events);
    StarvingIff(backlog, events);
  }
}
