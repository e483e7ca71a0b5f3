/** When a downloader stops its socket and when it reads it again, and what becomes of its handles
    when it fails. */
module DownloaderHandles {
  import opened DataChunks
  import opened DownloaderModel
  import opened DownloaderTheorems
  import opened StatusDownloader

  // ---------------------------------------------------------------------------- stopping it

  lemma PieceQueues(d: Download, data: string, under: bool)
    ensures |OnData(d, data, under).writer.buffer| == |d.writer.buffer| + 1
    ensures OnData(d, data, under).sockStopped ==
            (d.sockStopped || (|d.writer.buffer| + 1 >= d.backlog && (!d.sockStopped || under)))
    ensures OnData(d, data, under).backlog == d.backlog
  {
    WriteQueues(d, d.writer.Push(data).(operationStarted := true), under);
  }

  lemma WriteQueues(d: Download, w: Writer, under: bool)
    requires w.buffer != []
    ensures OnWrite(d, w, under).writer.buffer == w.buffer && OnWrite(d, w, under).sockStopped == d.sockStopped
  {
  }

  lemma {:induction false} PiecesQueue(d: Download, pieces: seq<Piece>)
    ensures |Feed(d, pieces).writer.buffer| == |d.writer.buffer| + |pieces|
    ensures Feed(d, pieces).sockStopped ==
            (d.sockStopped || (pieces != [] && |d.writer.buffer| + |pieces| >= d.backlog))
    decreases |pieces|
  {
    if pieces != [] {
      PieceQueues(d, pieces[0].data, pieces[0].under);
      PiecesQueue(OnData(d, pieces[0].data, pieces[0].under), pieces[1..]);
    }
  }

  /** The response is over, as far as its parser is concerned. */
  predicate Final(verdict: Verdict) {
    verdict == Complete || verdict == Moved
  }

  lemma JudgeStops(d: Download, verdict: Verdict)
    ensures Judge(d, verdict).sockStopped == (d.sockStopped || Final(verdict))
    ensures Judge(d, verdict).writer.buffer == d.writer.buffer
  {
  }

  lemma ReadStops(d: Download, pieces: seq<Piece>, verdict: Verdict)
    ensures OnRead(d, pieces, verdict).sockStopped ==
            (d.sockStopped || Final(verdict) || (pieces != [] && |d.writer.buffer| + |pieces| >= d.backlog))
    ensures |OnRead(d, pieces, verdict).writer.buffer| == |d.writer.buffer| + |pieces|
  {
    PiecesQueue(d.(timer := Off), pieces);
    JudgeStops(Feed(d.(timer := Off), pieces), verdict);
  }

  lemma OthersNeverStop(d: Download, e: Event)
    requires Enabled(d, e) && !e.Received? && !e.Ended? && !d.sockStopped
    ensures !Happen(d, e).sockStopped
  {
  }

  /** A downloader that reads its socket stops it exactly when a read yields some of the body and
      leaves its queue at the backlog or above, or completes the response. */
  lemma StopsIff(backlog: nat, events: seq<Event>, e: Event)
    requires Enabled(Run(Started(backlog), events), e) && !Run(Started(backlog), events).sockStopped
    ensures
      var d := Run(Started(backlog), events);
      var d' := Happen(d, e);
      d'.sockStopped
      <==> || (e.Received? && (Final(e.verdict) || (e.pieces != [] && |d'.writer.buffer| >= backlog)))
           || (e.Ended? && d.phase.Reading? && Final(e.verdict))
  {
    var d := Run(Started(backlog), events);
    RunBacklog(Started(backlog), events);
    if e.Received? {
      ReadStops(Answered(d), e.pieces, e.verdict);
    } else if e.Ended? {
      ReadStops(d.(phase := Reading(true)), [], e.verdict);
    } else {
      OthersNeverStop(d, e);
    }
  }

  // -------------------------------------------------------------------------- reading it again

  lemma FileResumes(d: Download, e: Event)
    requires Running(d) && Enabled(d, e) && IsFile(e) && d.sockStopped
    ensures var d' := FileReports(d, e);
            !d'.sockStopped
            <==> (e.Opened? || e.Written?) && d'.writer.buffer == [] && !d.receiveDone && !e.under
  {
  }

  lemma SocketNeverResumes(d: Download, e: Event)
    requires Enabled(d, e) && (e.Received? || e.Ended?) && d.sockStopped
    ensures Happen(d, e).sockStopped
  {
    if e.Ended? && !d.phase.Waiting? {
      ReadStops(d.(phase := Reading(true)), [], e.verdict);
    }
  }

  lemma NetResumes(d: Download, e: Event)
    requires Enabled(d, e) && !IsFile(e) && !e.Received? && !e.Ended? && d.sockStopped
    ensures !Happen(d, e).sockStopped <==> e.RequestWritten?
  {
  }

  /** A downloader whose socket is stopped reads it exactly when the request is written, or when the
      file reports that it is open or that a write is over, the queue is empty with the response
      still incomplete, and the socket does not call itself active. */
  lemma ReadsIff(backlog: nat, events: seq<Event>, e: Event)
    requires Enabled(Run(Started(backlog), events), e) && Run(Started(backlog), events).sockStopped
    ensures
      var d := Run(Started(backlog), events);
      var d' := Happen(d, e);
      !d'.sockStopped
      <==> || e.RequestWritten?
           || ((e.Opened? || e.Written?) && d'.writer.buffer == [] && !d.receiveDone && !e.under)
  {
    var d := Run(Started(backlog), events);
    RunConsistent(Started(backlog), events);
    if IsFile(e) {
      if Terminated(d) {
        TerminatedStays(d, e);
        TerminatedSocket(d, e);
      } else {
        FileResumes(d, e);
      }
    } else if e.Received? || e.Ended? {
      SocketNeverResumes(d, e);
    } else {
      NetResumes(d, e);
    }
  }

  lemma TerminatedSocket(d: Download, e: Event)
    requires Terminated(d) && Enabled(d, e) && IsFile(e)
    ensures FileReports(d, e).sockStopped == d.sockStopped && !e.Opened? && !e.Written?
  {
  }

  lemma {:induction false} FeedPhase(d: Download, pieces: seq<Piece>)
    ensures Feed(d, pieces).phase == d.phase
    decreases |pieces|
  {
    if pieces != [] {
      PiecePhase(d, pieces[0].data, pieces[0].under);
      FeedPhase(OnData(d, pieces[0].data, pieces[0].under), pieces[1..]);
    }
  }

  lemma PiecePhase(d: Download, data: string, under: bool)
    ensures OnData(d, data, under).phase == d.phase
  {
  }

  /** The socket is not read before the request is written, nor once the response is complete. */
  predicate Unread(d: Download) {
    d.phase.Resolving? || d.phase.Connecting? || d.phase.Requesting? || d.phase.Closing? ==> d.sockStopped
  }

  lemma FileUnread(d: Download, e: Event)
    requires Running(d) && Unread(d) && Enabled(d, e) && IsFile(e)
    ensures Unread(FileReports(d, e))
  {
  }

  lemma ReadUnread(d: Download, pieces: seq<Piece>, verdict: Verdict)
    requires d.phase.Reading?
    ensures Unread(OnRead(d, pieces, verdict))
  {
    FeedPhase(d.(timer := Off), pieces);
  }

  lemma OthersUnread(d: Download, e: Event)
    requires Unread(d) && Enabled(d, e) && !IsFile(e) && !e.Received? && !e.Ended?
    ensures Unread(Happen(d, e))
  {
  }

  lemma HappenUnread(d: Download, e: Event)
    requires Consistent(d) && Unread(d) && Enabled(d, e)
    ensures Unread(Happen(d, e))
  {
    if Terminated(d) {
      TerminatedStays(d, e);
    } else if IsFile(e) {
      FileUnread(d, e);
    } else if e.Received? {
      ReadUnread(Answered(d), e.pieces, e.verdict);
    } else if e.Ended? {
      if !d.phase.Waiting? {
        ReadUnread(d.(phase := Reading(true)), [], e.verdict);
      }
    } else {
      OthersUnread(d, e);
    }
  }

  lemma {:induction false} RunUnread(d: Download, events: seq<Event>)
    requires Consistent(d) && Unread(d)
    ensures Unread(Run(d, events))
    decreases |events|
  {
    if events != [] {
      if Enabled(d, events[0]) {
        HappenConsistent(d, events[0]);
        HappenUnread(d, events[0]);
      }
      RunUnread(Step(d, events[0]), events[1..]);
    }
  }

  /** In every run. */
  lemma ReadInTime(backlog: nat, events: seq<Event>)
    ensures Unread(Run(Started(backlog), events))
  {
    RunUnread(Started(backlog), events);
  }

  // --------------------------------------------------------------------------------- failing

  /** From `d` to `d'` the download has failed; `isOpen`: its file is still there to be closed. */
  ghost predicate Fails(d: Download, d': Download, isOpen: bool) {
    && d'.phase == Detached && d'.timer == Closed && d'.reports == d.reports + [Failed]
    && d'.writer.op == if isOpen then Discarding else Idle
  }

  /** Nobody works on a file that is not there. */
  predicate Filed(w: Writer) {
    w.file || (!w.fileOpened && w.op == Idle)
  }

  lemma ErrorFails(d: Download, w: Writer)
    requires Filed(w)
    ensures Fails(d, OnError(d, w), w.fileOpened)
  {
  }

  lemma FileFails(d: Download, e: Event)
    requires Running(d) && Enabled(d, e) && IsFile(e) && FileReports(d, e).state == Failed
    ensures Fails(d, FileReports(d, e), d.writer.fileOpened && !e.FileCloseFailed?)
  {
  }

  lemma PieceKeeps(d: Download, data: string, under: bool)
    ensures var d' := OnData(d, data, under);
            && d'.state == d.state && d'.reports == d.reports
            && d'.writer.fileOpened == d.writer.fileOpened && d'.writer.file
  {
    WriteQueues(d, d.writer.Push(data).(operationStarted := true), under);
  }

  lemma {:induction false} PiecesKeep(d: Download, pieces: seq<Piece>)
    requires Filed(d.writer)
    ensures var d' := Feed(d, pieces);
            && d'.state == d.state && d'.reports == d.reports
            && d'.writer.fileOpened == d.writer.fileOpened && Filed(d'.writer)
    decreases |pieces|
  {
    if pieces != [] {
      PieceKeeps(d, pieces[0].data, pieces[0].under);
      PiecesKeep(OnData(d, pieces[0].data, pieces[0].under), pieces[1..]);
    }
  }

  lemma JudgeFails(d: Download, verdict: Verdict)
    requires d.state != Failed && Judge(d, verdict).state == Failed && Filed(d.writer)
    ensures Fails(d, Judge(d, verdict), d.writer.fileOpened)
  {
    ErrorFails(d, d.writer);
  }

  lemma ReadFails(d: Download, pieces: seq<Piece>, verdict: Verdict)
    requires d.state != Failed && OnRead(d, pieces, verdict).state == Failed && Filed(d.writer)
    ensures Fails(d, OnRead(d, pieces, verdict), d.writer.fileOpened)
  {
    PiecesKeep(d.(timer := Off), pieces);
    JudgeFails(Feed(d.(timer := Off), pieces), verdict);
  }

  lemma NetFails(d: Download, e: Event)
    requires Running(d) && Enabled(d, e) && !IsFile(e) && !e.Received? && !e.Ended? && Happen(d, e).state == Failed
    ensures Fails(d, Happen(d, e), d.writer.fileOpened)
  {
  }

  /** Whenever a download fails, it says so, its socket and timer are let go of, and its file is
      closed to be removed if it is open, unless closing it is what has failed. */
  lemma FailureDiscards(backlog: nat, events: seq<Event>, e: Event)
    requires Enabled(Run(Started(backlog), events), e) && Run(Started(backlog), events).state != Failed
    requires Happen(Run(Started(backlog), events), e).state == Failed
    ensures
      var d := Run(Started(backlog), events);
      var d' := Happen(d, e);
      && d'.phase == Detached && d'.timer == Closed && d'.reports == d.reports + [Failed]
      && d'.writer.op == if d.writer.fileOpened && !e.FileCloseFailed? then Discarding else Idle
  {
    var d := Run(Started(backlog), events);
    RunConsistent(Started(backlog), events);
    if IsFile(e) {
      FileFails(d, e);
    } else if e.Received? {
      ReadFails(Answered(d), e.pieces, e.verdict);
    } else if e.Ended? && !d.phase.Waiting? {
      ReadFails(d.(phase := Reading(true)), [], e.verdict);
    } else if e.Ended? {
      ErrorFails(d, d.writer);
    } else {
      NetFails(d, e);
    }
  }

  /** What makes a download fail. */
  predicate IsFailure(d: Download, e: Event) {
    || e.ResolveFailed? || e.SocketFailed? || e.Timeout? || e.TimerFailed? || e.Abort?
    || e.OpenFailed? || e.WriteFailed? || e.FileCloseFailed?
    || ((e.Received? || e.Ended?) && e.verdict == Invalid)
    || (e.Ended? && d.phase.Waiting?)
  }

  lemma FileFailsIff(d: Download, e: Event)
    requires Running(d) && Enabled(d, e) && IsFile(e)
    ensures FileReports(d, e).state == Failed <==> e.OpenFailed? || e.WriteFailed? || e.FileCloseFailed?
  {
  }

  lemma ReadFailsIff(d: Download, pieces: seq<Piece>, verdict: Verdict)
    requires d.state != Failed && Filed(d.writer)
    ensures OnRead(d, pieces, verdict).state == Failed <==> verdict == Invalid
  {
    PiecesKeep(d.(timer := Off), pieces);
  }

  lemma NetFailsIff(d: Download, e: Event)
    requires Running(d) && Enabled(d, e) && !IsFile(e) && !e.Received? && !e.Ended?
    ensures Happen(d, e).state == Failed <==> IsFailure(d, e)
  {
  }

  /** Exactly when a download fails. */
  lemma FailsIff(backlog: nat, events: seq<Event>, e: Event)
    requires Enabled(Run(Started(backlog), events), e) && Run(Started(backlog), events).state != Failed
    ensures var d := Run(Started(backlog), events); Happen(d, e).state == Failed <==> IsFailure(d, e)
  {
    var d := Run(Started(backlog), events);
    RunConsistent(Started(backlog), events);
    if IsFile(e) {
      FileFailsIff(d, e);
    } else if e.Received? {
      ReadFailsIff(Answered(d), e.pieces, e.verdict);
    } else if e.Ended? && !d.phase.Waiting? {
      ReadFailsIff(d.(phase := Reading(true)), [], e.verdict);
    } else if !e.Ended? {
      NetFailsIff(d, e);
    }
  }

  // ---------------------------------------------------------------------------- file requests

  /** The event with which the file handle answers a request. */
  predicate Answers(e: Event, op: FileOp) {
    match op
    case Idle => false
    case Opening => e.Opened? || e.OpenFailed?
    case Writing(_, _) => e.Written? || e.WriteFailed?
    case ClosingFile => e.FileClosed? || e.FileCloseFailed?
    case Discarding => e.FileClosed? || e.FileCloseFailed?
  }

  /** What the writer asks for next, given what there is to do. */
  function Wanted(w: Writer, receiveDone: bool): FileOp {
    if w.buffer != [] then Writing(w.offsetFile, w.buffer[0].Rest())
    else if receiveDone then ClosingFile
    else Idle
  }

  lemma NextWants(w: Writer, receiveDone: bool)
    requires w.op == Idle
    ensures w.Next(receiveDone).op == Wanted(w.Next(receiveDone), receiveDone)
  {
  }

  lemma AnswerAsks(d: Download, e: Event)
    requires Running(d) && Enabled(d, e) && IsFile(e) && FileReports(d, e).state != Failed
    ensures Answers(e, d.writer.op)
    ensures FileReports(d, e).writer.op ==
            if e.Opened? || e.Written? then Wanted(FileReports(d, e).writer, d.receiveDone) else Idle
  {
    if e.Opened? {
      NextWants(d.writer.(op := Idle, fileOpened := true), d.receiveDone);
    } else if e.Written? {
      NextWants(d.writer.Advance(e.n), d.receiveDone);
    }
  }

  lemma TerminatedAnswer(d: Download, e: Event)
    requires Terminated(d) && Enabled(d, e) && IsFile(e)
    ensures Answers(e, d.writer.op) && FileReports(d, e).writer.op == Idle && FileReports(d, e).state == Failed
    ensures !e.Opened? && !e.Written?
  {
  }

  /** The file handle is at work. */
  predicate AtWork(w: Writer) {
    w.op != Idle && w.file && w.operationStarted
  }

  lemma PieceWaits(d: Download, data: string, under: bool)
    requires AtWork(d.writer)
    ensures OnData(d, data, under).writer == d.writer.Push(data)
  {
  }

  lemma {:induction false} PiecesWait(d: Download, pieces: seq<Piece>)
    requires AtWork(d.writer)
    ensures Feed(d, pieces).writer.op == d.writer.op && AtWork(Feed(d, pieces).writer)
    ensures Feed(d, pieces).writer.offsetFile == d.writer.offsetFile
    ensures d.writer.buffer <= Feed(d, pieces).writer.buffer
    decreases |pieces|
  {
    if pieces != [] {
      PieceWaits(d, pieces[0].data, pieces[0].under);
      PiecesWait(OnData(d, pieces[0].data, pieces[0].under), pieces[1..]);
    }
  }

  /** The first piece sets an idle writer going. */
  lemma PieceStarts(d: Download, data: string, under: bool)
    requires FileInOrder(d.writer, false) && d.writer.op == Idle
    ensures var w := OnData(d, data, under).writer;
            && AtWork(w) && w.buffer == [DataChunk(data, 0)]
            && w.op == if d.writer.file then Writing(w.offsetFile, w.buffer[0].Rest()) else Opening
  {
    assert [] + [DataChunk(data, 0)] == [DataChunk(data, 0)];
  }

  /** What pieces of the body make of the outstanding request. */
  lemma PiecesAsk(d: Download, pieces: seq<Piece>)
    requires FileInOrder(d.writer, false)
    ensures var w, w' := d.writer, Feed(d, pieces).writer;
            if w.op != Idle || pieces == [] then w'.op == w.op
            else
              && w'.buffer != []
              && w'.op == if w.file then Writing(w'.offsetFile, w'.buffer[0].Rest()) else Opening
  {
    if d.writer.op != Idle {
      PiecesWait(d, pieces);
    } else if pieces != [] {
      var d' := OnData(d, pieces[0].data, pieces[0].under);
      PieceStarts(d, pieces[0].data, pieces[0].under);
      PiecesWait(d', pieces[1..]);
    }
  }

  lemma JudgeAsks(d: Download, verdict: Verdict)
    requires verdict != Invalid
    ensures Judge(d, verdict).writer == d.writer
  {
  }

  lemma NetAsks(d: Download, e: Event)
    requires Running(d) && Enabled(d, e) && !IsFile(e) && !e.Received? && !e.Ended? && Happen(d, e).state != Failed
    ensures Happen(d, e).writer.op == d.writer.op
  {
  }

  lemma RunningAsks(d: Download, e: Event)
    requires Running(d) && Enabled(d, e) && Happen(d, e).state != Failed
    ensures Asks(d, e)
  {
    if IsFile(e) {
      AnswerAsks(d, e);
    } else if e.Received? {
      ReadFailsIff(Answered(d), e.pieces, e.verdict);
      PiecesAsk(Answered(d).(timer := Off), e.pieces);
      JudgeAsks(Feed(Answered(d).(timer := Off), e.pieces), e.verdict);
    } else if e.Ended? && !d.phase.Waiting? {
      ReadFailsIff(d.(phase := Reading(true)), [], e.verdict);
      JudgeAsks(d.(phase := Reading(true), timer := Off), e.verdict);
    } else {
      NetAsks(d, e);
    }
  }

  /** What event `e` makes of the request outstanding in `d`. */
  predicate Asks(d: Download, e: Event)
    requires Enabled(d, e)
  {
    var w, w' := d.writer, Happen(d, e).writer;
    if Answers(e, w.op) then w'.op == if e.Opened? || e.Written? then Wanted(w', d.receiveDone) else Idle
    else if w.op == Idle && e.Received? && e.pieces != [] then
      w'.buffer != [] && w'.op == if w.file then Writing(w'.offsetFile, w'.buffer[0].Rest()) else Opening
    else w'.op == w.op
  }

  /** One file request after the other, as long as the download does not fail by it: a request stays
      outstanding until it is answered; the answer to opening or writing is followed by the request
      for what is next in the queue, or for the close if there is nothing next and the response is
      complete; and nothing but a piece of the body sets an idle writer going, first to open the file. */
  lemma RequestsFollow(backlog: nat, events: seq<Event>, e: Event)
    requires Enabled(Run(Started(backlog), events), e)
    requires Happen(Run(Started(backlog), events), e).state == Failed ==>
               Run(Started(backlog), events).state == Failed
    ensures Asks(Run(Started(backlog), events), e)
  {
    var d := Run(Started(backlog), events);
    RunConsistent(Started(backlog), events);
    if Terminated(d) {
      TerminatedHearsFiles(d, e);
      TerminatedAnswer(d, e);
    } else {
      RunningAsks(d, e);
    }
  }

  lemma TerminatedHearsFiles(d: Download, e: Event)
    requires Terminated(d) && Enabled(d, e)
    ensures IsFile(e)
  {
  }

  // ------------------------------------------------------------------------------ end of stream

  /** No handler of EndEvent is left, or was there yet. */
  predicate Spent(d: Download) {
    d.phase == Reading(true) || d.phase.Closing? || d.phase == Detached
  }

  lemma HappenSpent(d: Download, e: Event)
    requires Enabled(d, e) && (Spent(d) || e.Ended?)
    ensures Spent(Happen(d, e))
  {
    if IsFile(e) {
      FileKeepsPhase(d, e);
    } else if e.Received? {
      var fed := Feed(Answered(d).(timer := Off), e.pieces);
      FeedPhase(Answered(d).(timer := Off), e.pieces);
      JudgeSpends(fed, e.verdict);
    } else if e.Ended? {
      EndSpends(d, e.verdict);
    } else {
      OtherSpends(d, e);
    }
  }

  lemma JudgeSpends(d: Download, verdict: Verdict)
    requires Spent(d)
    ensures Spent(Judge(d, verdict))
  {
  }

  lemma EndSpends(d: Download, verdict: Verdict)
    ensures Spent(OnSocketEnd(d, verdict))
  {
  }

  lemma OtherSpends(d: Download, e: Event)
    requires Enabled(d, e) && Spent(d) && !IsFile(e) && !e.Received? && !e.Ended?
    ensures Spent(Happen(d, e))
  {
  }

  lemma FileKeepsPhase(d: Download, e: Event)
    requires Enabled(d, e) && IsFile(e)
    ensures FileReports(d, e).phase == d.phase || FileReports(d, e).phase == Detached
  {
    if e.Opened? || e.Written? {
      WriteKeepsPhase(d, e);
    }
  }

  lemma WriteKeepsPhase(d: Download, e: Event)
    requires Enabled(d, e) && (e.Opened? || e.Written?)
    ensures FileReports(d, e).phase == d.phase
  {
  }

  lemma {:induction false} RunSpent(d: Download, events: seq<Event>)
    requires Spent(d)
    ensures Spent(Run(d, events))
    decreases |events|
  {
    if events != [] {
      if Enabled(d, events[0]) {
        HappenSpent(d, events[0]);
      }
      RunSpent(Step(d, events[0]), events[1..]);
    }
  }

  /** The end of the stream is handled once: whatever happens after it, no handler waits for it. */
  lemma EndHandledOnce(d: Download, verdict: Verdict, events: seq<Event>, verdict': Verdict)
    requires Enabled(d, Ended(verdict))
    ensures !Enabled(Run(Happen(d, Ended(verdict)), events), Ended(verdict'))
  {
    HappenSpent(d, Ended(verdict));
    RunSpent(Happen(d, Ended(verdict)), events);
  }
}
