/** The source's downloader, updated in place by the handlers of its handles, computing the
    functions of the model. */
module DownloaderObjects {
  import opened DataChunks
  import opened DownloaderModel
  import opened StatusDownloader

  class DownloaderSimple {
    const backlog: nat
    var state: State
    var receiveDone: bool
    var socketConnected: bool
    var buffer: seq<DataChunk>
    var file: bool
    var fileOpened: bool
    var operationStarted: bool
    var offsetFile: nat
    var downloaded: nat
    // the handles
    var phase: Phase
    var sockStopped: bool
    var timer: Timer
    var op: FileOp
    // what has happened
    ghost var body: string
    ghost var disk: string
    ghost var clash: bool
    ghost var reports: seq<State>
    ghost var idleAtDone: bool
    ghost var early: bool

    ghost function File(): Writer
      reads this
    {
      Writer(buffer, file, fileOpened, operationStarted, offsetFile, downloaded, op, body, disk, clash)
    }

    ghost function View(): Download
      reads this
    {
      Download(backlog, state, receiveDone, socketConnected, phase, sockStopped, timer, File(), reports, idleAtDone,
          early)
    }

    constructor (backlog: nat)
      ensures View() == Started(backlog)
    {
      this.backlog, state, receiveDone, socketConnected := backlog, OnTheGo, false, false;
      buffer, file, fileOpened, operationStarted, offsetFile, downloaded := [], false, false, false, 0, 0;
      phase, sockStopped, timer, op := Resolving, true, Off, Idle;
      body, disk, clash, reports, idleAtDone, early := "", "", false, [], false, false;
    }

    method Issue(request: FileOp)
      modifies this`op, this`clash
      ensures File() == old(File()).Issue(request)
    {
      clash := clash || op != Idle;
      op := request;
    }

    method UpdateStatus(state: State)
      modifies this`state, this`reports
      ensures View() == DownloaderModel.UpdateStatus(old(View()), state)
    {
      this.state := state;
      if state != OnTheGo {
        reports := reports + [state];
      }
    }

    method TerminateHandles()
      modifies this`phase, this`timer, this`op
      ensures phase == Detached && timer == Closed && File() == old(File()).Drop()
    {
      phase, timer := Detached, Closed;
      if file {
        op := Idle;
        if fileOpened {
          op := Discarding;
        }
      }
    }

    method OnError()
      modifies this`op, this`state, this`reports, this`phase, this`timer
      ensures View() == DownloaderModel.OnError(old(View()), old(File()))
    {
      state := Failed;
      TerminateHandles();
      reports := reports + [Failed];
    }

    method Resume(under: bool)
      modifies this`sockStopped
      ensures sockStopped == (old(sockStopped) && under)
    {
      if sockStopped && !under {
        sockStopped := false;
      }
    }

    method OnWrite(under: bool)
      modifies this`op, this`clash, this`operationStarted, this`sockStopped
      ensures View() == DownloaderModel.OnWrite(old(View()), old(File()), under)
    {
      if buffer == [] {
        if receiveDone {
          Issue(ClosingFile);
        } else {
          operationStarted := false;
          Resume(under);
        }
        return;
      }
      Issue(Writing(offsetFile, buffer[0].Rest()));
    }

    method OpenFile()
      modifies this`op, this`clash, this`operationStarted, this`file
      ensures File() == old(File()).Open()
    {
      file := true;
      operationStarted := true;
      Issue(Opening);
    }

    /** The first part of on_data: the chunk is queued and the socket held up if need be. */
    method Push(data: string, under: bool)
      modifies this`downloaded, this`buffer, this`body, this`sockStopped
      ensures File() == old(File()).Push(data)
      ensures sockStopped == (old(sockStopped) || |buffer| >= backlog)
    {
      downloaded := downloaded + |data|;
      buffer := buffer + [DataChunk(data, 0)];
      body := body + data;
      if |buffer| >= backlog && (!sockStopped || under) {
        sockStopped := true;
      }
    }

    /** The second part of on_data: the writer is set going. */
    method Engage(under: bool)
      modifies this`sockStopped, this`op, this`clash, this`operationStarted, this`file
      ensures var d := old(View());
              View() == if !d.writer.file then d.(writer := d.writer.Open())
                        else if d.writer.fileOpened && !d.writer.operationStarted
                        then DownloaderModel.OnWrite(d, d.writer.(operationStarted := true), under)
                        else d
    {
      if !file {
        OpenFile();
      }
      if fileOpened && !operationStarted {
        operationStarted := true;
        OnWrite(under);
      }
    }

    method OnData(data: string, under: bool)
      modifies this`downloaded, this`buffer, this`body, this`sockStopped, this`op, this`clash, this`operationStarted,
          this`file
      ensures View() == DownloaderModel.OnData(old(View()), data, under)
    {
      Push(data, under);
      Engage(under);
    }

    /** The parser's callbacks, one for each piece of the body. */
    method Feed(pieces: seq<Piece>)
      modifies this`downloaded, this`buffer, this`body, this`sockStopped, this`op, this`clash, this`operationStarted,
          this`file
      ensures View() == DownloaderModel.Feed(old(View()), pieces)
    {
      var k := 0;
      while k < |pieces|
        invariant k <= |pieces|
        invariant DownloaderModel.Feed(View(), pieces[k..]) == DownloaderModel.Feed(old(View()), pieces)
      {
        assert pieces[k..][1..] == pieces[k + 1..];
        OnData(pieces[k].data, pieces[k].under);
        k := k + 1;
      }
    }

    /** The socket is stopped and its shutdown requested. */
    method CloseHandles(redirect: bool)
      modifies this`sockStopped, this`phase, this`timer
      ensures View() == old(View()).(sockStopped := true, phase := Closing(redirect), timer := Closed)
    {
      sockStopped := true;
      phase, timer := Closing(redirect), Closed;
    }

    /** What on_read does with the parser's verdict. */
    method Judge(verdict: Verdict)
      modifies this
      ensures View() == DownloaderModel.Judge(old(View()), verdict)
    {
      match verdict {
        case InProgress =>
          timer := On;
          UpdateStatus(OnTheGo);
        case Moved =>
          CloseHandles(true);
        case Complete =>
          idleAtDone := fileOpened && !operationStarted;
          receiveDone := true;
          CloseHandles(false);
        case Invalid =>
          OnError();
      }
    }

    method OnRead(pieces: seq<Piece>, verdict: Verdict)
      modifies this
      ensures View() == DownloaderModel.OnRead(old(View()), pieces, verdict)
    {
      timer := Off;
      Feed(pieces);
      Judge(verdict);
    }

    /** The handler of ShutdownEvent. */
    method OnShutdown()
      requires phase.Closing?
      modifies this
      ensures View() == DownloaderModel.OnShutdown(old(View()))
    {
      var redirect := phase.redirect;
      early := early || op == Opening;
      socketConnected := false;
      phase := Detached;
      if redirect {
        UpdateStatus(Redirect);
      } else if !fileOpened {
        UpdateStatus(Done);
      }
    }

    method MarkOpened()
      modifies this`op, this`fileOpened
      ensures File() == old(File()).(op := Idle, fileOpened := true)
    {
      op := Idle;
      fileOpened := true;
    }

    /** The handler of FileOpenEvent. */
    method OnOpened(under: bool)
      modifies this`op, this`clash, this`operationStarted, this`sockStopped, this`fileOpened
      ensures View() == DownloaderModel.OnOpened(old(View()), under)
    {
      ghost var d, w := View(), File().(op := Idle, fileOpened := true);
      MarkOpened();
      assert View() == d.(writer := w);
      OnWrite(under);
    }

    /** A write of `n` bytes is over. */
    method Advance(n: nat)
      requires op.Writing? && n <= |op.data| && buffer != []
      modifies this`disk, this`op, this`offsetFile, this`buffer
      ensures File() == old(File()).Advance(n)
    {
      disk := WriteAt(disk, op.offset, op.data[..n]);
      op := Idle;
      offsetFile := offsetFile + n;
      var chunk := buffer[0].(offset := buffer[0].offset + n);
      if chunk.offset == |chunk.data| {
        buffer := buffer[1..];
      } else {
        buffer := [chunk] + buffer[1..];
      }
    }

    /** The handler of FileWriteEvent. */
    method OnWritten(n: nat, under: bool)
      requires op.Writing? && n <= |op.data| && buffer != []
      modifies this`disk, this`op, this`offsetFile, this`buffer, this`clash, this`operationStarted, this`sockStopped
      ensures View() == DownloaderModel.OnWritten(old(View()), n, under)
    {
      ghost var d, w := View(), File().Advance(n);
      Advance(n);
      assert View() == d.(writer := w);
      OnWrite(under);
    }

    /** The handler of FileCloseEvent when the file is complete. */
    method OnFileClosed()
      modifies this`op, this`operationStarted, this`fileOpened, this`state, this`reports
      ensures View() == DownloaderModel.OnFileClosed(old(View()))
    {
      op := Idle;
      operationStarted := false;
      fileOpened := false;
      if !socketConnected {
        UpdateStatus(Done);
      }
    }

    /** The handler of FileCloseEvent, or of its failure, when the file is discarded. */
    method OnDiscarded()
      modifies this`op
      ensures View() == DownloaderModel.OnDiscarded(old(View()))
    {
      op := Idle;
    }

    /** The handlers of the file's ErrorEvent while it is opened or written. */
    method OnFileError()
      modifies this`op, this`operationStarted, this`state, this`reports, this`phase, this`timer
      ensures View() == DownloaderModel.OnFileError(old(View()))
    {
      op := Idle;
      operationStarted := false;
      OnError();
    }

    /** The handler of the file's ErrorEvent while it is closed. */
    method OnCloseError()
      modifies this`op, this`operationStarted, this`file, this`state, this`reports, this`phase, this`timer
      ensures View() == DownloaderModel.OnCloseError(old(View()))
    {
      op := Idle;
      operationStarted := false;
      file := false;
      OnError();
    }

    method OnResolve()
      modifies this`state, this`reports, this`phase, this`timer
      ensures View() == DownloaderModel.UpdateStatus(old(View()), OnTheGo).(phase := Connecting, timer := On)
    {
      UpdateStatus(OnTheGo);
      phase, timer := Connecting, On;
    }

    method OnConnect()
      modifies this`socketConnected, this`state, this`reports, this`phase, this`timer
      ensures View() == DownloaderModel.UpdateStatus(old(View()), OnTheGo)
                        .(socketConnected := true, phase := Requesting, timer := On)
    {
      socketConnected := true;
      UpdateStatus(OnTheGo);
      phase, timer := Requesting, On;
    }

    method OnWriteHttpRequest()
      modifies this`sockStopped, this`state, this`reports, this`phase, this`timer
      ensures View() == DownloaderModel.UpdateStatus(old(View()), OnTheGo)
                        .(phase := Waiting, timer := On, sockStopped := false)
    {
      UpdateStatus(OnTheGo);
      phase, timer, sockStopped := Waiting, On, false;
    }

    /** The handlers of DataEvent. */
    method OnSocketData(pieces: seq<Piece>, verdict: Verdict)
      modifies this
      ensures View() == DownloaderModel.OnSocketData(old(View()), pieces, verdict)
    {
      if phase.Waiting? {
        phase := Reading(false);
      }
      OnRead(pieces, verdict);
    }

    /** The handlers of EndEvent. */
    method OnSocketEnd(verdict: Verdict)
      modifies this
      ensures View() == DownloaderModel.OnSocketEnd(old(View()), verdict)
    {
      if phase.Waiting? {
        OnError();
      } else {
        phase := Reading(true);
        OnRead([], verdict);
      }
    }

    /** The event loop calls the handlers of the file handle... */
    method FileReports(e: Event)
      requires Enabled(View(), e)
      requires IsFile(e)
      modifies this
      ensures View() == DownloaderModel.FileReports(old(View()), e)
    {
      if e.Opened? {
        OnOpened(e.under);
      } else if e.Written? {
        OnWritten(e.n, e.under);
      } else if e.OpenFailed? || e.WriteFailed? {
        OnFileError();
      } else if op == Discarding {
        OnDiscarded();
      } else if e.FileClosed? {
        OnFileClosed();
      } else {
        OnCloseError();
      }
    }

    /** ... of resolver, timer and socket up to the request, and of their failures... */
    method NetReports(e: Event)
      modifies this
      ensures View() == DownloaderModel.NetReports(old(View()), e)
    {
      match e {
        case Resolved => OnResolve();
        case Connected => OnConnect();
        case RequestWritten => OnWriteHttpRequest();
        case _ => OnError();
      }
    }

    /** ... and of the socket with the response: what an event changes is what the model says. */
    method Dispatch(e: Event)
      requires Enabled(View(), e)
      modifies this
      ensures View() == Happen(old(View()), e)
    {
      if IsFile(e) {
        FileReports(e);
      } else if e.Received? {
        OnSocketData(e.pieces, e.verdict);
      } else if e.Ended? {
        OnSocketEnd(e.verdict);
      } else if e.ShutDown? {
        OnShutdown();
      } else {
        NetReports(e);
      }
    }
  }
}
