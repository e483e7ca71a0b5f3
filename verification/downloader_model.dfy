/** One download as a state machine: resolver, socket, timer and file report to it, each at any
    time after it was asked, and it writes what its parser yields to a file. */
module DownloaderModel {
  import opened DataChunks
  import opened StatusDownloader

  /** HttpParser::ResponseParseResult::State */
  datatype Verdict = InProgress | Complete | Moved | Invalid

  /** Which handlers are registered on resolver and socket. */
  datatype Phase =
    | Resolving | Connecting | Requesting | Waiting
    | Reading(ended: bool)             // `ended`: the EndEvent was used up
    | Closing(redirect: bool)          // shutdown requested
    | Detached

  datatype Timer = Off | On | Closed

  // ------------------------------------------------------------------------------ the writer

  /** The request the file handle is working on. */
  datatype FileOp =
    | Idle | Opening | Writing(offset: nat, data: string) | ClosingFile
    | Discarding                       // closing after a failure, to be unlinked

  /** The queue and the file. */
  datatype Writer = Writer(
    buffer: seq<DataChunk>,
    file: bool,                        // the file handle exists
    fileOpened: bool,
    operationStarted: bool,
    offsetFile: nat,
    downloaded: nat,
    op: FileOp,
    body: string,                      // history: every byte given to on_data
    disk: string,                      // the content of the file
    clash: bool)                       // history: a request was issued while another was outstanding
  {
    /** Hands a request to the file handle. */
    function Issue(request: FileOp): Writer {
      this.(op := request, clash := clash || op != Idle)
    }

    function Push(data: string): Writer {
      this.(downloaded := downloaded + |data|, buffer := buffer + [DataChunk(data, 0)], body := body + data)
    }

    /** open_file */
    function Open(): Writer {
      this.(file := true, operationStarted := true).Issue(Opening)
    }

    /** on_write, as far as the file is concerned. */
    function Next(receiveDone: bool): Writer {
      if buffer != [] then Issue(Writing(offsetFile, buffer[0].Rest()))
      else if receiveDone then Issue(ClosingFile)
      else this.(operationStarted := false)
    }

    /** A write of `n` bytes is over. */
    function Advance(n: nat): Writer
      requires op.Writing? && n <= |op.data| && buffer != []
    {
      this.(disk := WriteAt(disk, op.offset, op.data[..n]), op := Idle, offsetFile := offsetFile + n,
            buffer := Used(buffer, n))
    }

    /** terminate_handles, as far as the file is concerned. */
    function Drop(): Writer {
      if file then this.(op := if fileOpened then Discarding else Idle) else this
    }
  }

  /** The first chunk with `n` more bytes used up, or gone. */
  function Used(buffer: seq<DataChunk>, n: nat): seq<DataChunk>
    requires buffer != []
  {
    var chunk := buffer[0].(offset := buffer[0].offset + n);
    if chunk.offset == |chunk.data| then buffer[1..] else [chunk] + buffer[1..]
  }

  /** pwrite(2) */
  function WriteAt(disk: string, offset: nat, data: string): string {
    if offset >= |disk| then disk + seq(offset - |disk|, _ => '\0') + data
    else if offset + |data| >= |disk| then disk[..offset] + data
    else disk[..offset] + data + disk[offset + |data|..]
  }

  // ---------------------------------------------------------------------------- the download

  datatype Download = Download(
    backlog: nat,
    state: State,
    receiveDone: bool,
    socketConnected: bool,
    phase: Phase,
    sockStopped: bool,                 // the last of read() and stop() on the socket was stop()
    timer: Timer,
    writer: Writer,
    reports: seq<State>,               // history: Done, Failed and Redirect as told to on_tick
    idleAtDone: bool,                  // history: the writer had nothing to do when the response was complete
    early: bool)                       // history: the socket was shut down while the file was being opened
  {
    predicate Active(under: bool) {
      !sockStopped || under
    }
  }

  /** The download as `run` leaves it. */
  function Started(backlog: nat): Download {
    Download(backlog, OnTheGo, false, false, Resolving, true, Off,
             Writer([], false, false, false, 0, 0, Idle, "", "", false), [], false, false)
  }

  function UpdateStatus(d: Download, state: State): Download {
    d.(state := state, reports := if state == OnTheGo then d.reports else d.reports + [state])
  }

  /** on_error with terminate_handles; `w` is the writer as the caller leaves it. */
  function OnError(d: Download, w: Writer): Download {
    d.(state := Failed, phase := Detached, timer := Closed, writer := w.Drop(), reports := d.reports + [Failed])
  }

  /** on_write; `under` tells whether the socket would call itself active although it was stopped. */
  function OnWrite(d: Download, w: Writer, under: bool): Download {
    d.(writer := w.Next(d.receiveDone),
       sockStopped := d.sockStopped && !(w.buffer == [] && !d.receiveDone && !d.Active(under)))
  }

  function OnData(d: Download, data: string, under: bool): Download {
    var w := d.writer.Push(data);
    var d' := d.(writer := w, sockStopped := d.sockStopped || (|w.buffer| >= d.backlog && d.Active(under)));
    if !w.file then d'.(writer := w.Open())
    else if w.fileOpened && !w.operationStarted then OnWrite(d', w.(operationStarted := true), under)
    else d'
  }

  /** A piece of the body, as the parser's callback hands it over. */
  datatype Piece = Piece(data: string, under: bool)

  function Feed(d: Download, pieces: seq<Piece>): Download
    decreases |pieces|
  {
    if pieces == [] then d else Feed(OnData(d, pieces[0].data, pieces[0].under), pieces[1..])
  }

  /** What on_read does with the parser's verdict; shutdown is requested by close_handles. */
  function Judge(d: Download, verdict: Verdict): Download {
    match verdict
    case InProgress => UpdateStatus(d.(timer := On), OnTheGo)
    case Moved => d.(sockStopped := true, phase := Closing(true), timer := Closed)
    case Complete =>
      d.(sockStopped := true, phase := Closing(false), timer := Closed, receiveDone := true,
         idleAtDone := d.writer.fileOpened && !d.writer.operationStarted)
    case Invalid => OnError(d, d.writer)
  }

  function OnRead(d: Download, pieces: seq<Piece>, verdict: Verdict): Download {
    Judge(Feed(d.(timer := Off), pieces), verdict)
  }

  /** The handler of ShutdownEvent, with the callback given to close_handles. */
  function OnShutdown(d: Download): Download
    requires d.phase.Closing?
  {
    var d' := d.(socketConnected := false, phase := Detached, early := d.early || d.writer.op == Opening);
    if d.phase.redirect then UpdateStatus(d', Redirect)
    else if d.writer.fileOpened then d'
    else UpdateStatus(d', Done)
  }

  function OnFileClosed(d: Download): Download {
    var d' := d.(writer := d.writer.(op := Idle, operationStarted := false, fileOpened := false));
    if d.socketConnected then d' else UpdateStatus(d', Done)
  }

  // --------------------------------------------------------------------------------- events

  datatype Event =
    | Resolved | ResolveFailed | Connected | RequestWritten | SocketFailed | Timeout | TimerFailed
    | Received(pieces: seq<Piece>, verdict: Verdict)
    | Ended(verdict: Verdict)
    | ShutDown
    | Opened(under: bool) | OpenFailed
    | Written(n: nat, under: bool) | WriteFailed
    | FileClosed | FileCloseFailed
    | Abort

  /** Whether the handle an event comes from can report it and somebody listens.  The parser
      decides on a redirect when the headers are complete, so before any body.  stop() is called
      for jobs that still run, so before anything final was reported. */
  predicate Enabled(d: Download, e: Event) {
    match e
    case Resolved => d.phase == Resolving
    case ResolveFailed => d.phase == Resolving
    case Connected => d.phase == Connecting
    case RequestWritten => d.phase == Requesting
    case SocketFailed => d.phase.Connecting? || d.phase.Requesting? || d.phase.Waiting? || d.phase.Reading?
    case Timeout => d.timer == On
    case TimerFailed => d.timer != Closed && !d.phase.Resolving?
    case Received(pieces, verdict) =>
      && (d.phase.Waiting? || d.phase.Reading?) && !d.sockStopped
      && (verdict == Moved ==> pieces == [] && !d.writer.file)
    case Ended(verdict) => (d.phase.Waiting? || d.phase == Reading(false)) && (verdict == Moved ==> !d.writer.file)
    case ShutDown => d.phase.Closing?
    case Opened(_) => d.writer.op == Opening
    case OpenFailed => d.writer.op == Opening
    case Written(n, _) => d.writer.op.Writing? && n <= |d.writer.op.data| && d.writer.buffer != []
    case WriteFailed => d.writer.op.Writing?
    case FileClosed => d.writer.op == ClosingFile || d.writer.op == Discarding
    case FileCloseFailed => d.writer.op == ClosingFile || d.writer.op == Discarding
    case Abort => d.reports == []
  }

  predicate IsFile(e: Event) {
    e.Opened? || e.OpenFailed? || e.Written? || e.WriteFailed? || e.FileClosed? || e.FileCloseFailed?
  }

  /** The handler of FileOpenEvent. */
  function OnOpened(d: Download, under: bool): Download {
    OnWrite(d, d.writer.(op := Idle, fileOpened := true), under)
  }

  /** The handler of FileWriteEvent. */
  function OnWritten(d: Download, n: nat, under: bool): Download
    requires d.writer.op.Writing? && n <= |d.writer.op.data| && d.writer.buffer != []
  {
    OnWrite(d, d.writer.Advance(n), under)
  }

  /** The handler of the file's ErrorEvent while it is opened or written... */
  function OnFileError(d: Download): Download {
    OnError(d, d.writer.(op := Idle, operationStarted := false))
  }

  /** ... and while it is closed. */
  function OnCloseError(d: Download): Download {
    OnError(d, d.writer.(op := Idle, operationStarted := false, file := false))
  }

  /** What is left of a discarded file. */
  function OnDiscarded(d: Download): Download {
    d.(writer := d.writer.(op := Idle))
  }

  /** The handlers of the file handle. */
  function FileReports(d: Download, e: Event): Download
    requires Enabled(d, e) && IsFile(e)
  {
    if e.Opened? then OnOpened(d, e.under)
    else if e.Written? then OnWritten(d, e.n, e.under)
    else if e.OpenFailed? || e.WriteFailed? then OnFileError(d)
    else if d.writer.op == Discarding then OnDiscarded(d)
    else if e.FileClosed? then OnFileClosed(d)
    else OnCloseError(d)
  }

  /** The handlers of resolver, socket and timer up to the request, and all their failures. */
  function NetReports(d: Download, e: Event): Download {
    if e.Resolved? then UpdateStatus(d, OnTheGo).(phase := Connecting, timer := On)
    else if e.Connected? then UpdateStatus(d, OnTheGo).(socketConnected := true, phase := Requesting, timer := On)
    else if e.RequestWritten? then UpdateStatus(d, OnTheGo).(phase := Waiting, timer := On, sockStopped := false)
    else OnError(d, d.writer)
  }

  /** The first data create the parser. */
  function Answered(d: Download): Download {
    if d.phase.Waiting? then d.(phase := Reading(false)) else d
  }

  /** The handlers of DataEvent. */
  function OnSocketData(d: Download, pieces: seq<Piece>, verdict: Verdict): Download {
    OnRead(Answered(d), pieces, verdict)
  }

  /** The handlers of EndEvent. */
  function OnSocketEnd(d: Download, verdict: Verdict): Download {
    if d.phase.Waiting? then OnError(d, d.writer) else OnRead(d.(phase := Reading(true)), [], verdict)
  }

  function Happen(d: Download, e: Event): Download
    requires Enabled(d, e)
  {
    if IsFile(e) then FileReports(d, e)
    else if e.Received? then OnSocketData(d, e.pieces, e.verdict)
    else if e.Ended? then OnSocketEnd(d, e.verdict)
    else if e.ShutDown? then OnShutdown(d)
    else NetReports(d, e)
  }

  function Step(d: Download, e: Event): Download {
    if Enabled(d, e) then Happen(d, e) else d
  }

  function Run(d: Download, events: seq<Event>): Download
    decreases |events|
  {
    if events == [] then d else Run(Step(d, events[0]), events[1..])
  }
}
