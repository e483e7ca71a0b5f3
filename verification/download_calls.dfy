/** What a downloader whose socket is stream `i` of the limiter asks of that stream in each of its
    handlers, and what binds the two together. */
module DownloadCalls {
  import B = BandwidthModel
  import BT = BandwidthTheorems
  import D = DownloaderModel
  import DT = DownloaderTheorems
  import opened StatusDownloader

  predicate Listening(d: D.Download) {
    d.phase.Waiting? || d.phase.Reading?
  }

  /** The stream is stopped if the downloader does not listen or has stopped its socket, and before
      its EndEvent only then; and it is open until the downloader has let go of it. */
  ghost predicate Tied(d: D.Download, f: BT.Flags, ended: bool) {
    && f.alive
    && (!Listening(d) || d.sockStopped ==> f.stopped)
    && (Listening(d) && !d.sockStopped && !ended ==> !f.stopped)
    && (d.phase != D.Detached ==> !f.closed)
  }

  // ------------------------------------------------------------------------------- a DataEvent

  /** What the parser makes of an event: the pieces of the body it yields, and its verdict. */
  datatype Parsed = Parsed(data: seq<string>, verdict: D.Verdict)

  /** The pieces as the downloader takes them, with what the stream answers to `active()`, and its
      calls. */
  datatype Fed = Fed(d: D.Download, s: B.Stream, pieces: seq<D.Piece>, calls: seq<B.Action>)

  /** on_data asks the stream whether it is active if the queue is full, and stops it if it is. */
  predicate Full(d: D.Download, s: B.Stream) {
    |d.writer.buffer| + 1 >= d.backlog && s.Active()
  }

  function Feed(d: D.Download, s: B.Stream, data: seq<string>, i: nat): Fed
    decreases |data|
  {
    if data == [] then Fed(d, s, [], [])
    else
      var piece := D.Piece(data[0], s.reading);
      var r := Feed(D.OnData(d, data[0], s.reading), if Full(d, s) then s.Stop() else s, data[1..], i);
      r.(pieces := [piece] + r.pieces, calls := (if Full(d, s) then [B.Stop(i)] else []) + r.calls)
  }

  lemma {:induction false} FeedAgrees(d: D.Download, s: B.Stream, data: seq<string>, i: nat)
    ensures var r := Feed(d, s, data, i);
            r.d == D.Feed(d, r.pieces) && |r.pieces| == |data|
            && forall k | 0 <= k < |r.calls| :: r.calls[k] == B.Stop(i)
    decreases |data|
  {
    if data != [] {
      var d', s' := D.OnData(d, data[0], s.reading), if Full(d, s) then s.Stop() else s;
      FeedAgrees(d', s', data[1..], i);
      var r, r' := Feed(d, s, data, i), Feed(d', s', data[1..], i);
      assert r.pieces[0] == D.Piece(data[0], s.reading) && r.pieces[1..] == r'.pieces;
    }
  }

  /** What the downloader does with the verdict. */
  function Judged(verdict: D.Verdict, i: nat): seq<B.Action> {
    match verdict
    case InProgress => []
    case Moved => [B.Stop(i)]
    case Complete => [B.Stop(i)]
    case Invalid => [B.Close(i)]
  }

  /** A handler's downloader event and its calls. */
  datatype Reaction = Reaction(event: D.Event, calls: seq<B.Action>)

  /** The handler of a DataEvent; `s` is the stream while it publishes it. */
  function OnData(d: D.Download, s: B.Stream, p: Parsed, i: nat): Reaction {
    var fed := Feed(D.Answered(d).(timer := D.Off), s, p.data, i);
    var e := D.Received(fed.pieces, p.verdict);
    Reaction(e, if D.Enabled(d, e) then fed.calls + Judged(p.verdict, i) else [])
  }

  /** The handler of an EndEvent. */
  function OnEnd(d: D.Download, verdict: D.Verdict, i: nat): Reaction {
    var e := D.Ended(verdict);
    Reaction(e, if !D.Enabled(d, e) then [] else if d.phase.Waiting? then [B.Close(i)] else Judged(verdict, i))
  }

  // ------------------------------------------------------------------------------ other events

  /** The event as it happens to a downloader whose stream is `s`. */
  function Facing(e: D.Event, s: B.Stream): D.Event {
    match e
    case Opened(_) => D.Opened(s.reading)
    case Written(n, _) => D.Written(n, s.reading)
    case _ => e
  }

  /** on_write reads on if the queue is empty and the stream says that it is not active. */
  function Resumes(d: D.Download, w: D.Writer, s: B.Stream, i: nat): seq<B.Action> {
    if w.buffer == [] && !d.receiveDone && !s.Active() then [B.Read(i)] else []
  }

  predicate IsSocket(e: D.Event) {
    e.Received? || e.Ended?
  }

  /** The calls in the handlers of everything but the stream's own events. */
  function Calls(d: D.Download, e: D.Event, s: B.Stream, i: nat): (calls: seq<B.Action>)
    requires D.Enabled(d, e) && !IsSocket(e)
    ensures |calls| <= 1
  {
    match e
    case Resolved => []
    case Connected => []
    case RequestWritten => [B.Read(i)]
    case Opened(_) => Resumes(d, d.writer, s, i)
    case Written(n, _) => Resumes(d, d.writer.Advance(n), s, i)
    case FileClosed => []
    case FileCloseFailed => if d.writer.op == D.Discarding then [] else [B.Close(i)]
    case _ => [B.Close(i)]
  }

  // ------------------------------------------------------------------- the bond between the two

  lemma LeavesFull(f: BT.Flags, full: bool, calls: seq<B.Action>, i: nat)
    ensures BT.Leaves(f, (if full then [B.Stop(i)] else []) + calls, i)
            == BT.Leaves(if full then BT.Acted(f, B.Stop(i), i) else f, calls, i)
  {
    if full {
      assert ([B.Stop(i)] + calls)[1..] == calls;
    } else {
      assert [] + calls == calls;
    }
  }

  lemma {:induction false} FeedTied(d: D.Download, s: B.Stream, data: seq<string>, i: nat)
    requires s.alive && !s.closed && d.sockStopped == s.stopped
    ensures var r := Feed(d, s, data, i);
            && r.s.alive && !r.s.closed && r.d.sockStopped == r.s.stopped
            && BT.FlagsOf(r.s) == BT.Leaves(BT.FlagsOf(s), r.calls, i)
    decreases |data|
  {
    if data != [] {
      var d', s' := D.OnData(d, data[0], s.reading), if Full(d, s) then s.Stop() else s;
      PieceTied(d, s, data[0]);
      FeedTied(d', s', data[1..], i);
      var r := Feed(d', s', data[1..], i);
      LeavesFull(BT.FlagsOf(s), Full(d, s), r.calls, i);
      assert BT.FlagsOf(s') == if Full(d, s) then BT.Acted(BT.FlagsOf(s), B.Stop(i), i) else BT.FlagsOf(s);
    }
  }

  lemma PieceTied(d: D.Download, s: B.Stream, data: string)
    requires d.sockStopped == s.stopped
    ensures var s' := if Full(d, s) then s.Stop() else s; D.OnData(d, data, s.reading).sockStopped == s'.stopped
  {
  }

  lemma {:induction false} LeavesConcat(f: BT.Flags, a: seq<B.Action>, b: seq<B.Action>, i: nat)
    ensures BT.Leaves(f, a + b, i) == BT.Leaves(BT.Leaves(f, a, i), b, i)
    decreases |a|
  {
    if a == [] {
      assert a + b == b;
    } else {
      assert (a + b)[1..] == a[1..] + b;
      LeavesConcat(BT.Acted(f, a[0], i), a[1..], b, i);
    }
  }

  lemma LeavesOne(f: BT.Flags, a: B.Action, i: nat)
    ensures BT.Leaves(f, [a], i) == BT.Acted(f, a, i)
  {
    assert [a][1..] == [];
  }

  lemma JudgedTied(d: D.Download, verdict: D.Verdict, f: BT.Flags, ended: bool, i: nat)
    requires Listening(d) && Tied(d, f, ended)
    ensures Tied(D.Judge(d, verdict), BT.Leaves(f, Judged(verdict, i), i), ended)
  {
    match verdict
    case InProgress =>
    case Moved => LeavesOne(f, B.Stop(i), i);
    case Complete => LeavesOne(f, B.Stop(i), i);
    case Invalid => LeavesOne(f, B.Close(i), i);
  }

  lemma FeedPhase(d: D.Download, pieces: seq<D.Piece>)
    ensures D.Feed(d, pieces).phase == d.phase
    decreases |pieces|
  {
    if pieces != [] {
      FeedPhase(D.OnData(d, pieces[0].data, pieces[0].under), pieces[1..]);
    }
  }

  lemma DataJudged(d: D.Download, d': D.Download, pieces: seq<D.Piece>, verdict: D.Verdict)
    requires Listening(d) && !d.sockStopped && d' == D.Answered(d).(timer := D.Off)
    requires verdict == D.Moved ==> pieces == [] && !d.writer.file
    ensures var e := D.Received(pieces, verdict);
            D.Enabled(d, e) && D.Step(d, e) == D.Judge(D.Feed(d', pieces), verdict)
  {
  }

  /** A DataEvent finds the downloader listening, and leaves both bound together. */
  lemma OnDataTied(d: D.Download, s: B.Stream, p: Parsed, ended: bool, i: nat)
    requires Tied(d, BT.FlagsOf(s), ended) && !s.stopped && (p.verdict == D.Moved ==> p.data == [] && !d.writer.file)
    ensures var r := OnData(d, s, p, i);
            && Listening(d) && !d.sockStopped && D.Enabled(d, r.event)
            && Tied(D.Step(d, r.event), BT.Leaves(BT.FlagsOf(s), r.calls, i), ended)
  {
    var d' := D.Answered(d).(timer := D.Off);
    var fed := Feed(d', s, p.data, i);
    FeedAgrees(d', s, p.data, i);
    FeedTied(d', s, p.data, i);
    FeedPhase(d', fed.pieces);
    DataJudged(d, d', fed.pieces, p.verdict);
    JudgedTied(fed.d, p.verdict, BT.FlagsOf(fed.s), ended, i);
    LeavesConcat(BT.FlagsOf(s), fed.calls, Judged(p.verdict, i), i);
  }

  lemma OnEndTied(d: D.Download, verdict: D.Verdict, f: BT.Flags, i: nat)
    requires Tied(d, f, true) && f.stopped
    ensures var r := OnEnd(d, verdict, i); Tied(D.Step(d, r.event), BT.Leaves(f, r.calls, i), true)
  {
    if D.Enabled(d, D.Ended(verdict)) {
      if d.phase.Waiting? {
        LeavesOne(f, B.Close(i), i);
        ErrorTied(d, d.writer, BT.Acted(f, B.Close(i), i), true);
      } else {
        var d' := d.(phase := D.Reading(true), timer := D.Off);
        EndJudged(d, d', verdict);
        JudgedTied(d', verdict, f, true, i);
      }
    }
  }

  lemma EndJudged(d: D.Download, d': D.Download, verdict: D.Verdict)
    requires D.Enabled(d, D.Ended(verdict)) && !d.phase.Waiting? && d' == d.(phase := D.Reading(true), timer := D.Off)
    ensures D.Step(d, D.Ended(verdict)) == D.Judge(d', verdict)
  {
  }

  lemma ErrorTied(d: D.Download, w: D.Writer, f: BT.Flags, ended: bool)
    requires f.alive && f.stopped
    ensures Tied(D.OnError(d, w), f, ended)
  {
  }

  /** What one call, or none, leaves. */
  function Called(f: BT.Flags, calls: seq<B.Action>, i: nat): BT.Flags
    requires |calls| <= 1
  {
    if calls == [] then f else BT.Acted(f, calls[0], i)
  }

  lemma LeavesCalled(f: BT.Flags, calls: seq<B.Action>, i: nat)
    requires |calls| <= 1
    ensures BT.Leaves(f, calls, i) == Called(f, calls, i)
  {
    if calls != [] {
      assert calls == [calls[0]];
      LeavesOne(f, calls[0], i);
    }
  }

  /** So do all other handlers of the downloader. */
  lemma CallsTied(d: D.Download, e: D.Event, s: B.Stream, i: nat)
    requires DT.Consistent(d) && Tied(d, BT.FlagsOf(s), s.ends > 0)
    requires D.Enabled(d, e) && !IsSocket(e) && e == Facing(e, s)
    ensures Tied(D.Happen(d, e), BT.Leaves(BT.FlagsOf(s), Calls(d, e, s, i), i), s.ends > 0)
  {
    LeavesCalled(BT.FlagsOf(s), Calls(d, e, s, i), i);
    if D.IsFile(e) {
      FileTied(d, e, s, i);
    } else {
      NetTied(d, e, s, i);
    }
  }

  lemma NetTied(d: D.Download, e: D.Event, s: B.Stream, i: nat)
    requires Tied(d, BT.FlagsOf(s), s.ends > 0) && D.Enabled(d, e) && !IsSocket(e) && !D.IsFile(e)
    ensures Tied(D.Happen(d, e), Called(BT.FlagsOf(s), Calls(d, e, s, i), i), s.ends > 0)
  {
  }

  lemma FileTied(d: D.Download, e: D.Event, s: B.Stream, i: nat)
    requires DT.Consistent(d) && Tied(d, BT.FlagsOf(s), s.ends > 0)
    requires D.Enabled(d, e) && D.IsFile(e) && e == Facing(e, s)
    ensures Tied(D.FileReports(d, e), Called(BT.FlagsOf(s), Calls(d, e, s, i), i), s.ends > 0)
  {
    if e.Opened? {
      WriterHears(d, e);
      ResumesTied(d, d.writer.(op := D.Idle, fileOpened := true), s, i);
    } else if e.Written? {
      WriterHears(d, e);
      ResumesTied(d, d.writer.Advance(e.n), s, i);
    } else {
      FailedTied(d, e, s, i);
    }
  }

  /** A file is opened and written while the downloader listens or has everything. */
  lemma WriterHears(d: D.Download, e: D.Event)
    requires DT.Consistent(d) && D.Enabled(d, e) && (e.Opened? || e.Written?)
    ensures Listening(d) || d.receiveDone
  {
  }

  lemma ResumesTied(d: D.Download, w: D.Writer, s: B.Stream, i: nat)
    requires Tied(d, BT.FlagsOf(s), s.ends > 0) && (Listening(d) || d.receiveDone)
    ensures Tied(D.OnWrite(d, w, s.reading), Called(BT.FlagsOf(s), Resumes(d, w, s, i), i), s.ends > 0)
  {
  }

  lemma FailedTied(d: D.Download, e: D.Event, s: B.Stream, i: nat)
    requires Tied(d, BT.FlagsOf(s), s.ends > 0)
    requires D.Enabled(d, e) && D.IsFile(e) && !e.Opened? && !e.Written?
    ensures Tied(D.FileReports(d, e), Called(BT.FlagsOf(s), Calls(d, e, s, i), i), s.ends > 0)
  {
  }
}
