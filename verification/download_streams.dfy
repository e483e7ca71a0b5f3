/** A downloader whose socket is a stream of the limiter: what it calls stopped is `stopped` of
    the stream, and whether the socket calls itself active nevertheless is `reading`. */
module DownloadStreams {
  import B = BandwidthModel
  import BR = BandwidthRounds
  import BM = BandwidthRate
  import BS = BandwidthSafety
  import BT = BandwidthTheorems
  import BK = BandwidthSockets
  import BE = BandwidthExamples
  import D = DownloaderModel
  import DT = DownloaderTheorems
  import DE = DownloaderExamples
  import opened StatusDownloader

  /** The stream is the downloader's socket.  The limiter may have stopped it besides, when it
      published the EndEvent. */
  ghost predicate SocketOf(d: D.Download, s: B.Stream) {
    d.sockStopped ==> s.stopped
  }

  /** What `active()` answers a downloader that has stopped its socket is what the model lets the
      socket answer. */
  lemma ActiveAgrees(d: D.Download, s: B.Stream)
    requires SocketOf(d, s) && d.sockStopped
    ensures d.Active(s.reading) <==> s.Active()
  {
  }

  /** Back-pressure across both classes: in whatever state a run has left a downloader that
      listens to its socket, a transfer of the limiter hands something over only if the queue is
      shorter than the backlog, if that is positive. */
  lemma DeliversToShortQueue(backlog: nat, events: seq<D.Event>, w: B.World, i: nat, length: nat, script: B.Script)
    requires i < |w.streams| && SocketOf(D.Run(D.Started(backlog), events), w.streams[i])
    requires var d := D.Run(D.Started(backlog), events); d.phase.Waiting? || d.phase.Reading?
    requires B.TransferStream(w, i, length, script).moved > w.moved && backlog > 0
    ensures |D.Run(D.Started(backlog), events).writer.buffer| < backlog
  {
    DT.RunConsistent(D.Started(backlog), events);
    DT.RunBacklog(D.Started(backlog), events);
    BM.TransferMoves(w, i, length, script);
  }

  /** A write is over, and the downloader asks its socket whether it is active. */
  lemma WrittenStarves(d: D.Download, s: B.Stream, n: nat)
    requires SocketOf(d, s) && d.sockStopped && D.Enabled(d, D.Written(n, s.Active()))
    requires DT.Consistent(d) && d.phase.Reading?
    ensures DT.Starving(D.Happen(d, D.Written(n, s.Active()))) <==> D.Used(d.writer.buffer, n) == [] && s.reading
  {
    ActiveAgrees(d, s);
    DT.HappenStarves(d, D.Written(n, s.Active()));
    DT.StarvesReads(d, D.Written(n, s.Active()));
  }

  /** Exactly when the limiter makes a downloader starve, at any time of any run of the limiter and
      for all its consumers: the downloader has stopped its socket, before the end of the stream,
      and the last of the bytes it had queued are written, while the last transfer has resumed the
      socket all the same, and since then nobody has touched the socket and no segment has filled
      its buffer. */
  lemma StarvesIffResumed(limit: nat, ticks: seq<BR.Tick>, script: B.Script, i: nat, d: D.Download, n: nat)
    requires i < |BR.Run(BR.Init(limit), ticks, script).streams|
    requires var s := BR.Run(BR.Init(limit), ticks, script).streams[i];
             SocketOf(d, s) && d.sockStopped && s.ends == 0 && D.Enabled(d, D.Written(n, s.Active()))
    requires DT.Consistent(d) && d.phase.Reading?
    ensures var s := BR.Run(BR.Init(limit), ticks, script).streams[i];
            DT.Starving(D.Happen(d, D.Written(n, s.Active())))
            <==> D.Used(d.writer.buffer, n) == [] && BK.Resumed(BR.Init(limit), ticks, script, i, false)
  {
    BK.ReadWhileStoppedIff(limit, ticks, script, i);
    WrittenStarves(d, BR.Run(BR.Init(limit), ticks, script).streams[i], n);
  }

  /** Right after the transfer in whose handler it stopped a full stream, that is if the buffer fell
      below its limit and the stream has not ended empty. */
  lemma StarvesAtOnce(d: D.Download, w: B.World, i: nat, length: nat, script: B.Script, m: nat, n: nat)
    requires BS.Good(w, -1, m) && i < |w.streams| && length > 0
    requires !w.streams[i].stopped && w.streams[i].buffered != "" && w.streams[i].paused
    requires i < |B.TransferStream(w, i, length, script).streams|
    requires var s' := B.TransferStream(w, i, length, script).streams[i];
             SocketOf(d, s') && d.sockStopped && D.Enabled(d, D.Written(n, s'.Active()))
    requires DT.Consistent(d) && d.phase.Reading?
    ensures var s, s' := w.streams[i], B.TransferStream(w, i, length, script).streams[i];
            var left := |s.buffered| - B.Min(length, |s.buffered|);
            DT.Starving(D.Happen(d, D.Written(n, s'.Active())))
            <==> D.Used(d.writer.buffer, n) == [] && left < s.maxLength && !(s.eof && left == 0)
  {
    BT.ResumesRegardless(w, i, length, script, m);
    WrittenStarves(d, B.TransferStream(w, i, length, script).streams[i], n);
  }

  /** A segment that fills the buffer again saves the downloader. */
  lemma RefilledNeverStarves(d: D.Download, s: B.Stream, data: string, n: nat)
    requires SocketOf(d, s) && d.sockStopped && |s.buffered| + |data| >= s.maxLength
    requires D.Enabled(d, D.Written(n, s.Push(data).Active())) && DT.Consistent(d) && d.phase.Reading?
    ensures !DT.Starving(D.Happen(d, D.Written(n, s.Push(data).Active())))
  {
    WrittenStarves(d, s.Push(data), n);
  }

  /** It happens.  The limiter fills a buffer of four bytes and hands them over; the downloader,
      with a backlog of one chunk, stops its socket in the handler; when the bytes are on disk the
      socket says that it is active, and only the timer is left, which will fail the download. */
  lemma StarvesBehindLimiter(script: B.Script, ticks: seq<BR.Tick>, s: B.Stream, events: seq<D.Event>)
    requires script == BE.Once(B.Stop(0)) && ticks == BE.FillTicks() + [BR.Tick(4_000_000_000, BR.Timer)]
    requires |BR.Run(BR.Init(1), ticks, script).streams| > 0 && s == BR.Run(BR.Init(1), ticks, script).streams[0]
    requires events == DE.StarvingTicks(s.delivered, s.reading)
    ensures var d := D.Run(D.Started(1), events);
            && SocketOf(d, s) && s.delivered == d.writer.disk == "abcd"
            && DT.Starving(d) && d.reports == [] && d.state == OnTheGo
            && D.Enabled(d, D.Timeout) && D.Happen(d, D.Timeout).reports == [Failed]
  {
    BE.ResumedAfter(B.Stop(0), script, ticks);
    DE.StarvesOnce(s.delivered, events);
    DT.StarvingTimesOut(1, events);
  }
}
