/** A download as the scheduler sees it. */
module DownloadJobs {
  import D = DownloaderModel
  import DT = DownloaderTheorems
  import S = OnTickModel
  import ST = OnTickResults
  import opened StatusDownloader

  /** The calls of on_tick that a downloader's reports are. */
  function Invocations(downloader: nat, reports: seq<State>, uri: string): seq<S.Event> {
    if reports == [] then [] else [S.Report(downloader, reports[0], uri)] + Invocations(downloader, reports[1..], uri)
  }

  lemma OneReport(s: S.Scheduler, done: set<nat>, downloader: nat, state: State, uri: string, starts: S.Starts)
    requires ST.Employed(s, done, starts) && downloader < |s.calls| && starts(downloader) && downloader !in done
    ensures S.Run(s, [S.Report(downloader, state, uri)], starts).Ok?
  {
    ST.InvokeEmploys(s, downloader, state, uri, done, starts);
    assert [S.Report(downloader, state, uri)][1..] == [];
  }

  lemma TwoReports(s: S.Scheduler, done: set<nat>, downloader: nat, first: State, second: State, uri: string,
      starts: S.Starts)
    requires ST.Employed(s, done, starts) && downloader < |s.calls| && starts(downloader) && downloader !in done
    requires ST.IsFinal(first)
    ensures S.Run(s, [S.Report(downloader, first, uri), S.Report(downloader, second, uri)], starts) ==
            S.InvalidDownloader
  {
    var events := [S.Report(downloader, first, uri), S.Report(downloader, second, uri)];
    ST.InvokeEmploys(s, downloader, first, uri, done, starts);
    var s' := S.Invoke(s, downloader, first, uri, starts).s;
    ST.InvokeEmploys(s', downloader, second, uri, done + {downloader}, starts);
    assert events[1..] == [S.Report(downloader, second, uri)];
  }

  /** What a download reports in a whole run makes the scheduler throw if and only if the socket
      was shut down while the file was still being opened. */
  lemma ThrowsIffShutBeforeOpen(s: S.Scheduler, done: set<nat>, downloader: nat, uri: string, starts: S.Starts,
                                backlog: nat, events: seq<D.Event>)
    requires ST.Employed(s, done, starts) && downloader < |s.calls| && starts(downloader) && downloader !in done
    requires var d := D.Run(D.Started(backlog), events); d.writer.op == D.Idle || d.state == Failed
    ensures var reports := D.Run(D.Started(backlog), events).reports;
            S.Run(s, Invocations(downloader, reports, uri), starts) == S.InvalidDownloader
            <==> DT.ShutBeforeOpen(D.Started(backlog), events)
  {
    var reports := D.Run(D.Started(backlog), events).reports;
    DT.TwoReportsIff(backlog, events);
    if |reports| == 1 {
      assert Invocations(downloader, reports, uri) == [S.Report(downloader, reports[0], uri)];
      OneReport(s, done, downloader, reports[0], uri, starts);
    } else if |reports| == 2 {
      assert reports[1..] == [reports[1]];
      assert Invocations(downloader, reports[1..], uri) == [S.Report(downloader, reports[1], uri)];
      TwoReports(s, done, downloader, reports[0], reports[1], uri, starts);
    }
  }
}
