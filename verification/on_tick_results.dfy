/** The main results about the scheduler. */
module OnTickResults {
  import opened OnTickModel
  import opened OnTickTheorems
  import opened StatusDownloader

  // -------------------------------------------------------------------- the measure of a run

  /** How many final reports the jobs can still make. */
  function Left(jobs: seq<Job>, limit: nat): int {
    if jobs == [] then 0 else limit + 1 - jobs[0].redirectCount + Left(jobs[1..], limit)
  }

  /** The same for `n` tasks. */
  function Owed(n: nat, limit: nat): nat {
    if n == 0 then 0 else limit + 1 + Owed(n - 1, limit)
  }

  function Potential(s: Scheduler): int {
    Owed(|s.tasks|, s.maxRedirect) + Left(s.jobs, s.maxRedirect)
  }

  /** Calls of the factory, made or to come. */
  function Calls(s: Scheduler): int {
    |s.calls| - |s.jobs| + Potential(s)
  }

  lemma {:induction false} LeftConcat(a: seq<Job>, b: seq<Job>, limit: nat)
    ensures Left(a + b, limit) == Left(a, limit) + Left(b, limit)
    decreases |a|
  {
    if a == [] {
      assert a + b == b;
    } else {
      assert (a + b)[1..] == a[1..] + b;
      LeftConcat(a[1..], b, limit);
    }
  }

  lemma LeftSplit(jobs: seq<Job>, i: nat, limit: nat)
    requires i < |jobs|
    ensures Left(jobs, limit) ==
            Left(jobs[..i], limit) + (limit + 1 - jobs[i].redirectCount) + Left(jobs[i + 1..], limit)
  {
    LeftConcat(jobs[..i], jobs[i..], limit);
    assert jobs[..i] + jobs[i..] == jobs;
    assert jobs[i..][1..] == jobs[i + 1..];
  }

  lemma LeftUpdate(jobs: seq<Job>, i: nat, job: Job, limit: nat)
    requires i < |jobs|
    ensures Left(jobs[i := job], limit) == Left(jobs, limit) + jobs[i].redirectCount - job.redirectCount
  {
    LeftSplit(jobs, i, limit);
    LeftSplit(jobs[i := job], i, limit);
    assert jobs[i := job][..i] == jobs[..i] && jobs[i := job][i + 1..] == jobs[i + 1..];
  }

  lemma LeftErase(jobs: seq<Job>, i: nat, limit: nat)
    requires i < |jobs|
    ensures Left(jobs[..i] + jobs[i + 1..], limit) == Left(jobs, limit) - (limit + 1 - jobs[i].redirectCount)
  {
    LeftSplit(jobs, i, limit);
    LeftConcat(jobs[..i], jobs[i + 1..], limit);
  }

  lemma {:induction false} LeftBound(jobs: seq<Job>, limit: nat)
    requires forall i :: 0 <= i < |jobs| ==> jobs[i].redirectCount <= limit
    ensures Left(jobs, limit) >= |jobs|
    decreases |jobs|
  {
    if jobs != [] {
      LeftBound(jobs[1..], limit);
    }
  }

  lemma TakeSpends(s: Scheduler, starts: Starts)
    requires s.tasks != []
    ensures Potential(TakeTask(s, starts)) <= Potential(s)
    ensures Calls(TakeTask(s, starts)) <= Calls(s)
  {
    var s' := TakeTask(s, starts);
    if starts(|s.calls|) {
      LeftConcat(s.jobs, [s'.jobs[|s.jobs|]], s.maxRedirect);
    }
  }

  lemma {:induction false} PullSpends(s: Scheduler, starts: Starts)
    ensures Potential(Pull(s, starts)) <= Potential(s)
    ensures Calls(Pull(s, starts)) <= Calls(s) && Pull(s, starts).maxRedirect == s.maxRedirect
    decreases |s.tasks|
  {
    if s.tasks != [] {
      TakeSpends(s, starts);
      if !starts(|s.calls|) {
        PullSpends(TakeTask(s, starts), starts);
      }
    }
  }

  lemma {:induction false} OpenSpends(s: Scheduler, n: nat, starts: Starts)
    ensures Potential(Open(s, n, starts)) <= Potential(s)
    ensures Calls(Open(s, n, starts)) <= Calls(s) && Open(s, n, starts).maxRedirect == s.maxRedirect
    decreases n
  {
    if n > 0 && s.tasks != [] {
      TakeSpends(s, starts);
      OpenSpends(TakeTask(s, starts), n - 1, starts);
    }
  }

  lemma NextTaskSpends(s: Scheduler, i: nat, starts: Starts)
    requires i < |s.jobs|
    ensures Potential(NextTask(s, i, starts)) <= Potential(s) - (s.maxRedirect + 1 - s.jobs[i].redirectCount)
    ensures Calls(NextTask(s, i, starts)) <= Calls(s) + 1 - (s.maxRedirect + 1 - s.jobs[i].redirectCount)
    ensures NextTask(s, i, starts).maxRedirect == s.maxRedirect
  {
    LeftErase(s.jobs, i, s.maxRedirect);
    if s.factory {
      PullSpends(Erase(s, i), starts);
    }
  }

  lemma CountSpends(s: Scheduler, i: nat)
    requires i < |s.jobs|
    ensures Potential(Count(s, i)) == Potential(s) - 1 && Calls(Count(s, i)) == Calls(s) - 1
  {
    LeftUpdate(s.jobs, i, Count(s, i).jobs[i], s.maxRedirect);
  }

  lemma FollowSpends(s: Scheduler, i: nat, uri: string, starts: Starts)
    requires i < |s.jobs| && s.jobs[i].redirectCount <= s.maxRedirect + 1
    ensures Potential(Follow(s, i, uri, starts)) <= Potential(s)
    ensures Calls(Follow(s, i, uri, starts)) <= Calls(s) + 1
    ensures Follow(s, i, uri, starts).maxRedirect == s.maxRedirect
  {
    var job := s.jobs[i];
    if job.redirectCount > s.maxRedirect {
      NextTaskSpends(Show(s, i, Failed), i, starts);
    } else if !s.factory {
      LeftErase(s.jobs, i, s.maxRedirect);
    } else if starts(|s.calls|) {
      LeftUpdate(s.jobs, i, job.(downloader := |s.calls|), s.maxRedirect);
    } else {
      NextTaskSpends(Create(s, Call(job.id, uri, job.fname), starts), i, starts);
    }
  }

  predicate IsFinal(state: State) {
    state == Done || state == Failed || state == Redirect
  }

  lemma InvokeSpends(s: Scheduler, downloader: nat, state: State, uri: string, starts: Starts)
    requires Frugal(s) && Invoke(s, downloader, state, uri, starts).Ok?
    ensures var s' := Invoke(s, downloader, state, uri, starts).s;
            && Potential(s') + (if IsFinal(state) then 1 else 0) <= Potential(s)
            && Calls(s') <= Calls(s) && s'.maxRedirect == s.maxRedirect
  {
    var i := Find(s.jobs, downloader);
    var s1 := Show(s, i, state);
    if state == Redirect {
      CountSpends(s1, i);
      FollowSpends(Count(s1, i), i, uri, starts);
    } else if IsFinal(state) {
      NextTaskSpends(s1, i, starts);
    }
  }

  lemma {:induction false} StopAllSpends(s: Scheduler, downloaders: seq<nat>, all: seq<Task>, starts: Starts)
    requires Sound(s, all, starts) && StopAll(s, downloaders, starts).Ok?
    ensures var s' := StopAll(s, downloaders, starts).s;
            Potential(s') <= Potential(s) && Calls(s') <= Calls(s) && s'.maxRedirect == s.maxRedirect
    decreases |downloaders|
  {
    if downloaders != [] {
      InvokeSpends(s, downloaders[0], Failed, "", starts);
      InvokeSound(s, downloaders[0], Failed, "", all, starts);
      StopAllSpends(Invoke(s, downloaders[0], Failed, "", starts).s, downloaders[1..], all, starts);
    }
  }

  /** The number of final reports in a run. */
  function Finals(events: seq<Event>): nat {
    if events == [] then 0
    else (if events[0].Report? && IsFinal(events[0].state) then 1 else 0) + Finals(events[1..])
  }

  lemma InterruptSpends(s: Scheduler, all: seq<Task>, starts: Starts)
    requires Sound(s, all, starts) && StopAll(Gone(s), Downloaders(s.jobs), starts).Ok?
    ensures var s' := StopAll(Gone(s), Downloaders(s.jobs), starts).s;
            Potential(s') <= Potential(s) && Calls(s') <= Calls(s) && s'.maxRedirect == s.maxRedirect
  {
    GoneSound(s, all, starts);
    StopAllSpends(Gone(s), Downloaders(s.jobs), all, starts);
  }

  lemma StepSpends(s: Scheduler, e: Event, all: seq<Task>, starts: Starts)
    requires Sound(s, all, starts) && Step(s, e, starts).Ok?
    ensures var s' := Step(s, e, starts).s;
            && Potential(s') + (if e.Report? && IsFinal(e.state) then 1 else 0) <= Potential(s)
            && Calls(s') <= Calls(s) && s'.maxRedirect == s.maxRedirect
  {
    match e
    case Report(downloader, state, uri) => InvokeSpends(s, downloader, state, uri, starts);
    case Interrupt => InterruptSpends(s, all, starts);
  }

  lemma {:induction false} RunSpends(s: Scheduler, events: seq<Event>, all: seq<Task>, starts: Starts)
    requires Sound(s, all, starts) && Run(s, events, starts).Ok?
    ensures var s' := Run(s, events, starts).s;
            && Potential(s') + Finals(events) <= Potential(s)
            && Calls(s') <= Calls(s) && s'.maxRedirect == s.maxRedirect
    decreases |events|
  {
    if events != [] {
      StepSpends(s, events[0], all, starts);
      StepSound(s, events[0], all, starts);
      RunSpends(Step(s, events[0], starts).s, events[1..], all, starts);
    }
  }

  /** The program: `n` downloads at a time, over the tasks `all`. */
  function Program(maxRedirect: nat, all: seq<Task>, n: nat, events: seq<Event>, starts: Starts): Outcome {
    Run(Open(OnTickModel.Init(maxRedirect, all), n, starts), events, starts)
  }

  lemma ProgramSound(maxRedirect: nat, all: seq<Task>, n: nat, events: seq<Event>, starts: Starts)
    requires Program(maxRedirect, all, n, events, starts).Ok?
    ensures Sound(Program(maxRedirect, all, n, events, starts).s, all, starts)
  {
    var s := OnTickModel.Init(maxRedirect, all);
    InitSound(maxRedirect, all, starts);
    OpenSound(s, n, all, starts);
    RunSound(Open(s, n, starts), events, all, starts);
  }

  lemma ProgramSpends(maxRedirect: nat, all: seq<Task>, n: nat, events: seq<Event>, starts: Starts)
    requires Program(maxRedirect, all, n, events, starts).Ok?
    ensures var s := Program(maxRedirect, all, n, events, starts).s;
            && Potential(s) + Finals(events) <= Owed(|all|, maxRedirect)
            && Calls(s) <= Owed(|all|, maxRedirect) && s.maxRedirect == maxRedirect
  {
    var s := OnTickModel.Init(maxRedirect, all);
    InitSound(maxRedirect, all, starts);
    OpenSound(s, n, all, starts);
    OpenSpends(s, n, starts);
    RunSpends(Open(s, n, starts), events, all, starts);
  }

  lemma {:induction false} OwedIsProduct(n: nat, limit: nat)
    ensures Owed(n, limit) == n * (limit + 1)
    decreases n
  {
    if n > 0 {
      OwedIsProduct(n - 1, limit);
    }
  }

  lemma PotentialBound(s: Scheduler)
    requires Frugal(s)
    ensures Potential(s) >= |s.jobs|
  {
    LeftBound(s.jobs, s.maxRedirect);
  }

  /** T tasks give at most T * (max_redirect + 1) final reports, and as many calls of the factory. */
  lemma WorkBounded(maxRedirect: nat, all: seq<Task>, n: nat, events: seq<Event>, starts: Starts)
    requires Program(maxRedirect, all, n, events, starts).Ok?
    ensures Finals(events) <= |all| * (maxRedirect + 1)
    ensures |Program(maxRedirect, all, n, events, starts).s.calls| <= |all| * (maxRedirect + 1)
  {
    ProgramSpends(maxRedirect, all, n, events, starts);
    ProgramSound(maxRedirect, all, n, events, starts);
    OwedIsProduct(|all|, maxRedirect);
    PotentialBound(Program(maxRedirect, all, n, events, starts).s);
  }

  /** No task is ever downloaded from more than max_redirect + 1 places. */
  lemma RedirectsBounded(maxRedirect: nat, all: seq<Task>, n: nat, events: seq<Event>, starts: Starts, id: nat)
    requires Program(maxRedirect, all, n, events, starts).Ok?
    ensures CallsFor(Program(maxRedirect, all, n, events, starts).s.calls, id) <= maxRedirect + 1
  {
    ProgramSpends(maxRedirect, all, n, events, starts);
    ProgramSound(maxRedirect, all, n, events, starts);
  }

  // ----------------------------------------------------------------------------- conservation

  /** After any run every task taken so far is either running, as exactly one job with its own
      downloader, or over, and then the dashboard was told how it ended. */
  lemma TasksConserved(maxRedirect: nat, all: seq<Task>, n: nat, events: seq<Event>, starts: Starts)
    requires Program(maxRedirect, all, n, events, starts).Ok?
    ensures var s := Program(maxRedirect, all, n, events, starts).s;
            && 1 <= s.nextId <= |all| + 1 && s.tasks == all[s.nextId - 1..] && s.nextId - 1 == |s.jobs| + |s.exits|
            && (forall k :: 1 <= k < s.nextId ==> (Runs(s.jobs, k) <==> k !in s.exits))
            && (forall i, j :: 0 <= i < j < |s.jobs| ==>
                  s.jobs[i].id != s.jobs[j].id && s.jobs[i].downloader != s.jobs[j].downloader)
            && (forall i :: 0 <= i < |s.jobs| ==>
                  s.jobs[i].redirectCount <= s.maxRedirect && Serves(s.calls, s.jobs[i], starts)
                  && 1 <= s.jobs[i].id < s.nextId && s.jobs[i].fname == all[s.jobs[i].id - 1].fname)
            && (forall id <- s.exits :: id in s.shown && Final(s, s.shown[id]))
  {
    ProgramSound(maxRedirect, all, n, events, starts);
  }

  // -------------------------------------------------------------------------------- one report

  /** Taking tasks puts at most one job at the end of the list, and none only when no task is left. */
  ghost predicate Refilled(s: Scheduler, s': Scheduler) {
    && s'.factory == s.factory && |s'.tasks| <= |s.tasks|
    && (|| (s'.jobs == s.jobs && s'.tasks == [])
        || (|s'.jobs| == |s.jobs| + 1 && s'.jobs[..|s.jobs|] == s.jobs
            && s'.jobs[|s.jobs|].id >= s.nextId && s'.jobs[|s.jobs|].redirectCount == 0))
  }

  lemma {:induction false} PullRefills(s: Scheduler, starts: Starts)
    ensures Refilled(s, Pull(s, starts)) && Pull(s, starts).nextId >= s.nextId
    decreases |s.tasks|
  {
    if s.tasks != [] && !starts(|s.calls|) {
      PullRefills(TakeTask(s, starts), starts);
    }
  }

  /** The list without the job that reported, and possibly with a new one at its end. */
  ghost predicate Replaced(s: Scheduler, s': Scheduler, i: nat)
    requires i < |s.jobs|
  {
    var rest := s.jobs[..i] + s.jobs[i + 1..];
    && s'.factory == s.factory && |s'.tasks| <= |s.tasks|
    && (|| (s'.jobs == rest && (s'.tasks == [] || !s'.factory))
        || (|s'.jobs| == |s.jobs| && s'.jobs[..|rest|] == rest
            && s'.jobs[|rest|].id >= s.nextId && s'.jobs[|rest|].redirectCount == 0))
  }

  /** The list with another downloader for the job that reported. */
  ghost predicate Renewed(s: Scheduler, s': Scheduler, i: nat, uri: string)
    requires i < |s.jobs|
  {
    var job := s.jobs[i];
    && s'.jobs == s.jobs[i := Job(job.id, job.fname, job.redirectCount + 1, |s.calls|)]
    && s'.calls == s.calls + [Call(job.id, uri, job.fname)]
    && s'.tasks == s.tasks && s'.factory == s.factory
  }

  lemma NextTaskReplaces(s: Scheduler, i: nat, starts: Starts)
    requires i < |s.jobs|
    ensures Replaced(s, NextTask(s, i, starts), i)
  {
    if s.factory {
      PullRefills(Erase(s, i), starts);
    }
  }

  lemma FollowReplaces(s: Scheduler, i: nat, uri: string, starts: Starts)
    requires i < |s.jobs|
    ensures var s' := Follow(Count(s, i), i, uri, starts);
            if s.jobs[i].redirectCount < s.maxRedirect && s.factory && starts(|s.calls|) then Renewed(s, s', i, uri)
            else Replaced(s, s', i)
  {
    var c := Count(s, i);
    assert c.jobs[..i] == s.jobs[..i] && c.jobs[i + 1..] == s.jobs[i + 1..];
    if c.jobs[i].redirectCount > c.maxRedirect {
      NextTaskReplaces(Show(c, i, Failed), i, starts);
    } else if s.factory && !starts(|s.calls|) {
      NextTaskReplaces(Create(c, Call(c.jobs[i].id, uri, c.jobs[i].fname), starts), i, starts);
    }
  }

  /** A report leaves all other jobs alone.  A redirect within the limit that starts gives the job
      a new downloader and takes no task; otherwise the job of a final report is gone and there
      is one less only if the tasks or the factory are. */
  lemma OthersUnchanged(s: Scheduler, downloader: nat, state: State, uri: string, starts: Starts)
    requires Invoke(s, downloader, state, uri, starts).Ok?
    ensures var s' := Invoke(s, downloader, state, uri, starts).s;
            var i := Find(s.jobs, downloader);
            if !IsFinal(state) then s' == s.(shown := s'.shown)
            else if state == Redirect && s.jobs[i].redirectCount < s.maxRedirect && s.factory && starts(|s.calls|)
            then Renewed(s, s', i, uri)
            else Replaced(s, s', i)
  {
    var i := Find(s.jobs, downloader);
    if i < |s.jobs| {
      var s1 := Show(s, i, state);
      if state == Redirect {
        FollowReplaces(s1, i, uri, starts);
      } else if IsFinal(state) {
        NextTaskReplaces(s1, i, starts);
      }
    }
  }

  // ------------------------------------------------------------------------- who may report

  ghost predicate Listed(jobs: seq<Job>, downloader: nat) {
    exists i :: 0 <= i < |jobs| && jobs[i].downloader == downloader
  }

  /** In the list are exactly the downloaders that were started and are not in `done`. */
  ghost predicate Employed(s: Scheduler, done: set<nat>, starts: Starts) {
    && (forall d: nat :: Listed(s.jobs, d) <==> d < |s.calls| && starts(d) && d !in done)
    && (forall d <- done :: d < |s.calls|)
    && (forall i, j :: 0 <= i < j < |s.jobs| ==> s.jobs[i].downloader != s.jobs[j].downloader)
  }

  lemma TakeEmploys(s: Scheduler, done: set<nat>, starts: Starts)
    requires Employed(s, done, starts) && s.tasks != []
    ensures Employed(TakeTask(s, starts), done, starts)
  {
    var s' := TakeTask(s, starts);
    forall i | 0 <= i < |s.jobs|
      ensures s.jobs[i].downloader < |s.calls|
    {
      assert Listed(s.jobs, s.jobs[i].downloader);
    }
    forall d: nat
      ensures Listed(s'.jobs, d) <==> d < |s'.calls| && starts(d) && d !in done
    {
      if d == |s.calls| && starts(d) {
        assert s'.jobs[|s.jobs|].downloader == d;
      } else if Listed(s.jobs, d) {
        var i :| 0 <= i < |s.jobs| && s.jobs[i].downloader == d;
        assert s'.jobs[i].downloader == d;
      }
    }
  }

  lemma {:induction false} PullEmploys(s: Scheduler, done: set<nat>, starts: Starts)
    requires Employed(s, done, starts)
    ensures Employed(Pull(s, starts), done, starts)
    decreases |s.tasks|
  {
    if s.tasks != [] {
      TakeEmploys(s, done, starts);
      if !starts(|s.calls|) {
        PullEmploys(TakeTask(s, starts), done, starts);
      }
    }
  }

  lemma {:induction false} OpenEmploys(s: Scheduler, n: nat, done: set<nat>, starts: Starts)
    requires Employed(s, done, starts)
    ensures Employed(Open(s, n, starts), done, starts)
    decreases n
  {
    if n > 0 && s.tasks != [] {
      TakeEmploys(s, done, starts);
      OpenEmploys(TakeTask(s, starts), n - 1, done, starts);
    }
  }

  lemma EraseEmploys(s: Scheduler, i: nat, done: set<nat>, starts: Starts)
    requires Employed(s, done, starts) && i < |s.jobs|
    ensures Employed(Erase(s, i), done + {s.jobs[i].downloader}, starts)
  {
    var s' := Erase(s, i);
    assert forall j :: 0 <= j < |s'.jobs| ==> s'.jobs[j] == s.jobs[if j < i then j else j + 1];
    assert Listed(s.jobs, s.jobs[i].downloader);
    forall d: nat
      ensures Listed(s'.jobs, d) <==> Listed(s.jobs, d) && d != s.jobs[i].downloader
    {
      if Listed(s.jobs, d) && d != s.jobs[i].downloader {
        var j :| 0 <= j < |s.jobs| && s.jobs[j].downloader == d;
        assert s'.jobs[if j < i then j else j - 1].downloader == d;
      }
    }
  }

  lemma NextTaskEmploys(s: Scheduler, i: nat, done: set<nat>, starts: Starts)
    requires Employed(s, done, starts) && i < |s.jobs|
    ensures Employed(NextTask(s, i, starts), done + {s.jobs[i].downloader}, starts)
  {
    EraseEmploys(s, i, done, starts);
    if s.factory {
      PullEmploys(Erase(s, i), done + {s.jobs[i].downloader}, starts);
    }
  }

  lemma MovedEmploys(s: Scheduler, i: nat, uri: string, done: set<nat>, starts: Starts)
    requires Employed(s, done, starts) && i < |s.jobs| && starts(|s.calls|)
    ensures Employed(Moved(s, i, uri, starts), done + {s.jobs[i].downloader}, starts)
  {
    var s' := Moved(s, i, uri, starts);
    forall j | 0 <= j < |s.jobs|
      ensures s.jobs[j].downloader < |s.calls|
    {
      assert Listed(s.jobs, s.jobs[j].downloader);
    }
    forall d: nat
      ensures Listed(s'.jobs, d) <==> (Listed(s.jobs, d) && d != s.jobs[i].downloader) || d == |s.calls|
    {
      assert s'.jobs[i].downloader == |s.calls|;
      if Listed(s.jobs, d) && d != s.jobs[i].downloader {
        var j :| 0 <= j < |s.jobs| && s.jobs[j].downloader == d;
        assert s'.jobs[j].downloader == d;
      }
    }
  }

  lemma SameDownloaders(s: Scheduler, s': Scheduler, done: set<nat>, starts: Starts)
    requires Employed(s, done, starts) && |s'.jobs| == |s.jobs|
    requires forall j :: 0 <= j < |s.jobs| ==> s'.jobs[j].downloader == s.jobs[j].downloader
    requires s'.calls == s.calls || (|s'.calls| == |s.calls| + 1 && !starts(|s.calls|))
    ensures Employed(s', done, starts)
  {
    forall d: nat
      ensures Listed(s'.jobs, d) <==> Listed(s.jobs, d)
    {
      if Listed(s.jobs, d) {
        var j :| 0 <= j < |s.jobs| && s.jobs[j].downloader == d;
        assert s'.jobs[j].downloader == d;
      }
    }
  }

  lemma FollowEmploys(s: Scheduler, i: nat, uri: string, done: set<nat>, starts: Starts)
    requires Employed(s, done, starts) && i < |s.jobs|
    ensures Employed(Follow(Count(s, i), i, uri, starts), done + {s.jobs[i].downloader}, starts)
  {
    var c := Count(s, i);
    SameDownloaders(s, c, done, starts);
    if c.jobs[i].redirectCount > c.maxRedirect {
      NextTaskEmploys(Show(c, i, Failed), i, done, starts);
    } else if !s.factory {
      EraseEmploys(c, i, done, starts);
    } else if starts(|s.calls|) {
      MovedEmploys(s, i, uri, done, starts);
      assert Follow(c, i, uri, starts) == Moved(s, i, uri, starts);
    } else {
      var s' := Create(c, Call(c.jobs[i].id, uri, c.jobs[i].fname), starts);
      SameDownloaders(s, s', done, starts);
      NextTaskEmploys(s', i, done, starts);
    }
  }

  lemma InvokeEmploys(s: Scheduler, downloader: nat, state: State, uri: string, done: set<nat>, starts: Starts)
    requires Employed(s, done, starts)
    ensures Invoke(s, downloader, state, uri, starts).Ok? <==>
            downloader < |s.calls| && starts(downloader) && downloader !in done
    ensures Invoke(s, downloader, state, uri, starts).Ok? ==>
              Employed(Invoke(s, downloader, state, uri, starts).s,
                       done + (if IsFinal(state) then {downloader} else {}), starts)
  {
    var i := Find(s.jobs, downloader);
    assert i < |s.jobs| <==> Listed(s.jobs, downloader);
    if i < |s.jobs| {
      var s1 := Show(s, i, state);
      SameDownloaders(s, s1, done, starts);
      if state == Redirect {
        FollowEmploys(s1, i, uri, done, starts);
      } else if IsFinal(state) {
        NextTaskEmploys(s1, i, done, starts);
      } else {
        assert done + {} == done;
      }
    }
  }

  function UpTo(n: nat): (r: set<nat>)
    ensures forall d: nat :: d in r <==> d < n
  {
    if n == 0 then {} else UpTo(n - 1) + {n - 1}
  }

  /** The downloaders that make a final report in a run, or are stopped. */
  function Ended(s: Scheduler, events: seq<Event>, starts: Starts): set<nat>
    decreases |events|
  {
    if events == [] || Step(s, events[0], starts).InvalidDownloader? then {}
    else
      (match events[0]
       case Report(downloader, state, _) => if IsFinal(state) then {downloader} else {}
       case Interrupt => UpTo(|s.calls|))
      + Ended(Step(s, events[0], starts).s, events[1..], starts)
  }

  lemma {:induction false} RunEmploys(s: Scheduler, events: seq<Event>, done: set<nat>, starts: Starts)
    requires Employed(s, done, starts) && Run(s, events, starts).Ok?
    ensures Employed(Run(s, events, starts).s, done + Ended(s, events, starts), starts)
    decreases |events|
  {
    if events == [] {
      assert done + {} == done;
    } else {
      var s' := Step(s, events[0], starts).s;
      var rest := Ended(s', events[1..], starts);
      if events[0].Interrupt? {
        var everyone := UpTo(|s.calls|);
        InterruptEnds(s, starts);
        RunEmploys(s', events[1..], done + everyone, starts);
        assert done + Ended(s, events, starts) == done + everyone + rest;
      } else {
        var one: set<nat> := if IsFinal(events[0].state) then {events[0].downloader} else {};
        InvokeEmploys(s, events[0].downloader, events[0].state, events[0].uri, done, starts);
        RunEmploys(s', events[1..], done + one, starts);
        assert done + Ended(s, events, starts) == done + one + rest;
      }
    }
  }

  /** find_job throws if and only if the downloader was never started, has already made a final
      report, or has been stopped: the scheduler loses no downloader and keeps none too long. */
  lemma ThrowsIff(maxRedirect: nat, all: seq<Task>, n: nat, events: seq<Event>,
                  downloader: nat, state: State, uri: string, starts: Starts)
    requires Program(maxRedirect, all, n, events, starts).Ok?
    ensures var s0 := Open(OnTickModel.Init(maxRedirect, all), n, starts);
            var s := Program(maxRedirect, all, n, events, starts).s;
            Invoke(s, downloader, state, uri, starts) == InvalidDownloader
            <==> downloader >= |s.calls| || !starts(downloader) || downloader in Ended(s0, events, starts)
  {
    var s := OnTickModel.Init(maxRedirect, all);
    assert Employed(s, {}, starts);
    OpenEmploys(s, n, {}, starts);
    var s0 := Open(s, n, starts);
    RunEmploys(s0, events, {}, starts);
    assert {} + Ended(s0, events, starts) == Ended(s0, events, starts);
    InvokeEmploys(Run(s0, events, starts).s, downloader, state, uri, Ended(s0, events, starts), starts);
  }

  // -------------------------------------------------------------------- no task is left behind

  /** As many jobs as the program started with, as long as there are tasks. */
  ghost predicate Busy(s: Scheduler, n: nat) {
    |s.jobs| <= n && (s.factory ==> |s.jobs| == n || s.tasks == [])
  }

  lemma InvokeBusy(s: Scheduler, downloader: nat, state: State, uri: string, n: nat, starts: Starts)
    requires Busy(s, n) && Invoke(s, downloader, state, uri, starts).Ok?
    ensures Busy(Invoke(s, downloader, state, uri, starts).s, n)
    ensures Invoke(s, downloader, state, uri, starts).s.factory == s.factory
  {
    OthersUnchanged(s, downloader, state, uri, starts);
  }

  /** The job is over and shown as failed. */
  ghost predicate Aborted(s: Scheduler, id: nat) {
    id in s.exits && id in s.shown && s.shown[id] == Failed
  }

  lemma StopFirst(s: Scheduler, starts: Starts)
    requires !s.factory && s.jobs != []
    ensures Invoke(s, s.jobs[0].downloader, Failed, "", starts).Ok?
    ensures var s' := Invoke(s, s.jobs[0].downloader, Failed, "", starts).s;
            && s'.jobs == s.jobs[1..] && s'.tasks == s.tasks && s'.calls == s.calls && !s'.factory
            && Aborted(s', s.jobs[0].id) && (forall id :: Aborted(s, id) ==> Aborted(s', id))
  {
  }

  /** stop() for all of them leaves no job: each is shown as failed. */
  lemma {:induction false} StopAllEnds(s: Scheduler, starts: Starts)
    requires !s.factory
    ensures StopAll(s, Downloaders(s.jobs), starts).Ok?
    ensures var s' := StopAll(s, Downloaders(s.jobs), starts).s;
            && s'.jobs == [] && s'.tasks == s.tasks && s'.calls == s.calls && !s'.factory
            && (forall i :: 0 <= i < |s.jobs| ==> Aborted(s', s.jobs[i].id))
            && (forall id :: Aborted(s, id) ==> Aborted(s', id))
    decreases |s.jobs|
  {
    if s.jobs != [] {
      StopFirst(s, starts);
      StopAllEnds(Invoke(s, s.jobs[0].downloader, Failed, "", starts).s, starts);
    }
  }

  /** SIGINT ends every job and takes no further task. */
  lemma InterruptEnds(s: Scheduler, starts: Starts)
    ensures Step(s, Interrupt, starts).Ok?
    ensures var s' := Step(s, Interrupt, starts).s;
            && s'.jobs == [] && s'.tasks == s.tasks && s'.calls == s.calls && !s'.factory
            && (forall i :: 0 <= i < |s.jobs| ==> Aborted(s', s.jobs[i].id))
  {
    StopAllEnds(Gone(s), starts);
  }

  lemma StepBusy(s: Scheduler, e: Event, n: nat, starts: Starts)
    requires Busy(s, n) && Step(s, e, starts).Ok?
    ensures Busy(Step(s, e, starts).s, n)
  {
    match e
    case Report(downloader, state, uri) => InvokeBusy(s, downloader, state, uri, n, starts);
    case Interrupt => InterruptEnds(s, starts);
  }

  lemma {:induction false} RunBusy(s: Scheduler, events: seq<Event>, n: nat, starts: Starts)
    requires Busy(s, n) && Run(s, events, starts).Ok?
    ensures Busy(Run(s, events, starts).s, n)
    decreases |events|
  {
    if events != [] {
      StepBusy(s, events[0], n, starts);
      RunBusy(Step(s, events[0], starts).s, events[1..], n, starts);
    }
  }

  /** Without a job nothing ever happens. */
  lemma {:induction false} RunIdle(s: Scheduler, events: seq<Event>, starts: Starts)
    requires s.jobs == [] && Run(s, events, starts).Ok?
    ensures Run(s, events, starts).s.tasks == s.tasks
    decreases |events|
  {
    if events != [] {
      InterruptEnds(s, starts);
      RunIdle(Step(s, events[0], starts).s, events[1..], starts);
    }
  }

  /** One of the first `n` downloads from call `c` on starts. */
  ghost predicate SomeStarts(c: nat, n: nat, starts: Starts) {
    exists k :: c <= k < c + n && starts(k)
  }

  lemma {:induction false} OpenTakes(s: Scheduler, n: nat, starts: Starts)
    ensures var s' := Open(s, n, starts);
            && s'.factory == s.factory
            && |s.jobs| <= |s'.jobs| <= |s.jobs| + n
            && (s'.tasks == [] <==> |s.tasks| <= n)
            && (n <= |s.tasks| ==> (|s'.jobs| > |s.jobs| <==> SomeStarts(|s.calls|, n, starts)))
    decreases n
  {
    if n > 0 && s.tasks != [] {
      var s1 := TakeTask(s, starts);
      OpenTakes(s1, n - 1, starts);
      assert SomeStarts(|s.calls|, n, starts) <==> starts(|s.calls|) || SomeStarts(|s.calls| + 1, n - 1, starts);
    }
  }

  /** The program never runs more than `n` jobs, and as many as it started with until the tasks
      run out. */
  lemma SlotsStayBusy(maxRedirect: nat, all: seq<Task>, n: nat, events: seq<Event>, starts: Starts)
    requires Program(maxRedirect, all, n, events, starts).Ok?
    ensures var s := Program(maxRedirect, all, n, events, starts).s;
            && |s.jobs| <= n
            && Busy(s, |Open(OnTickModel.Init(maxRedirect, all), n, starts).jobs|)
  {
    var s := Open(OnTickModel.Init(maxRedirect, all), n, starts);
    OpenTakes(OnTickModel.Init(maxRedirect, all), n, starts);
    RunBusy(s, events, |s.jobs|, starts);
  }

  /** When the program ends of itself all tasks have been taken if and only if there were no more
      than `n` of them or one of the first `n` could be started: main() does not replace those
      that could not. */
  lemma AllTasksServed(maxRedirect: nat, all: seq<Task>, n: nat, events: seq<Event>, starts: Starts)
    requires Program(maxRedirect, all, n, events, starts).Ok?
    requires Program(maxRedirect, all, n, events, starts).s.jobs == []
    requires Program(maxRedirect, all, n, events, starts).s.factory
    ensures Program(maxRedirect, all, n, events, starts).s.tasks == [] <==> |all| <= n || SomeStarts(0, n, starts)
  {
    var s := Open(OnTickModel.Init(maxRedirect, all), n, starts);
    OpenTakes(OnTickModel.Init(maxRedirect, all), n, starts);
    RunBusy(s, events, |s.jobs|, starts);
    if s.jobs == [] {
      RunIdle(s, events, starts);
    }
    assert |all| <= n ==> s.tasks == [];
    if s.tasks == [] {
      RunNoTasks(s, events, starts);
    }
  }

  lemma {:induction false} RunNoTasks(s: Scheduler, events: seq<Event>, starts: Starts)
    requires s.tasks == [] && Run(s, events, starts).Ok?
    ensures Run(s, events, starts).s.tasks == []
    decreases |events|
  {
    if events != [] {
      if events[0].Interrupt? {
        InterruptEnds(s, starts);
      } else {
        OthersUnchanged(s, events[0].downloader, events[0].state, events[0].uri, starts);
      }
      RunNoTasks(Step(s, events[0], starts).s, events[1..], starts);
    }
  }

  /** AllTasksServed needs its condition.  With one download at a time, the first of two tasks
      cannot be started: the program ends at once, and the second task is never taken. */
  lemma TaskLeftBehind(maxRedirect: nat, first: Task, second: Task, starts: Starts)
    requires !starts(0)
    ensures Program(maxRedirect, [first, second], 1, [], starts).Ok?
    ensures var s := Program(maxRedirect, [first, second], 1, [], starts).s;
            && s.jobs == [] && s.factory && s.tasks == [second] && |s.calls| == 1
            && s.shown == map[1 := Failed] && s.exits == {1}
  {
    var s := OnTickModel.Init(maxRedirect, [first, second]);
    assert [first, second][1..] == [second];
    assert Open(s, 1, starts) == TakeTask(s, starts);
  }
}
