/** Which addresses the scheduler asks the factory for, and what the dashboard is told. */
module OnTickCalls {
  import opened OnTickModel
  import opened OnTickTheorems
  import opened OnTickResults
  import opened StatusDownloader

  // ---------------------------------------------------------------------------- the addresses

  /** The addresses asked for on behalf of a job, in order. */
  function Uris(calls: seq<Call>, id: nat): seq<string> {
    if calls == [] then []
    else
      var call := calls[|calls| - 1];
      Uris(calls[..|calls| - 1], id) + if call.id == id then [call.uri] else []
  }

  lemma UrisPush(calls: seq<Call>, call: Call, id: nat)
    ensures Uris(calls + [call], id) == Uris(calls, id) + if call.id == id then [call.uri] else []
  {
    assert (calls + [call])[..|calls|] == calls;
  }

  /** The address in a redirect report of the job, if that is followed: the job is running with this
      downloader, the factory still exists, and no more than max_redirect addresses were asked for. */
  function Redirected(s: Scheduler, e: Event, id: nat): seq<string> {
    if e.Report? && e.state == Redirect && s.factory && |Uris(s.calls, id)| <= s.maxRedirect
       && exists i | 0 <= i < |s.jobs| :: s.jobs[i].id == id && s.jobs[i].downloader == e.downloader
    then [e.uri]
    else []
  }

  /** Those of a run. */
  function AllRedirected(s: Scheduler, events: seq<Event>, id: nat, starts: Starts): seq<string>
    decreases |events|
  {
    if events == [] || Step(s, events[0], starts).InvalidDownloader? then []
    else Redirected(s, events[0], id) + AllRedirected(Step(s, events[0], starts).s, events[1..], id, starts)
  }

  /** The task's own address and then `more` were asked for, under the task's file name. */
  ghost predicate Asked(s: Scheduler, all: seq<Task>, id: nat, more: seq<string>) {
    if 1 <= id < s.nextId && s.nextId <= |all| + 1
    then Uris(s.calls, id) == [all[id - 1].uri] + more
    else Uris(s.calls, id) == [] && more == []
  }

  ghost predicate Named(s: Scheduler, all: seq<Task>) {
    forall k | 0 <= k < |s.calls| ::
      && 1 <= s.calls[k].id < s.nextId <= |all| + 1
      && s.calls[k].fname == all[s.calls[k].id - 1].fname
  }

  /** A running job has been redirected once for each address but the first. */
  ghost predicate Counted(s: Scheduler) {
    forall i | 0 <= i < |s.jobs| :: |Uris(s.calls, s.jobs[i].id)| == s.jobs[i].redirectCount + 1
  }

  lemma {:induction false} UrisNone(calls: seq<Call>, id: nat)
    requires forall k | 0 <= k < |calls| :: calls[k].id != id
    ensures Uris(calls, id) == []
    decreases |calls|
  {
    if calls != [] {
      UrisNone(calls[..|calls| - 1], id);
    }
  }

  /** What is known of the calls: of job `id` what `more` says. */
  ghost predicate Recorded(s: Scheduler, all: seq<Task>, id: nat, more: seq<string>) {
    Asked(s, all, id, more) && Named(s, all) && Counted(s)
  }

  // ----------------------------------------------------------------------------- taking tasks

  lemma TakeAsks(s: Scheduler, all: seq<Task>, id: nat, more: seq<string>, starts: Starts)
    requires Numbered(s, all) && Asked(s, all, id, more) && s.tasks != []
    ensures Asked(TakeTask(s, starts), all, id, more)
  {
    var s' := TakeTask(s, starts);
    UrisPush(s.calls, s'.calls[|s.calls|], id);
    assert s.tasks[0] == all[s.nextId - 1];
  }

  lemma TakeNames(s: Scheduler, all: seq<Task>, starts: Starts)
    requires Numbered(s, all) && Named(s, all) && s.tasks != []
    ensures Named(TakeTask(s, starts), all)
  {
    var s' := TakeTask(s, starts);
    assert s.tasks[0] == all[s.nextId - 1];
    forall k | 0 <= k < |s'.calls|
      ensures 1 <= s'.calls[k].id < s'.nextId && s'.calls[k].fname == all[s'.calls[k].id - 1].fname
    {
      assert k < |s.calls| ==> s'.calls[k] == s.calls[k];
    }
  }

  lemma CountedPush(calls: seq<Call>, call: Call, job: Job)
    requires |Uris(calls, job.id)| == job.redirectCount + 1 && call.id != job.id
    ensures |Uris(calls + [call], job.id)| == job.redirectCount + 1
  {
    UrisPush(calls, call, job.id);
  }

  lemma TakeCounts(s: Scheduler, all: seq<Task>, starts: Starts)
    requires Numbered(s, all) && Named(s, all) && Counted(s) && s.tasks != []
    ensures Counted(TakeTask(s, starts))
  {
    var s', call := TakeTask(s, starts), Call(s.nextId, s.tasks[0].uri, s.tasks[0].fname);
    assert s'.calls == s.calls + [call];
    forall i | 0 <= i < |s'.jobs|
      ensures |Uris(s'.calls, s'.jobs[i].id)| == s'.jobs[i].redirectCount + 1
    {
      if i < |s.jobs| {
        CountedPush(s.calls, call, s.jobs[i]);
      } else {
        UrisNone(s.calls, s.nextId);
        UrisPush(s.calls, call, s.nextId);
      }
    }
  }

  lemma TakeRecords(s: Scheduler, all: seq<Task>, id: nat, more: seq<string>, starts: Starts)
    requires Numbered(s, all) && Recorded(s, all, id, more) && s.tasks != []
    ensures Recorded(TakeTask(s, starts), all, id, more)
  {
    TakeAsks(s, all, id, more, starts);
    TakeNames(s, all, starts);
    TakeCounts(s, all, starts);
  }

  lemma {:induction false} PullRecords(s: Scheduler, all: seq<Task>, id: nat, more: seq<string>, starts: Starts)
    requires Sound(s, all, starts) && Recorded(s, all, id, more)
    ensures Recorded(Pull(s, starts), all, id, more)
    decreases |s.tasks|
  {
    if s.tasks != [] {
      TakeSound(s, all, starts);
      TakeRecords(s, all, id, more, starts);
      if !starts(|s.calls|) {
        PullRecords(TakeTask(s, starts), all, id, more, starts);
      }
    }
  }

  lemma {:induction false} OpenRecords(s: Scheduler, n: nat, all: seq<Task>, id: nat, more: seq<string>, starts: Starts)
    requires Sound(s, all, starts) && Recorded(s, all, id, more)
    ensures Recorded(Open(s, n, starts), all, id, more)
    decreases n
  {
    if n > 0 && s.tasks != [] {
      var s1 := TakeTask(s, starts);
      TakeSound(s, all, starts);
      TakeRecords(s, all, id, more, starts);
      OpenRecords(s1, n - 1, all, id, more, starts);
    }
  }

  // -------------------------------------------------------------------------------- a report

  /** All but job `i` may be relied on: that one is over, and possibly counted wrongly. */
  ghost predicate RecordedBut(s: Scheduler, i: nat, all: seq<Task>, id: nat, more: seq<string>) {
    && Asked(s, all, id, more) && Named(s, all)
    && (forall j | 0 <= j < |s.jobs| && j != i :: |Uris(s.calls, s.jobs[j].id)| == s.jobs[j].redirectCount + 1)
  }

  lemma EraseRecords(s: Scheduler, i: nat, all: seq<Task>, id: nat, more: seq<string>)
    requires i < |s.jobs| && RecordedBut(s, i, all, id, more)
    ensures Recorded(Erase(s, i), all, id, more)
  {
    var s' := Erase(s, i);
    forall j | 0 <= j < |s'.jobs|
      ensures |Uris(s'.calls, s'.jobs[j].id)| == s'.jobs[j].redirectCount + 1
    {
      assert s'.jobs[j] == s.jobs[if j < i then j else j + 1];
    }
  }

  lemma NextTaskRecords(s: Scheduler, i: nat, all: seq<Task>, id: nat, more: seq<string>, starts: Starts)
    requires Over(s, i, all, starts) && s.jobs[i].id in s.shown && Final(s, s.shown[s.jobs[i].id])
    requires RecordedBut(s, i, all, id, more)
    ensures Recorded(NextTask(s, i, starts), all, id, more)
  {
    EraseSound(s, i, all, starts);
    EraseRecords(s, i, all, id, more);
    if s.factory {
      PullRecords(Erase(s, i), all, id, more, starts);
    }
  }

  /** A report of job `i` makes the scheduler ask at most for that job. */
  lemma RedirectedIs(s: Scheduler, e: Event, i: nat, all: seq<Task>, starts: Starts, id: nat)
    requires Sound(s, all, starts) && Counted(s) && i < |s.jobs| && e.Report? && s.jobs[i].downloader == e.downloader
    ensures Redirected(s, e, id) ==
            if id == s.jobs[i].id && e.state == Redirect && s.factory && s.jobs[i].redirectCount < s.maxRedirect
            then [e.uri] else []
  {
    if exists j | 0 <= j < |s.jobs| :: s.jobs[j].id == id && s.jobs[j].downloader == e.downloader {
      var j :| 0 <= j < |s.jobs| && s.jobs[j].id == id && s.jobs[j].downloader == e.downloader;
      assert j == i;
    } else {
      assert id != s.jobs[i].id;
    }
  }

  lemma CountRecords(s: Scheduler, i: nat, all: seq<Task>, id: nat, more: seq<string>)
    requires Recorded(s, all, id, more) && i < |s.jobs|
    ensures RecordedBut(Count(s, i), i, all, id, more)
  {
  }

  lemma ShowRecords(s: Scheduler, i: nat, state: State, all: seq<Task>, id: nat, more: seq<string>)
    requires i < |s.jobs|
    ensures Recorded(s, all, id, more) ==> Recorded(Show(s, i, state), all, id, more)
    ensures RecordedBut(s, i, all, id, more) ==> RecordedBut(Show(s, i, state), i, all, id, more)
  {
  }

  /** The redirect that is one too many, or comes when the factory is gone. */
  lemma GivenUpRecords(s: Scheduler, i: nat, uri: string, all: seq<Task>, id: nat, more: seq<string>, starts: Starts)
    requires Sound(s, all, starts) && Recorded(s, all, id, more) && i < |s.jobs|
    requires s.jobs[i].id in s.shown && s.shown[s.jobs[i].id] == Redirect
    requires s.jobs[i].redirectCount >= s.maxRedirect || !s.factory
    ensures Recorded(Follow(Count(s, i), i, uri, starts), all, id, more)
  {
    var c := Count(s, i);
    CountOver(s, i, all, starts);
    CountRecords(s, i, all, id, more);
    if c.jobs[i].redirectCount > c.maxRedirect {
      ShowOver(c, i, Failed, all, starts);
      ShowRecords(c, i, Failed, all, id, more);
      NextTaskRecords(Show(c, i, Failed), i, all, id, more, starts);
    } else {
      EraseRecords(c, i, all, id, more);
    }
  }

  /** One more address is asked for on behalf of job `i`. */
  lemma PushRecords(s: Scheduler, i: nat, call: Call, all: seq<Task>, id: nat, more: seq<string>, s': Scheduler)
    requires Numbered(s, all) && Apart(s) && Recorded(s, all, id, more) && i < |s.jobs|
    requires call.id == s.jobs[i].id && call.fname == s.jobs[i].fname
    requires s'.calls == s.calls + [call] && s'.nextId == s.nextId && |s'.jobs| == |s.jobs|
    requires forall j | 0 <= j < |s.jobs| && j != i :: s'.jobs[j] == s.jobs[j]
    requires s'.jobs[i].id == call.id && s'.jobs[i].redirectCount == s.jobs[i].redirectCount + 1
    ensures Recorded(s', all, id, more + if id == call.id then [call.uri] else [])
    ensures RecordedBut(s', i, all, id, more + if id == call.id then [call.uri] else [])
  {
    UrisPush(s.calls, call, id);
    if id == call.id {
      assert [all[id - 1].uri] + more + [call.uri] == [all[id - 1].uri] + (more + [call.uri]);
    } else {
      assert more + [] == more;
    }
    forall j | 0 <= j < |s'.jobs|
      ensures |Uris(s'.calls, s'.jobs[j].id)| == s'.jobs[j].redirectCount + 1
    {
      UrisPush(s.calls, call, s'.jobs[j].id);
    }
  }

  /** The redirect that is followed. */
  lemma FollowRecords(s: Scheduler, i: nat, uri: string, all: seq<Task>, id: nat, more: seq<string>, starts: Starts)
    requires Sound(s, all, starts) && Recorded(s, all, id, more) && i < |s.jobs|
    requires s.jobs[i].id in s.shown && s.shown[s.jobs[i].id] == Redirect
    requires s.jobs[i].redirectCount < s.maxRedirect && s.factory
    ensures Recorded(Follow(Count(s, i), i, uri, starts), all, id, more + if id == s.jobs[i].id then [uri] else [])
  {
    var c, call := Count(s, i), Call(s.jobs[i].id, uri, s.jobs[i].fname);
    var s' := Create(c, call, starts);
    var now := more + if id == s.jobs[i].id then [uri] else [];
    if starts(|s.calls|) {
      PushRecords(s, i, call, all, id, more, Follow(c, i, uri, starts));
    } else {
      PushRecords(s, i, call, all, id, more, s');
      CountOver(s, i, all, starts);
      CreateOver(c, i, uri, all, starts);
      NextTaskRecords(s', i, all, id, now, starts);
    }
  }

  lemma RedirectRecords(s: Scheduler, e: Event, i: nat, all: seq<Task>, id: nat, more: seq<string>, starts: Starts)
    requires Sound(s, all, starts) && Recorded(s, all, id, more) && i < |s.jobs|
    requires e.Report? && s.jobs[i].downloader == e.downloader && e.state == Redirect
    ensures var s1 := Show(s, i, Redirect);
            Recorded(Follow(Count(s1, i), i, e.uri, starts), all, id, more + Redirected(s, e, id))
  {
    var s1 := Show(s, i, Redirect);
    ShowSound(s, i, Redirect, all, starts);
    ShowRecords(s, i, Redirect, all, id, more);
    RedirectedIs(s, e, i, all, starts, id);
    if s.factory && s.jobs[i].redirectCount < s.maxRedirect {
      FollowRecords(s1, i, e.uri, all, id, more, starts);
    } else {
      assert more + [] == more;
      GivenUpRecords(s1, i, e.uri, all, id, more, starts);
    }
  }

  lemma FinalRecords(s: Scheduler, i: nat, state: State, all: seq<Task>, id: nat, more: seq<string>, starts: Starts)
    requires Sound(s, all, starts) && Recorded(s, all, id, more) && i < |s.jobs| && (state == Done || state == Failed)
    ensures Recorded(NextTask(Show(s, i, state), i, starts), all, id, more)
  {
    var s1 := Show(s, i, state);
    ShowSound(s, i, state, all, starts);
    ShowRecords(s, i, state, all, id, more);
    SoundOver(s1, i, all, starts);
    NextTaskRecords(s1, i, all, id, more, starts);
  }

  lemma ReportSteps(s: Scheduler, i: nat, e: Event, all: seq<Task>, starts: Starts)
    requires Sound(s, all, starts) && i < |s.jobs| && e.Report? && s.jobs[i].downloader == e.downloader
    ensures var s1 := Show(s, i, e.state);
            Step(s, e, starts) == Ok(if e.state == Redirect then Follow(Count(s1, i), i, e.uri, starts)
                                     else if IsFinal(e.state) then NextTask(s1, i, starts)
                                     else s1)
  {
    assert Find(s.jobs, e.downloader) == i;
  }

  lemma ReportRecords(s: Scheduler, e: Event, all: seq<Task>, id: nat, more: seq<string>, starts: Starts)
    requires Sound(s, all, starts) && Recorded(s, all, id, more) && e.Report? && Step(s, e, starts).Ok?
    ensures Recorded(Step(s, e, starts).s, all, id, more + Redirected(s, e, id))
  {
    var i := Find(s.jobs, e.downloader);
    ReportSteps(s, i, e, all, starts);
    if e.state == Redirect {
      RedirectRecords(s, e, i, all, id, more, starts);
    } else {
      assert more + [] == more;
      if IsFinal(e.state) {
        FinalRecords(s, i, e.state, all, id, more, starts);
      } else {
        ShowRecords(s, i, e.state, all, id, more);
      }
    }
  }

  lemma {:induction false} StopAllNumbers(s: Scheduler, starts: Starts)
    requires !s.factory && StopAll(s, Downloaders(s.jobs), starts).Ok?
    ensures StopAll(s, Downloaders(s.jobs), starts).s.nextId == s.nextId
    decreases |s.jobs|
  {
    if s.jobs != [] {
      StopFirst(s, starts);
      StopAllNumbers(Invoke(s, s.jobs[0].downloader, Failed, "", starts).s, starts);
    }
  }

  /** SIGINT asks for nothing. */
  lemma InterruptRecords(s: Scheduler, all: seq<Task>, id: nat, more: seq<string>, starts: Starts)
    requires Recorded(s, all, id, more) && Step(s, Interrupt, starts).Ok?
    ensures Recorded(Step(s, Interrupt, starts).s, all, id, more)
  {
    InterruptEnds(s, starts);
    StopAllNumbers(Gone(s), starts);
  }

  lemma StepRecords(s: Scheduler, e: Event, all: seq<Task>, id: nat, more: seq<string>, starts: Starts)
    requires Sound(s, all, starts) && Recorded(s, all, id, more) && Step(s, e, starts).Ok?
    ensures Recorded(Step(s, e, starts).s, all, id, more + Redirected(s, e, id))
  {
    if e.Report? {
      ReportRecords(s, e, all, id, more, starts);
    } else {
      assert more + [] == more;
      InterruptRecords(s, all, id, more, starts);
    }
  }

  lemma Regroup(a: seq<string>, b: seq<string>, c: seq<string>)
    ensures a + (b + c) == (a + b) + c
  {
  }

  lemma {:induction false} RunRecords(s: Scheduler, events: seq<Event>, all: seq<Task>, id: nat, more: seq<string>,
                                      starts: Starts, end: Scheduler, total: seq<string>)
    requires Sound(s, all, starts) && Recorded(s, all, id, more) && Run(s, events, starts) == Ok(end)
    requires total == more + AllRedirected(s, events, id, starts)
    ensures Recorded(end, all, id, total)
    decreases |events|
  {
    if events == [] {
      assert more + [] == more;
    } else {
      var s', now := Step(s, events[0], starts).s, Redirected(s, events[0], id);
      StepSound(s, events[0], all, starts);
      StepRecords(s, events[0], all, id, more, starts);
      Regroup(more, now, AllRedirected(s', events[1..], id, starts));
      RunRecords(s', events[1..], all, id, more + now, starts, end, total);
    }
  }

  /** Every address that is ever asked for.  On behalf of a task first its own address is asked for,
      then those of the redirect reports that are followed, in order; always under its file name; and
      nothing is asked for on behalf of anybody else. */
  lemma CallsMade(maxRedirect: nat, all: seq<Task>, n: nat, events: seq<Event>, starts: Starts, id: nat)
    requires Program(maxRedirect, all, n, events, starts).Ok?
    ensures
      var s0 := Open(OnTickModel.Init(maxRedirect, all), n, starts);
      var s := Program(maxRedirect, all, n, events, starts).s;
      && 1 <= s.nextId <= |all| + 1
      && Uris(s.calls, id) ==
         (if 1 <= id < s.nextId then [all[id - 1].uri] + AllRedirected(s0, events, id, starts) else [])
      && (forall k | 0 <= k < |s.calls| ::
            1 <= s.calls[k].id < s.nextId && s.calls[k].fname == all[s.calls[k].id - 1].fname)
  {
    var init := OnTickModel.Init(maxRedirect, all);
    var s0 := Open(init, n, starts);
    InitSound(maxRedirect, all, starts);
    OpenSound(init, n, all, starts);
    OpenRecords(init, n, all, id, [], starts);
    RunSound(s0, events, all, starts);
    var more := AllRedirected(s0, events, id, starts);
    assert [] + more == more;
    RunRecords(s0, events, all, id, [], starts, Run(s0, events, starts).s, more);
  }

  // ---------------------------------------------------------------------------- the dashboard

  /** What the dashboard shows of jobs that were known before has not changed but for job `id`, and it
      shows of each job taken since whether its download was started. */
  ghost predicate Displays(s: Scheduler, s': Scheduler, id: int) {
    && s.nextId <= s'.nextId
    && (forall k: nat :: k < s.nextId && k != id ==> (k in s'.shown <==> k in s.shown))
    && (forall k: nat :: k < s.nextId && k != id && k in s.shown ==> s'.shown[k] == s.shown[k])
    && (forall k: nat :: s.nextId <= k < s'.nextId ==> k in s'.shown)
    && (forall k: nat :: s.nextId <= k < s'.nextId ==> s'.shown[k] == if Runs(s'.jobs, k) then OnTheGo else Failed)
  }

  lemma TakeDisplays(s: Scheduler, all: seq<Task>, starts: Starts)
    requires Numbered(s, all) && s.tasks != []
    ensures Displays(s, TakeTask(s, starts), -1) && TakeTask(s, starts).nextId == s.nextId + 1
  {
    var s' := TakeTask(s, starts);
    if starts(|s.calls|) {
      assert s'.jobs[|s.jobs|].id == s.nextId;
    } else {
      assert !Runs(s'.jobs, s.nextId);
    }
  }

  /** Tasks that are taken later do not change what is shown of those taken before. */
  lemma {:induction false} PullDisplays(s: Scheduler, all: seq<Task>, starts: Starts)
    requires Sound(s, all, starts)
    ensures Displays(s, Pull(s, starts), -1)
    ensures forall k: nat :: k < s.nextId ==> (Runs(Pull(s, starts).jobs, k) <==> Runs(s.jobs, k))
    decreases |s.tasks|
  {
    if s.tasks != [] {
      var s1 := TakeTask(s, starts);
      TakeSound(s, all, starts);
      TakeDisplays(s, all, starts);
      TakeRuns(s, all, starts);
      if !starts(|s.calls|) {
        PullDisplays(s1, all, starts);
      }
    }
  }

  lemma TakeRuns(s: Scheduler, all: seq<Task>, starts: Starts)
    requires Numbered(s, all) && s.tasks != []
    ensures forall k: nat :: k < s.nextId ==> (Runs(TakeTask(s, starts).jobs, k) <==> Runs(s.jobs, k))
  {
    var s' := TakeTask(s, starts);
    forall k: nat | k < s.nextId
      ensures Runs(s'.jobs, k) <==> Runs(s.jobs, k)
    {
      if Runs(s.jobs, k) {
        var i :| 0 <= i < |s.jobs| && s.jobs[i].id == k;
        assert s'.jobs[i].id == k;
      }
    }
  }

  /** The job is over, and the next task may be taken. */
  lemma NextTaskDisplays(s: Scheduler, i: nat, all: seq<Task>, starts: Starts)
    requires Over(s, i, all, starts) && s.jobs[i].id in s.shown && Final(s, s.shown[s.jobs[i].id])
    ensures Displays(s, NextTask(s, i, starts), -1)
  {
    EraseSound(s, i, all, starts);
    if s.factory {
      PullDisplays(Erase(s, i), all, starts);
    }
  }

  lemma DisplaysThen(s: Scheduler, s1: Scheduler, s': Scheduler, id: nat, shown: State)
    requires id < s.nextId == s1.nextId && Displays(s1, s', -1)
    requires s1.shown == s.shown[id := shown]
    ensures Displays(s, s', id) && id in s'.shown && s'.shown[id] == shown
  {
  }

  /** What a report makes of the job's own entry. */
  function Entry(s: Scheduler, i: nat, state: State, starts: Starts): State
    requires i < |s.jobs|
  {
    if state != Redirect then state
    else if s.jobs[i].redirectCount >= s.maxRedirect then Failed
    else if !s.factory then Redirect
    else if starts(|s.calls|) then OnTheGo
    else Failed
  }

  lemma GivenUpDisplays(s: Scheduler, i: nat, uri: string, all: seq<Task>, starts: Starts)
    requires Sound(s, all, starts) && i < |s.jobs| && s.jobs[i].redirectCount >= s.maxRedirect
    ensures var s' := Follow(Count(s, i), i, uri, starts);
            Displays(s, s', s.jobs[i].id) && s.jobs[i].id in s'.shown && s'.shown[s.jobs[i].id] == Failed
  {
    var c := Count(s, i);
    var s1 := Show(c, i, Failed);
    CountOver(s, i, all, starts);
    ShowOver(c, i, Failed, all, starts);
    NextTaskDisplays(s1, i, all, starts);
    DisplaysThen(s, s1, NextTask(s1, i, starts), s.jobs[i].id, Failed);
  }

  lemma FollowDisplays(s: Scheduler, i: nat, uri: string, all: seq<Task>, starts: Starts)
    requires Sound(s, all, starts) && i < |s.jobs| && s.jobs[i].redirectCount < s.maxRedirect && s.factory
    ensures var s', shown := Follow(Count(s, i), i, uri, starts), if starts(|s.calls|) then OnTheGo else Failed;
            Displays(s, s', s.jobs[i].id) && s.jobs[i].id in s'.shown && s'.shown[s.jobs[i].id] == shown
  {
    var c := Count(s, i);
    var s1 := Create(c, Call(c.jobs[i].id, uri, c.jobs[i].fname), starts);
    if !starts(|s.calls|) {
      CountOver(s, i, all, starts);
      CreateOver(c, i, uri, all, starts);
      NextTaskDisplays(s1, i, all, starts);
      DisplaysThen(s, s1, NextTask(s1, i, starts), s.jobs[i].id, Failed);
    }
  }

  ghost predicate Displayed(s: Scheduler, s': Scheduler, id: nat, state: State) {
    Displays(s, s', id) && id in s'.shown && s'.shown[id] == state
  }

  /** What was shown first makes no difference to what is shown of the others. */
  lemma DisplayedSince(s: Scheduler, s1: Scheduler, s': Scheduler, id: nat, first: State, state: State)
    requires Displayed(s1, s', id, state) && s1.nextId == s.nextId && s1.shown == s.shown[id := first]
    ensures Displayed(s, s', id, state)
  {
  }

  lemma RedirectDisplays(s: Scheduler, i: nat, uri: string, all: seq<Task>, starts: Starts)
    requires Sound(s, all, starts) && i < |s.jobs|
    ensures var s1 := Show(s, i, Redirect);
            Displayed(s, Follow(Count(s1, i), i, uri, starts), s.jobs[i].id, Entry(s, i, Redirect, starts))
  {
    var s1, id := Show(s, i, Redirect), s.jobs[i].id;
    var s' := Follow(Count(s1, i), i, uri, starts);
    ShowSound(s, i, Redirect, all, starts);
    if s.jobs[i].redirectCount >= s.maxRedirect {
      GivenUpDisplays(s1, i, uri, all, starts);
      DisplayedSince(s, s1, s', id, Redirect, Failed);
    } else if s.factory {
      FollowDisplays(s1, i, uri, all, starts);
      DisplayedSince(s, s1, s', id, Redirect, Entry(s, i, Redirect, starts));
    }
  }

  lemma FinalDisplays(s: Scheduler, i: nat, state: State, all: seq<Task>, starts: Starts)
    requires Sound(s, all, starts) && i < |s.jobs| && (state == Done || state == Failed)
    ensures Displayed(s, NextTask(Show(s, i, state), i, starts), s.jobs[i].id, state)
  {
    var s1 := Show(s, i, state);
    ShowSound(s, i, state, all, starts);
    SoundOver(s1, i, all, starts);
    NextTaskDisplays(s1, i, all, starts);
    DisplaysThen(s, s1, NextTask(s1, i, starts), s.jobs[i].id, state);
  }

  lemma OtherDisplays(s: Scheduler, i: nat, state: State, all: seq<Task>, starts: Starts)
    requires Numbered(s, all) && i < |s.jobs| && !IsFinal(state)
    ensures Displayed(s, Show(s, i, state), s.jobs[i].id, state)
  {
  }

  /** A report is shown as it is, unless it is a redirect that is not followed or whose download is
      started or not; nothing else that is shown changes, and of the tasks taken in its wake it is
      shown whether their downloads were started. */
  lemma ReportIsShown(s: Scheduler, i: nat, e: Event, all: seq<Task>, starts: Starts)
    requires Sound(s, all, starts) && i < |s.jobs| && e.Report? && s.jobs[i].downloader == e.downloader
    ensures Step(s, e, starts).Ok?
    ensures Displayed(s, Step(s, e, starts).s, s.jobs[i].id, Entry(s, i, e.state, starts))
  {
    ReportSteps(s, i, e, all, starts);
    if e.state == Redirect {
      RedirectDisplays(s, i, e.uri, all, starts);
    } else if IsFinal(e.state) {
      FinalDisplays(s, i, e.state, all, starts);
    } else {
      OtherDisplays(s, i, e.state, all, starts);
    }
  }
}
