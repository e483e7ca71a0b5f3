/** What the scheduler keeps, and how much work it can be made to do. */
module OnTickTheorems {
  import opened OnTickModel
  import opened StatusDownloader

  // ------------------------------------------------------------------------------ the ledger

  ghost predicate Runs(jobs: seq<Job>, id: nat) {
    exists i :: 0 <= i < |jobs| && jobs[i].id == id
  }

  function CallsFor(calls: seq<Call>, id: nat): nat {
    if calls == [] then 0
    else CallsFor(calls[..|calls| - 1], id) + if calls[|calls| - 1].id == id then 1 else 0
  }

  /** Every task taken from the list `all` is either running as a job or over, and not both. */
  ghost predicate Placed(s: Scheduler, all: seq<Task>) {
    Numbered(s, all) && Covered(s) && Apart(s)
  }

  ghost predicate Numbered(s: Scheduler, all: seq<Task>) {
    && 1 <= s.nextId <= |all| + 1
    && s.tasks == all[s.nextId - 1..]
    && |s.jobs| + |s.exits| == s.nextId - 1
    && (forall i :: 0 <= i < |s.jobs| ==> 1 <= s.jobs[i].id < s.nextId)
    && (forall i :: 0 <= i < |s.jobs| ==> s.jobs[i].fname == all[s.jobs[i].id - 1].fname)
  }

  ghost predicate Covered(s: Scheduler) {
    forall k :: 1 <= k < s.nextId ==> Runs(s.jobs, k) || k in s.exits
  }

  ghost predicate Apart(s: Scheduler) {
    && (forall k <- s.exits :: 1 <= k < s.nextId)
    && (forall i :: 0 <= i < |s.jobs| ==> s.jobs[i].id !in s.exits)
    && (forall i, j :: 0 <= i < j < |s.jobs| ==> s.jobs[i].id != s.jobs[j].id)
  }

  /** Every job has a downloader of its own, which was asked for in its name. */
  ghost predicate Staffed(s: Scheduler, starts: Starts) {
    && (forall i, j :: 0 <= i < j < |s.jobs| ==> s.jobs[i].downloader != s.jobs[j].downloader)
    && (forall i :: 0 <= i < |s.jobs| ==> Serves(s.calls, s.jobs[i], starts))
  }

  ghost predicate Serves(calls: seq<Call>, job: Job, starts: Starts) {
    && job.downloader < |calls| && starts(job.downloader)
    && calls[job.downloader].id == job.id && calls[job.downloader].fname == job.fname
  }

  /** No job has been redirected too often, and none asked for more than one download each time. */
  ghost predicate Frugal(s: Scheduler) {
    && (forall i :: 0 <= i < |s.jobs| ==> s.jobs[i].redirectCount <= s.maxRedirect)
    && (forall i :: 0 <= i < |s.jobs| ==> CallsFor(s.calls, s.jobs[i].id) <= s.jobs[i].redirectCount + 1)
    && (forall id :: CallsFor(s.calls, id) <= s.maxRedirect + 1)
    && (forall id :: id >= s.nextId ==> CallsFor(s.calls, id) == 0)
  }

  /** The dashboard was told the end of a job, unless the factory was gone when it was redirected. */
  ghost predicate Told(s: Scheduler) {
    forall id <- s.exits :: id in s.shown && Final(s, s.shown[id])
  }

  predicate Final(s: Scheduler, state: State) {
    state == Done || state == Failed || (state == Redirect && !s.factory)
  }

  ghost predicate Sound(s: Scheduler, all: seq<Task>, starts: Starts) {
    Placed(s, all) && Staffed(s, starts) && Frugal(s) && Told(s)
  }

  lemma InitSound(maxRedirect: nat, all: seq<Task>, starts: Starts)
    ensures Sound(OnTickModel.Init(maxRedirect, all), all, starts)
  {
  }

  // ---------------------------------------------------------------------------- taking tasks

  lemma CallsForPush(calls: seq<Call>, call: Call, id: nat)
    ensures CallsFor(calls + [call], id) == CallsFor(calls, id) + if call.id == id then 1 else 0
  {
    assert (calls + [call])[..|calls|] == calls;
  }

  lemma TakeCovered(s: Scheduler, starts: Starts)
    requires Covered(s) && s.tasks != []
    ensures Covered(TakeTask(s, starts))
  {
    var s' := TakeTask(s, starts);
    forall k | 1 <= k < s'.nextId
      ensures Runs(s'.jobs, k) || k in s'.exits
    {
      if k == s.nextId {
        assert starts(|s.calls|) ==> s'.jobs[|s.jobs|].id == k;
      } else if Runs(s.jobs, k) {
        var i :| 0 <= i < |s.jobs| && s.jobs[i].id == k;
        assert s'.jobs[i].id == k;
      }
    }
  }

  lemma TakeNumbered(s: Scheduler, all: seq<Task>, starts: Starts)
    requires Numbered(s, all) && s.nextId !in s.exits && s.tasks != []
    ensures Numbered(TakeTask(s, starts), all)
  {
    var s' := TakeTask(s, starts);
    assert s.tasks[1..] == all[s.nextId..];
    assert s.tasks[0] == all[s.nextId - 1];
    forall i | 0 <= i < |s'.jobs|
      ensures 1 <= s'.jobs[i].id < s'.nextId && s'.jobs[i].fname == all[s'.jobs[i].id - 1].fname
    {
      assert i < |s.jobs| ==> s'.jobs[i] == s.jobs[i];
    }
  }

  lemma TakeApart(s: Scheduler, all: seq<Task>, starts: Starts)
    requires Numbered(s, all) && Apart(s) && s.tasks != []
    ensures Apart(TakeTask(s, starts))
  {
  }

  lemma TakePlaced(s: Scheduler, all: seq<Task>, starts: Starts)
    requires Placed(s, all) && s.tasks != []
    ensures Placed(TakeTask(s, starts), all)
  {
    TakeCovered(s, starts);
    TakeNumbered(s, all, starts);
    TakeApart(s, all, starts);
  }

  lemma TakeStaffed(s: Scheduler, starts: Starts)
    requires Staffed(s, starts) && s.tasks != []
    ensures Staffed(TakeTask(s, starts), starts)
  {
    var s' := TakeTask(s, starts);
    forall i | 0 <= i < |s'.jobs|
      ensures Serves(s'.calls, s'.jobs[i], starts)
    {
      if i < |s.jobs| {
        assert Serves(s.calls, s.jobs[i], starts);
      }
    }
    forall i, j | 0 <= i < j < |s'.jobs|
      ensures s'.jobs[i].downloader != s'.jobs[j].downloader
    {
      assert Serves(s.calls, s.jobs[i], starts);
    }
  }

  lemma TakeFrugal(s: Scheduler, starts: Starts)
    requires Frugal(s) && s.tasks != []
    requires forall i :: 0 <= i < |s.jobs| ==> s.jobs[i].id < s.nextId
    ensures Frugal(TakeTask(s, starts))
  {
    var s' := TakeTask(s, starts);
    forall id: nat
      ensures CallsFor(s'.calls, id) == CallsFor(s.calls, id) + if id == s.nextId then 1 else 0
    {
      CallsForPush(s.calls, s'.calls[|s.calls|], id);
    }
  }

  lemma TakeTold(s: Scheduler, all: seq<Task>, starts: Starts)
    requires Told(s) && Placed(s, all) && s.tasks != []
    ensures Told(TakeTask(s, starts))
  {
    var s' := TakeTask(s, starts);
    forall id | id in s'.exits
      ensures id in s'.shown && Final(s', s'.shown[id])
    {
      if id != s.nextId {
        assert id in s.exits;
      }
    }
  }

  lemma TakeSound(s: Scheduler, all: seq<Task>, starts: Starts)
    requires Sound(s, all, starts) && s.tasks != []
    ensures Sound(TakeTask(s, starts), all, starts)
  {
    TakePlaced(s, all, starts);
    TakeStaffed(s, starts);
    TakeFrugal(s, starts);
    TakeTold(s, all, starts);
  }

  lemma {:induction false} PullSound(s: Scheduler, all: seq<Task>, starts: Starts)
    requires Sound(s, all, starts)
    ensures Sound(Pull(s, starts), all, starts)
    decreases |s.tasks|
  {
    if s.tasks != [] {
      TakeSound(s, all, starts);
      if !starts(|s.calls|) {
        PullSound(TakeTask(s, starts), all, starts);
      }
    }
  }

  lemma {:induction false} OpenSound(s: Scheduler, n: nat, all: seq<Task>, starts: Starts)
    requires Sound(s, all, starts)
    ensures Sound(Open(s, n, starts), all, starts)
    decreases n
  {
    if n > 0 && s.tasks != [] {
      TakeSound(s, all, starts);
      OpenSound(TakeTask(s, starts), n - 1, all, starts);
    }
  }

  // ------------------------------------------------------------------------------- end of a job

  /** The job is over: everything is in order but that it is still in the list, has possibly been
      redirected once too often and the like. */
  ghost predicate Over(s: Scheduler, i: nat, all: seq<Task>, starts: Starts) {
    && i < |s.jobs|
    && Placed(s, all) && Staffed(s, starts) && Told(s)
    && (forall j :: 0 <= j < |s.jobs| && j != i ==> s.jobs[j].redirectCount <= s.maxRedirect)
    && (forall j :: 0 <= j < |s.jobs| && j != i ==> CallsFor(s.calls, s.jobs[j].id) <= s.jobs[j].redirectCount + 1)
    && (forall id :: CallsFor(s.calls, id) <= s.maxRedirect + 1)
    && (forall id :: id >= s.nextId ==> CallsFor(s.calls, id) == 0)
  }

  lemma EraseCovered(s: Scheduler, i: nat)
    requires Covered(s) && i < |s.jobs|
    ensures Covered(Erase(s, i))
  {
    var s' := Erase(s, i);
    forall k | 1 <= k < s'.nextId
      ensures Runs(s'.jobs, k) || k in s'.exits
    {
      if k != s.jobs[i].id && Runs(s.jobs, k) {
        var j :| 0 <= j < |s.jobs| && s.jobs[j].id == k;
        assert s'.jobs[if j < i then j else j - 1].id == k;
      }
    }
  }

  lemma EraseNumbered(s: Scheduler, i: nat, all: seq<Task>)
    requires Numbered(s, all) && i < |s.jobs| && s.jobs[i].id !in s.exits
    ensures Numbered(Erase(s, i), all)
  {
    forall j | 0 <= j < |s.jobs| - 1
      ensures Erase(s, i).jobs[j] == s.jobs[if j < i then j else j + 1]
    {
    }
  }

  lemma EraseApart(s: Scheduler, i: nat, all: seq<Task>)
    requires Apart(s) && Numbered(s, all) && i < |s.jobs|
    ensures Apart(Erase(s, i))
  {
    forall j | 0 <= j < |s.jobs| - 1
      ensures Erase(s, i).jobs[j] == s.jobs[if j < i then j else j + 1]
    {
    }
  }

  lemma EraseStaffed(s: Scheduler, i: nat, starts: Starts)
    requires Staffed(s, starts) && i < |s.jobs|
    ensures Staffed(Erase(s, i), starts)
  {
    forall j | 0 <= j < |s.jobs| - 1
      ensures Erase(s, i).jobs[j] == s.jobs[if j < i then j else j + 1]
    {
    }
  }

  lemma EraseFrugal(s: Scheduler, i: nat, all: seq<Task>, starts: Starts)
    requires Over(s, i, all, starts)
    ensures Frugal(Erase(s, i))
  {
    var s' := Erase(s, i);
    forall j | 0 <= j < |s.jobs| - 1
      ensures s'.jobs[j].redirectCount <= s.maxRedirect
      ensures CallsFor(s.calls, s'.jobs[j].id) <= s'.jobs[j].redirectCount + 1
    {
      assert s'.jobs[j] == s.jobs[if j < i then j else j + 1];
    }
  }

  lemma EraseSound(s: Scheduler, i: nat, all: seq<Task>, starts: Starts)
    requires Over(s, i, all, starts)
    requires s.jobs[i].id in s.shown && Final(s, s.shown[s.jobs[i].id])
    ensures Sound(Erase(s, i), all, starts)
  {
    EraseCovered(s, i);
    EraseNumbered(s, i, all);
    EraseApart(s, i, all);
    EraseStaffed(s, i, starts);
    EraseFrugal(s, i, all, starts);
  }

  lemma NextTaskSound(s: Scheduler, i: nat, all: seq<Task>, starts: Starts)
    requires Over(s, i, all, starts)
    requires s.jobs[i].id in s.shown && Final(s, s.shown[s.jobs[i].id])
    ensures Sound(NextTask(s, i, starts), all, starts)
  {
    EraseSound(s, i, all, starts);
    if s.factory {
      PullSound(Erase(s, i), all, starts);
    }
  }

  // -------------------------------------------------------------------------------- a report

  lemma SoundOver(s: Scheduler, i: nat, all: seq<Task>, starts: Starts)
    requires Sound(s, all, starts) && i < |s.jobs|
    ensures Over(s, i, all, starts)
  {
  }

  lemma ShowOver(s: Scheduler, i: nat, state: State, all: seq<Task>, starts: Starts)
    requires Over(s, i, all, starts)
    ensures Over(Show(s, i, state), i, all, starts)
  {
  }

  lemma ShowSound(s: Scheduler, i: nat, state: State, all: seq<Task>, starts: Starts)
    requires Sound(s, all, starts) && i < |s.jobs|
    ensures Sound(Show(s, i, state), all, starts)
  {
  }

  /** A redirect within the limit whose download runs. */
  function Moved(s: Scheduler, i: nat, uri: string, starts: Starts): Scheduler
    requires i < |s.jobs|
  {
    var job := s.jobs[i];
    Create(s, Call(job.id, uri, job.fname), starts).(
      jobs := s.jobs[i := job.(redirectCount := job.redirectCount + 1, downloader := |s.calls|)])
  }

  /** A change of jobs that keeps their ids and file names keeps every task's place. */
  lemma SameIdsPlaced(s: Scheduler, s': Scheduler, all: seq<Task>)
    requires Placed(s, all) && s'.tasks == s.tasks && s'.nextId == s.nextId && s'.exits == s.exits
    requires |s'.jobs| == |s.jobs|
    requires forall j :: 0 <= j < |s.jobs| ==> s'.jobs[j].id == s.jobs[j].id && s'.jobs[j].fname == s.jobs[j].fname
    ensures Placed(s', all)
  {
    forall k | 1 <= k < s'.nextId
      ensures Runs(s'.jobs, k) || k in s'.exits
    {
      if Runs(s.jobs, k) {
        var j :| 0 <= j < |s.jobs| && s.jobs[j].id == k;
        assert s'.jobs[j].id == k;
      }
    }
  }

  lemma MovedStaffed(s: Scheduler, i: nat, uri: string, starts: Starts)
    requires Staffed(s, starts) && i < |s.jobs| && starts(|s.calls|)
    ensures Staffed(Moved(s, i, uri, starts), starts)
  {
    var s' := Moved(s, i, uri, starts);
    forall j | 0 <= j < |s'.jobs|
      ensures Serves(s'.calls, s'.jobs[j], starts)
    {
      assert Serves(s.calls, s.jobs[j], starts);
    }
    forall j, k | 0 <= j < k < |s'.jobs|
      ensures s'.jobs[j].downloader != s'.jobs[k].downloader
    {
      assert Serves(s.calls, s.jobs[j], starts) && Serves(s.calls, s.jobs[k], starts);
    }
  }

  lemma MovedFrugal(s: Scheduler, i: nat, uri: string, all: seq<Task>, starts: Starts)
    requires Frugal(s) && Numbered(s, all) && Apart(s) && i < |s.jobs| && s.jobs[i].redirectCount < s.maxRedirect
    ensures Frugal(Moved(s, i, uri, starts))
  {
    var s' := Moved(s, i, uri, starts);
    forall id: nat
      ensures CallsFor(s'.calls, id) == CallsFor(s.calls, id) + if id == s.jobs[i].id then 1 else 0
    {
      CallsForPush(s.calls, s'.calls[|s.calls|], id);
    }
  }

  lemma MovedSound(s: Scheduler, i: nat, uri: string, all: seq<Task>, starts: Starts)
    requires Sound(s, all, starts) && i < |s.jobs| && starts(|s.calls|) && s.jobs[i].redirectCount < s.maxRedirect
    ensures Sound(Moved(s, i, uri, starts), all, starts)
  {
    SameIdsPlaced(s, Moved(s, i, uri, starts), all);
    MovedStaffed(s, i, uri, starts);
    MovedFrugal(s, i, uri, all, starts);
  }

  lemma CountOver(s: Scheduler, i: nat, all: seq<Task>, starts: Starts)
    requires Sound(s, all, starts) && i < |s.jobs|
    ensures Over(Count(s, i), i, all, starts)
  {
    var s' := Count(s, i);
    SameIdsPlaced(s, s', all);
    forall j | 0 <= j < |s'.jobs|
      ensures Serves(s'.calls, s'.jobs[j], starts)
    {
      assert Serves(s.calls, s.jobs[j], starts);
    }
  }

  /** A download that does not run was asked for on behalf of the job. */
  lemma CreateOver(s: Scheduler, i: nat, uri: string, all: seq<Task>, starts: Starts)
    requires Over(s, i, all, starts) && CallsFor(s.calls, s.jobs[i].id) <= s.maxRedirect
    ensures Over(Create(s, Call(s.jobs[i].id, uri, s.jobs[i].fname), starts), i, all, starts)
  {
    var call := Call(s.jobs[i].id, uri, s.jobs[i].fname);
    var s' := Create(s, call, starts);
    forall id: nat
      ensures CallsFor(s'.calls, id) == CallsFor(s.calls, id) + if id == call.id then 1 else 0
    {
      CallsForPush(s.calls, call, id);
    }
    CreateStaffed(s, call, starts);
    CreateTold(s, i, call, starts);
  }

  lemma CreateStaffed(s: Scheduler, call: Call, starts: Starts)
    requires Staffed(s, starts)
    ensures Staffed(Create(s, call, starts), starts)
  {
    var s' := Create(s, call, starts);
    forall j | 0 <= j < |s'.jobs|
      ensures Serves(s'.calls, s'.jobs[j], starts)
    {
      assert Serves(s.calls, s.jobs[j], starts);
    }
  }

  lemma CreateTold(s: Scheduler, i: nat, call: Call, starts: Starts)
    requires Told(s) && Apart(s) && i < |s.jobs| && call.id == s.jobs[i].id
    ensures Told(Create(s, call, starts))
  {
  }

  /** The redirect that is one too many. */
  lemma LoopingSound(s: Scheduler, i: nat, all: seq<Task>, starts: Starts)
    requires Sound(s, all, starts) && i < |s.jobs|
    ensures Sound(NextTask(Show(Count(s, i), i, Failed), i, starts), all, starts)
  {
    var c := Count(s, i);
    var s' := Show(c, i, Failed);
    CountOver(s, i, all, starts);
    ShowOver(c, i, Failed, all, starts);
    NextTaskSound(s', i, all, starts);
  }

  /** The redirect to where no download can be started. */
  lemma StrandedSound(s: Scheduler, i: nat, uri: string, all: seq<Task>, starts: Starts)
    requires Sound(s, all, starts) && i < |s.jobs| && s.jobs[i].redirectCount < s.maxRedirect && !starts(|s.calls|)
    ensures var c := Create(Count(s, i), Call(s.jobs[i].id, uri, s.jobs[i].fname), starts);
            Sound(NextTask(c, i, starts), all, starts)
  {
    CountOver(s, i, all, starts);
    CreateOver(Count(s, i), i, uri, all, starts);
    NextTaskSound(Create(Count(s, i), Call(s.jobs[i].id, uri, s.jobs[i].fname), starts), i, all, starts);
  }

  lemma FollowSound(s: Scheduler, i: nat, uri: string, all: seq<Task>, starts: Starts)
    requires Sound(s, all, starts) && i < |s.jobs| && s.jobs[i].id in s.shown && s.shown[s.jobs[i].id] == Redirect
    ensures Sound(Follow(Count(s, i), i, uri, starts), all, starts)
  {
    var c := Count(s, i);
    if c.jobs[i].redirectCount > c.maxRedirect {
      LoopingSound(s, i, all, starts);
    } else if !s.factory {
      CountOver(s, i, all, starts);
      EraseSound(c, i, all, starts);
    } else if starts(|s.calls|) {
      MovedSound(s, i, uri, all, starts);
      assert Follow(c, i, uri, starts) == Moved(s, i, uri, starts);
    } else {
      StrandedSound(s, i, uri, all, starts);
    }
  }

  lemma InvokeSound(s: Scheduler, downloader: nat, state: State, uri: string, all: seq<Task>, starts: Starts)
    requires Sound(s, all, starts) && Invoke(s, downloader, state, uri, starts).Ok?
    ensures Sound(Invoke(s, downloader, state, uri, starts).s, all, starts)
  {
    var i := Find(s.jobs, downloader);
    ShowSound(s, i, state, all, starts);
    HandleSound(Show(s, i, state), i, state, uri, all, starts);
  }

  lemma HandleSound(s: Scheduler, i: nat, state: State, uri: string, all: seq<Task>, starts: Starts)
    requires Sound(s, all, starts) && i < |s.jobs| && s.jobs[i].id in s.shown && s.shown[s.jobs[i].id] == state
    ensures state == Redirect ==> Sound(Follow(Count(s, i), i, uri, starts), all, starts)
    ensures state == Done || state == Failed ==> Sound(NextTask(s, i, starts), all, starts)
  {
    if state == Redirect {
      FollowSound(s, i, uri, all, starts);
    } else if state == Done || state == Failed {
      SoundOver(s, i, all, starts);
      NextTaskSound(s, i, all, starts);
    }
  }

  lemma {:induction false} StopAllSound(s: Scheduler, downloaders: seq<nat>, all: seq<Task>, starts: Starts)
    requires Sound(s, all, starts) && StopAll(s, downloaders, starts).Ok?
    ensures Sound(StopAll(s, downloaders, starts).s, all, starts)
    decreases |downloaders|
  {
    if downloaders != [] {
      InvokeSound(s, downloaders[0], Failed, "", all, starts);
      StopAllSound(Invoke(s, downloaders[0], Failed, "", starts).s, downloaders[1..], all, starts);
    }
  }

  lemma GoneSound(s: Scheduler, all: seq<Task>, starts: Starts)
    requires Sound(s, all, starts)
    ensures Sound(Gone(s), all, starts)
  {
    var s' := Gone(s);
    assert Covered(s') && Numbered(s', all) && Staffed(s', starts) && Frugal(s');
  }

  lemma StepSound(s: Scheduler, e: Event, all: seq<Task>, starts: Starts)
    requires Sound(s, all, starts) && Step(s, e, starts).Ok?
    ensures Sound(Step(s, e, starts).s, all, starts)
  {
    match e
    case Report(downloader, state, uri) => InvokeSound(s, downloader, state, uri, all, starts);
    case Interrupt =>
      GoneSound(s, all, starts);
      StopAllSound(Gone(s), Downloaders(s.jobs), all, starts);
  }

  lemma {:induction false} RunSound(s: Scheduler, events: seq<Event>, all: seq<Task>, starts: Starts)
    requires Sound(s, all, starts) && Run(s, events, starts).Ok?
    ensures Sound(Run(s, events, starts).s, all, starts)
    decreases |events|
  {
    if events != [] {
      StepSound(s, events[0], all, starts);
      RunSound(Step(s, events[0], starts).s, events[1..], all, starts);
    }
  }
}
