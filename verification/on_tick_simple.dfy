/** The source's scheduler, editing its job list in place, computing the functions of the model. */
module OnTickObjects {
  import opened OnTickModel
  import opened StatusDownloader

  class OnTickSimple {
    const maxRedirect: nat
    const starts: Starts               // which calls of the factory succeed
    var jobList: seq<Job>
    var taskList: seq<Task>
    var factory: bool
    var nextId: nat
    var shown: map<nat, State>
    var calls: seq<Call>
    ghost var exits: set<nat>

    ghost function View(): Scheduler
      reads this
    {
      Scheduler(maxRedirect, jobList, taskList, factory, nextId, shown, calls, exits)
    }

    constructor (maxRedirect: nat, tasks: seq<Task>, starts: Starts)
      ensures View() == OnTickModel.Init(maxRedirect, tasks) && this.starts == starts
    {
      this.maxRedirect, this.starts, jobList, taskList, factory, nextId := maxRedirect, starts, [], tasks, true, 1;
      shown, calls, exits := map[], [], {};
    }

    /** FactorySimple::create; the new downloader, if there is one, is known by `downloader`. */
    method Create(id: nat, uri: string, fname: string) returns (downloader: nat, ok: bool)
      modifies this`calls, this`shown
      ensures View() == OnTickModel.Create(old(View()), Call(id, uri, fname), starts)
      ensures downloader == |old(calls)| && ok == starts(downloader)
    {
      downloader := |calls|;
      ok := starts(downloader);
      calls := calls + [Call(id, uri, fname)];
      shown := shown[id := if ok then OnTheGo else Failed];
    }

    /** One task from the list, as main() and next_task() handle it. */
    method TakeTask() returns (ok: bool)
      requires taskList != []
      modifies this`taskList, this`nextId, this`calls, this`shown, this`jobList, this`exits
      ensures View() == OnTickModel.TakeTask(old(View()), starts) && ok == starts(|old(calls)|)
    {
      var task, id := taskList[0], nextId;
      taskList := taskList[1..];
      nextId := nextId + 1;
      var downloader;
      downloader, ok := Create(id, task.uri, task.fname);
      if ok {
        jobList := jobList + [Job(id, task.fname, 0, downloader)];
      } else {
        exits := exits + {id};
      }
    }

    /** The loop of main(). */
    method Open(concurrency: nat)
      modifies this
      ensures View() == OnTickModel.Open(old(View()), concurrency, starts)
    {
      var i := 1;
      while i <= concurrency
        invariant 1 <= i <= concurrency + 1
        invariant OnTickModel.Open(View(), concurrency + 1 - i, starts) ==
                  OnTickModel.Open(old(View()), concurrency, starts)
      {
        if taskList == [] {
          break;
        }
        var _ := TakeTask();
        i := i + 1;
      }
    }

    method Erase(i: nat)
      requires i < |jobList|
      modifies this`jobList, this`exits
      ensures View() == OnTickModel.Erase(old(View()), i)
    {
      exits := exits + {jobList[i].id};
      jobList := jobList[..i] + jobList[i + 1..];
    }

    method NextTask(i: nat)
      requires i < |jobList|
      modifies this
      ensures View() == OnTickModel.NextTask(old(View()), i, starts)
    {
      Erase(i);
      if !factory {
        return;
      }
      while taskList != []
        invariant Pull(View(), starts) == OnTickModel.NextTask(old(View()), i, starts)
        decreases |taskList|
      {
        var ok := TakeTask();
        if ok {
          break;
        }
      }
    }

    method Redirect(i: nat, uri: string)
      requires i < |jobList|
      modifies this
      ensures View() == Follow(Count(old(View()), i), i, uri, starts)
    {
      jobList := jobList[i := jobList[i].(redirectCount := jobList[i].redirectCount + 1)];
      var job := jobList[i];
      if job.redirectCount > maxRedirect {
        shown := shown[job.id := Failed];
        NextTask(i);
      } else if factory {
        var downloader, ok := Create(job.id, uri, job.fname);
        if ok {
          jobList := jobList[i := job.(downloader := downloader)];
        } else {
          NextTask(i);
        }
      } else {
        Erase(i);
      }
    }

    method FindJob(downloader: nat) returns (i: nat)
      ensures i == Find(jobList, downloader)
    {
      i := 0;
      while i < |jobList| && jobList[i].downloader != downloader
        invariant i <= |jobList|
        invariant Find(jobList, downloader) == i + Find(jobList[i..], downloader)
      {
        assert jobList[i..][1..] == jobList[i + 1..];
        i := i + 1;
      }
    }

    /** `thrown`: the downloader is nobody's, which changes nothing. */
    method Invoke(downloader: nat, state: State, uri: string) returns (thrown: bool)
      modifies this
      ensures thrown == OnTickModel.Invoke(old(View()), downloader, state, uri, starts).InvalidDownloader?
      ensures View() ==
              if thrown then old(View()) else OnTickModel.Invoke(old(View()), downloader, state, uri, starts).s
    {
      var i := FindJob(downloader);
      thrown := i == |jobList|;
      if !thrown {
        shown := shown[jobList[i].id := state];
        match state {
          case Done => NextTask(i);
          case Failed => NextTask(i);
          case Redirect => Redirect(i, uri);
          case _ =>
        }
      }
    }
  }
}
