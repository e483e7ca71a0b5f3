/** The scheduler: every downloader tells it how it is getting on, and it replaces those that
    are through by the next task, or by a download from where they were redirected to. */
module OnTickModel {
  import opened StatusDownloader

  datatype Task = Task(uri: string, fname: string)

  /** A downloader is known by its place among the calls of the factory. */
  datatype Job = Job(id: nat, fname: string, redirectCount: nat, downloader: nat)

  datatype Call = Call(id: nat, uri: string, fname: string)

  datatype Scheduler = Scheduler(
    maxRedirect: nat,
    jobs: seq<Job>,
    tasks: seq<Task>,
    factory: bool,                     // the factory still exists
    nextId: nat,                       // Job::generate_id
    shown: map<nat, State>,            // what the dashboard was told last, by job
    calls: seq<Call>,                  // history: the calls of Factory::create
    exits: set<nat>)                   // history: the ids of jobs that are over

  /** Which calls of the factory give a downloader that runs. */
  type Starts = nat -> bool

  function Init(maxRedirect: nat, tasks: seq<Task>): Scheduler {
    Scheduler(maxRedirect, [], tasks, true, 1, map[], [], {})
  }

  /** FactorySimple::create, which shows the new downloader's state. */
  function Create(s: Scheduler, call: Call, starts: Starts): Scheduler {
    s.(calls := s.calls + [call], shown := s.shown[call.id := if starts(|s.calls|) then OnTheGo else Failed])
  }

  /** The next task becomes a job, unless its download cannot be started. */
  function TakeTask(s: Scheduler, starts: Starts): Scheduler
    requires s.tasks != []
  {
    var task := s.tasks[0];
    var s' := Create(s.(tasks := s.tasks[1..], nextId := s.nextId + 1), Call(s.nextId, task.uri, task.fname), starts);
    if starts(|s.calls|) then s'.(jobs := s.jobs + [Job(s.nextId, task.fname, 0, |s.calls|)])
    else s'.(exits := s.exits + {s.nextId})
  }

  /** The start of the program: `n` tasks are taken, whether they start or not. */
  function Open(s: Scheduler, n: nat, starts: Starts): Scheduler
    decreases n
  {
    if n == 0 || s.tasks == [] then s else Open(TakeTask(s, starts), n - 1, starts)
  }

  /** The loop of next_task: tasks are taken until one of them starts. */
  function Pull(s: Scheduler, starts: Starts): Scheduler
    decreases |s.tasks|
  {
    if s.tasks == [] then s
    else if starts(|s.calls|) then TakeTask(s, starts)
    else Pull(TakeTask(s, starts), starts)
  }

  function Erase(s: Scheduler, i: nat): Scheduler
    requires i < |s.jobs|
  {
    s.(jobs := s.jobs[..i] + s.jobs[i + 1..], exits := s.exits + {s.jobs[i].id})
  }

  function NextTask(s: Scheduler, i: nat, starts: Starts): Scheduler
    requires i < |s.jobs|
  {
    if s.factory then Pull(Erase(s, i), starts) else Erase(s, i)
  }

  function Show(s: Scheduler, i: nat, state: State): Scheduler
    requires i < |s.jobs|
  {
    s.(shown := s.shown[s.jobs[i].id := state])
  }

  function Count(s: Scheduler, i: nat): Scheduler
    requires i < |s.jobs|
  {
    s.(jobs := s.jobs[i := s.jobs[i].(redirectCount := s.jobs[i].redirectCount + 1)])
  }

  /** redirect(), after the redirect has been counted. */
  function Follow(s: Scheduler, i: nat, uri: string, starts: Starts): Scheduler
    requires i < |s.jobs|
  {
    var job := s.jobs[i];
    if job.redirectCount > s.maxRedirect then NextTask(Show(s, i, Failed), i, starts)
    else if !s.factory then Erase(s, i)
    else
      var s' := Create(s, Call(job.id, uri, job.fname), starts);
      if starts(|s.calls|) then s'.(jobs := s.jobs[i := job.(downloader := |s.calls|)])
      else NextTask(s', i, starts)
  }

  /** find_job; the number of jobs if there is none. */
  function Find(jobs: seq<Job>, downloader: nat): (i: nat)
    ensures i <= |jobs|
    ensures i < |jobs| ==> jobs[i].downloader == downloader
    ensures forall j :: 0 <= j < i ==> jobs[j].downloader != downloader
  {
    if jobs == [] then 0
    else if jobs[0].downloader == downloader then 0
    else 1 + Find(jobs[1..], downloader)
  }

  datatype Outcome = Ok(s: Scheduler) | InvalidDownloader

  /** OnTickSimple::invoke */
  function Invoke(s: Scheduler, downloader: nat, state: State, uri: string, starts: Starts): Outcome {
    var i := Find(s.jobs, downloader);
    if i == |s.jobs| then InvalidDownloader
    else
      var s' := Show(s, i, state);
      match state
      case Done => Ok(NextTask(s', i, starts))
      case Failed => Ok(NextTask(s', i, starts))
      case Redirect => Ok(Follow(Count(s', i), i, uri, starts))
      case _ => Ok(s')
  }

  function Gone(s: Scheduler): Scheduler {
    s.(factory := false)
  }

  /** stop() for each of the downloaders in turn: each reports Failed. */
  function StopAll(s: Scheduler, downloaders: seq<nat>, starts: Starts): Outcome
    decreases |downloaders|
  {
    if downloaders == [] then Ok(s)
    else
      match Invoke(s, downloaders[0], Failed, "", starts)
      case Ok(s') => StopAll(s', downloaders[1..], starts)
      case InvalidDownloader => InvalidDownloader
  }

  function Downloaders(jobs: seq<Job>): (r: seq<nat>)
    ensures |r| == |jobs| && forall i :: 0 <= i < |r| ==> r[i] == jobs[i].downloader
  {
    if jobs == [] then [] else [jobs[0].downloader] + Downloaders(jobs[1..])
  }

  datatype Event =
    | Report(downloader: nat, state: State, uri: string)
    | Interrupt                        // SIGINT

  function Step(s: Scheduler, e: Event, starts: Starts): Outcome {
    match e
    case Report(downloader, state, uri) => Invoke(s, downloader, state, uri, starts)
    case Interrupt => StopAll(Gone(s), Downloaders(s.jobs), starts)
  }

  /** A run, up to the first exception. */
  function Run(s: Scheduler, events: seq<Event>, starts: Starts): Outcome
    decreases |events|
  {
    if events == [] then Ok(s)
    else
      match Step(s, events[0], starts)
      case Ok(s') => Run(s', events[1..], starts)
      case InvalidDownloader => InvalidDownloader
  }
}
