# Verification of the console downloader

The program downloads a list of files over HTTP, several at a time, under a common speed limit.
This project models its four stateful parts in Dafny and proves what they guarantee over whole
runs, for every order of events:

* **the bandwidth limiter** (`bandwidth_*.dfy`): `ControllerSimple` turns elapsed time into a
  budget of bytes and shares it among the `TCPSocketBandwidth` streams in rounds. Streams call
  their consumer in the middle of the loop, and the consumer may read, stop, close, create or
  release streams there;
* **the downloader** (`downloader_*.dfy`): `DownloaderSimple` writes what its parser yields to a
  file under partial writes, holds its socket back, and reports when socket and file are done;
* **the scheduler** (`on_tick_*.dfy`): `OnTickSimple` replaces jobs and bounds redirects, with
  the start-up loop and the SIGINT handler of `main`;
* **the response parser** (`http_*.dfy`): `HttpParser` puts headers together from pieces and
  decides the outcome.

Limiter and downloader are also run together (`download_runs.dfy`), with the downloader's calls as
what the limiter's consumer does to one stream.

Each part has a model over values, in which every operation of the source is a function on
states and a run is a fold over events; theorems about all runs of that model; and classes with
the source's mutable fields and loops, whose methods are proved to compute those functions.

| file | content |
|---|---|
| `data_chunk.dfy`, `status_downloader.dfy` | the chunk queue and the states shared by several parts |
| `bandwidth_model.dfy`, `bandwidth_rounds.dfy` | streams, list, consumer scripts, cursor; rounds, calls, events and runs |
| `bandwidth_safety.dfy`, `bandwidth_rate.dfy`, `bandwidth_fairness.dfy` | invariants of runs; rate and timer; shares and levels |
| `bandwidth_visits.dfy`, `bandwidth_costs.dfy` | what one stream meets with in a call; what rounds charge |
| `bandwidth_budget.dfy` | how much a call gives out, and to whom in a round, in terms of time, limit and list |
| `bandwidth_windows.dfy`, `bandwidth_sockets.dfy` | history flags and windows of runs; whether a stopped stream's socket is read |
| `bandwidth_theorems.dfy`, `bandwidth_examples.dfy` | the results about the limiter; runs that defy expectations |
| `bandwidth_objects.dfy` | the classes `TCPSocketBandwidth` and `ControllerSimple` |
| `downloader_model.dfy`, `downloader_theorems.dfy`, `downloader_examples.dfy`, `downloader_simple.dfy` | model, results, runs, class |
| `downloader_handles.dfy` | what single events do to socket and file, in terms of the events |
| `on_tick_model.dfy`, `on_tick_theorems.dfy`, `on_tick_results.dfy`, `on_tick_simple.dfy` | model, invariant, results, class |
| `on_tick_calls.dfy` | the calls of the factory and what the dashboard shows |
| `download_jobs.dfy`, `download_streams.dfy` | a download with the scheduler it reports to, and with the stream it reads |
| `download_calls.dfy`, `download_runs.dfy`, `download_run_examples.dfy` | what a downloader asks of its stream; joint runs of limiter and downloader; one of them |
| `http_model.dfy`, `http_theorems.dfy`, `http_parser.dfy` | model, results, class |

What the models take as given:

* a consumer is a function from the number of a published event to the list of things it does in
  that handler, so a statement for all scripts is a statement for all consumers;
* `size_t` arithmetic of the budget is written out modulo 2^64; the buffered bytes of all streams
  fit into 2^56 bytes, which is what makes the loop end after a subtraction has wrapped;
* an event happens only if its handle can report it and a handler is registered; everything else,
  in particular the order of events and the sizes of segments and writes, is arbitrary;
* whether a call of the factory gives a running downloader is an arbitrary function of the call's
  number; a downloader is identified by that number;
* the parser library calls back in its documented order, at least once for the status and for
  each name and value, and not at all after it was paused.

Where natural expectations fail, the code is modelled as it is, a run from the start shows the
failure, and the exact condition is proved:

| expectation | a run that fails it | exactly when |
|---|---|---|
| a call of `transfer` keeps its budget | `BudgetOverrun` | `BudgetOutcome`, `ChargedOutcome` |
| the end of a stream is announced | `EndUnannounced` | `EndOfStream` |
| no subtraction of a run wraps, so that its bytes keep to the rate | `BudgetOverrun`, `RateOverrun` | `RunWrapsIff`, `RateLimitOfRounds` |
| a stopped or closed stream's socket is not read | `ResumedAfter` | `ReadWhileStoppedIff`, `ResumesRegardless` |
| bytes of an open stream are waited for | `LostWakeUp` | `WakeUpLostIff` |
| a downloader that stopped its socket will resume it | `StarvesOnce`, `StarvesJointly` | `StarvingIff`, `StarvesJointlyIff` |
| Done is reported at most once | `DoneTwice` | `TwoReportsIff`, `ThrowsIffShutBeforeOpen` |
| Done is reported | `DoneNever` | `DoneUnlessIdle` |
| all tasks are taken | `TaskLeftBehind` | `AllTasksServed` |
| `Location` matches in any case, as in section 3.2 of RFC 7230 | `LowerCaseLocationFails` | `RedirectFollowed` |

## Model

| member | source | states |
|---|---|---|
| `BandwidthTheorems.OneLevel` | include/aio/bandwidth_controller.h:99-128 | max-min fairness for every consumer: in a call no stream gives more than one level, the sum of the chunks, and one that every round finds reading while it has bytes gives exactly its bytes up to it, in order, whatever is stopped, closed or created meanwhile |
| `BandwidthTheorems.FairShare` | include/aio/bandwidth_controller.h:99-128 | among reading streams whose consumers go on reading, every registered stream gives exactly its bytes up to one level and no other stream gives any |
| `BandwidthTheorems.ChargedOutcome` | include/aio/bandwidth_controller.h:92-131 | the budget for every consumer: a call wraps if and only if it charges more than its budget, which it does not if every round begins with what its chunk costs and, unless a handler closes or releases a stream, only then; otherwise it ends with the budget spent or nothing pending; after a wrap nothing is pending, and then every open stream is empty or was found stopped in the last pass with at most the chunk |
| `BandwidthTheorems.BudgetOutcome` | include/aio/bandwidth_controller.h:92-128 | the exact outcome among reading streams: a call keeps its budget if and only if the budget covers everything buffered or some common level uses it up exactly; otherwise a subtraction wraps and every stream is emptied; the bytes moved in each case |
| `BandwidthExamples.BudgetOverrun` | include/aio/bandwidth_controller.h:100-118 | a run from the constructor with a call that does not keep its budget: three streams receive 300 bytes each, the timer fires after 451 ms with limit 1000, and 900 bytes are moved |
| `BandwidthTheorems.EvenShares` | include/aio/bandwidth_controller.h:100-118 | a call among reading streams that all have at least the whole budget keeps it if and only if the budget can be divided evenly among them; otherwise it moves everything |
| `BandwidthBudget.GivesAllowed` | include/aio/bandwidth_controller.h:90-131 | how much a call among reading streams gives out, in terms of limit and time alone: the whole n with 1000 * n <= limit * milliseconds < 1000 * (n + 1), product in 64 bits, or everything buffered if that is less, unless a subtraction wraps, and then everything; the call marks the clock |
| `BandwidthBudget.AllowsAll` | include/aio/bandwidth_controller.h:90-92 | so long as limit times milliseconds fits into 64 bits the product is the mathematical one |
| `BandwidthBudget.TransferMarks` | include/aio/bandwidth_controller.h:82-97 | from where the time of the next call counts, for every consumer: a call moves the mark to the present even if it has nothing to give, and then it touches no stream and comes back by the timer; with an empty list the mark stays and nothing is scheduled |
| `BandwidthBudget.RoundServes` | include/aio/bandwidth_controller.h:99-120 | what one round hands to the consumer of one stream, in order, for every consumer of the others: nothing unless the stream is found reading, and then its next bytes up to the share of the total among the pending streams, which is their even split rounded down or one byte |
| `BandwidthBudget.FirstRoundServes` | include/aio/bandwidth_controller.h:90-120 | and in the first round of a call that is the share among all nodes of what the limit allows for the time since the last mark |
| `BandwidthCosts.VisitCosts` | include/aio/bandwidth_controller.h:103-127 | for every consumer a pass charges at most what each listed stream has up to the chunk, reading or stopped |
| `BandwidthCosts.RoundWrapsIff` | include/aio/bandwidth_controller.h:99-127 | a round wraps if and only if it begins with fewer bytes than the listed streams, reading or stopped, have up to the chunk, for consumers that may stop anything |
| `BandwidthCosts.RoundsWrapIff` | include/aio/bandwidth_controller.h:99-128 | so the do/while wraps if and only if some round of it begins like that |
| `BandwidthCosts.CallWrapsIff` | include/aio/bandwidth_controller.h:82-132 | and so a call of transfer, from any state that a run can reach |
| `BandwidthTheorems.RoundWrapsByCount` | include/aio/bandwidth_controller.h:99-120 | while the pending count covers every stream with bytes, a round wraps if and only if it begins with fewer bytes than there are such streams |
| `BandwidthFairness.RoundLeaves` | include/aio/bandwidth_controller.h:103-127 | a round of reading streams takes from the buffers exactly what each has up to the chunk, so what is buffered falls whenever a stream has bytes |
| `BandwidthRounds.RoundDecreases` | include/aio/bandwidth_controller.h:99-128 | why the do/while ends for every consumer: before a wrap the total falls in every round, after it the number of pending streams does |
| `BandwidthRounds.VisitPassed` | include/aio/bandwidth_controller.h:103-127 | one pass over the list: what is charged, how often the subtraction can wrap, and that every stream counted as pending has more than the chunk |
| `BandwidthRounds.RoundsSound` | include/aio/bandwidth_controller.h:99-128 | what all rounds of a call keep, whatever consumers do in their handlers: references stay valid and no byte is added to the buffers |
| `BandwidthTheorems.TurnCursor` | include/aio/bandwidth_controller.h:103-127 | after a turn the cursor is on the node that followed, whatever was added or removed in the callback, and a node is erased only if its stream is gone or removed |
| `BandwidthModel.TurnAhead` | include/aio/bandwidth_controller.h:105-127 | a turn of the inner loop makes what is ahead of the cursor smaller, so a pass over a list edited meanwhile ends |
| `BandwidthTheorems.RateLimit` | include/aio/bandwidth_controller.h:90-132 | over every run without a wrapped subtraction, bytes delivered by all streams are at most limit times the seconds passed |
| `BandwidthRate.RunRate` | include/aio/bandwidth_controller.h:90-132 | the same between any two states of a run, whatever streams are added or removed: bytes moved against the time between their last marks of the clock, unless a subtraction wrapped |
| `BandwidthTheorems.RateLimitOfRounds` | include/aio/bandwidth_controller.h:82-132 | the rate over any window from any state, for every consumer and whatever happened before: bytes moved are at most limit times the time between the marks of the clock unless some round of the window begins with fewer bytes than the listed streams have up to its chunk |
| `BandwidthTheorems.RunWrapsIff` | include/aio/bandwidth_controller.h:82-132 | exactly when a subtraction wraps in a run, for consumers that may stop anything: if and only if some round of it begins like that |
| `BandwidthExamples.RateOverrun` | include/aio/bandwidth_controller.h:100-118 | a run from the constructor that breaks the bound by stop() although no round is short of a byte for each stream with bytes: 100 bytes in 50 ms at 1000 bytes a second, with two stopped streams |
| `BandwidthTheorems.UnstoppedCovers` | include/aio/bandwidth_controller.h:86-128 | without stop() the rounds of any window begin with enough unless one of them begins with fewer bytes than there are streams with bytes |
| `BandwidthTheorems.LivelyAfter` | include/aio/bandwidth_controller.h:86-142 | every run from the constructor without stop() ends in a state of which UnstoppedCovers speaks |
| `BandwidthWindows.RunAlike` | include/aio/bandwidth_controller.h:82-132 | clearing the history flags of a state changes nothing in any run from it |
| `BandwidthRate.RoundsCounted` | include/aio/bandwidth_controller.h:86-128 | between rounds the pending count covers every stream that still has bytes |
| `BandwidthRate.TransferMoves` | src/aio/tcp_bandwidth.cpp:110-129 | a stream that is not stopped gives the next bytes and no other stream gives any; a stopped one gives none |
| `BandwidthTheorems.BytesInOrder` | src/aio/tcp_bandwidth.cpp:110-187 | re-entrant FIFO: in every run, for every consumer, delivered bytes followed by buffered bytes are what the socket handed over |
| `BandwidthTheorems.MovedIsDelivered` | src/aio/tcp_bandwidth.cpp:110-118 | conservation: bytes published are bytes delivered, summed over all streams |
| `BandwidthTheorems.FlowControl` | src/aio/tcp_bandwidth.cpp:55-83 | flow control in every run, whoever stops and reads when: the socket of a stream that is not stopped is being read if and only if it is not paused, and it calls itself active; a stopped one does so if and only if its socket is being read; not paused implies below the limit, paused implies full or ended empty, and no buffer exceeds its limit by a segment |
| `BandwidthTheorems.EndOfStream` | src/aio/tcp_bandwidth.cpp:40-40 | in terms of the events alone: the end of a stream is noted if and only if its socket has reported it in some step of the run, and exactly one EndEvent was published if bytes were undelivered at that step and all are delivered now, and none otherwise |
| `BandwidthExamples.EndUnannounced` | src/aio/tcp_bandwidth.cpp:40-40 | a run in which the end arrives at an empty buffer and nobody is told |
| `BandwidthTheorems.EndWithLastByte` | src/aio/tcp_bandwidth.cpp:110-128 | EndEvent comes in the call that delivers the last byte, and in no earlier one |
| `BandwidthTheorems.OneNodeEach` | include/aio/bandwidth_controller.h:57-72 | every live unclosed stream owns exactly one list node, the one it was given |
| `BandwidthTheorems.ClosedIsUnlisted` | src/aio/tcp_bandwidth.cpp:85-95 | no node refers to a closed stream |
| `BandwidthTheorems.OneTimer` | include/aio/bandwidth_controller.h:74-142 | the timer is armed once while a transfer is scheduled and not at all otherwise |
| `BandwidthTheorems.NoLostWakeUp` | include/aio/bandwidth_controller.h:74-142 | an open stream with undelivered bytes that nobody stops is always waited for by the timer, whatever other streams are stopped, closed or created |
| `BandwidthTheorems.WakeUpLostIff` | include/aio/bandwidth_controller.h:86-131 | exactly when it is not, for every run and consumer: the last call of transfer() ended with nothing pending, its last pass having found the stream stopped with at most the chunk |
| `BandwidthVisits.TransferForgets` | include/aio/bandwidth_controller.h:99-131 | the same for a single call from any state |
| `BandwidthVisits.VisitTakes` | include/aio/bandwidth_controller.h:105-120 | in a pass a stream gives up to the chunk if it is found reading and nothing otherwise, for every consumer |
| `BandwidthExamples.LostWakeUp` | src/aio/tcp_bandwidth.cpp:55-60 | a run with stop() and read() that leaves an open, reading stream with a byte and no timer |
| `BandwidthSockets.ReadWhileStoppedIff` | src/aio/tcp_bandwidth.cpp:55-187 | exactly when the socket of a stopped stream, open or closed, is being read at any time of any run before its EndEvent: the last transfer of the stream has resumed it, and since then no segment has filled the buffer and its consumer has not touched it |
| `BandwidthTheorems.ResumesRegardless` | src/aio/tcp_bandwidth.cpp:118-128 | when a transfer of a paused stream resumes its socket, and so exactly when it leaves a stopped or a closed stream with its socket being read: what is left is below the limit, the stream has not ended empty, and the handler's actions leave it stopped or closed |
| `BandwidthTheorems.ApplyAllLeaves` | src/aio/tcp_bandwidth.cpp:55-95 | what a handler's list of actions leaves of a stream is decided by that list alone |
| `BandwidthExamples.ResumedAfter` | src/aio/tcp_bandwidth.cpp:118-128 | a run in which the consumer stops, or closes, the stream in its handler and the socket is read all the same |
| `BandwidthObjects.TCPSocketBandwidth.Read` | src/aio/tcp_bandwidth.cpp:55-60 | resumes the stream, and the socket unless paused |
| `BandwidthObjects.TCPSocketBandwidth.Stop` | src/aio/tcp_bandwidth.cpp:62-67 | stops the stream, and the socket unless paused |
| `BandwidthObjects.TCPSocketBandwidth.Close` | src/aio/tcp_bandwidth.cpp:85-95 | closes once: the node loses its reference, the stream stops |
| `BandwidthObjects.TCPSocketBandwidth.PopBuffer` | src/aio/tcp_bandwidth.cpp:148-174 | the in-place loop over chunks returns exactly the first bytes of the queue and leaves exactly the rest |
| `BandwidthObjects.TCPSocketBandwidth.Transfer` | src/aio/tcp_bandwidth.cpp:110-129 | in-place transfer with the consumer called in the middle computes the model's TransferStream |
| `BandwidthObjects.TCPSocketBandwidth.OnData` | src/aio/tcp_bandwidth.cpp:176-190 | in-place arrival with the transfer it may trigger computes the model's step |
| `BandwidthObjects.TCPSocketBandwidth.OnEnd` | src/aio/tcp_bandwidth.cpp:40-40 | the end of the stream is noted in place, with whether bytes are buffered; nothing is announced yet |
| `BandwidthObjects.ControllerSimple.AddStream` | include/aio/bandwidth_controller.h:56-65 | a new stream with four times the limit as its buffer gets a node at the end of the list |
| `BandwidthObjects.ControllerSimple.VisitNode` | include/aio/bandwidth_controller.h:107-126 | one turn of the inner loop on the live list, cursor and counters |
| `BandwidthObjects.ControllerSimple.Pass` | include/aio/bandwidth_controller.h:103-127 | the inner while loop, with calls back into consumers, computes the model's Visit |
| `BandwidthObjects.ControllerSimple.ShareOut` | include/aio/bandwidth_controller.h:99-128 | the do/while loop computes the model's Rounds |
| `BandwidthObjects.ControllerSimple.Transfer` | include/aio/bandwidth_controller.h:82-132 | the whole call computes the model's Transfer |
| `BandwidthObjects.ControllerSimple.SheduleTransfer` | include/aio/bandwidth_controller.h:74-80 | transfers only when none is scheduled |
| `BandwidthObjects.ControllerSimple.Defer` | include/aio/bandwidth_controller.h:134-142 | arms the timer and marks the transfer as scheduled |
| `BandwidthObjects.ControllerSimple.OnTimer` | include/aio/bandwidth_controller.h:140-140 | the timer's handler is used up and transfers |
| `DownloaderTheorems.WritePipeline` | include/downloader_simple.h:302-375 | in every state of every run that has not failed, file followed by queue is the body, offset_file is the file's length, offset plus queue is `downloaded`, and the normal close is requested only for the whole body |
| `DownloaderTheorems.FileHoldsBody` | include/downloader_simple.h:302-317 | file and queue together are exactly the pieces the parser yielded in the run, in order, for all sizes of partial writes |
| `DownloaderTheorems.OneFileRequest` | include/downloader_simple.h:320-375 | one file request at a time: the flag says whether one is outstanding, none is issued over another, a write continues the file with what is next in the queue |
| `DownloaderTheorems.BackPressure` | include/downloader_simple.h:302-308 | data reaches the downloader only while its queue is shorter than the backlog, if and only if the backlog is positive |
| `DownloaderHandles.StopsIff` | include/downloader_simple.h:269-308 | exactly when a socket that is being read is stopped, for every event of every run: the parser's verdict is final, or a piece of the body leaves a queue that is not shorter than the backlog |
| `DownloaderHandles.ReadsIff` | include/downloader_simple.h:344-348 | exactly when a stopped socket is read again: the request was written, or the file was opened or written with the queue empty after it, the response incomplete and the socket calling itself inactive |
| `DownloaderHandles.ReadInTime` | include/downloader_simple.h:235-251 | the socket is read in no state of a run before its request is written and in none after the response is complete |
| `DownloaderHandles.RequestsFollow` | include/downloader_simple.h:302-375 | the order of file requests, by every event that does not fail the download: a request stays outstanding until it is answered; opening and writing are followed by the write of all that is left of the first chunk, or with an empty queue by the close if the response is complete and by nothing otherwise; an idle writer is set going by a piece of the body alone, first to open the file |
| `DownloaderHandles.FailsIff` | include/downloader_simple.h:177-299 | exactly which events fail a download: an error of resolver, socket, timer or file, the timeout, stop(), a response the parser rejects, the end of the connection before any data |
| `DownloaderHandles.FailureDiscards` | include/downloader_simple.h:402-431 | what each of them does in every run: everything is let go, Failed is reported, and an open file is closed to be discarded, unless its close is what failed |
| `DownloaderHandles.EndHandledOnce` | include/downloader_simple.h:239-245 | the end of the connection is handled at most once, whatever happens after it |
| `DownloaderTheorems.AtMostOneReport` | include/downloader_simple.h:85-107 | unless the socket is shut down before the file is open, at most one final report; Done only with the whole body on disk and the file closed, Redirect only without a body, Failed if and only if failed |
| `DownloaderTheorems.TwoReportsIff` | include/downloader_simple.h:277-299 | exactly when there are two: once the file handle is done, a premature Done and a second report if and only if the socket was shut down while the file was being opened |
| `DownloaderTheorems.SecondReports` | include/downloader_simple.h:335-342 | Done is reported by whichever of shutdown and file close comes second, and it is true exactly unless the shutdown overtook the opening |
| `DownloaderTheorems.DoneUnlessIdle` | include/downloader_simple.h:286-294 | exactly when Done is never reported: a complete response with nothing left to wait for has reported Done once if and only if it was not completed, by data or by the end of the connection, while the writer was idle with its file open |
| `DownloaderTheorems.IdleAtDoneIff` | include/downloader_simple.h:254-294 | the guard behind it for a completion by data and for one at the end of the connection: no new bytes, the file open, no request outstanding |
| `DownloaderTheorems.StarvingIff` | include/downloader_simple.h:344-348 | exactly when a downloader that reads has stopped its socket and has no file request outstanding, in any run: its last queued bytes were written while the stopped socket called itself active |
| `DownloaderTheorems.HappenStarves` | include/downloader_simple.h:320-375 | the same for each single event |
| `DownloaderTheorems.NeverStarves` | include/downloader_simple.h:344-348 | so with a socket that is honest about being active a downloader that stopped it while reading always has a file request outstanding |
| `DownloaderTheorems.StarvingTimesOut` | include/downloader_simple.h:266-275 | what becomes of every downloader that starves, in any run: everything is on disk, nothing was reported, its timer is running, and when it fires the download fails |
| `DownloaderExamples.StarvesOnce` | include/downloader_simple.h:344-348 | a run that starves, with everything on disk and nothing reported |
| `BandwidthTheorems.ActiveAfterStop` | src/aio/tcp_bandwidth.cpp:80-83 | what active() tells a consumer that stopped a full stream in its handler: it is true if and only if the transfer made room in the buffer |
| `DownloadStreams.StarvesIffResumed` | include/downloader_simple.h:344-348 | across both classes, exactly when the limiter makes a downloader starve, at any time of any run of the limiter before the EndEvent: its last bytes are written while it has stopped the socket, and the last transfer had resumed the socket with no segment filling the buffer and nobody touching the socket since |
| `DownloadStreams.StarvesAtOnce` | include/downloader_simple.h:344-348 | the same right after the transfer in whose handler it stopped a full stream, in terms of the bytes left |
| `DownloadStreams.RefilledNeverStarves` | src/aio/tcp_bandwidth.cpp:176-187 | a segment that fills the buffer before the write is over saves it |
| `DownloadStreams.StarvesBehindLimiter` | include/downloader_simple.h:307-348 | a run of both in which that happens, with the whole body on disk and only the timer left, which fails the download |
| `DownloadStreams.DeliversToShortQueue` | include/downloader_simple.h:302-308 | back-pressure across both classes: a transfer of the limiter hands something to a listening downloader only if its queue is shorter than its positive backlog, because a stopped stream gives nothing |
| `DownloadCalls.OnDataTied` | include/downloader_simple.h:254-317 | what a DataEvent of its stream is to a downloader: as long as a stream is stopped if, and before its EndEvent only if, its downloader has stopped it or does not listen, a DataEvent finds the downloader listening and not having stopped its socket, and the calls of its handler keep that bond in both directions |
| `DownloadCalls.OnEndTied` | include/downloader_simple.h:235-299 | the calls in the handler of the EndEvent keep the bond |
| `DownloadCalls.CallsTied` | include/downloader_simple.h:177-446 | the calls in the handlers of resolver, timer, file and everything else keep it |
| `DownloadRuns.NothingUnheard` | include/downloader_simple.h:302-348 | joint runs of limiter and downloader, whatever the limiter, the network, the file and the other consumers do: every DataEvent of the stream finds the downloader listening with a queue below its positive backlog, no byte handed over is lost on it, the stream is stopped whenever the downloader has stopped it or does not listen, and while it listens and no EndEvent has come it is stopped only if the downloader has stopped it |
| `DownloadRuns.JointRuns` | src/aio/tcp_bandwidth.cpp:110-187 | either side of a joint run is a run of its own, so that all other results hold in it |
| `DownloadRuns.StarvesJointlyIff` | include/downloader_simple.h:344-348 | exactly when the limiter makes the downloader starve, in joint runs and without assumptions on how the two are coupled |
| `DownloadRunExamples.StarvesJointly` | include/downloader_simple.h:307-348 | a joint run in which it does, with every byte heard and on disk |
| `DownloaderExamples.DoneTwice` | include/downloader_simple.h:277-299 | a run that reports Done twice |
| `DownloaderExamples.DoneNever` | include/downloader_simple.h:286-294 | a run that reports nothing although the response is complete |
| `DownloaderObjects.DownloaderSimple.OnData` | include/downloader_simple.h:302-317 | queues the chunk, holds the socket up, opens the file or sets the writer going, as the model does |
| `DownloaderObjects.DownloaderSimple.OnWrite` | include/downloader_simple.h:320-375 | asks for the next write, the close, or the socket's data, as the model does |
| `DownloaderObjects.DownloaderSimple.Advance` | include/downloader_simple.h:353-362 | a partial write moves offset and first chunk on |
| `DownloaderObjects.DownloaderSimple.OnRead` | include/downloader_simple.h:254-299 | the parser's pieces and then its verdict |
| `DownloaderObjects.DownloaderSimple.OnShutdown` | include/downloader_simple.h:434-446 | the rendezvous on the socket's side |
| `DownloaderObjects.DownloaderSimple.OnFileClosed` | include/downloader_simple.h:335-342 | the rendezvous on the file's side |
| `DownloaderObjects.DownloaderSimple.TerminateHandles` | include/downloader_simple.h:402-431 | every handle is dropped; an open file is closed to be discarded |
| `DownloaderObjects.DownloaderSimple.OpenFile` | include/downloader_simple.h:465-490 | the open request is issued and the operation marked as started |
| `DownloaderObjects.DownloaderSimple.Dispatch` | include/downloader_simple.h:177-375 | for every event the handlers together change the object as the model's Happen says |
| `OnTickResults.WorkBounded` | src/on_tick_simple.cpp:14-85 | the termination measure: T tasks give at most T * (max_redirect + 1) final reports and as many calls of the factory, over whole runs |
| `OnTickResults.InvokeSpends` | src/on_tick_simple.cpp:14-85 | the measure falls with every final report and grows with none |
| `OnTickResults.RedirectsBounded` | src/on_tick_simple.cpp:61-79 | no job ever asks for more than max_redirect + 1 downloads |
| `OnTickResults.TasksConserved` | src/on_tick_simple.cpp:37-85 | every task taken is running as exactly one job with a downloader of its own, or over with its end shown; ids, downloaders and file names never mix |
| `OnTickResults.OthersUnchanged` | src/on_tick_simple.cpp:14-85 | a report changes no other job; the list is one shorter only if tasks or factory are gone; a followed redirect keeps id and name and asks for the new address |
| `OnTickCalls.CallsMade` | src/on_tick_simple.cpp:37-85 | what the factory is asked for, in every run of the program: the calls for job k ask for the address of task k, followed by the address of each of its redirect reports that is followed, in order, all with that task's file name, and there are no others |
| `OnTickCalls.ReportIsShown` | src/on_tick_simple.cpp:14-85 | what the dashboard shows after a report: of its job the state reported, but Failed for a redirect too many or to a download that does not start, and OnTheGo for one that does; of each task taken because of it, whether it runs; of every other job what it showed before |
| `OnTickResults.ThrowsIff` | src/on_tick_simple.cpp:87-94 | find_job throws if and only if the downloader was never started, has made a final report before, or was stopped |
| `OnTickResults.SlotsStayBusy` | main.cpp:40-52 | never more jobs than the concurrency, and as many as at the start until tasks or factory are gone |
| `OnTickResults.AllTasksServed` | main.cpp:40-52 | a program that ends of itself has taken all tasks if and only if there were no more than `concurrency` of them or one of the first `concurrency` could be started |
| `OnTickResults.TaskLeftBehind` | main.cpp:40-52 | a run that ends with a task never taken |
| `OnTickResults.InterruptEnds` | main.cpp:55-64 | SIGINT ends every job as failed and takes no further task |
| `OnTickTheorems.RunSound` | src/on_tick_simple.cpp:14-94 | the scheduler's invariant over every run |
| `OnTickObjects.OnTickSimple.Invoke` | src/on_tick_simple.cpp:14-35 | in-place dispatch of a report computes the model's Invoke; an unknown downloader changes nothing |
| `OnTickObjects.OnTickSimple.NextTask` | src/on_tick_simple.cpp:37-59 | the loop over tasks that do not start computes the model's NextTask |
| `OnTickObjects.OnTickSimple.Redirect` | src/on_tick_simple.cpp:61-85 | counts, follows, gives up or drops the job as the model does |
| `OnTickObjects.OnTickSimple.FindJob` | src/on_tick_simple.cpp:87-94 | the search finds the first job of the downloader |
| `OnTickObjects.OnTickSimple.Open` | main.cpp:40-52 | the start-up loop computes the model's Open |
| `DownloadJobs.ThrowsIffShutBeforeOpen` | include/downloader_simple.h:92-107 | across both classes: the reports of a whole download make the scheduler throw if and only if the socket was shut down while the file was being opened |
| `HttpTheorems.SplitIndependence` | src/http.cpp:26-141 | two ways of cutting a response into pieces and reads give the same outcome and body; only an error's reason text can differ, exactly if its first piece does |
| `HttpTheorems.ContentDelivered` | src/http.cpp:26-135 | 200, 202 and 203 end in Done with the whole body handed over and the first-wins map of all headers |
| `HttpTheorems.RedirectFollowed` | src/http.cpp:37-109 | 301, 302 and 303 redirect to the full value of the first header named Location if and only if there is one, else Error; no body byte is handed over |
| `HttpTheorems.OtherStatusFails` | src/http.cpp:43-47 | any other status is an error at once, with the code and the first piece of the reason |
| `HttpTheorems.DigitsDenote` | src/http.cpp:46-46 | the code in that text is its decimal numeral without leading zeros |
| `HttpTheorems.RejectedRead` | src/http.cpp:13-24 | a read that the grammar rejects, whatever was read before: unless a callback has stopped the parser by then it ends in Error with the grammar's text; what was handed over up to then stays and no later read adds to it |
| `HttpTheorems.FirstWinsAt` | src/http.cpp:62-66 | the map holds a name exactly if a header has it, with the value of the first one |
| `HttpTheorems.HeadersAssemble` | src/http.cpp:52-89 | names and values in any number of pieces are put together again |
| `HttpTheorems.LowerCaseLocationFails` | src/http.cpp:100-109 | a redirect with a lower-case location header is an error |
| `HttpObjects.HttpParser.OnStatus` | src/http.cpp:26-50 | status classes |
| `HttpObjects.HttpParser.OnHeaderField` | src/http.cpp:52-70 | a piece of a name, and the end of the previous header |
| `HttpObjects.HttpParser.OnHeaderValue` | src/http.cpp:72-89 | a piece of a value |
| `HttpObjects.HttpParser.OnHeadersComplete` | src/http.cpp:91-117 | the last header and the redirect decision |
| `HttpObjects.HttpParser.ResponseParse` | src/http.cpp:13-24 | one read: callbacks until the parser is stopped, then the grammar's verdict |

## Left out

- The event loop, name resolution, sockets, TLS, timers and the file system: only their completion events are modelled, as asynchronous steps that may come in any order.
- Synchronous completions: a handle never reports from within the call that asked it.
- The byte grammar of HTTP and `uri_parse`: third-party code; trailers after the headers are complete are not modelled either.
- Emitters and `shared_ptr`: reduced to "handlers cleared means no further effect" and a flag that says whether a weak reference can be locked.
- `TCPSocketSimple`, both socket factories, `FactorySimple` and `AIO_UVW`: thin wrappers; of `FactorySimple::create` only the call, its success and the state it shows are kept.
- The dashboard's display, command-line options and the parsing of the task file: the dashboard is a map from job to the state shown last, the tasks are a finite list.
- connect, write, shutdown and the events a limited socket passes on unchanged: they do not touch the limiter's state.
- Status texts, `m_status.size` and the removal of a partial file after a failure: no decision depends on them.
- Timer durations: 5 s and 50 ms are not related to the clock; a timer that is armed may fire at any time.
- Progress in real time: that a download ends depends on the network and on the exceptions above.
- BandwidthTheorems.BudgetOutcome: speaks of streams that are not stopped and consumers that only read or create streams in their handlers, like FairShare, because a stopped or closed stream is charged without giving anything; OneLevel and ChargedOutcome are what holds for every consumer.
- BandwidthTheorems.RunWrapsIff: speaks of consumers that do not close or release a stream in a handler, because a stream that leaves in the middle of a round is not charged; that a run with enough in every round does not wrap (RateLimitOfRounds) holds for every consumer.
- DownloadRuns.NothingUnheard: one downloader is followed, the others are arbitrary consumers; its stream object exists throughout the run, and the parser decides on a redirect before it yields any body.
- DownloaderObjects.DownloaderSimple.Dispatch: the callbacks of a read arrive as a list of body pieces with a final verdict; whether the socket calls itself active although it was stopped is part of the event.
- HttpTheorems.SplitIndependence: says nothing about responses that are cut off; RejectedRead is what holds of reads that the grammar rejects.
- BandwidthBudget.GivesAllowed: speaks of the same streams and consumers as BudgetOutcome; FirstRoundServes is what holds for every consumer.
