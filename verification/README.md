# Verified model of the Azure IoT device client core

This project models the part of the Azure IoT device SDK for C that owes guarantees over whole runs,
and proves those guarantees with Dafny: the queues of the low-level client, the threads above it, the
retry control, the block upload and the diagnostic sampling. The network transports, the hub and the
storage service are environments that may do anything their interface lets them do; what they answer
is a parameter of every operation, so each result holds for all answers.

`dafny verify dfyconfig.toml` checks everything.

## How it is organised

| module | what it is about |
|---|---|
| Options | the option type |
| Sequences, Words | facts about sequences; the 32-bit word |
| Ledger | entries that are submitted once, finish once, and have their callback run when they do |
| Telemetry | telemetry messages: accepted, waiting, in flight, finished |
| TwinReports | reported twin states and their 32-bit item ids |
| LowLevelClient | the low-level handle, whose methods update these queues in place |
| InputCallbacks | handlers of named inputs and the subscription they keep alive |
| SharedTransport | the worker of a shared transport, its callers, upload threads and their collection, and the locks |
| WorkerService | whether a registered client has a worker that is told to run |
| TransportCalls | the calls on a shared transport, undisturbed, from first step to last; who joins has stopped; the order of service |
| HandOff | the way of a confirmation from the low-level client to the user of an unshared client |
| HandOffService | the worker's pass, and that everything confirmed can be run before any destruction |
| UploadThreads | the records of upload threads and their collection |
| UploadDestruction | the destruction can always collect them all |
| UploadCalls | a start, an upload and a collection, undisturbed, from first step to last |
| RetryControl | the timed retry state machine and its backoff |
| RetryAnswers | what a call is answered, for every policy; the waits from one to the next and draw by draw |
| BlobUpload, BlockIds | the upload loop, the commit, the chunking callback, block ids and the block list |
| DiagnosticSampling | the sampling counter |
| HostNames | host names and storage URIs |

Two forms are used. A handle that is updated in place is a class; each method is proved to change the
abstract state as a specification function says, and the functions' properties are lemmas over every
run, of which each call that is not refused is one event. Code that runs in several threads is a machine whose steps are those of single threads, with the
owners of the locks in the state; a step touches shared state once, and the lemmas hold for every
interleaving. History (what was accepted, finished, called) is part of these states and is only ever
extended.

The main results are these. A telemetry message is never lost or doubled, and the callback given with
each send runs exactly once by the end of destruction, with that send's context
(`Telemetry.ExactlyOnce`, `Telemetry.SendersAreToldByDestruction`,
`LowLevelClient.ClientHandle.Destroy`), also across the hand-over between threads
(`HandOff.DestroyHandsOverAll`), and need not wait for the destruction
(`HandOffService.ConfirmationsCanBeRun`). A report goes untold only when the transport refused it
(`TwinReports.ToldUnlessRefused`). A shared worker does not touch a client once its deregistration has
returned, a destruction waits for the worker only after it has told it to stop, and no reachable state
deadlocks (`SharedTransport.NoWorkAfterReturn`, `TransportCalls.JoinerStopped`,
`SharedTransport.NoCyclicWait`, `SharedTransport.SomeThreadSteps`). An upload record is freed once and
after its thread (`UploadThreads.FreedOnceAfterTheThread`). Retries keep their distance and their budget
(`RetryControl.RetryBudget`), and every answer is determined by the retries before it
(`RetryAnswers.TimedAnswers`). A commit happens exactly for complete uploads and storage then holds the
buffer (`BlobUpload.UploadToBlob`).

## Where the code differs from what it says or seems to promise

- A message stamped at tick zero never times out: a stamp of zero also means "no timeout"
  (iothub_client/src/iothub_client_core_ll.c:2060).
- A report for which the transport's ProcessItem returns an error is destroyed without its callback
  (iothub_client/src/iothub_client_core_ll.c:2111-2116).
- The time limit and the waits of the retry control are not looked at when the 32-bit count has come
  round: a call due to be refused is told to retry exactly when the number of retries so far is a
  positive multiple of 2^32 (iothub_client/src/iothub_client_retry_control.c:98, 386).
- The backoff starts again with the 32-bit count: without a time limit the wait after 2^32 exponential
  retries is the first one (iothub_client/src/iothub_client_retry_control.c:183, 386).
- The reading of the clock recorded with a retry is not checked; when it fails, every later call fails
  until a reset (iothub_client/src/iothub_client_retry_control.c:391).
- The linear wait multiplies two 32-bit numbers and can wrap
  (iothub_client/src/iothub_client_retry_control.c:171).
- The comments on block ids speak of leading zeros; `%6u` pads with spaces
  (iothub_client/src/blob.c:48-49).
- An upload without any block tests a status that nobody has set
  (iothub_client/src/iothub_client_ll_uploadtoblob.c:787, iothub_client/src/blob.c:387).
- A start that comes between the end of the last client and the join of the worker finds the handle of
  a worker that has been told to stop; its client is registered and not served until a start finds the
  worker gone (iothub_client/src/iothubtransport.c:224-235, 327-335).
- The end of a client can answer "join" while another destruction already waits for the worker, even
  for a client that was never started; the worker is then joined twice
  (iothub_client/src/iothubtransport.c:322-335, 294-309).
- The subscription of inputs is given the device handle and its end the client handle
  (iothub_client/src/iothub_client_core_ll.c:2955, 2991); the model only records whether it is on.

## Model

| member | source | states |
|---|---|---|
| Telemetry.ExactlyOnce | iothub_client/src/iothub_client_core_ll.c:492-520 | In every reachable state each accepted message is waiting, in flight or finished, in one of the three and once; its callback has run once if it is finished and not at all otherwise |
| Telemetry.RunKeepsConserved | iothub_client/src/iothub_client_core_ll.c:1822-1884 | Over every run of sends, timeouts, option changes, transport takes, put-backs, completions and drains, no message is lost or doubled and the callbacks run are those of the finished messages in finishing order |
| Telemetry.DestroyFinishesAll | iothub_client/src/iothub_client_core_ll.c:1729-1743 | Once the transport holds nothing, destruction finishes every accepted message and each non-null callback has then run exactly once |
| Telemetry.DrainTells | iothub_client/src/iothub_client_core_ll.c:1735-1743 | The same for any state that conserves its messages, for all messages at once |
| Telemetry.AcceptedAreTheSends | iothub_client/src/iothub_client_core_ll.c:1822-1884 | Over every run the i-th message accepted carries the callback and context given with the i-th send, and there is one for each |
| Telemetry.SendersAreTold | iothub_client/src/iothub_client_core_ll.c:492-520 | In every reachable state the callback given with the i-th send has run once if its message is finished and not at all otherwise, and each time with the context of that send |
| Telemetry.SendersAreToldByDestruction | iothub_client/src/iothub_client_core_ll.c:1729-1743 | At the end of destruction the callback given with the i-th send, if there was one, has run exactly once |
| Telemetry.EventTellsWhy | iothub_client/src/iothub_client_core_ll.c:492-520 | A timeout pass, a completion and the drain finish their messages in order, each with its own reason, and run exactly the callbacks of those, with that reason |
| Telemetry.PassFinishesTheExpired | iothub_client/src/iothub_client_core_ll.c:2054-2076 | What a timeout pass leaves waiting and what it finishes are exactly the unexpired and the expired messages, each in list order |
| Telemetry.WaitingInOrder | iothub_client/src/iothub_client_core_ll.c:1875 | Without put-backs by the transport the waiting messages stay in the order in which they were accepted |
| Telemetry.SelectIsStable | iothub_client/src/iothub_client_core_ll.c:2055-2076 | What a timeout pass removes (and what it keeps) is exactly the entries that are expired (not expired), in list order |
| Telemetry.ExpiredMeans | iothub_client/src/iothub_client_core_ll.c:2060 | For stamps the clock has reached, the unsigned 64-bit age test is the test on the true elapsed time |
| Telemetry.TimesOutUnlessStampedZero | iothub_client/src/iothub_client_core_ll.c:1795-1820 | A message accepted at tick t under a timeout times out exactly when more than the timeout has passed and t is not zero |
| Telemetry.NeverTimesOutAtTickZero | iothub_client/src/iothub_client_core_ll.c:2060 | A message accepted at tick zero never times out, whatever its timeout |
| Telemetry.AcceptedMessagesAreFixed | iothub_client/src/iothub_client_core_ll.c:2282-2288 | No later call, SetOption included, changes a message already accepted, its deadline included |
| Telemetry.WaitingAsAccepted | iothub_client/src/iothub_client_core_ll.c:2046-2078 | Whatever waits is, field by field, a message as accepted, with a stamp the clock has reached |
| Ledger.CallsAreFaithful | iothub_client/src/iothub_client_core_ll.c:510-513 | Every callback run is a finished entry's own callback, with its own context and its result |
| Ledger.CountCallsOf | iothub_client/src/iothub_client_core_ll.c:504-517 | A callback has run as often as its entry has finished |
| TwinReports.RunKeepsConserved | iothub_client/src/iothub_client_core_ll.c:2088-2120 | Over every run each submitted report is in exactly one of acknowledgement queue, message queue, finished, refused; issue numbers grow along the queues |
| TwinReports.LiveInSubmissionOrder | iothub_client/src/iothub_client_core_ll.c:2088-2120 | The acknowledgement queue followed by the message queue is in submission order without repeats |
| TwinReports.ReportCallbackOnce | iothub_client/src/iothub_client_core_ll.c:549-581 | A report's callback has run once if it was acknowledged or destroyed, and not at all while it is live or if the transport refused it |
| TwinReports.ProcessSorts | iothub_client/src/iothub_client_core_ll.c:2088-2120 | DoWork takes the reports before the first answer that stops it off the message queue: those answered ok join the acknowledgement queue in order, those answered error are dropped, nobody is told |
| TwinReports.AnsweredAre | iothub_client/src/iothub_client_core_ll.c:2104-2116 | Of the reports offered, exactly one is moved (or dropped) for each such answer: the report that was given it, in order |
| TwinReports.DroppedAreTheRefused | iothub_client/src/iothub_client_core_ll.c:2111-2116 | Over every run the reports dropped are exactly those for which ProcessItem answered error, in that order |
| TwinReports.ToldUnlessRefused | iothub_client/src/iothub_client_core_ll.c:1745-1773 | At the end of destruction a report's callback has run exactly once, unless ProcessItem answered error for it: then never |
| TwinReports.SubmittedAreTheSends | iothub_client/src/iothub_client_core_ll.c:2442-2483 | Over every run the k-th report queued carries the callback and context of the k-th call that queued one, and every call has used one id |
| TwinReports.DestroyTellsInOrder | iothub_client/src/iothub_client_core_ll.c:1745-1773 | Destruction tells status 0 to the reports still queued, then to those waiting for an acknowledgement, and empties both queues |
| TwinReports.DestroyTellsAll | iothub_client/src/iothub_client_core_ll.c:1745-1773 | After destruction every report has been told exactly once, except those for which ProcessItem returned an error |
| TwinReports.NextIdFollowsClosedForm | iothub_client/src/iothub_client_core_ll.c:1113-1124 | The n-th item id is n mod (2^32 - 2) + 1, so ids stay in 1 .. 2^32 - 2 |
| TwinReports.ItemIdsInRange | iothub_client/src/iothub_client_core_ll.c:1113-1124 | In every reachable state the generator and every submitted report carry an id in that range |
| TwinReports.IdsCollideWhen | iothub_client/src/iothub_client_core_ll.c:1113-1124 | Two issue numbers share an id if and only if they are a multiple of 2^32 - 2 apart |
| TwinReports.LiveIdsDiffer | iothub_client/src/iothub_client_core_ll.c:549-581 | While the live reports span fewer issue numbers than there are ids, their ids are all different |
| TwinReports.AcknowledgesItsReport | iothub_client/src/iothub_client_core_ll.c:559-579 | A completion for a report's id tells that report the status, with its own callback and context, and removes just it, if and only if no earlier one still waiting was issued a multiple of 2^32 - 2 before it |
| TwinReports.FirstWhileSpanFits | iothub_client/src/iothub_client_core_ll.c:559-579 | That condition holds while the live reports span fewer issue numbers than there are ids |
| TwinReports.CompletesTheFirst | iothub_client/src/iothub_client_core_ll.c:559-579 | A completion tells the first waiting report with its id the status, with that report's callback and context, and removes it; without one it changes nothing |
| LowLevelClient.ClientHandle.constructor | iothub_client/src/iothub_client_core_ll.c:1040-1078 | A new handle has empty queues, no timeout, id generator at 1 and no sampling |
| LowLevelClient.ClientHandle.SendEventAsync | iothub_client/src/iothub_client_core_ll.c:1822-1884 | The result for every combination of arguments and failures below; an accepted message is new, at the tail, and carries the caller's callback and context; otherwise nothing changes but the sampling counter, which has stepped exactly if the message was cloned; the message is diagnosed as an unbounded counter would decide |
| LowLevelClient.ClientHandle.SetMessageTimeout | iothub_client/src/iothub_client_core_ll.c:2282-2288 | Only the timeout for later messages changes |
| LowLevelClient.ClientHandle.SetDiagnosticSamplingPercentage | iothub_client/src/iothub_client_core_ll.c:2315-2331 | Percentages above 100 are refused and change nothing; others restart the sampling |
| LowLevelClient.ClientHandle.RemoveExpired | iothub_client/src/iothub_client_core_ll.c:2054-2076 | The in-place pass leaves the unexpired entries in order and runs the callbacks of the expired ones in list order |
| LowLevelClient.ClientHandle.DoTimeouts | iothub_client/src/iothub_client_core_ll.c:2046-2078 | The pass as a whole, and that a clock failure leaves everything as it was |
| LowLevelClient.ClientHandle.Confirm | iothub_client/src/iothub_client_core_ll.c:510-516 | A finished entry's own callback is called once with its own context and the result, or no callback when it has none |
| LowLevelClient.ClientHandle.SendComplete | iothub_client/src/iothub_client_core_ll.c:492-520 | The completed list is emptied from its head and each entry finished with the result given |
| LowLevelClient.ClientHandle.GetNextItemId | iothub_client/src/iothub_client_core_ll.c:1113-1124 | The generator's next value, with its wrap |
| LowLevelClient.ClientHandle.SendReportedState | iothub_client/src/iothub_client_core_ll.c:2442-2483 | The result for every combination of arguments and failures; a queued report is at the tail with the caller's callback and context; an id is used up even when the report is then not queued |
| LowLevelClient.ClientHandle.OfferReports | iothub_client/src/iothub_client_core_ll.c:2088-2120 | The loop takes the reports before the first answer that stops it; those answered ok wait for their acknowledgement in order, those answered error are dropped |
| LowLevelClient.ClientHandle.DoWork | iothub_client/src/iothub_client_core_ll.c:2080-2119 | Up to the call of the transport's own DoWork: the expired messages are timed out and the reports sorted by their answers; nothing else changes |
| LowLevelClient.ClientHandle.ReportedStateComplete | iothub_client/src/iothub_client_core_ll.c:549-581 | The search tells and removes the first report with the id, with that report's callback and context, or changes nothing |
| LowLevelClient.ClientHandle.TellStatus | iothub_client/src/iothub_client_core_ll.c:569-572 | The same for a report and its status |
| LowLevelClient.ClientHandle.DrainLists | iothub_client/src/iothub_client_core_ll.c:1729-1773 | The waiting messages are told in list order, the queued reports in theirs and then those awaiting an acknowledgement in theirs; the lists are then empty |
| LowLevelClient.ClientHandle.Destroy | iothub_client/src/iothub_client_core_ll.c:1718-1773 | When it returns, every accepted message's callback has run exactly once and every report not refused by the transport has been told exactly once |
| InputCallbacks.CallbackList.CreateEventHandlerCallback | iothub_client/src/iothub_client_core_ll.c:2829-2920 | Finds or adds the entry of the name and overwrites its handlers and contexts |
| InputCallbacks.CallbackList.RemoveEventUnsubscribeIfNeeded | iothub_client/src/iothub_client_core_ll.c:2922-2963 | An absent name is an error that changes nothing; otherwise the entry goes, and the subscription with the last one |
| InputCallbacks.CallbackList.SetInputMessageCallbackImpl | iothub_client/src/iothub_client_core_ll.c:2966-3000 | Every case of set and remove, the failed subscription included, and the outcome recorded |
| InputCallbacks.CallbackList.MessageCallbackFromInput | iothub_client/src/iothub_client_core_ll.c:636-711 | Which handler is called with which context, and the answer given back |
| InputCallbacks.RunKeepsFaithful | iothub_client/src/iothub_client_core_ll.c:2829-3000 | Over every run names are unique, the subscription is on exactly while a handler is registered, and the list holds for each name what the successful calls left in force |
| InputCallbacks.DispatchesToLatest | iothub_client/src/iothub_client_core_ll.c:659-708 | Over every run of the two registering calls, a message goes to the newest handler registered for its input, else to the newest default handler, else to nobody, and the handler gets the context of its own registration |
| InputCallbacks.CallbackList.SetInputMessageCallback | iothub_client/src/iothub_client_core_ll.c:3012-3015 | A plain registration is a step of such runs |
| InputCallbacks.CallbackList.SetInputMessageCallbackEx | iothub_client/src/iothub_client_core_ll.c:3007-3010 | So is an extended one |
| InputCallbacks.RefusedSubscriptionChangesNothing | iothub_client/src/iothub_client_core_ll.c:2985-2995 | A registration the transport refuses leaves the handling of every input as it was and the subscription off |
| InputCallbacks.SucceedsWhen | iothub_client/src/iothub_client_core_ll.c:2922-3000 | In every reachable state a removal succeeds exactly when a registration for the name is in force, and a registration exactly when the subscription is on or is granted |
| InputCallbacks.RegisteredIsCalled | iothub_client/src/iothub_client_core_ll.c:2829-2920 | In every reachable state, after a plain or an extended registration that succeeds, a message for the input goes to that handler with the context of that call |
| SharedTransport.NoWorkAfterReturn | iothub_client/src/iothubtransport.c:150-177 | In every interleaving, after the signalling call for a client has returned no worker starts on that client before it has been added again |
| SharedTransport.InsideMeansRegistered | iothub_client/src/iothubtransport.c:150-177 | A thread inside a client's work holds the clients lock and the client is on the list |
| SharedTransport.NobodyInsideTheEnded | iothub_client/src/iothubtransport.c:311-352 | While a client is deregistered no thread is inside its work |
| SharedTransport.StoppedOnlyWhenUnused | iothub_client/src/iothubtransport.c:311-352 | The end of a client sets the stop flag only while no client is registered and while holding the clients lock |
| SharedTransport.StepKeepsLocked | iothub_client/src/iothubtransport.c:179-211 | Each lock is owned by exactly the thread whose position says so, after every step |
| SharedTransport.StepKeepsListed | iothub_client/src/iothubtransport.c:221-274 | The list never repeats a client, holds exactly those added and not ended since, and work happens only on those |
| SharedTransport.StepKeepsWalking | iothub_client/src/iothubtransport.c:150-177 | The list does not change under a thread that walks it |
| SharedTransport.RunKeepsInv | iothub_client/src/iothubtransport.c:150-370 | All of these hold over every run of any number of callers, workers and destructions |
| SharedTransport.LocksAreOrdered | iothub_client/src/iothub_client_core.c:1173-1224 | Locks are taken in the order clients lock, transport lock, record lock and none twice; no thread joins a worker while it holds a lock, and an upload thread joined under locks only has its exit left |
| SharedTransport.JoinedUploadExits | iothub_client/src/iothub_client_core.c:229-270 | The upload thread a collector joins, inside a client's work or in a destruction, waits for nothing |
| SharedTransport.StepKeepsUploads | iothub_client/src/iothub_client_core.c:2214-2234 | Only marked upload threads are joined, and a marked one is past its mark, after every step |
| SharedTransport.WaitingClimbs | iothub_client/src/iothubtransport.c:276-352 | Whatever a thread waits for, a lock or the end of a worker or upload thread, is owned by (or is) a thread of strictly higher rank that is under way |
| SharedTransport.NoCyclicWait | iothub_client/src/iothub_client_core.c:767-790 | No reachable state has a cycle of threads waiting for one another, collectors and upload threads included |
| SharedTransport.SomeThreadSteps | iothub_client/src/iothubtransport.c:354-370 | A thread under way can take its next step, or waits through a chain of threads for one that can |
| SharedTransport.TransportHandleData.constructor | iothub_client/src/iothubtransport.c:126-130 | A transport starts without clients, without a worker and stopped |
| SharedTransport.TransportHandleData.MultiplexedClientDoWork | iothub_client/src/iothubtransport.c:150-177 | One pass works on every registered client once, in list order |
| SharedTransport.TransportHandleData.StartWorkerIfNeeded | iothub_client/src/iothubtransport.c:221-274 | The worker, the stop flag, the list and the answer after a start, for every combination of failures |
| SharedTransport.TransportHandleData.SignalEndWorkerThread | iothub_client/src/iothubtransport.c:311-352 | One element is erased; the worker is told to stop exactly when there is one and the list is empty |
| SharedTransport.SignalAlone | iothub_client/src/iothubtransport.c:311-352 | A thread of the machine that signals the end of a client undisturbed does the same to the list, the flag and the answer, and logs the end and the return |
| SharedTransport.PassAlone | iothub_client/src/iothubtransport.c:150-177 | A worker of the machine that walks the list undisturbed works on every client once, in list order |
| SharedTransport.StartAlone | iothub_client/src/iothubtransport.c:221-274 | A thread of the machine that starts a client undisturbed does what the procedure does to the handle, the flag and the list, when creating the worker and adding the client both succeed or both fail |
| WorkerService.ToldToStopWhen | iothub_client/src/iothubtransport.c:221-352 | While a client stays registered and the transport is not destroyed, the worker is told to stop at the end if and only if it was at the beginning and no start has found the worker gone since |
| WorkerService.ClientLeftUnserved | iothub_client/src/iothubtransport.c:221-352 | A run after which every call has returned, the worker has exited and been joined, and a client whose start succeeded is still on the list |
| WorkerService.WorkerJoinedTwice | iothub_client/src/iothubtransport.c:311-352 | A run in which two destructions wait for one exited worker and each can join it |
| WorkerService.JoinersFindTheHandle | iothub_client/src/iothubtransport.c:294-309 | A thread comes to wait for a worker only by finding the handle naming it |
| TransportCalls.DestroyUnjoined | iothub_client/src/iothub_client_core.c:1213-1236 | A destruction that was not told to join returns without waiting for the worker; the handle, the flag, the list and every other thread are as they were |
| TransportCalls.DestroyedWhileOthersStay | iothub_client/src/iothubtransport.c:311-352 | A client is destroyed, from the call to its return, by steps of the calling thread alone, when other clients stay registered or there is no worker; only the list and the history change |
| TransportCalls.JoinerStopped | iothub_client/src/iothubtransport.c:294-352 | In every reachable state, a thread that waits for a worker in the destruction of a client has, earlier in that same destruction, found the list empty and set the stop flag |
| TransportCalls.TransportDestroyAlone | iothub_client/src/iothubtransport.c:354-362 | The destruction of the transport sets the stop flag whatever clients there are and then waits for the worker the handle names, if there is one |
| TransportCalls.TransportDestroyRuns | iothub_client/src/iothubtransport.c:354-362 | While the worker is at the head of its loop, such a destruction can be brought to its end: the worker exits, is joined, and the handle is empty |
| TransportCalls.ListInOrderOfRegistration | iothub_client/src/iothubtransport.c:221-352 | In every reachable state the list holds the clients added and not ended since, in the order in which they were added |
| TransportCalls.RoundAlone | iothub_client/src/iothubtransport.c:179-211 | A worker that is not told to stop works on every registered client once, in list order, and is back at the head of its loop with every lock released |
| TransportCalls.LocksInside | iothub_client/src/iothub_client_core.c:767-790 | Inside a client the worker takes that client's lock and releases it again, as often as it needs to |
| TransportCalls.CallAlone | iothub_client/src/iothub_client_core.c:1309-1377 | A call under the client's lock may create one upload thread, changes nothing else and releases the lock |
| TransportCalls.CollectsAlone | iothub_client/src/iothub_client_core.c:229-270 | A collector, at work or in a destruction, joins the thread of a marked record, and cannot go on until that has exited; that of an unmarked one it leaves alone; then the locks are as before |
| TransportCalls.UploadAlone | iothub_client/src/iothub_client_core.c:2214-2234 | An upload thread marks itself under the lock of its record and exits with the lock released |
| HandOff.DestroyHandsOverAll | iothub_client/src/iothub_client_core.c:1162-1282 | In every interleaving, when destruction has returned every message accepted with a callback has had it run exactly once, in the order of the low-level confirmations |
| HandOff.RunInOrder | iothub_client/src/iothub_client_core.c:792-842 | At any moment the confirmations run are the first ones issued: none twice, skipped or overtaken |
| HandOff.ListIsGuarded | iothub_client/src/iothub_client_core.c:441-457 | The saved list and the low-level client change only in steps of the thread that owns the client's lock |
| HandOff.DestructionCanFinish | iothub_client/src/iothub_client_core.c:1162-1282 | From every reachable state with a destruction under way some run brings it to its end, whatever the worker was doing and whatever the transport held |
| HandOffService.ConfirmationsCanBeRun | iothub_client/src/iothub_client_core.c:792-842 | From every reachable state with a worker that is not told to stop and no destruction under way, some run brings the confirmations run up to all those issued |
| HandOffService.WorkerPassAlone | iothub_client/src/iothub_client_core.c:812-830 | A worker that nothing disturbs moves the whole list away, runs its confirmations, all and in order, and is back at the head of its loop with nothing left |
| HandOffService.PassWithoutMove | iothub_client/src/iothub_client_core.c:816-830 | When the list cannot be moved the pass runs nothing and leaves the list as it was |
| HandOffService.WorkerLetsHappen | iothub_client/src/iothub_client_core.c:812-816 | While the worker holds the lock the transport may do whatever it is able to, and exactly what that confirms is pushed on the list |
| HandOffService.SendAlone | iothub_client/src/iothub_client_core.c:1309-1377 | An undisturbed caller has its message accepted below under the lock, and a worker that is told to run exists afterwards |
| HandOff.SomeStepIsNearer | iothub_client/src/iothub_client_core.c:1173-1224 | Until then some step brings it strictly nearer to its end |
| HandOff.StepKeepsLocked | iothub_client/src/iothub_client_core.c:1309-1377 | The client's lock is owned by exactly the thread whose position says so, after every step |
| HandOff.SenderKeepsFlows | iothub_client/src/iothub_client_core.c:1309-1377 | A caller's step loses and repeats no confirmation, even while the worker is half way through moving the list |
| HandOff.WorkerKeepsFlows | iothub_client/src/iothub_client_core.c:792-842 | Nor does a step of the worker: pushing, moving the list in two steps, a failed move, dispatching |
| HandOff.DestroyerKeepsFlows | iothub_client/src/iothub_client_core.c:1236-1282 | Nor does a step of the destruction: low-level destruction, then the final drain |
| HandOff.RunKeepsInv | iothub_client/src/iothub_client_core.c:583-842 | All of this holds over every run |
| HandOff.DispatchUserCallbacks | iothub_client/src/iothub_client_core.c:613-764 | The dispatch loop runs the confirmations of a batch, all of them and in order |
| UploadThreads.FreedOnceAfterTheThread | iothub_client/src/iothub_client_core.c:229-270 | In every interleaving a record is freed at most once, and one whose thread was started only after that thread has marked it and has ended |
| UploadThreads.UsersFindTheirRecord | iothub_client/src/iothub_client_core.c:2171-2234 | No caller, upload thread or collector stands at a position that uses a freed record, not even a caller about to unlock through the record of a thread that has already ended |
| UploadThreads.DestructionFreesAll | iothub_client/src/iothub_client_core.c:1226-1236 | When the destruction's collection loop is over, every started record has been freed and the list is empty |
| UploadThreads.JoinedThreadExits | iothub_client/src/iothub_client_core.c:247-252 | The thread a collector joins has only its exit left and waits for nothing |
| UploadDestruction.DestructionCanFinish | iothub_client/src/iothub_client_core.c:1226-1236 | From every reachable state some run brings the destruction through its collection to its end, whatever callers, upload threads and worker were doing |
| UploadDestruction.SomeStepIsNearer | iothub_client/src/iothub_client_core.c:229-270 | Until then some step brings it strictly nearer to its end |
| UploadThreads.WaitingClimbs | iothub_client/src/iothub_client_core.c:238-266 | With the client's lock, the records' locks and the joins taken together, waiting leads to threads of strictly higher rank |
| UploadThreads.NeverStuck | iothub_client/src/iothub_client_core.c:229-270 | In every reachable state a call, upload or collection under way can take its next step, or waits through a chain of threads for one that can |
| UploadThreads.RecordList.GarbageCollectorImpl | iothub_client/src/iothub_client_core.c:229-270 | One undisturbed collection takes the marked records off the list and frees them in list order; the others stay in order |
| UploadThreads.CollectionSplits | iothub_client/src/iothub_client_core.c:229-270 | Each listed record is freed if it is marked and kept if it is not |
| UploadCalls.CollectionAlone | iothub_client/src/iothub_client_core.c:229-270 | A thread of the machine that collects undisturbed does to the list what the collecting loop does: the marked records are taken off and freed in list order, the others stay; the destruction is then over if none is left |
| UploadCalls.StartAlone | iothub_client/src/iothub_client_core.c:2171-2212 | An undisturbed start lists its record and hands it to a new upload thread |
| UploadCalls.StartFailsAlone | iothub_client/src/iothub_client_core.c:2171-2212 | When the thread cannot be created the record is off the list again and freed, and nothing else has changed |
| UploadCalls.UploadAlone | iothub_client/src/iothub_client_core.c:2214-2234 | An undisturbed upload thread marks its record under the record's lock and ends |
| UploadThreads.StepKeepsLives | iothub_client/src/iothub_client_core.c:2171-2234 | Every step keeps each record's life in order: listed before its thread starts, off the list only by its starter or after its thread has ended, freed once |
| UploadThreads.RunKeepsInv | iothub_client/src/iothub_client_core.c:209-270 | That and the lock ownership hold over every run |
| RetryControl.RetryControlInstance.constructor | iothub_client/src/iothub_client_retry_control.c:292-331 | The defaults for each policy, in the reset state |
| RetryControl.RetryControlInstance.Reset | iothub_client/src/iothub_client_retry_control.c:273-290 | The four fields reset, the others kept |
| RetryControl.RetryControlInstance.SetOption | iothub_client/src/iothub_client_retry_control.c:406-462 | Which values each of the three settings accepts, and that a refused one changes nothing |
| RetryControl.RetryControlInstance.ShouldRetryNow | iothub_client/src/iothub_client_retry_control.c:347-404 | The answer and the new fields for every state and every reading of clock and random generator |
| RetryControl.RunKeepsInvariant | iothub_client/src/iothub_client_retry_control.c:93-157 | Over any run since a reset, however long, every retry decided by the clock keeps its distance and the time allowed, and a stop is due for good |
| RetryControl.FieldsFollowRetries | iothub_client/src/iothub_client_retry_control.c:347-404 | Over any run since a reset the fields are those of the last retry and the count is the number of retries modulo 2^32 |
| RetryControl.RetryBudget | iothub_client/src/iothub_client_retry_control.c:347-404 | In a run of any length, up to the first decision that finds the count at zero again, consecutive retries are at least the recorded wait apart and the waits recorded before any retry add up to less than the time allowed |
| RetryControl.RefusedUnlessWrapped | iothub_client/src/iothub_client_retry_control.c:93-157 | Exactly when that fails: after n retries a call is told to retry if and only if n is a positive multiple of 2^32, or both readings it compares have succeeded and it is not due to be refused; before any retry, if and only if it can read the clock |
| RetryControl.FailedRecordIsFinal | iothub_client/src/iothub_client_retry_control.c:391-395 | When the unchecked reading recorded with a retry has failed, every later call of the run fails, unless the count has come round |
| RetryControl.StopIsFinal | iothub_client/src/iothub_client_retry_control.c:93-157 | After one answer to stop, every later successful call answers stop, in runs of any length |
| RetryAnswers.TimedAnswers | iothub_client/src/iothub_client_retry_control.c:93-157 | Over every run of a timed policy, exactly when a call fails, is told to stop, to wait, or to retry, in terms of the retries so far; also before the first and while the count is at zero again |
| RetryAnswers.ImmediateAnswers | iothub_client/src/iothub_client_retry_control.c:93-157 | The same for the immediate policy, which never answers to wait |
| RetryAnswers.NoRetryStops | iothub_client/src/iothub_client_retry_control.c:347-365 | Without a retry policy every call of every run is told to stop and changes nothing |
| RetryAnswers.SecondCallWaits | iothub_client/src/iothub_client_retry_control.c:139-144 | The second call of a default exponential control is told to come back later when made at once and to retry a second later |
| RetryControl.CountNeverWraps | iothub_client/src/iothub_client_retry_control.c:383-396 | With a time limit and waits of at least a second there are at most as many retries as seconds allowed, so the 32-bit count does not wrap |
| RetryControl.BudgetForgottenAfterWrap | iothub_client/src/iothub_client_retry_control.c:383-396 | 2^32 calls that draw no wait are all retries and bring the count back to zero; a call past the time limit is then told to retry |
| RetryControl.WaitsFollowClosedForm | iothub_client/src/iothub_client_retry_control.c:159-220 | Over any run with fixed options, however long, the wait recorded with the k-th retry is the closed form: constant, min(w*k mod 2^32, m), min(w*2^((k-1) mod 2^32), m), or that stretched by at most the jitter percentage |
| RetryControl.ExponentialWaitIsExactWhen | iothub_client/src/iothub_client_retry_control.c:182-194 | Over any run with fixed options the wait recorded with the k-th exponential retry is min(w*2^(k-1), m) if and only if k is at most 2^32 or the cap hides that the count has come round |
| RetryControl.ExponentialWaitsGrowWhen | iothub_client/src/iothub_client_retry_control.c:182-194 | Over any run with fixed options a later exponential wait is no shorter than an earlier one if and only if the 32-bit count has not come round to less between them or the later one is at the cap |
| RetryControl.ExponentialRestarts | iothub_client/src/iothub_client_retry_control.c:182-194 | A default exponential control without a time limit records the cap of 30 seconds with its 2^32-th retry and one second with the next |
| RetryAnswers.ExponentialWaitsDouble | iothub_client/src/iothub_client_retry_control.c:182-194 | Over any run with fixed options the first exponential wait is the option and each later one twice the one before, up to the cap, unless the 32-bit count starts again with it |
| RetryAnswers.JitteredWait | iothub_client/src/iothub_client_retry_control.c:195-208 | The wait recorded with a jittered retry is the capped exponential wait, lengthened by the drawn part of the percentage and rounded down |
| RetryAnswers.RandomWait | iothub_client/src/iothub_client_retry_control.c:209-214 | The wait recorded with a random retry is the drawn part of the option, rounded down |
| RetryControl.RetriesWithinLimit | iothub_client/src/iothub_client_retry_control.c:383-396 | For the constant, linear and exponential policies, with or without jitter, the number of retries never exceeds the seconds allowed; for linear waits while the option times the seconds allowed stays below 2^32 |
| RetryControl.LinearWaitIsExactWhen | iothub_client/src/iothub_client_retry_control.c:169-180 | Over any run with fixed options, however long, the wait recorded with the k-th linear retry is min(w*k, m) if and only if the 32-bit product does not wrap or wraps to at least m |
| RetryControl.LinearWaitCanCollapse | iothub_client/src/iothub_client_retry_control.c:169-180 | A linear control with a first wait of 2^31 seconds and a cap of an hour records the hour with its first retry and no wait with its second |
| BlobUpload.UploadBlock | iothub_client/src/blob.c:20-127 | The result, list, status and request for each block id and outcome |
| BlobUpload.InvokeUserCallbackAndSendBlobs | iothub_client/src/blob.c:141-228 | For an arbitrary callback the loop ends; where it ends, with which result and status, which blocks were PUT and what the list then is |
| BlobUpload.UploadMultipleBlocksFromSasUri | iothub_client/src/blob.c:231-400 | The list is completed and PUT if and only if every block supplied was accepted and the callback then signalled the end; success is reported exactly when the list was then accepted too; and when each of the other results is reported |
| BlobUpload.CompleteWhen | iothub_client/src/blob.c:383-392 | The test before the commit singles out exactly the complete uploads; with no block at all it depends on a status nobody set |
| BlobUpload.CommittedListReadsBack | iothub_client/src/blob.c:222-236 | A committed list reads back as the ids 0 .. n-1, and these are the blocks PUT and accepted |
| BlobUpload.BlobUploadContext.GetData | iothub_client/src/iothub_client_ll_uploadtoblob.c:617-647 | The k-th answer is the k-th chunk of the buffer, in bounds, then the end; after a failure nothing moves |
| BlobUpload.ChunkedUploadCompletes | iothub_client/src/iothub_client_ll_uploadtoblob.c:932-959 | An upload of a buffer completes if and only if the buffer needs no more blocks than allowed, every block is accepted and, for an empty buffer, the unset status allows it |
| BlobUpload.EmptyUploadDependsOnStatus | iothub_client/src/blob.c:383-392 | The same upload of an empty buffer completes with one unset status and not with another |
| BlobUpload.FitsWhen | iothub_client/src/iothub_client_ll_uploadtoblob.c:932-959 | A buffer fits if and only if it is no longer than all allowed blocks together |
| BlobUpload.ChunksConcatenate | iothub_client/src/iothub_client_ll_uploadtoblob.c:617-647 | At any point the bodies PUT concatenate to a beginning of the buffer |
| BlobUpload.WholeBufferUploaded | iothub_client/src/iothub_client_ll_uploadtoblob.c:932-959 | A complete upload has PUT the whole buffer and nothing else, in ceil(size / block size) non-empty bodies of at most the block size |
| BlobUpload.UploadMultipleBlocksToBlob | iothub_client/src/iothub_client_ll_uploadtoblob.c:665-930 | When the application is told OK, and what was committed then |
| BlobUpload.UploadToBlob | iothub_client/src/iothub_client_ll_uploadtoblob.c:932-959 | For every buffer, OK is reported exactly when it fits, every block (for an empty one: the unset status) and the list were accepted and the hub was told; a committed list names blocks that concatenate to the buffer; a larger buffer never commits |
| BlockIds.BlockIdReadsBack | iothub_client/src/blob.c:41-71 | Exactly the ids up to 49999 are written, each in eight characters that read back to it |
| BlockIds.BlockIdsDiffer | iothub_client/src/blob.c:48-71 | Different ids have different names |
| BlockIds.FirstAndLastToken | iothub_client/src/blob.c:41-57 | The first block is named ICAgICAw and the last IDQ5OTk5 |
| BlockIds.AlphabetIs | iothub_client/src/blob.c:57 | The alphabet of section 4 of RFC 4648 |
| BlockIds.EncodingDecodesBack | iothub_client/src/blob.c:57 | Base64 on whole groups decodes back (section 4 of RFC 4648) |
| BlockIds.ListReadsBack | iothub_client/src/blob.c:222-236 | The accumulated document reads back as exactly the ids 0 .. n-1 in order |
| BlockIds.OneMoreEntry | iothub_client/src/blob.c:66-70 | One more block adds its name between the tags of a latest block |
| BlockIds.DocumentOfOne | iothub_client/src/blob.c:16-17 | The whole text of the document with one block |
| DiagnosticSampling.DiagnosticSetting.constructor | iothub_client/src/iothub_client_core_ll.c:1076-1078 | Sampling starts switched off |
| DiagnosticSampling.DiagnosticSetting.ShouldAddDiagnosticInfo | iothub_client/src/iothub_client_diagnostic.c:87-106 | The decision is the one an unbounded counter would make; with percentage 0 nothing is counted |
| DiagnosticSampling.DiagnosticSetting.SetSamplingPercentage | iothub_client/src/iothub_client_core_ll.c:2315-2331 | Percentages above 100 are refused and change nothing; others restart the counter |
| DiagnosticSampling.FoldedCounterDecidesAlike | iothub_client/src/iothub_client_diagnostic.c:93-104 | The 32-bit counter, folded at its maximum, decides every message as an unbounded one does |
| DiagnosticSampling.SampledCount | iothub_client/src/iothub_client_diagnostic.c:93-104 | The number sampled among consecutive messages is a difference of two floors |
| DiagnosticSampling.AnyHundredMessages | iothub_client/src/iothub_client_diagnostic.c:87-106 | Any 100 consecutive messages carry exactly the percentage of samples |
| DiagnosticSampling.FirstMessages | iothub_client/src/iothub_client_diagnostic.c:87-106 | The first N messages carry floor((N-1)p/100)+1 samples |
| HostNames.SplitsAtFirstDot | iothub_client/src/iothub_client_core_ll.c:904-941 | The shared-transport splitter succeeds exactly on names with a dot and cuts at the first |
| HostNames.SplitDeviceAuthUri | iothub_client/src/iothub_client_core_ll.c:1227-1264 | The device-authentication splitter agrees with it on every string |
| HostNames.JoinHostname | iothub_client/src/iothub_client_ll_uploadtoblob.c:266-291 | The buffer holds name, dot, suffix and terminator |
| HostNames.SplitPartsRejoin | iothub_client/src/iothub_client_ll_uploadtoblob.c:266-291 | Splitting a hub host name and joining the parts restores it |
| HostNames.BuiltUriParsesBack | iothub_client/src/blob.c:323-351 | Parsing the storage URI built from a host gives that host and the remaining path if and only if the host has no slash |
| HostNames.SasUriIs | iothub_client/src/iothub_client_ll_uploadtoblob.c:219 | The text of the storage URI |
| HostNames.ParsesWhen | iothub_client/src/blob.c:323-351 | On every text: parsing succeeds exactly when a slash comes after the first scheme end, and then cuts the text there and at the first such slash |

## Left out

- The threads of SharedTransport, HandOff and UploadThreads are machines on values, not concurrent
  methods on a heap; a step that the source performs in several instructions on data of one thread is
  one step.
- Failures of locks and of joins, and allocation failures except where a result depends on them: the
  failing VECTOR_push_back of a confirmation loses it, the failing allocations of an input handler
  leave a freed entry linked.
- User callbacks that call back into the client, and calls made while the client is being destroyed.
- DList, VECTOR and singlylinkedlist are not part of this model; sequences stand for them.
- HandOff: starting the worker is one step, and only one worker exists.
- SharedTransport: which records a shared client lists is not modelled, because a shared worker walks
  that list without the client's lock (iothub_client/src/iothub_client_core.c:771); a collector may look
  at any upload thread. The memory of the records and of the transport is not modelled there either.
- UploadThreads: covers unshared clients, where records are collected under the client's lock.
- SharedTransport: what a second join of one thread does is not defined; the machine lets it succeed.
- RetryControl: doubles are reals, which is exact for the exponential base delay and idealised for the
  jitter; a stretched wait beyond 32 bits, undefined in C, is kept as it is.
- RetryControl.RetryControlInstance.SetOption: does not model the saved-options branch, which hands a
  stored set of options to OptionHandler, and OptionHandler is not part of this model; what it feeds
  back arrives through this method, so a run with such a feed is a run with those settings.
- LowLevelClient.ClientHandle.DoWork: ends before the call of the transport's own DoWork
  (iothub_client/src/iothub_client_core_ll.c:2122), which is modelled as later steps of the transport
  (Telemetry's takes, put-backs and completions).
- LowLevelClient: the calls of message callbacks and those of report callbacks are separate traces, so
  the order between the two kinds, in DoWork and in the destruction, is not recorded.
- BlobUpload: BLOCK_SIZE and MAX_BLOCK_COUNT are parameters; HTTP requests, the JSON of steps 1 to 3,
  certificates and proxies are outcomes of the environment.
- The diagnostic id and timestamp, payload copies, logging, product information.
- Other callbacks than confirmations in HandOff: they travel on the same list, in order, but which of
  them run is not tracked.
- Connection strings, authorization, message properties and the one-line wrappers around the core.
