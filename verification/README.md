# Verified model of the HauppaugeUSB core

HauppaugeUSB makes a Hauppauge HD PVR 2 or Colossus 2 usable as an external recorder of MythTV. This
project models its hand-written state and concurrency code in Dafny and proves what that code keeps:

- **The recorder** (`RecorderMachine.dfy`). The shared fields of `MythTV`, its two non-recursive
  mutexes and its packet queue, as a machine in which any number of threads and the one consumer
  thread take turns, one shared access per step. `RecorderInvariant.dfy` holds the invariant and its
  preservation. `RecorderDeadlock.dfy` shows exactly when the threads deadlock although the mutexes
  are taken in both orders, and that otherwise every operation finishes, however it is scheduled. `RecorderReentry.dfy` gives
  a run that deadlocks. `RecorderLifecycle.dfy` covers the device and the first fatal error,
  `RecorderQueue.dfy` the queue, its counters and the overrun. `RecorderSession.dfy` carries the first
  fatal error from the recorder to the status lines, `RecorderShutdown.dfy` shows that the consumer
  leaves its loop, and `RecorderWorkers.dfy` says what each single operation comes to, from any state.
- **The same code in place.** `MythTv.dfy` is the class `MythTV` and `BufferThread.dfy` the class
  `Buffer`, with their fields, methods and loops; each method is proved to take its object where the
  machine takes the same fields, and so is any sequence of calls. Blocks may arrive during the rounds of
  the loop.
- **The command protocol** (`Protocol.dfy`, `Commands.dfy`, `CommandTheorems.dfy`): tokens, keywords, framing, version
  negotiation, what the peer reads from the stream of replies to any session, and what the texts of the commands
  make the recorder do.
- **The counting semaphore** (`Semaphore.dfy`, `SemaphoreThread.dfy`, `Deadline.dfy`): threads that
  run, sleep, are signalled or time out, in any number; the counter and the wait loop in place; the
  deadline arithmetic.
- **The registry** (`Text.dfy`, `CNumber.dfy`, `Registry.dfy`, `RegistryTheorems.dfy`): the in-place
  parser against a split-into-lines specification, the first-binding-wins map, and the round trip.
- **Device bring-up** (`Hauppauge.dfy`): the polling loops over arbitrary hardware answers and the
  order of the calls they make.
- **Device search** (`UsbSearch.dfy`): the first-match search and the account of open handles.

## What is true only under a condition

- *Deadlock.* `controlMessage` calls the error callback on the calling thread (`Wrappers/linux/USBif.cpp`,
  from line 474), and `Fatal` calls the driver's stop while it holds the run mutex. The threads deadlock
  if and only if such a stop call, made inside `Fatal`, has reported a USB error
  (`RecorderDeadlock.DeadlockIffReentry`); `RecorderReentry.ReentryHappens` is the run that shows it.
- *Token conservation.* The counter of the semaphore is an unsigned int. Tokens are conserved exactly
  if and only if those created or given and not taken number less than 2^32
  (`Semaphore.TokensConserved`); `Semaphore.TokensCanBeLost` is a run in which one give loses them all.
  A take after a give gets a token at once if and only if that give did not find the counter at its
  maximum (`SemaphoreThread.GiveThenTake`).
- *One line per reply.* Some replies carry a text from elsewhere: the fatal error or the version for
  `Version?`, the description, the fatal error for `APIVersion?` and `IsOpen?`, the error of a failed
  start or stop. A reply is one line if and only if that text has no newline (`Commands.ReplyIsOneLine`),
  and the peer of a session reads one line for each command if and only if none of these texts has one
  (`Commands.ReplyDiscipline`). The error texts of `USBif.cpp` end in a newline, so after a failed open
  the fatal reply is two lines (`Commands.FatalTextBreaksTheLine`).
- *Registry round trip.* It holds if and only if no name contains `=` or a newline and every value
  fits 32 bits (`RegistryTheorems.RoundTrip`).
- *Search by serial number.* `Open` ignores a failed read of a serial number and compares what its one
  buffer holds. It still finds the first device that was asked for, with one exception: the first device
  that can be tried is taken unread if the uninitialised buffer happens to begin with the serial number
  (`UsbSearch.SearchIsRightIff`, `UsbSearch.WrongDeviceTaken`).
- *Handles.* The handles that are open are those of `DeviceList` and `Open` calls under way and `m_handle`,
  except that an `Open` with a handle held overwrites it if and only if it finds a device
  (`UsbSearch.Wrapper.Open`).
- *Search without a match.* `Open` compares the length of the list with a counter that is not the
  loop's own, so for a non-empty list the report that nothing was found is never made, and the calls
  that follow get a null handle (`UsbSearch.Wrapper.Open`, `UsbSearch.OpenWithoutMatch`). What those
  calls do is not part of this model.

## Model

| member | source | states |
|---|---|---|
| RecorderInvariant.InvOfRun | MythTV.cpp:63-225 | in every state of every run with any number of threads: each mutex has exactly the owner its program counter says, the lifecycle of the device, one fatal message, and what each thread may rely on at each statement |
| RecorderInvariant.Stable | MythTV.cpp:98-225 | what a thread relies on at a statement survives the steps of all other threads |
| RecorderInvariant.ReenteredIsStuck | MythTV.cpp:143-155 | a thread that entered Fatal twice waits for a mutex that it owns itself |
| RecorderDeadlock.LockOrders | MythTV.cpp:98-155 | a thread with the run mutex that waits for the flow mutex is stopping a ready recorder, one with the flow mutex that waits for the run mutex is in an OpenDev that is not ready, and they never coexist |
| RecorderDeadlock.NeverWaitsForItself | MythTV.cpp:98-213 | outside a re-entered Fatal no thread locks a mutex that it holds |
| RecorderDeadlock.ChainEnds | MythTV.cpp:98-213 | two waits in a row end at a thread that does not wait |
| RecorderDeadlock.DeadlockIffReentry | MythTV.cpp:98-225 | in any state of any run there is a wait cycle if and only if a stop call inside Fatal has re-entered Fatal |
| RecorderReentry.ReentryHappens | MythTV.cpp:143-225 | a run of a single thread that ends in that deadlock, for any message |
| RecorderDeadlock.RankFalls | MythTV.cpp:63-225 | no operation of a thread loops |
| RecorderDeadlock.CanDrain | MythTV.cpp:63-225 | without re-entry every state can be run on until all operations have ended and both mutexes are free |
| RecorderDeadlock.EveryOperationCanFinish | MythTV.cpp:63-225 | every run without re-entry extends to one in which all operations have ended |
| RecorderDeadlock.EveryScheduleEnds | MythTV.cpp:63-225 | under every schedule in which nothing begins and no driver call reports an error, the workers take a bounded number of steps, and when none can take another all operations have ended or the consumer is in a critical section that it can leave |
| RecorderLifecycle.DeviceIsSafe | MythTV.cpp:98-225 | streaming implies ready, ready implies a live device, no step uses a null or deleted device, and no device but the current one is alive |
| RecorderLifecycle.CallsSurvive | MythTV.cpp:172-220 | the device of a running start or stop call stays the current live one |
| RecorderLifecycle.DeadBranchesAreDead | MythTV.cpp:106-117 | the branches for a failed new, for m_err and for a ready recorder without device are never reached |
| RecorderLifecycle.FailedOpenCanBeRetried | MythTV.cpp:102-137 | OpenDev returns early exactly when the recorder is ready, so a failed open is tried again |
| RecorderLifecycle.FlagsAreFinal | MythTV.cpp:63-155 | m_run stays false, m_ready stays true with the same device, the fatal message stays |
| RecorderLifecycle.FatalOnce | MythTV.cpp:143-155 | the fatal message is assigned at most once, and while the run mutex is free a fatal recorder does not run |
| RecorderLifecycle.RepliesAgree | MythTV.cpp:263-370 | after one fatal answer to APIVersion?, Version? or IsOpen? all later answers give that message, and after OK:Open IsOpen? never again says not open |
| RecorderWorkers.QueryAnswers | MythTV.cpp:263-370 | from any state a guarded command is answered with the fatal error, or by whether the recorder is ready |
| RecorderWorkers.RepliesAreTrue | MythTV.cpp:263-370 | whatever interleaves, only such a command answers, and its answer is true at that moment |
| RecorderWorkers.WatchdogRound | MythTV.cpp:75-96 | a round of the watchdog ends when the recorder does not run, and reports a wedge exactly if it is streaming and the heartbeat is stale |
| RecorderWorkers.FlowSetsXon | MythTV.cpp:344-359 | XON and XOFF set the flag and nothing else |
| RecorderWorkers.CallbackRunsFatal | MythTV.cpp:98-225 | every driver call may report a USB error, which runs Fatal on that thread and then goes on |
| RecorderSession.PeerSeesFirstFatal | MythTV.cpp:63-370 | the same for the status texts of a session whose answers come from a run of the recorder |
| RecorderQueue.QueueInvAfter | MythTV.cpp:510-627 | every step of any thread keeps order, bound, completeness and counters of the queue |
| RecorderQueue.EveryBlockOnce | MythTV.cpp:510-627 | each accepted block is in exactly one of written, in hand, queued and cleared |
| RecorderQueue.FirstInFirstOut | MythTV.cpp:510-627 | the queue is the tail of the accepted blocks, holds at most 500, none empty; written blocks are accepted ones in strictly increasing acceptance order |
| RecorderQueue.FillLosesOnlyToFull | MythTV.cpp:517-531 | a Fill with the lock loses its block only to a full queue |
| RecorderWorkers.FillOffers | MythTV.cpp:510-540 | from any state, a Fill with the lock offers its block: it becomes the last accepted and the last queued one if fewer than 500 are queued, and is refused and counted otherwise; nothing else changes |
| RecorderWorkers.FillDoesNothing | MythTV.cpp:510-540 | without the lock or with an empty block a Fill changes nothing |
| RecorderWorkers.ConsumerWrites | MythTV.cpp:580-602 | from any state in which it streams with the flow on and the lock had, the consumer takes the first queued block off the queue and writes it |
| RecorderWorkers.ConsumerClears | MythTV.cpp:611-627 | when not streaming, with the lock had, it empties the queue and writes nothing |
| RecorderQueue.CountersAreExact | MythTV.cpp:519-602 | write_total plus written is the number of bytes written, modulo 2^64, across every flush; in the log of all blocks offered under the lock, the accepted ones are those taken, and the overrun counter is the number of refusals after the last one taken |
| RecorderQueue.TestMeansPopped | MythTV.cpp:584-602 | the emptiness test writes a block exactly when one was popped, and no popped block is left behind |
| RecorderQueue.AccessIsExclusive | MythTV.cpp:517-534 | at most one thread is at an access to the queue |
| RecorderQueue.OverrunAfterStop | MythTV.cpp:580-602 | once streaming is off for good at most one more block is written, none if the test had not been passed |
| RecorderQueue.OverrunAfterXoff | MythTV.cpp:352-359 | the same after XOFF |
| RecorderShutdown.ConsumerLeaves | MythTV.cpp:542-633 | once m_run is false, under every schedule the consumer takes at most 13 more steps, is never blocked, and leaves the loop with the last of them |
| MythTv.MythTV.StopEncoding | MythTV.cpp:184-225 | result, message and final state of StopEncoding, which are those of its program in the machine |
| MythTv.MythTV.Terminate | MythTV.cpp:63-73 | after Terminate the recorder neither runs nor streams; the state is the machine's |
| MythTv.MythTV.Fatal | MythTV.cpp:143-155 | only the first fatal error sets the message and stops the recorder; the state is the machine's |
| MythTv.MythTV.OpenDev | MythTV.cpp:98-141 | ready exactly if both opens succeed, and then nothing else changes; a failure leaves no device, a recorder that does not run and a fatal message; the lifecycle holds again and the state is the machine's |
| MythTv.MythTV.StartEncoding | MythTV.cpp:157-182 | result, message and streaming flag of StartEncoding; the state is the machine's |
| MythTv.MythTV.Drive | MythTV.cpp:63-225 | any sequence of opens, starts, stops, fatal errors and terminations takes the object where the machine takes the fields, and where a brief form of the calls takes its flags and message |
| MythTv.FirstErrorStays | MythTV.cpp:63-155 | after any calls on a new object it is ready exactly if some open has succeeded, and fatal exactly if some call has reported an error, with the message of the first |
| MythTv.CallsLast | MythTV.cpp:63-225 | over any calls streaming implies ready and fatal implies not running; ready, not running and the fatal message stay |
| MythTv.StartAfterFatal | MythTV.cpp:157-182 | after a fatal error a start streams again exactly if the driver starts |
| BufferThread.Buffer.Fill | MythTV.cpp:510-540 | the queue in place after Fill is the machine's, and nothing changes without the lock |
| BufferThread.Buffer.Run | MythTV.cpp:542-633 | the loop in place makes the tours of the machine's consumer |
| BufferThread.RoundWrites | MythTV.cpp:555-608 | a round with flow and lock writes the first queued block and counts it |
| BufferThread.RoundFindsNothing | MythTV.cpp:584-608 | a round with flow, but without lock or blocks, leaves queue, output and byte counts as they are |
| BufferThread.RoundHolds | MythTV.cpp:608-627 | a round without flow writes nothing, and empties the queue exactly if it is not streaming and has the lock |
| BufferThread.RoundsWriteQueue | MythTV.cpp:555-629 | n rounds with flow and lock write the first n queued blocks in order |
| BufferThread.BusyRoundsKeep | MythTV.cpp:510-630 | the loop keeps order, bound and counters whatever flags its rounds see and whatever blocks arrive before each of their steps |
| BufferThread.LoopSeesArrivalsBetween | MythTV.cpp:510-630 | rounds with arbitrary arrivals before each of their steps do what the same rounds do with the same blocks, in the same order, arriving between them |
| Text.JoinUndoesSplit | MythTV.cpp:277-278 | joining the tokens gives back the command |
| Text.SplitUndoesJoin | MythTV.cpp:277-278 | the tokens are the only ones without a separator that join to the command |
| Protocol.AtMostOneKeyword | MythTV.cpp:292-432 | no token starts with two different keywords |
| Protocol.PrefixFree | MythTV.cpp:292-432 | no keyword is a prefix of another |
| Protocol.OrderIsIrrelevant | MythTV.cpp:292-432 | the order of the keyword tests does not matter |
| Protocol.TestsFindKeyword | MythTV.cpp:292-432 | the tests in their order find the one keyword that matches |
| Protocol.UnframeFrame | MythTV.cpp:234-241 | cutting a reply at its first colon gives back serial number and status from version 2 on; before, the line is the status |
| Protocol.OneLine | MythTV.cpp:234-241 | a frame is one line exactly when its texts have no newline |
| Commands.Parser.ProcessCommand | MythTV.cpp:259-437 | the chain of tests does what the unique keyword of the command demands, and sets the version |
| Commands.Parser.Run | MythTV.cpp:439-498 | the loop over any results of poll processes the commands it reads until m_run ends, a hang-up, an invalid descriptor or an overflow; exactly one status is written for each, in order; the version is that of the last answer |
| Commands.Negotiation | MythTV.cpp:263-274 | APIVersion? is answered in the old framing, APIVersion:N in the new one, nothing else changes the version |
| CommandTheorems.DoesWhatIsAsked | MythTV.cpp:301-433 | by the text of a command: starts, stops and block sizes are done before its status, XON, XOFF, opens and terminations after it, and nothing else is done |
| CommandTheorems.SessionDoesWhatIsAsked | MythTV.cpp:259-437 | over any session the recorder is asked for exactly what the texts of the commands ask for, once each and in order |
| CommandTheorems.LastFlowCommandWins | MythTV.cpp:344-359 | after any session the flow is as the last command that begins with XON or XOFF says |
| CommandTheorems.QuestionsAnswered | MythTV.cpp:263-381 | the status for each question, by its text and the state of the recorder |
| CommandTheorems.OrdersAnswered | MythTV.cpp:326-404 | the status for each order without data, OK exactly if it succeeds |
| CommandTheorems.DataAnswered | MythTV.cpp:415-434 | status and version for the orders with data, and the status for unknown ones |
| CommandTheorems.MalformedAnswered | MythTV.cpp:280-287 | the two ways to be malformed |
| CommandTheorems.ParseableText | MythTV.cpp:415-429 | which commands must carry a number |
| CommandTheorems.LoopProcesses | MythTV.cpp:455-495 | while nothing ends the loop exactly the readable rounds are processed, one each |
| CommandTheorems.LoopStopsAt | MythTV.cpp:455-495 | the first round with m_run false, a hang-up, an invalid descriptor or an overflow ends the loop before it reads; only an invalid descriptor is a fatal error |
| Commands.SerialIsEchoed | MythTV.cpp:276-290 | the serial number of a reply is the command's text before its first colon, or "-1", or empty |
| Commands.ReplyDiscipline | MythTV.cpp:234-437 | over any session the stream of replies, cut at the newlines, is one line for each command if and only if no reply carries a text with a newline, and then the peer reads back serial number and status of each command in order |
| Commands.ReplyIsOneLine | MythTV.cpp:234-437 | the reply to a command is a single line if and only if the text it carries from elsewhere has no newline |
| Commands.FatalTextBreaksTheLine | Wrappers/linux/USBif.cpp:293-300 | an error text that makes it two lines |
| Semaphore.InvOfRun | Wrappers/linux/baseif.cpp:62-128 | the invariant of the semaphore in every state of every run with any number of threads |
| Semaphore.NoLostWakeup | Wrappers/linux/baseif.cpp:88-128 | while a thread sleeps, the tokens number at most the signalled threads that have not run, plus the one that the owner of the mutex is about to pass on or to decide on, if it is |
| Semaphore.TokenIsTaken | Wrappers/linux/baseif.cpp:88-128 | whenever a token is free and a thread sleeps, a signalled thread can go on alone and take a token |
| Semaphore.TokensConserved | Wrappers/linux/baseif.cpp:62-128 | initial count plus gives minus successful takes is the counter, modulo 2^32, and exactly so if and only if that number is below 2^32 |
| Semaphore.TokensCanBeLost | Wrappers/linux/baseif.cpp:88-96 | a run in which a give on a full counter loses all tokens |
| Semaphore.TakeTakes | Wrappers/linux/baseif.cpp:98-128 | from any state with the mutex free, a take that finds a token takes it without waiting |
| Semaphore.TakeWithoutToken | Wrappers/linux/baseif.cpp:98-128 | without a token it sleeps, and ends with TIMEOUT if its time runs out and with ERROR if the wait fails |
| Semaphore.GiveGives | Wrappers/linux/baseif.cpp:88-96 | a give adds a token, signals a sleeper if there is one, and changes nothing else |
| Semaphore.DecisionsAreRight | Wrappers/linux/baseif.cpp:118-125 | OK exactly with a token, also after a timeout; TIMEOUT and ERROR only without one |
| Semaphore.MutualExclusion | Wrappers/linux/baseif.cpp:91-126 | at most one thread is in a critical section |
| SemaphoreThread.Sem.Take | Wrappers/linux/baseif.cpp:88-128 | the loop in place returns at the first wait that finds a token, times out or fails; result and counter follow from that wait, and are those of the machine's steps |
| SemaphoreThread.GiveThenTake | Wrappers/linux/baseif.cpp:88-128 | a take after a give gets a token without waiting and leaves the counter as it was, if and only if the give did not wrap the counter; otherwise it sleeps |
| Deadline.Compute | Wrappers/linux/baseif.cpp:108-113 | the timespec is normalised and exactly ms after now; every intermediate fits its type and nanoseconds stay below 2*10^9 |
| Deadline.OneDeadline | Wrappers/linux/baseif.cpp:108-113 | there is exactly one normalised timespec at that distance from now |
| Deadline.Monotone | Wrappers/linux/baseif.cpp:108-113 | a longer wait has a later deadline |
| CNumber.ReadsWhatWasPrinted | Wrappers/linux/registryif.cpp:50-52 | strtoul undoes decimal printing for every unsigned long and saturates above |
| CNumber.StrtoulReads | Wrappers/linux/registryif.cpp:50-52 | strtoul on any white space, sign, leading zeros, number and text behind it, and when std::stoul accepts it |
| CNumber.StrtoulFindsNone | Wrappers/linux/registryif.cpp:50-52 | a text in which no number starts reads as 0 |
| Registry.Store.Memchr | Wrappers/linux/registryif.cpp:27-41 | the search looks only at the bytes it may |
| Registry.Store.Parse | Wrappers/linux/registryif.cpp:20-53 | the cursor loop stays inside the buffer, ends, and leaves the fold of first insertion over the lines that have an equals sign |
| Registry.Store.BindLine | Wrappers/linux/registryif.cpp:41-52 | one line of the buffer binds what its first equals sign separates, if the name is new |
| Registry.Store.Load | Wrappers/linux/registryif.cpp:10-57 | a load replaces the registry, a failed load changes nothing |
| RegistryTheorems.LineBinds | Wrappers/linux/registryif.cpp:41-52 | a line binds a name exactly if it begins with that name and an equals sign |
| RegistryTheorems.LineReads | Wrappers/linux/registryif.cpp:41-52 | the value of a line, modulo 2^32, with white space, sign, leading zeros and text behind the number |
| RegistryTheorems.LoadedReads | Wrappers/linux/registryif.cpp:20-53 | a loaded file gives each name the number on the first line that begins with it, and no other name |
| Registry.Store.ReadDword | Wrappers/linux/registryif.cpp:59-75 | a read returns the first value bound to the name since the last successful load |
| Registry.Store.WriteDword | Wrappers/linux/registryif.cpp:78-82 | a write never changes a bound name |
| Registry.LineStep | Wrappers/linux/registryif.cpp:25-53 | one round of the loop adds the first line and leaves the rest |
| RegistryTheorems.ReadReturnsFirst | Wrappers/linux/registryif.cpp:59-82 | after any history the registry holds the first binding of each name since the last successful load |
| RegistryTheorems.BoundNamesStay | Wrappers/linux/registryif.cpp:10-82 | later writes and failed loads never change a bound name |
| RegistryTheorems.PrintIsParsed | Wrappers/linux/registryif.cpp:25-53 | the lines printed for clean entries are parsed back to the entries |
| RegistryTheorems.RoundTrip | Wrappers/linux/registryif.cpp:20-53 | loading what was printed, in any order, gives back the map if and only if names are clean and values fit |
| Hauppauge.Device.PollSignal | HauppaugeDev.cpp:310-322 | at most 300 tries, stopping at the first good answer |
| Hauppauge.Device.PollParams | HauppaugeDev.cpp:324-339 | the same for the parameters, accepted only with a valid resolution |
| Hauppauge.Device.SetFormat | HauppaugeDev.cpp:223-287 | the audio set-up, with its fall-back when there is no digital receiver, the calls for an interlaced picture, then the format |
| Hauppauge.Device.InitAnalog | HauppaugeDev.cpp:300-425 | the record of init_cvbs and init_component: switch first and only if needed, formats as reported and straight after their set-up, fitting bus mode, failure only after all tries or by a refused format, and the error message |
| Hauppauge.Device.InitHdmi | HauppaugeDev.cpp:434-516 | the same for init_hdmi with code or parameters |
| Hauppauge.Device.StartEncoding | HauppaugeDev.cpp:666-697 | one startCapture exactly after a successful init, which went the way that the answers lead to, and the error message |
| Hauppauge.AnalogReachesFormat | HauppaugeDev.cpp:300-425 | a signal within 300 tries and a report within 300 with one of the resolutions lead to the first such report as the format |
| Hauppauge.HdmiReachesFormat | HauppaugeDev.cpp:434-516 | for HDMI a positive code that the encoder takes decides, otherwise the first such report |
| Hauppauge.NoFormatReached | HauppaugeDev.cpp:310-339 | without a signal, or without such a report, no format is reached |
| Hauppauge.NoHdmiFormatReached | HauppaugeDev.cpp:458-480 | the same for HDMI without a code that the encoder takes |
| Hauppauge.BusModes | HauppaugeDev.cpp:352-505 | the bus mode for each format |
| Hauppauge.AudioPorts | HauppaugeDev.cpp:148-221 | the port setting for each audio input, with and without a digital receiver |
| Hauppauge.Device.Drive | HauppaugeDev.cpp:666-709 | any sequence of starts and stops leaves the record of a session |
| Hauppauge.CaptureIsPrepared | HauppaugeDev.cpp:666-697 | in any session each startCapture follows, in the same call, an accepted format that the receiver had reported |
| Hauppauge.PollsAreBounded | HauppaugeDev.cpp:310-480 | in any session each polling loop makes at most 300 tries per call |
| Hauppauge.InputSwitchedOnce | HauppaugeDev.cpp:302-442 | after the first successful init no later call switches the input |
| UsbSearch.RecognisedIff | Wrappers/linux/USBif.cpp:57-130 | which devices are recognised; one of the tests is never reached |
| UsbSearch.NamesAreThese | Wrappers/linux/USBif.cpp:57-130 | which product has which name |
| UsbSearch.MatchesWritten | Wrappers/linux/USBif.cpp:325-333 | the comparison with the reused buffer is a prefix test of the serial number |
| UsbSearch.SearchFinds | Wrappers/linux/USBif.cpp:307-340 | the search that ignores failed reads finds the first device that was asked for, but for a first candidate that is taken unread |
| UsbSearch.SearchIsRightIff | Wrappers/linux/USBif.cpp:302-340 | the device found is the first one asked for if and only if no first candidate is taken unread |
| UsbSearch.WrongDeviceTaken | Wrappers/linux/USBif.cpp:302-340 | a list of two devices on which the search takes the wrong one |
| UsbSearch.Wrapper.DeviceList | Wrappers/linux/USBif.cpp:203-260 | the listed devices, and every handle that is opened is closed, also when serial numbers cannot be read |
| UsbSearch.Wrapper.Open | Wrappers/linux/USBif.cpp:279-349 | the search opens for good exactly the device found, or none, and fails only without libusb or devices; a handle that was held leaks exactly if a device is found |
| UsbSearch.NoDeviceMatches | Wrappers/linux/USBif.cpp:302-346 | a list with one device on which the search ends without a match |
| UsbSearch.Wrapper.Close | Wrappers/linux/USBif.cpp:381-389 | no handle is open afterwards but those that an Open has overwritten |

## Left out

- The vendor driver, libusb, the bulk and control transfers and `USBDevDesc`: their calls are
  arbitrary answers; `encoderDev_DXT_t`, `FX2Device_t` and `receiver_ADV7842_t` are not part of this model.
- Real time: `wait_for`, `try_lock_for`, sleeps and the 60-second heartbeat are arbitrary outcomes.
- Weak memory: all accesses are sequentially consistent, also those to `m_dev`, `m_fatal` and
  `m_api_version`, which are not atomic; relocking an owned mutex is taken to block.
- The destructor of `MythTV`: runs end before destruction, and with it the deletion of the device.
- `m_flow_cond` and `m_run_cond`: a wakeup is an arbitrary end of the wait, so lost notifications of
  these two, which only delay a loop, are not studied.
- The bytes behind `getline` in the command loop: each round brings a whole line, so a command has no
  newline.
- Short writes: `write` is taken to write the whole block or status.
- The static counter of `Fill` has no upper bound here; in the source it is an int.
- Exceptions of `std::stoul`: `Commands.Parseable` is what the source demands of a peer.
- MythTv.MythTV.StopEncoding: the class runs without interruption and without error callbacks; what
  both can do is covered by the machine.
- UsbSearch.Wrapper.Open: the reset, driver and claim calls after the search, its final result, and the
  message buffers are left out. A serial number longer than the buffer is compared with the memory behind
  it, which is a parameter.
- UsbSearch.SearchFinds: the serial number asked for has no NUL character.
- UsbSearch.RecognisedIff: the names of the devices are kept as enumerators, not as texts.
- Hauppauge.Device.SetFormat: the sample rate and the aspect ratio that it passes on make no difference
  to its result and are left out, as are the log calls and `Open`.
- The capture source codes are not part of the repository, so `VideoInput` keeps them as names.
- The asynchronous transfer context: after the no-memory return it stays pending, so no completion is
  claimed.
- SemaphoreThread.Sem.Take: the waits of one thread end as the caller of the method says, in any
  way the machine allows; the two wait loops, which differ in the deadline, are one loop here.
- Semaphore.TokensConserved: destroying a semaphore is not modelled.
