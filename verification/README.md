# A Dafny model of the asio-quickjs-ng runtime

This project models the parts of the runtime where a mistake would be hardest to see in a
single function, and proves what the rest of the program relies on.

* **Channels, hosts and jobs.** `Mpsc`, `Oneshot`, `SenderHandles` and `Timers` hold the locked
  objects as classes, each method tied to a function that says what one critical section does.
  `MpscProtocol`, `HostMachine`, `HostTheorems` and `Manager` then let all threads interleave at
  that grain: one action is one critical section, one atomic access, one wake made after the lock
  was released, or one stretch of a coroutine between two points where another thread can look.
  Invariants are proved for every run, and so is what the actions of a run say about its end: who
  resumed a receiver, what a job was answered with, how often a timer called back. The claim they
  lead to spans three source files: once a host's `pending_ops` is zero, every job a `submit`
  returned a handle for has been answered exactly once, with what was produced for it.
  `HostProgress` and `ManagerProgress` prove the other half: from every reachable state each submit
  can return and each destroy can be carried through to the end of the host's loop.
* **Routing and queries.** `Trie` proves the router's mutable index equal to a scan of the routes
  in order of registration, except as found below; `QueryParam` proves the query fast path against
  the segment loop.
* **Codecs.** `Punycode`, `Utf8`, `Ipv6`, `Base64` and `Chunked` prove the loops of the shipped
  JavaScript and of the HTTP server against the standards they implement (RFC 3492, RFC 3629,
  RFC 4291, RFC 4648, RFC 9112), each with a decoder or a reference reading as its partner.
  `PunycodeSamples` works out samples of RFC 3492 digit by digit, which the shared parameters of
  encoder and decoder have to meet.
* **Small stateful pieces.** `Abort` (propagation over a graph of signals that may have cycles,
  with user callbacks calling back in), `Headers`, and `BlobStore` (lazy against eager expiry).

`Wrappers` and `Hexadecimal` are shared helpers. A `hide` statement at the head of a proof only
withholds definitions from the solver. Where a loop of the source is modelled as several methods,
each method is one stretch of that loop. Every file path below is relative to the repository root.

Findings, each with a lemma that says exactly when the code does what it is for, and one with an
input on which it does not:

* `Trie`: a search for a method named like a member of `Object.prototype` finds that member in every
  entry of another method: handlers registered for all methods are lost, others appear without a
  handler, and where a parameter has to be bound the search throws (`Trie.SearchResult`,
  `Trie.ThrowsIff`, `Trie.InheritedMethod`).
* `Trie`: on a path whose last segment is literally `*`, the search also returns routes that end in
  two stars and need one segment more (`Trie.FoundMeansMatches`, `Trie.StarsTooMany`).
* `Trie`: on a path with a segment that is literally `*` or `:name`, a route with that label in its place is
  returned once for each way in which the segments lead to it, so more than once (`Trie.SearchTimes`,
  `Trie.TimesOnce`, `Trie.SearchResult`, `Trie.StarTwice`).
* `QueryParam`: a query parameter whose escaped spelling comes first is passed over for a later one
  spelled as it is; a key that `Object.prototype` has answers with the inherited member when the URL
  holds an escape and the key is nowhere in the query spelled as it is, even if an escaped spelling of it is
  there (`QueryParam.ParamIsReference`, `QueryParam.EscapedSpellingFirst`, `QueryParam.InheritedKeyAnswers`);
  and a key with a separator in it is found across the end of a name, where no parameter of that name ever
  stands (`QueryParam.SeparatorHit`, `QueryParam.SeparatorKey`, `QueryParam.SeparatorKeyAnswers`).
* `Headers`: copying a header list through its own iterator changes what `get` returns exactly for
  names with two or more values of which the last is empty (`Headers.CopyKeeps`,
  `Headers.CopyLosesBlank`).
* `Base64`: the block decoder makes a byte of a single left-over letter, the streaming one does not
  (`Base64.InBlocksIsBytes`, `Base64.OneLetterOver`); and the two part on characters outside the alphabet,
  unless those stand in the last two places of the last group (`Base64.DecodersAgree`).

Where the code and its documentation disagree, the model follows the code:
`docs/host-job-scheduler.md` says that jobs not finished when a host is destroyed are answered with
`Cancelled` or `HostGone`; the code runs the queued jobs and answers them as usual
(`HostTheorems.DispatcherExitsDrained`, `HostTheorems.AnsweredExactlyOnce`).

## Model

| member | source | states |
|---|---|---|
| Mpsc.MpscState.constructor | src/channel.hpp:61-68 | a new channel is open, empty, has one sender and no waiter |
| Mpsc.MpscState.CloseLocked | src/channel.hpp:70-79 | closing takes the waiter out to be woken, once; closing again does nothing |
| Mpsc.MpscState.SendLocked | src/channel.hpp:315-323 | an open channel takes the value at the back and hands over the waiter, a closed one refuses it unchanged |
| Mpsc.MpscState.AwaitReady | src/channel.hpp:132-136 | says whether there is a value or an end to receive |
| Mpsc.MpscState.AwaitSuspend | src/channel.hpp:139-148 | registers the waiter exactly when there is still nothing to receive |
| Mpsc.MpscState.AwaitResume | src/channel.hpp:150-159 | takes the front value, or reports the end |
| MpscProtocol.InitInv | src/channel.hpp:432-437 | a new channel with one handle satisfies the protocol's invariants |
| MpscProtocol.ResumeConsumesTheToken | src/channel.hpp:45-58 | whoever resumes the receiver holds the only token of exactly the suspension it is in, and there is something to receive |
| MpscProtocol.TokenStep | src/channel.hpp:132-159 | every step keeps one token per suspension in one of three places, none while the receiver runs, and a registered waiter means empty and open |
| MpscProtocol.FifoStep | src/channel.hpp:308-326 | every step keeps accepted == received ++ queue, and an end was only ever reported when closed and drained |
| MpscProtocol.CountStep | src/channel.hpp:345-356 | every step keeps the sender count equal to the live handles; at zero the channel is closed or a releaser still owes the close |
| MpscProtocol.StepInv | src/channel.hpp:60-92 | all three invariants are kept by every step of every thread |
| MpscProtocol.RunInv | src/channel.hpp:257-446 | the invariants hold after every interleaving, any number of threads using the same handle included |
| MpscProtocol.RunMonotone | src/channel.hpp:315-319 | over any run received values stay received, and after close nothing more is accepted |
| MpscProtocol.NoLostWakeup | src/channel.hpp:139-148 | a suspended receiver with something to receive is resumed by at most two steps that are already owed, which leave the channel as it is |
| MpscProtocol.DrainAfterClose | src/channel.hpp:391-403 | after close the receiver can still take everything accepted, in order, and is then told of the end |
| MpscProtocol.RunHistory | src/channel.hpp:308-356 | over every run: the channel is closed exactly when something closed it, the receiver is gone exactly when it was dropped, what was accepted is, in order, what was sent before that, the live handles are those made and not given up, and every token, wherever it is, says how its suspension was made |
| MpscProtocol.ResumedBy | src/channel.hpp:45-58 | a suspension made with an executor is resumed by the executor alone, one made without by the thread that holds its token and on that thread; a wake of the former only posts its token |
| MpscProtocol.TakeDelivers | src/channel.hpp:150-159 | a take delivers the first accepted value not yet received, or the end if there is none |
| MpscProtocol.NoThreadStuck | src/channel.hpp:306-356 | from every state a thread is free again after at most three steps of its own, and can then send, close and release through any live handle |
| MpscProtocol.RecvCompletes | src/channel.hpp:132-159 | from every state with something to receive, at most two steps, none of them a sender's, and the take complete the recv, whichever way it waits |
| SenderHandles.Sender.constructor | src/channel.hpp:266-267 | a handle made by the channel points at it without counting again |
| SenderHandles.Sender.CopyOf | src/channel.hpp:269-274 | a copy is counted |
| SenderHandles.Sender.MoveOf | src/channel.hpp:289 | a move leaves the count as it is and empties the source |
| SenderHandles.Sender.Attach | src/channel.hpp:282-285 | attaching an empty handle counts it |
| SenderHandles.Sender.Release | src/channel.hpp:345-356 | releasing uncounts; the channel is closed only when the last handle went |
| SenderHandles.Sender.TakeOver | src/channel.hpp:297 | an empty handle takes over another one's channel, whose count stays |
| SenderHandles.Sender.CopyAssign | src/channel.hpp:276-287 | counts stay exact under copy assignment, and only a channel left without handles is closed, so assigning within one channel never closes it |
| SenderHandles.Sender.MoveAssign | src/channel.hpp:291-299 | the same for move assignment |
| SenderHandles.Sender.Drop | src/channel.hpp:301 | the same when a handle is destroyed |
| Oneshot.OneshotState.CloseLocked | src/channel.hpp:103-112 | closing settles an unsettled channel and hands over the waiter |
| Oneshot.OneshotState.SendLocked | src/channel.hpp:491-500 | the first send of an unsettled channel stores the value and hands over the waiter, any other is refused |
| Oneshot.OneshotState.AwaitSuspend | src/channel.hpp:202-211 | registers the waiter exactly while unsettled |
| Oneshot.OneshotState.AwaitResume | src/channel.hpp:213-222 | takes the value at most once |
| Oneshot.StartInv | src/channel.hpp:557-562 | a new channel satisfies the invariants |
| Oneshot.StepInv | src/channel.hpp:94-125 | every step keeps one token, never both sent and closed, at most one delivery |
| Oneshot.RunInv | src/channel.hpp:451-517 | the invariants hold after every run, and a settled channel never changes its outcome |
| Oneshot.NoLostWakeup | src/channel.hpp:202-211 | a receiver suspended on a settled channel is resumed by at most two steps that are already owed |
| Oneshot.RunHistory | src/channel.hpp:94-125 | over every run: what the sender did first settles the channel, the first recv gets exactly what was sent, and no other recv gets anything |
| Oneshot.ResumedBy | src/channel.hpp:45-58 | a suspension made with an executor is resumed by the executor alone, one made without by the sender |
| Oneshot.SenderMaySettle | src/channel.hpp:484-512 | an unsettled channel can be settled by a send or by closing, at any time |
| Oneshot.RecvCompletes | src/channel.hpp:195-222 | on a settled channel at most three steps of the receiver complete its recv, with the payload the first time and with nothing later |
| Timers.TimerRegistry.RegisterTimer | src/host.cpp:332-337 | ids never repeat, and the new one is active |
| Timers.TimerRegistry.CancelTimer | src/host.cpp:339-350 | exactly this id leaves the table |
| Timers.TimerRegistry.CancelAllTimers | src/host.cpp:352-362 | the snapshot loop empties the table |
| Timers.TimerRegistry.EraseTimerIfActive | src/host.cpp:364-372 | erases and says whether there was something to erase |
| Timers.LiveStep | src/host.cpp:78-140 | a timer step changes the number of live timer coroutines by exactly what it adds to the pending count |
| Timers.StepInv | src/host.cpp:78-140 | every step keeps: a timeout ran at most once, a finished coroutine runs nothing |
| Timers.RunInv | src/host.cpp:78-140 | the same over every run |
| Timers.ClearedStaysSilent | src/host.cpp:95-101 | in no run does a callback start after its id left the table |
| Timers.ClearedInsideItsCallback | src/host.cpp:128-138 | an interval cleared inside its own callback ends when the callback returns |
| Timers.RunHistory | src/host.cpp:78-140 | over every run: ids are handed out in order, each coroutine keeps the kind registered, was called exactly as often as its check found it in the table of a host not stopping, and the table holds the ids neither cleared nor, being timeouts, fired |
| Timers.CalledWhenDue | src/host.cpp:95-138 | a due timer in the table of a host not stopping is called, any other ends uncalled; what was called goes on exactly if it is an interval still in the table |
| Timers.IntervalRepeats | src/host.cpp:106-140 | an interval that nobody clears calls back as often as its time comes, and stays in the table |
| Timers.RegisteredRuns | src/host.cpp:142-165 | from its registration on: an interval any number of times, a timeout once |
| Timers.EndsWithoutACall | src/host.cpp:95-104 | a timer that left the table, or whose host is stopping, is over after at most three steps of its own, without another call |
| Timers.NeverRefused | src/host.cpp:332-362 | timers can be registered and cleared at any moment, also inside a callback |
| HostMachine.ChannelStep | src/host_manager.cpp:307-320 | channel steps keep the slot's invariant |
| HostMachine.SubmitStep | src/host_manager.cpp:446-485 | registering, sending, being refused and cancelling keep the slot's invariant |
| HostMachine.DispatchStep | src/host_manager.cpp:316-335 | each step of the dispatcher keeps it, the cap check and the increment being separate steps |
| HostMachine.JobStepInv | src/host_manager.cpp:337-407 | each step of a job keeps it: one reply, counters exact, bridges exactly for suspended jobs |
| HostMachine.SettleStep | src/host_manager.cpp:30-58 | a promise reaction settles its bridge at most once, a late one does nothing |
| HostMachine.HostStep | src/host.cpp:620-633 | timers, other operations, shutdown and leaving the loop keep it |
| HostMachine.NothingPending | src/host.cpp:620-626 | a pending count of zero means dispatcher stopped, jobs past their count, no live timer |
| HostMachine.StepInv | src/host_manager.cpp:307-407 | every action of every thread keeps the slot's invariant |
| HostTheorems.InitialInv | src/host_manager.cpp:277-282 | a new slot satisfies it |
| HostTheorems.RunInv | src/host_manager.cpp:307-407 | it holds after every run |
| HostTheorems.AcceptedInOrder | src/host_manager.cpp:316-332 | accepted jobs are, in order, started ++ held by the dispatcher ++ queued, none twice |
| HostTheorems.DispatcherExitsDrained | src/host_manager.cpp:317-320 | the dispatcher leaves its loop only when the channel is closed and every accepted job was started |
| HostTheorems.InFlightWithinCap | src/host_manager.cpp:322-329 | 0 <= in_flight <= max_in_flight in every reachable state, and it counts exactly the jobs that are running |
| HostTheorems.AnsweredExactlyOnce | src/host_manager.cpp:337-350 | with no pending operation every accepted job got exactly one answer, which is also what its oneshot holds: Cancelled if a cancel came before its dequeue check, and else what the environment produced for it, be it returned, settled on its own bridge, or the message of its failure; a refused job got none and was not called |
| HostTheorems.RunHistory | src/host_manager.cpp:370-407 | over every run: each task's flag, what its dequeue check saw, whether its function was called, the bridge it waits on, what it was given and its answer are exactly what the actions so far say |
| HostTheorems.HostFieldsRun | src/host_manager.cpp:277-278 | over every run the cap stays the one asked for, and stopping and exited are set exactly by the shutdown and by leaving the loop |
| HostTheorems.TimersRun | src/host.cpp:78-140 | the timers of a slot make a run of the registry, each step reading the stopping flag of its moment |
| HostTheorems.ChannelRun | src/host_manager.cpp:316-320 | the channel of a slot makes a run of the protocol, in which the dispatcher always waits with its executor |
| HostTheorems.DispatcherOnItsThread | src/channel.hpp:45-58 | the suspended dispatcher is resumed by the executor of its host and never by another thread, whose wake only posts the resumption |
| HostTheorems.AcceptedAsSent | src/channel.hpp:308-326 | the accepted jobs are, in order, those sent before anything closed the channel |
| HostTheorems.NoWakeAfterExit | src/host.cpp:620-633 | after the loop returned nothing anywhere still holds a wake for the host |
| HostTheorems.AnswerIsFinal | src/host_manager.cpp:204-209 | an answer given never changes |
| HostTheorems.EarlyCancelWins | src/host_manager.cpp:370-375 | a flag raised before the dequeue check: the function is never called and the only answer is Cancelled |
| HostTheorems.LateCancelStep | src/host_manager.cpp:487-496 | after the check, raising the flag commutes with every step |
| HostTheorems.LateCancelChangesNothing | src/host_manager.cpp:487-496 | after the check, cancelling changes no run and no answer |
| HostProgress.SleepsAtTheCap | src/host_manager.cpp:322-325 | holding a job the dispatcher sleeps exactly while in_flight equals the cap, and goes on exactly while it is below |
| HostProgress.EveryWayIsOpen | src/host_manager.cpp:370-407 | a started job can go each of four ways: fail first, return, return a promise that settles, or fail to attach to it; each is answered with just what it produced, and a flagged job is answered with Cancelled at once |
| HostProgress.ScriptsNeverRefused | src/host.cpp:142-165 | until the loop returns scripts may start and clear timers and start other operations at any time |
| HostProgress.SubmitSettles | src/host_manager.cpp:467-480 | wherever a submit stands, at most five steps of its own settle it: the job is queued if the channel is open, else turned away and erased |
| HostProgress.HostCanEnd | src/host_manager.cpp:409-444 | from every reachable state with the channel closed some continuation, without a step of any submitting thread, answers every accepted job and ends the host loop: no deadlock at the cap, in the channel, in a timer or at the counters |
| Manager.HostManager.RegisterTask | src/host_manager.cpp:456-465 | a listed host gives the next id and enters the flag in the cancel table |
| Manager.HostManager.ForgetTask | src/host_manager.cpp:364-368 | exactly this id leaves the cancel table |
| Manager.HostManager.Cancel | src/host_manager.cpp:487-496 | raises the flag of a task in the table and says whether there was one |
| Manager.HostManager.RemoveHost | src/host_manager.cpp:409-420 | takes the host out of the table and says whether it was there |
| Manager.StepInv | src/host_manager.cpp:254-496 | every action over all hosts keeps the invariant of the tables and of each slot |
| Manager.FreshTaskId | src/host_manager.cpp:462-463 | task ids never repeat across hosts and runs |
| Manager.CancelTableExact | src/host_manager.cpp:364-368 | the cancel table holds exactly the tasks neither forgotten nor turned away |
| Manager.HandleIffEnqueued | src/host_manager.cpp:475-484 | submit returns a handle exactly when the job was enqueued, also while the host is being destroyed |
| Manager.HostsTable | src/host_manager.cpp:299-312 | a name stands for the slot of the first creation under it since it was last removed; a duplicate creation changes nothing |
| Manager.CreatedRun | src/host_manager.cpp:277-285 | each slot makes a run of its own that starts as create_host leaves it, with the cap asked for, at least one |
| Manager.CapAsked | src/host_manager.cpp:254-258 | a host never runs more jobs at once than the cap it was created with |
| Manager.EveryHandleAnsweredOnce | src/host_manager.cpp:446-485 | every handle ever returned is answered exactly once by the time its host has nothing pending: with Cancelled if a cancel came before the dequeue check, and else with what the environment produced for the job |
| Manager.EarlyCancelHonoured | src/host_manager.cpp:487-496 | a cancel that finds its task before the dequeue check: in every later state the function was not called and the only answer is Cancelled |
| ManagerProgress.SubmitNeverRefused | src/host_manager.cpp:456-465 | in every state a listed host takes the registration of a submit |
| ManagerProgress.CancelNeverRefused | src/host_manager.cpp:487-496 | a cancel is possible in every state, whether or not it finds its task |
| ManagerProgress.SubmitReturns | src/host_manager.cpp:446-485 | wherever a submit call stands in a reachable state, some steps of its own bring it to return, with a handle exactly if its job was enqueued, which one not yet sent is exactly if the channel is open |
| ManagerProgress.DestroyCanFinish | src/host_manager.cpp:409-444 | a listed host can be destroyed from every reachable state: some continuation takes its name out of the table, closes its channel and ends its loop, and by then every handle returned for it is answered |
| Trie.Router.Insert | src/js/hono.bundle.js:1905-1937 | inserting adds the route at the end and keeps the trie a faithful index of the routes |
| Trie.Router.PushHandlerSets | src/js/hono.bundle.js:1938-1956 | pushes, in order, what every entry of a node holds for the method or ALL, its own handler set or an inherited member; throws exactly when such a member is to be given parameters |
| Trie.JoinOfSplit | src/js/hono.bundle.js:141 | the pieces of a path hold no slash, and joined with slashes they are the path |
| Trie.SplitOfJoin | src/js/hono.bundle.js:141 | no other list of pieces does that |
| Trie.SegmentsOf | src/js/hono.bundle.js:140-146 | the segments are the pieces of what follows a leading slash, so a trailing slash leaves an empty last segment |
| Trie.SegmentsAre | src/js/hono.bundle.js:140-146 | any pieces are the segments of the path they make after a slash |
| Trie.ParamLabels | src/js/hono.bundle.js:174-191 | a parameter label is a colon and a name of at least one character without braces |
| Trie.LabelsMean | src/js/hono.bundle.js:1984-2051 | a star matches every segment, a parameter every one but the empty, any other label only itself |
| Trie.AnswersMean | src/js/hono.bundle.js:1941 | an entry answers its own method, and one filed under ALL every method |
| Trie.Router.VisitStatic | src/js/hono.bundle.js:1972-1983 | what a static child contributes at one level |
| Trie.Router.VisitPattern | src/js/hono.bundle.js:1984-2051 | what a pattern child contributes at one level |
| Trie.Router.Search | src/js/hono.bundle.js:1957-2062 | throws exactly when a misread route binds parameters, else returns the handler sets of the found routes, each as often as it is found, in order of registration unless a misread one is among them; what the scan is meant to return if and only if no found route is misread, and those of the method match and have no segment that is literally their pattern label |
| Trie.LevelIn | src/js/hono.bundle.js:1966-1983 | the nodes at level i are those whose labels match the first i segments |
| Trie.LevelTimes | src/js/hono.bundle.js:1966-2054 | each node is at level i exactly once for every way in which the segments before it lead there: as static child or through the pattern list |
| Trie.EmittedIsFound | src/js/hono.bundle.js:1974-1983 | everything pushed belongs to a route that is found |
| Trie.FoundIsEmitted | src/js/hono.bundle.js:1984-2051 | everything found is pushed |
| Trie.PushedTimes | src/js/hono.bundle.js:1966-2051 | each node is pushed as often as its labels and the segments say |
| Trie.SearchTimes | src/js/hono.bundle.js:1957-2062 | each entry is gathered exactly as often as its route is found, on every path |
| Trie.TimesFound | src/js/hono.bundle.js:1972-2051 | the number of times counted along the labels is positive if and only if the route is one the search is said to find |
| Trie.TimesOnce | src/js/hono.bundle.js:1972-2051 | a found route is found once if and only if no segment that leads to it, nor the last one, is literally the pattern label in its place |
| Trie.TimesPlain | src/js/hono.bundle.js:1972-2051 | when no segment is a pattern label, a matching route is found once and no other is found |
| Trie.ScanPushed | src/js/hono.bundle.js:2056-2061 | the sorted pushes are the scan in order of registration in which each entry stands as often as its route is found |
| Trie.SearchResult | src/js/hono.bundle.js:2056-2061 | the result is the intended scan if and only if no matching route is misread and every found route of the method matches and has no segment that is literally its pattern label |
| Trie.ThrowsIff | src/js/hono.bundle.js:1942-1953 | the search throws if and only if a found route of another method binds parameters while every object inherits the method's name |
| Trie.Router.VisitLevel | src/js/hono.bundle.js:1966-2055 | one level, with the parameters collected so far known for every node handed on |
| Trie.InheritedMethod | src/js/hono.bundle.js:1941 | three routers on which a search for `constructor` is misread or throws |
| Trie.FoundMeansMatches | src/js/hono.bundle.js:1972-1978 | search and definition agree on all routes if and only if the last segment is not literally a star |
| Trie.StarsTooMany | src/js/hono.bundle.js:1976-1978 | the route `/*/*` is found on the path `/*` |
| Trie.StarTwice | src/js/hono.bundle.js:1974-1992 | the route `/*` is returned twice on the path `/*` |
| Punycode.ReadCodePoints | src/js/whatwg-url-polyfill.js:15 | the look-ahead loop reads the code points of a string |
| Punycode.UnitsOfCodePoints | src/js/whatwg-url-polyfill.js:15 | reading code points loses nothing, unpaired surrogates included |
| Punycode.AdaptBias | src/js/whatwg-url-polyfill.js:15 | the bias loop, with its 32-bit shifts, computes the adaptation of section 6.1 of RFC 3492 |
| Punycode.PutDelta | src/js/whatwg-url-polyfill.js:15 | the digit loop writes one generalized variable-length integer |
| Punycode.OverflowGuard | src/js/whatwg-url-polyfill.js:15 | the division test before the multiplication is exactly the overflow of section 6.3 |
| Punycode.FloorIs | src/js/whatwg-url-polyfill.js:15 | the quotient in that test is the floor, for negative dividends too |
| Punycode.RaiseDelta | src/js/whatwg-url-polyfill.js:15 | the pending delta grows by whole blocks of positions, or is reported not to fit |
| Punycode.HoistedCount | src/js/whatwg-url-polyfill.js:15 | adapting with the count taken before the scan equals adapting with the growing count of section 6.3 |
| Punycode.VisitPoint | src/js/whatwg-url-polyfill.js:15 | one code point of the scan does what section 6.3 does |
| Punycode.EncodeLabel | src/js/whatwg-url-polyfill.js:15 | the encoder returns exactly what section 6.3 emits, or the overflow error exactly when it overflows |
| PunycodeSamples.Parameters | src/js/whatwg-url-polyfill.js:15 | values of the adaptation and of the thresholds on both sides of where damp, skew, the division loop and the two bounds change them |
| PunycodeSamples.Letters | src/js/whatwg-url-polyfill.js:15 | the digits are those of section 5 of RFC 3492 |
| PunycodeSamples.CapitalsToo | src/js/whatwg-url-polyfill.js:15 | the decoder takes these digits and their capitals, and nothing else |
| PunycodeSamples.KinpachiEncoded | src/js/whatwg-url-polyfill.js:15 | sample (L) of section 7.1 of RFC 3492, six insertions and both kinds of adaptation long, is encoded as printed there |
| PunycodeSamples.BuecherEncoded | src/js/whatwg-url-polyfill.js:15 | `bücher` is encoded as `bcher-kva` |
| Punycode.DecodeEncodedInt | src/js/whatwg-url-polyfill.js:15 | reading back a variable-length integer, whatever follows it |
| Punycode.EmitKeepsSync | src/js/whatwg-url-polyfill.js:15 | one emitted delta moves the decoder to the encoder's position, and inserts the code point there |
| Punycode.RoundTrip | src/js/whatwg-url-polyfill.js:15 | the decoder of section 6.2 recovers the code points, and nothing of up to 1926 code points overflows |
| Punycode.LabelSurvives | src/js/whatwg-url-polyfill.js:15 | the same for whole strings, unpaired surrogates included |
| Punycode.OnlyBasicBefore | src/js/whatwg-url-polyfill.js:15 | the decoder refuses a code point above 127 before the last delimiter |
| Utf8.Encode | src/js/text-encoding-polyfill.js:12 | the encoder writes the bytes of section 3 of RFC 3629, stays in bounds, grows its buffer at most once, and fails only beyond 477218578 units |
| Utf8.OneGrowthSuffices | src/js/text-encoding-polyfill.js:12 | a full buffer is grown enough for all bytes still to come |
| Utf8.WriteOctets | src/js/text-encoding-polyfill.js:12 | the bit expressions write the octets of one code point |
| Utf8.ReadPoint | src/js/text-encoding-polyfill.js:12 | takes one code point, leaving out an unpaired high surrogate |
| Utf8.ReadSequence | src/js/text-encoding-polyfill.js:12 | the decoder's bit expressions store the units of one sequence, missing bytes read as zero |
| Utf8.CutShort | src/js/text-encoding-polyfill.js:12 | a sequence cut short by the end reads as if zero bytes completed it |
| Utf8.Decode | src/js/text-encoding-polyfill.js:12 | the fixed buffer is never overrun, and where it is flushed never changes the result |
| Utf8.RoundTrip | src/js/text-encoding-polyfill.js:12 | decoding an encoded string gives it without its unpaired high surrogates, for every string |
| Utf8.SurvivesIff | src/js/text-encoding-polyfill.js:12 | a string survives if and only if it has no unpaired high surrogate |
| Ipv6.ReadGroup | src/js/whatwg-url-polyfill.js:15 | reads up to four hexadecimal digits |
| Ipv6.ReadByte | src/js/whatwg-url-polyfill.js:15 | accepts exactly the decimal bytes without a leading zero |
| Ipv6.ReadQuad | src/js/whatwg-url-polyfill.js:15 | a dotted quad to the end of the text fills two pieces, and nothing else is accepted |
| Ipv6.SwapRun | src/js/whatwg-url-polyfill.js:15 | the swap loop moves the pieces after `::` to the end and leaves zeros between |
| Ipv6.ReadPiece | src/js/whatwg-url-polyfill.js:15 | one turn of the parser on a group or a dotted quad moves the machine on by exactly that piece |
| Ipv6.Parse | src/js/whatwg-url-polyfill.js:15 | the parser accepts exactly the texts with a meaning under section 2.2 of RFC 4291 (leading zeros of a byte refused) and returns it |
| Ipv6.ParsedIsMeaning | src/js/whatwg-url-polyfill.js:15 | the one-pass machine equals reading by splitting, on every string |
| Ipv6.RunToDouble | src/js/whatwg-url-polyfill.js:15 | up to the first `::` the machine collects exactly the groups before it |
| Ipv6.LongestRun | src/js/whatwg-url-polyfill.js:15 | returns the first longest run of two or more zero pieces, or none if there is no such run |
| Ipv6.Serialize | src/js/whatwg-url-polyfill.js:15 | prints the pieces with exactly that run compressed |
| Ipv6.RoundTrip | src/js/whatwg-url-polyfill.js:15 | parsing the text gives back the same eight pieces, for every address |
| Hexadecimal.HexOfText | src/js/whatwg-url-polyfill.js:15 | printing a number in hexadecimal is inverted by reading it |
| Hexadecimal.DigitTable | src/js/whatwg-url-polyfill.js:15 | digits of both cases are read, and the small letters are printed |
| Hexadecimal.OnlyDigits | src/js/whatwg-url-polyfill.js:15 | no other character is read as a digit |
| QueryParam.FastPath | src/js/hono.bundle.js:272-297 | for every key, the index-hopping loop returns what follows the first place where the query spells the key, if there is one |
| QueryParam.SkipTo | src/js/hono.bundle.js:279-295 | hopping to the next place where the key follows an ampersand skips no such place |
| QueryParam.ReadSegment | src/js/hono.bundle.js:303-326 | cuts one segment into decoded name and value |
| QueryParam.SegmentLoop | src/js/hono.bundle.js:299-335 | the object of results holds the first value of every name, except names it inherits |
| QueryParam.GetQueryParam | src/js/hono.bundle.js:270-336 | the whole function, fast path and loop, for every key; the empty key gives the object of all results |
| QueryParam.NamedIsEarlier | src/js/hono.bundle.js:270-336 | the first parameter named by a plain key is the first spelled as it is, unless one spelled with escapes stands before it |
| QueryParam.ParamIsReference | src/js/hono.bundle.js:270-336 | for a plain key it is the first-wins reading if and only if: where the key is spelled as it is, no escaped spelling before it has another value; where it is not, not (inherited key, escape in the URL) |
| QueryParam.SeparatorKey | src/js/hono.bundle.js:276-295 | for a key with an equals sign or an ampersand in it, when the answer is that of a parameter named so |
| QueryParam.SeparatorHit | src/js/hono.bundle.js:276-295 | where the fast path comes upon such a key, the parameter is named by a proper prefix of it, so its answer is right only by the value of another one |
| QueryParam.EscapedSpellingFirst | src/js/hono.bundle.js:261-269 | a URL on which an escaped spelling is passed over |
| QueryParam.InheritedKeyAnswers | src/js/hono.bundle.js:299-335 | a URL on which an inherited key answers |
| QueryParam.SeparatorKeyAnswers | src/js/hono.bundle.js:283-291 | a URL on which a key with a separator answers |
| Abort.Signal.constructor | src/js/abort.js:18-23 | a new signal is not aborted and has no listeners |
| Abort.AddListener | src/js/abort.js:45-50 | appends the listener |
| Abort.RemoveListener | src/js/abort.js:52-59 | filters out every registration of the function and no follower |
| Abort.WithoutEach | src/js/abort.js:56-58 | the filter looks at each listener on its own |
| Abort.Follow | src/js/abort.js:99-111 | the child of an aborted parent is aborted at once, with the parent's reason unless it had its own; else it becomes a follower |
| Abort.Dispatch | src/js/abort.js:61-73 | calls the handler and then the snapshot, in order: without a handler exactly the listeners there were; the effects of every script called are there at the end, and every follower of the signal is aborted |
| Abort.Handle | src/js/abort.js:65-67 | the onabort script, if there is one, is called once and what it does is done |
| Abort.Run | src/js/abort.js:61-111 | the calls of a user function are made in order: whom it aborts is aborted, whom it makes follow another is aborted or follows it, and one that only adds and removes listeners leaves exactly the lists edited so |
| Abort.SignalAbort | src/js/abort.js:82-96 | ends on every graph, sets the reason once, leaves told every signal aborted meanwhile; if user code aborts nothing, all of them got this reason |
| Abort.Abort | src/js/abort.js:114-122 | a quiescent graph is quiescent again afterwards |
| Abort.TransitiveFollowersAborted | src/js/abort.js:61-111 | at quiescence every transitive follower of an aborted signal is aborted |
| Base64.Encode | src/js/buffer.js:1 | the chunked encoder writes the encoding of section 4 of RFC 4648; where chunks end makes no difference |
| Base64.EncodeChunk | src/js/buffer.js:1 | a chunk of whole groups is encoded as on its own |
| Base64.Alphabet | src/js/buffer.js:1 | the 64 letters are those of section 4 of RFC 4648, in order |
| Base64.OnlyLetters | src/js/buffer.js:1 | no other character has a place in the alphabet |
| Base64.TestVectors | src/js/buffer.js:1 | test vectors of section 10 of RFC 4648, the pads included |
| Base64.BothAlphabets | src/js/buffer.js:1 | the array decoder reads the two letters of section 5 in the places of those of section 4, and any other character as the first letter |
| Base64.StreamDecode | src/js/crypto.js:40-61 | the accumulator loop returns the bytes of the sextets, on every text, although the accumulator wraps |
| Base64.ShiftedBits | src/js/crypto.js:53-57 | only the last twelve bits of the accumulator are ever read |
| Base64.BlockDecode | src/js/fetch.js:67-87 | the block decoder on every text: a character outside the alphabet counts as all ones in the first two places and yields no byte in the others |
| Base64.GroupsOfLetters | src/js/fetch.js:72-85 | on letters that is the reading by blocks |
| Base64.InBlocksIsBytes | src/js/fetch.js:72-85 | it agrees with the streaming decoder if and only if no single letter is left over |
| Base64.DecodersAgree | src/js/fetch.js:67-87 | on a text with any characters, block and streaming decoder agree whatever its letters are if and only if the others stand in the third and fourth place of the last group, after its letters, and no letter is alone there |
| Base64.OneLetterOver | src/js/fetch.js:72-85 | on five letters the two differ |
| Base64.ToByteArray | src/js/buffer.js:1 | on every text: refused exactly if the length is not a multiple of four or a pad comes first, else the bytes of the codes before the first pad; two zero bytes more where that pad starts a group |
| Base64.ArrayMeaningOfLetters | src/js/buffer.js:1 | on letters completed by at most two pads that is the plain reading |
| Base64.EncodedDecodes | src/js/crypto.js:40-61 | the sextets of an encoding are its bytes |
| Base64.AllDecodersInvert | src/js/buffer.js:1 | on an encoding all three decoders return the bytes |
| Headers.NormalizedIsStored | src/js/headers.js:13-26 | a normalized value has no blank ends and no forbidden characters |
| Headers.StoredIsNormal | src/js/headers.js:13-26 | normalizing leaves a value alone if and only if it has none |
| Headers.FoldsCase | src/js/headers.js:10 | names are folded letter by letter, and nothing but capital letters changes |
| Headers.TokenLetters | src/js/headers.js:7 | every letter may stand in a name |
| Headers.TokenOthers | src/js/headers.js:7 | so may every digit and each of the fifteen marks |
| Headers.OnlyTokens | src/js/headers.js:5-9 | a name holds nothing but letters, digits and the marks of a token |
| Headers.HeaderList.Append | src/js/headers.js:131-139 | appends the normalized pair or throws with nothing changed |
| Headers.HeaderList.Delete | src/js/headers.js:141-165 | leaves exactly the pairs of the other names, in order |
| Headers.HeaderList.GetValue | src/js/headers.js:167-176 | joins the values of the name in order |
| Headers.HeaderList.Set | src/js/headers.js:188-211 | puts the one new value in the first place of the name, or at the end, and leaves the other names' pairs in order |
| Headers.HeaderList.Combined | src/js/headers.js:219-242 | strictly sorted, exactly the names of the list, each with what `get` returns |
| Headers.SortSorts | src/js/headers.js:220-224 | the sort orders the names and keeps the order of the values of each |
| Headers.FromPairs | src/js/headers.js:75-87 | the iterable constructor appends each pair in turn, or throws |
| Headers.JoinStored | src/js/headers.js:175 | when a joined value survives normalizing |
| Headers.CopyKeeps | src/js/headers.js:75-87 | copying keeps `get` for a name if and only if not (two or more values, the last one empty) |
| Headers.CopyLosesBlank | src/js/headers.js:75-87 | a list whose copy reads differently |
| Chunked.Session.WriteChunk | src/net/http_server.cpp:204-254 | puts out one frame, and nothing for an empty write |
| Chunked.Session.FinishChunked | src/net/http_server.cpp:264-275 | puts out the final chunk |
| Chunked.DecodeFrame | src/net/http_server.cpp:212-223 | a receiver reads one frame back, whatever follows |
| Chunked.FramesDecode | src/net/http_server.cpp:204-272 | for any writes a receiver gets their concatenation and stops exactly at the end |
| Chunked.EmptyChunkEnds | src/net/http_server.cpp:208-211 | an empty write framed like the others would end the body there |
| BlobStore.Store.Sweep | src/binary_store.cpp:32-41 | erasing while iterating leaves exactly the entries that have not expired |
| BlobStore.Store.Put | src/binary_store.cpp:65-79 | sweeps, then adds the entry unless the id is taken |
| BlobStore.Store.Take | src/binary_store.cpp:81-94 | sweeps, then returns and removes the entry if there is one |
| BlobStore.Store.Gc | src/binary_store.cpp:96-102 | leaves exactly the unexpired entries |
| BlobStore.LazyIsEager | src/binary_store.cpp:65-102 | for times that never go back every take returns what a store without any sweeping need would return |
| BlobStore.TakenInTime | src/binary_store.cpp:65-94 | a blob put under a free id is returned by a take less than the time to live later, whatever happens to other ids in between, and not by a later one |
| BlobStore.ReturnedAtMostOnce | src/binary_store.cpp:81-94 | an id is returned at most as often as it was put |

## Left out

- Fairness: that a destroy can be carried through is stated (`ManagerProgress.DestroyCanFinish`), not that every schedule does; after shutdown timers no longer call back, so a job whose promise hangs on one never finishes. The wait for in-flight jobs is any delay.
- The coroutines of the dispatcher, the jobs and the timers are steps of a state machine, not loops of a method: their order under preemption is the point.
- QuickJS, asio, libcurl and OpenSSL: JavaScript calls return a value, an exception or a promise as the environment chooses, and the executor is a queue of resumptions.
- The loop condition's `job_pending` and `http_active` terms: leaving the loop is allowed whenever the pending count is zero, which only adds runs.
- Weak memory order: atomic accesses are single steps of one total order.
- Data races between the destroying thread and the host thread: `active_timers_` and `stopping` have no lock (src/host.cpp:352-362, 407), yet clearing all timers and setting the flag are each one step here.
- Counter overflow of task and timer ids, and of the pending count: unbounded integers.
- Request and response assembly in the HTTP server, socket errors and the order of concurrent writes; `glob_match` and the rest of the file system module.
- `{regex}` path segments and optional parameters in the trie router, and which parameters it binds to which values; that a search leaves a `params` property on an inherited member; the regular-expression router; `getQueryParams` with several values.
- The rest of URL parsing, and lower-casing and dot-splitting around the Punycode encoder.
- Rounding of the buffer-growth factor: it is an exact quotient in the model; a rounded product is still at least the size plus eight, which is all that staying in bounds needs.
- `AbortSignal.timeout`, listeners that throw, events dispatched by hand, and signals made while a dispatch is running.
- Header guards, `getSetCookie` and the iterator objects.
- Chunk extensions and trailer fields in the chunked decoder, which the server never sends.
- Concurrent use of the blob store and changes of its time to live; the random id is an argument.
- Trie.Router.Search: does not say how the engine arranges a list that its comparison cannot order.
- Trie.Router.Insert: takes paths without a `{...}` group, since a label with a `{regex}` part needs a matcher and may span several segments; the names of the parameters of an entry are not kept.
- Base64.DecodersAgree: speaks of all letters in the places of the letters; a text whose other characters do not trail may still be read alike by the values of its letters.
- Utf8.Encode: strings are shorter than 2^30 units, the limit of the engine.
- Punycode.Decode: decodes with unbounded integers, so it has no overflow of its own.
- MpscProtocol.NoLostWakeup: says that the steps owed do resume the receiver, not that a scheduler takes them.
- HostProgress.HostCanEnd: takes it that promises which jobs wait for settle, as the environment's step.
