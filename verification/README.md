# Verified model of the peno boundary

peno runs one V8 isolate per operating-system thread and lets Python call into it and be
called from it. This project models the logic around the isolate and proves what it promises:

- **The dispatcher and its termination protocol** (`Jobs`, `JobAnswers`, `JobHistory`,
  `WorkQueue`, `DispatcherCore`, `Dispatcher`, `TerminationProtocol`, `TurnSimulation`,
  `ReactionBound`, `Deadlines`, `DeadlineProgress`, `Watchdog`, `ForceKill`, `PendingCalls`). The
  runtime thread's loop is the class `RuntimeDispatcher`, proved equal to functions on its state.
  The pieces of a turn are then interleaved, one atomic step at a time, with every other thread
  that can reach the runtime thread, and every turn of the class is shown to be a run of those
  steps. V8, promises and tokio's event loop are oracles; `Notify` is one stored permit; time is
  a nondecreasing clock.
- **The boundary codec** (`JsValue`, `Decimal`, `WireCodec`, `WireRoundTrip`, `TaggedValues`,
  `GuestRoutes`, `RoutesAgree`, `Budget`, `Sizes`, `PythonValues`, `PySets`, `Calendar`,
  `FromJsBudget`, `ToJsBudget`, `Refusals`, `PlainRoundTrip`, `ObjectGraph`, `GraphUnfolding`,
  `GraphCycles`, `JsToPython`, `PythonToJs`). Both conversion directions thread one meter of
  depth and bytes; Python objects are a graph with references.
- **The capability registry and the tool bridge** (`OpRegistry`, `ToolBridge`).
- **Resource registries and codecs** (`IsolatePool`, `Streams`, `StreamReader`, `TextCodec`).

`Wrappers` holds `Option` and `Result`. Each object the source updates in place is a class
whose methods are proved against a function of its old state; what that function promises is
proved by the lemmas beside it.

## Main results

1. *No lost termination.* In every interleaving the runtime thread is parked with work in hand
   and the status no longer running only if a wake permit is stored or a requester has yet to
   notify (`TerminationProtocol.FreshRuns`). Every other thread aside, the work then drains
   without the 1 ms tick (`ReactionBound.DrainsWithoutTick`), and whatever the other threads do
   there is at most one more job poll and one loop turn per held job plus one
   (`ReactionBound.ReactionIsBounded`).
2. *Exactly-once answers in order*, for every run of the loop (`Dispatcher.RunAnswersInOrder`);
   each turn of that loop is a legal run of the protocol (`TurnSimulation.EveryMomentHasItsRun`).
   Over every run each answer is explained by the step that gave it (`JobHistory.AnswersAreExplained`),
   and a value is the one that the job's own promise or namespace delivered
   (`JobHistory.ValuesWereDelivered`).
3. *Honest deadlines*: no active job is ever past its due time, a deadline timeout carries exactly
   that time, and at that time the runtime thread is awake and within five steps of its own has
   answered the job or been shut down (`DeadlineProgress.FreshRunsMeetDeadlines`). That time is
   the submission plus the caller's own timeout (`JobHistory.TimeoutsTakeTheirTime`). The watchdog
   race is exact (`Watchdog.ResolvedIsExact`), and a watchdog past its deadline fires
   (`Watchdog.OverdueFires`).
4. *The wire round trip holds exactly* for values that hide no forged tag
   (`WireRoundTrip.RoundTripExact`), and *the two host-to-guest routes agree exactly* on values
   with no reserved tag (`RoutesAgree.RoutesAgreeExactly`). What any tagged object decodes to, or
   becomes in Python, is said payload by payload (`TaggedValues`).
5. *The budget is exact*: a conversion succeeds if and only if what the value needs fits the
   meter, both ways, for single values and whole argument lists; strings cost their UTF-8 form
   and integers their magnitude's bytes (`Sizes`), and every refusal names its reason
   (`Refusals`).
6. *Conversion of an arbitrary object graph* is the conversion of its tree unfolding, which
   exists exactly when no cycle can be reached (`GraphCycles.UnfoldsIffAcyclic`,
   `GraphCycles.ConvertsIffUnfoldingFits`, `GraphCycles.WithoutLimitsOnlyCyclesFail`).
7. *Capabilities follow history*: a guest number reaches a handler if and only if it is that
   handler's registered, since exposed and never since revoked token
   (`OpRegistry.DispatchFollowsHistory`), exactly the tools so granted run, each charged
   (`ToolBridge.ToolBridge.RunGuest`), and a bind succeeds exactly when its tokens can be drawn,
   its values converted and its script run (`OpRegistry.RegisteringIsExact`).
8. *The text codec* round-trips exactly the strings whose lead surrogates are paired, and its
   bytes are UTF-8 as in section 3 of RFC 3629 (`TextCodec.RoundTripIffPaired`,
   `TextCodec.EncodesToUtf8`).
9. *The stream books balance* over every interleaving of registering, tracking, removing and
   announcing (`Streams.HistoriesBalance`), and a handle tracks a dead stream exactly when it
   tracked it too late (`Streams.DeadIdsWereTrackedTooLate`).

## Model

| member | source | states |
|---|---|---|
| WorkQueue.SubmitKeeps | src/runtime/runner.rs:817-825 | submitting appends exactly one job to what is held and keeps the order, start and timeout invariants |
| WorkQueue.CompleteKeeps | src/runtime/runner.rs:668-690 | finishing answers the oldest held job, promotes the next one and keeps all invariants; the number of held jobs drops by one |
| WorkQueue.CancelKeeps | src/runtime/runner.rs:836-852 | cancelling answers every held job, in order; afterwards as many answers as submissions |
| WorkQueue.PollKeeps | src/runtime/runner.rs:668-690 | polling the active job, with or without an answer, keeps order, at-most-once starts before the deadline, and own-deadline timeouts only at or after it |
| Dispatcher.RuntimeDispatcher.PendingWorkWait | src/runtime/runner.rs:580-586 | the park is the tick, or less when the active job's deadline comes first; it then ends at that deadline, or at once if it has passed |
| Dispatcher.RuntimeDispatcher.SubmitJob | src/runtime/runner.rs:817-825 | the new job becomes active if there is none, otherwise the last in the queue, on its own or an inherited clock |
| Dispatcher.RuntimeDispatcher.CancelAllJobs | src/runtime/runner.rs:836-852 | the cancelling loop answers the active job and then the queue, in order, and leaves nothing held |
| JobAnswers.AbandonedAreAnswered | src/runtime/runner.rs:836-852 | every abandoned job, in order, is told that the runtime was terminated and why, or that its watchdog fired |
| Dispatcher.RuntimeDispatcher.TakeLoopOutcome | src/runtime/runner.rs:618-665 | a fatal loop error fails the active job and restarts the turn; one that reports a requested termination does not |
| JobAnswers.LoopFailureIsAnswered | src/runtime/runner.rs:625-653 | a fatal loop error is the active job's answer as it stands and restarts the turn; one that reports a termination answers nobody, and finalises if the termination was asked for |
| Dispatcher.RuntimeDispatcher.PollActiveJob | src/runtime/runner.rs:668-690 | the active job's poll, the reason it stores, its finalising and its completion as one step of the state |
| JobAnswers.ExpiredIsAnswered | src/runtime/runner.rs:1368-1381 | at its deadline a job is answered with its own timeout whatever V8 has for it, starts nothing and stores the reason |
| JobAnswers.StartedWaits | src/runtime/runner.rs:1487-1508 | a start closure that succeeds has run once, now, and leaves the job waiting |
| JobAnswers.FailedStartIsAnswered | src/runtime/runner.rs:1508-1513 | one that fails is the job's answer; only a script error can be the requested termination arriving |
| JobAnswers.FulfilledIsAnswered | src/runtime/runner.rs:1524-1546 | a fulfilled promise, with its value or the error of reading it, is the job's answer, and the next job is promoted |
| JobAnswers.ValueArrives | src/runtime/runner.rs:1524-1546 | the caller gets the promise's own value unless a watchdog fired, and then its timeout |
| JobAnswers.RejectedIsAnswered | src/runtime/runner.rs:1547-1560 | a rejection is the job's error, or the terminated error with the stored reason when it reports a requested termination |
| JobAnswers.EvaluatedExtracts | src/runtime/runner.rs:1763-1787 | an evaluated module answers nobody yet |
| JobAnswers.NamespaceIsAnswered | src/runtime/runner.rs:1789-1816 | the next poll answers with its namespace |
| JobAnswers.ArrivalFinalises | src/runtime/runner.rs:2537-2545 | a termination arriving through the job finalises it on the spot, and nothing else does |
| Dispatcher.RuntimeDispatcher.HandleCommand | src/runtime/runner.rs:855-1205 | which commands are refused once termination is requested, which abandon the work, and which leave the loop |
| Dispatcher.RuntimeDispatcher.TakeTurn | src/runtime/runner.rs:588-808 | one whole turn is the turn function, with other threads storing reasons, requesting termination and forcing it between any two of its parts |
| Dispatcher.RuntimeDispatcher.Run | src/runtime/runner.rs:588-808 | the loop is the run function; answers stay in submission order and every exit but a shutdown has answered all submitted jobs and finalised |
| Dispatcher.TurnKeeps | src/runtime/runner.rs:588-808 | one turn keeps the invariant, and a turn that leaves for any reason but shutdown leaves clean |
| Dispatcher.AbandonsExactlyWhenAsked | src/runtime/runner.rs:725-733 | a turn abandons the work exactly when the status has left running and work is held |
| Dispatcher.RunAnswersInOrder | src/runtime/runner.rs:588-852 | over every run: answered, active and queued jobs are the submitted ones in submission order, none twice; only a shutdown may drop a suffix |
| TurnSimulation.EveryTurnIsARun | src/runtime/runner.rs:588-808 | from the head of the loop every turn, whatever it learns from outside, is a legal run of the protocol's atomic steps that ends in the same state and at the same place of the loop |
| TurnSimulation.EveryMomentHasItsRun | src/runtime/runner.rs:588-808 | for every state and every moment there is such a run, so the class and the protocol describe one loop |
| Dispatcher.TerminationController.Request | src/runtime/runner.rs:311-327 | true exactly for the call that moves the status off running; the dispatcher's permit is stored either way |
| Dispatcher.TerminationController.EnsureReason | src/runtime/runner.rs:333-338 | the first reason stays |
| Dispatcher.TerminationController.MarkTerminated | src/runtime/runner.rs:369-378 | the status ends terminated; the result says whether it changed |
| TerminationProtocol.StatusForward | src/runtime/runner.rs:311-378 | no step of any thread moves the status back or replaces a reason; only a request or the runtime thread's finalising leaves running |
| TerminationProtocol.NoLostWakeKeeps | src/runtime/runner.rs:311-327 | swapping the status before notifying never loses a wake |
| TerminationProtocol.StepKeeps | src/runtime/runner.rs:588-808 | every atomic step of every thread keeps the whole protocol invariant |
| TerminationProtocol.RunKeeps | src/runtime/runner.rs:588-808 | so does every interleaving |
| TerminationProtocol.FreshRuns | src/runtime/handle.rs:792-850 | for every run of a fresh runtime: at most one request wins and at most one Terminate is sent, no wake is lost, and a termination that is complete was asked for and has answered every job |
| JobHistory.CommandsInOrder | src/runtime/handle.rs:792-850 | over every run commands are served in the order in which they were sent, none twice and none left out |
| JobHistory.CallersGoOn | src/runtime/handle.rs:792-850 | a caller inside a request can always take its next step: the notify stores the permit, and a win through a handle leads to Terminate in an open channel |
| JobHistory.WinnerSendsTerminate | src/runtime/handle.rs:792-850 | over every run a caller that won through a handle has sent Terminate or is still on its way to |
| JobHistory.ParksIdleIffNothingIsLeft | src/runtime/runner.rs:735-802 | over every run the runtime thread parks without a timer exactly when it holds no work and the event loop had nothing left |
| JobHistory.AnswersAreExplained | src/runtime/runner.rs:588-852 | over every run each answer was given by a step that settled that very job, with what the step knew of it: its deadline, its promise, its namespace or its start closure, the loop's failure while it was active, or the abandoning of all work |
| JobHistory.ValuesWereDelivered | src/runtime/runner.rs:1524-1546 | over every run a value given to a caller is the one that the job's own promise or namespace delivered, with no watchdog fired |
| ReactionBound.OwnStepSpends | src/runtime/runner.rs:588-808 | once the status has left running, each step of the runtime thread uses up a bounded budget of steps, turns and polls |
| ReactionBound.OthersDoNotDelay | src/runtime/runner.rs:588-808 | no other thread can add to that budget |
| ReactionBound.ReactionIsBounded | src/runtime/runner.rs:725-733 | at most one more job poll, one more turn per held job plus one, and eight more steps plus one per held job, before no work is held |
| ReactionBound.WakeOnItsWay | src/runtime/runner.rs:763-802 | a dispatcher that must react is never blocked for good: a step of its own or a pending notify is enabled |
| ReactionBound.DrainsWithoutTick | src/runtime/runner.rs:763-802 | without any tick a run exists, of bounded length, after which no work is held |
| Deadlines.DeadlinesAreHonest | src/runtime/runner.rs:1368-1381 | every run of zero-cost steps keeps the timing invariant: deadline timeouts were given exactly when due, no active job is past its due time, and the runtime thread never asks to sleep past a deadline |
| DeadlineProgress.FreshRunsMeetDeadlines | src/runtime/runner.rs:1368-1381 | in every zero-cost run of a fresh runtime: timeouts carry exactly their due time, no active job is past it, no start closure ran at or after its deadline; and a job that is due leaves the runtime thread a step to take, is answered at that very time by any continuation with five steps of the runtime thread, as a timeout unless the loop failed or the work was abandoned just then, and no time passes before, unless the loop is shut down |
| Deadlines.DueMeansTimeout | src/runtime/runner.rs:1368-1381 | a poll at the due time is the timeout, whatever the promise says, and starts nothing |
| JobHistory.SubmittedOnItsClock | src/runtime/runner.rs:1317-1361 | a submission adds one job at the end of what is held, with the command's kind and watchdog and the deadline its clock sets: now plus its timeout, none, or the inherited one |
| JobHistory.JobsAreTraced | src/runtime/runner.rs:1301-1361 | over every run each job held, started or answered still has the deadline that its own command set when it was submitted |
| JobHistory.SubmittedOnce | src/runtime/runner.rs:817-825 | no two steps of a run submit the same job |
| JobHistory.TimeoutsTakeTheirTime | src/runtime/runner.rs:1368-1381 | over every run a job is timed out by its deadline no sooner than its timeout after its submission, and never if it has none |
| JobHistory.TimeoutsAreExact | src/runtime/runner.rs:1368-1381 | in every zero-cost run such a timeout comes exactly then, or when the job became active if that was later |
| JobHistory.StartsAreInTime | src/runtime/runner.rs:1478-1496 | every start closure that ran did so before its job's timeout was up |
| DeadlineProgress.DueMeansAwake | src/runtime/runner.rs:763-802 | when the active job is due the runtime thread has a step to take; parked, a command, the closed channel, a permit or the timer wakes it |
| DeadlineProgress.TimeIsNotStuck | src/runtime/runner.rs:763-802 | a runtime thread that has not left its loop can always take a step, or is parked and time may pass |
| DeadlineProgress.OwnStepProgresses | src/runtime/runner.rs:588-808 | with a job due, each step of the runtime thread answers it, or shuts the loop down, or leaves fewer steps to the answer |
| DeadlineProgress.OthersLeaveItDue | src/runtime/runner.rs:588-808 | no other thread and no passing of time adds to those steps |
| DeadlineProgress.DueJobIsAnswered | src/runtime/runner.rs:1368-1381 | over every continuation: enough steps of the runtime thread answer the job at its due time, and until then no time passes |
| PendingCalls.PendingCallTable.CallFunctionSync | src/runtime/runner.rs:2853-2870 | a call that returned a promise is stored under a new id, with the deadline that its own timeout, or else the runtime's, sets on the clock that started with the call |
| PendingCalls.PendingCallTable.ResumeFunctionCall | src/runtime/runner.rs:1112-1137 | a stored call is taken at most once and submitted on the original call's deadline; refused or unknown ids change nothing |
| PendingCalls.PendingCallTable.FinalizeTermination | src/runtime/runner.rs:2521-2535 | the first finalising drops every stored call; later ones change nothing |
| Watchdog.RunKeeps | src/runtime/runner.rs:157-251 | every interleaving of the watchdog thread, its owner and the clock keeps the race's invariant |
| Watchdog.ResolvedIsExact | src/runtime/runner.rs:2486-2519 | after joining, the verdict says fired if and only if this watchdog called terminate_execution, once; none of its terminations is pending; a cancel before the deadline means it never fired |
| Watchdog.FiresAfterItsDuration | src/runtime/runner.rs:184-206 | over every run the watchdog fires its whole duration after its thread started, at the earliest, never sooner than that after it was spawned |
| Watchdog.FiringReachesV8 | src/runtime/runner.rs:205-214 | once it has fired and ended, its termination is pending until the owner resolves it |
| Watchdog.ResolveClearsIffFired | src/runtime/runner.rs:2486-2497 | resolving clears the pending terminations exactly when it fired, and leaves those of others alone when it did not |
| Watchdog.PendingIsOthers | src/runtime/runner.rs:2486-2497 | whatever is pending after that was asked for by somebody else, since |
| Watchdog.NothingArrivesLater | src/runtime/runner.rs:2486-2497 | nothing that happens after the join changes that |
| Watchdog.CancelledWatchdogEnds | src/runtime/runner.rs:198-251 | a cancelled watchdog ends within four steps of its own and never has to wait for its deadline |
| Watchdog.OverdueGoesOn | src/runtime/runner.rs:198-221 | a watchdog past its deadline has a step to take that is not a spurious wake, unless its owner is just cancelling it |
| Watchdog.BecomesOverdue | src/runtime/runner.rs:184-214 | a watchdog whose thread has started and that is not cancelled is overdue after a wait |
| Watchdog.OverdueFires | src/runtime/runner.rs:198-221 | over every run, four steps of its own are enough for a watchdog past its deadline to have fired, unless it was cancelled before |
| ForceKill.Wait | src/runtime/handle.rs:214-257 | the caller gives up if and only if a slice timed out at or after the grace counted from when a request was first seen, with no answer before |
| ForceKill.GivesUpInTime | src/runtime/handle.rs:214-257 | it gives up within the slices of the grace plus one after first seeing the request |
| ForceKill.RuntimeHandle.RecvResult | src/runtime/handle.rs:214-257 | giving up leaves the status terminated and the handle shut down; an answer is handed on as it came and leaves both alone |
| JsValue.LimitTracker.Enter | src/runtime/js_value.rs:403-410 | the depth counter saturates and is compared after it grew |
| JsValue.LimitTracker.AddBytes | src/runtime/js_value.rs:426-437 | the byte counter saturates and is compared after it grew |
| Decimal.ReadsBack | src/runtime/js_value.rs:155-160 | the decimal text of every integer parses back to it |
| Decimal.ParsesExactlyNumerals | src/runtime/js_value.rs:311-323 | a text parses to an integer exactly when it is that integer's decimal text, leading zeros allowed |
| JsValue.InsertSets | src/runtime/js_value.rs:271-285 | inserting into an ordered map sets one key, in its place or at the end, and leaves the others as they were |
| WireCodec.Deserialize | src/runtime/js_value.rs:260-376 | the visitor's loops compute the decoding, the first error winning |
| TaggedValues.TaggedDecodes | src/runtime/js_value.rs:287-372 | any map with a tag string decodes to what that tag and its payload stand for, or stays an object: floats are cast to integers by truncating and clamping, integers lose all but 32 bits of a stream id, text must be a numeral |
| TaggedValues.UntaggedDecodes | src/runtime/js_value.rs:271-372 | a map without a tag string is the object of its properties |
| TaggedValues.FloatDateDecodes | src/runtime/js_value.rs:294-304 | a date sent as a double, as the guest does, arrives as the same millisecond |
| TaggedValues.ForeignItemsDecode | src/runtime/js_value.rs:220-262 | unit is undefined, an integer an i64 holds stays one, a larger one becomes a double |
| WireRoundTrip.EncodesUnlessFunction | src/runtime/js_value.rs:140-196 | serializing fails only on a function inside |
| WireRoundTrip.ForgedIsRecognised | src/runtime/js_value.rs:271-376 | the decoder takes an object for a tagged value exactly when the object's own tag names a known type and carries the payload that type needs |
| WireRoundTrip.RoundTripExact | src/runtime/js_value.rs:140-376 | deserialize after serialize gives the value back, objects as maps, if and only if no object inside is forged, for every function-free value |
| GuestRoutes.PackWords | src/runtime/runner.rs:3081-3088 | the packing loop gives 64-bit words whose value is that of the little-endian bytes |
| GuestRoutes.BigIntWordsExact | src/runtime/runner.rs:3081-3093 | sign and words denote the BigInt |
| GuestRoutes.DatesSpanDays | src/runtime/runner.rs:3140-3144 | a date keeps its millisecond up to a hundred million days from the epoch and is invalid beyond |
| GuestRoutes.SetsKeepTheFirst | src/runtime/runner.rs:3119-3126 | a guest set holds what was added, each primitive once, every object, in order |
| GuestRoutes.TaggedRevives | src/runtime/ops.rs:567-589 | what revive makes of tagged dates, BigInts and streams whose payload is a number |
| RoutesAgree.BigIntAgrees | src/runtime/ops.rs:580-581 | the word form and the decimal text denote the same BigInt |
| RoutesAgree.PyStreamAgrees | src/runtime/ops.rs:582-586 | both routes open the stream of the same id |
| RoutesAgree.UnreservedAgrees | src/runtime/ops.rs:557-597 | reviving the serialized form gives the directly built guest value, when no object inside owns a tag that revive acts on |
| RoutesAgree.ReservedIsKept | src/runtime/runner.rs:3071-3144 | the direct route keeps such an object, which revive never returns |
| RoutesAgree.RoutesAgreeExactly | src/runtime/runner.rs:3071-3144 | for transferable values the routes agree if and only if no object inside owns such a tag |
| FromJsBudget.ConvertsIffItFits | src/runtime/conversion.rs:61-233 | a JavaScript value converts to Python if and only if it is convertible and its height and cost fit the meter; then the meter has spent exactly that |
| FromJsBudget.YieldsImage | src/runtime/conversion.rs:73-233 | and the result is the value's image, tags recognised |
| FromJsBudget.CallArgumentsFit | src/runtime/ops.rs:251-260 | an argument list converts if and only if every argument is convertible and no deeper than the limit and the costs together fit; the depth counter is restored and the byte counter is that sum |
| Sizes.Utf8LenIsOctets | src/runtime/conversion.rs:106-110 | the size of a string is the length of its UTF-8 form |
| Sizes.MagnitudeLenIsLeast | src/runtime/conversion.rs:97-101 | the size of an integer is the least number of bytes, at least one, that hold its magnitude |
| Sizes.JsStringsCostTheirOctets | src/runtime/conversion.rs:106-110 | a JavaScript string converts if and only if its UTF-8 form and sixteen bytes more fit |
| Sizes.KeysCostTheirOctets | src/runtime/conversion.rs:190-194 | a property or entry costs its key's UTF-8 form and eight bytes on top of its value |
| Sizes.IntegersCostTheirBytes | src/runtime/conversion.rs:97-101 | a BigInt converts if and only if its magnitude's bytes fit |
| Refusals.FromJsNamesTheReason | src/runtime/conversion.rs:61-233 | a refusal as too deep or too big means that the height or the cost does not fit; any other means that something inside cannot convert |
| TaggedValues.TaggedConverts | src/runtime/conversion.rs:133-196 | on its way to Python an object whose tag and payload are known becomes what they stand for, at no cost of its own; every other one becomes a dict |
| Calendar.DatetimesAreYears1To9999 | src/runtime/conversion.rs:197-206 | dates convert exactly in the years 1 to 9999 of the Gregorian calendar |
| PySets.SetsHoldTheirMembers | src/runtime/conversion.rs:124-132 | a converted set holds each member, or one equal to it, and nothing else, and no two of its members are equal |
| PySets.NumbersCompareByValue | src/runtime/conversion.rs:124-132 | members that are numbers of any type are equal by value |
| PySets.OthersEqualThemselves | src/runtime/conversion.rs:124-132 | other members equal only themselves; fresh proxies and NaN equal nothing |
| PySets.SetsHoldScalars | src/runtime/conversion.rs:124-132 | a set converts only if no member becomes a list, a dict or a set |
| PySets.DictsSetOneKey | src/runtime/conversion.rs:189-196 | setting a dict key gives it the value and leaves the others alone |
| JsToPython.Convert | src/runtime/conversion.rs:61-71 | the method over the shared tracker computes result and meter of the specification |
| JsToPython.ConvertArgs | src/runtime/ops.rs:251-260 | the loop over the arguments is refused exactly as the aggregate budget says |
| ToJsBudget.ConvertsIffItFits | src/runtime/conversion.rs:266-450 | the same exactness from Python to JavaScript |
| ToJsBudget.YieldsShape | src/runtime/conversion.rs:266-450 | the result is the Python value's shape |
| ToJsBudget.CallArgumentsFit | src/runtime/python/runtime.rs:662-675 | the same aggregate budget for calls into the guest |
| Sizes.PyStringsCostTheirOctets | src/runtime/conversion.rs:424-435 | a Python string converts if and only if its UTF-8 form and sixteen bytes more fit |
| Refusals.ToJsNamesTheReason | src/runtime/conversion.rs:266-450 | the same reading of refusals from Python to JavaScript |
| ToJsBudget.UnsupportedLeavesTheMeter | src/runtime/conversion.rs:266-450 | a value of an unsupported type leaves the meter as it found it |
| PlainRoundTrip.ComesBackIffPlain | src/runtime/conversion.rs:73-450 | a value without sets comes back from Python unchanged if and only if it has no BigInt an i64 could hold, no object Python takes for a tagged value and no stream |
| PlainRoundTrip.PlainCostsTheSame | src/runtime/conversion.rs:73-450 | plain data nests as deep and costs as much in both directions |
| PlainRoundTrip.PlainRoundTripIsSymmetric | src/runtime/conversion.rs:73-450 | plain data accepted one way is accepted the other way under the same limits, comes back equal, and leaves the meter at the same reading |
| GraphUnfolding.UnfoldingIsUnique | src/runtime/conversion.rs:258-450 | an object graph unrolls to at most one tree |
| GraphUnfolding.FollowsUnfolding | src/runtime/conversion.rs:258-450 | converting a graph that unrolls gives exactly the tree's result and meter, errors included, whatever is shared |
| GraphCycles.UnfoldsIffAcyclic | src/runtime/conversion.rs:308-343 | a tree unfolding exists if and only if no walk of references ever returns to where it was |
| GraphCycles.ConvertsIffUnfoldingFits | src/runtime/conversion.rs:258-450 | an object converts if and only if it unfolds and the unfolding fits; the result is its shape |
| GraphCycles.CircularMeansCycle | src/runtime/conversion.rs:308-314 | a circular reference is reported only when a cycle can be reached |
| GraphCycles.WithoutLimitsOnlyCyclesFail | src/runtime/conversion.rs:258-450 | when everything the root reaches is supported and no limit binds, conversion succeeds if and only if no cycle is reachable, and otherwise reports the cycle |
| PythonToJs.ConvertObject | src/runtime/conversion.rs:266-450 | the method with its mutable set computes the specification for every graph; at every call the set is exactly the current path, and success restores it |
| PythonToJs.ArgumentsConvertIffTheyFit | src/runtime/python/runtime.rs:662-675 | an argument list of graphs converts if and only if it unfolds to trees that fit one aggregate budget |
| PythonToJs.ConvertArgs | src/runtime/python/runtime.rs:662-675 | so does the loop that gives each argument a fresh set and all of them one tracker |
| OpRegistry.TablesAreSound | src/runtime/ops.rs:172-230 | over every history exposed tokens are registered and registered tokens lie between 1 and 2^53 - 1 |
| OpRegistry.DispatchFollowsHistory | src/runtime/ops.rs:119-124 | a guest number reaches a handler if and only if it is exactly a token that was registered to it, exposed after that, and not revoked since |
| OpRegistry.PythonOpRegistry.RegisterOp | src/runtime/ops.rs:182-200 | the token is the first draw that is nonzero and unused, and there is none only if no draw is; it is registered and nothing is exposed |
| OpRegistry.DrawFailsIffNoneUsable | src/runtime/ops.rs:86-97 | drawing fails if and only if every draw masks to zero or to a token in use; otherwise the token is live, unused and one of the draws |
| OpRegistry.PythonOpRegistry.ExposeOp | src/runtime/ops.rs:204-210 | only a registered token is exposed |
| OpRegistry.PythonOpRegistry.RevokeOp | src/runtime/ops.rs:218-221 | handler and exposure both go |
| OpRegistry.PythonOpRegistry.LookupEntry | src/runtime/ops.rs:224-244 | a guest call finds a handler exactly when the history grants it |
| OpRegistry.PythonOpRegistry.BindFunction | src/runtime/python/runtime.rs:312-352 | succeeds if and only if a token can be drawn and the script runs, and then exposes just that token; a failed bind exposes nothing |
| OpRegistry.PythonOpRegistry.BindObject | src/runtime/python/runtime.rs:371-428 | succeeds if and only if there are draws for all callables, every key is a string, every other value converts and the helper runs, and then exposes fresh tokens, one for each callable in order, each leading to its own handler; a failed bind exposes nothing |
| OpRegistry.RegisteringIsExact | src/runtime/python/runtime.rs:371-428 | the registering half: exactly when it succeeds, and that what was registered before stays |
| ToolBridge.ToolBridge.Spend | python/peno/_tools.py:243-257 | a call is charged exactly when the budget allows it |
| ToolBridge.ToolBridge.RunShim | python/peno/_tools.py:261-286 | a tool runs, charged, exactly while calls are left; otherwise nothing runs and the call is refused as configured |
| ToolBridge.ToolBridge.DispatchSync | src/runtime/ops.rs:302-327 | any number the guest passes either runs the one tool the history grants it, charged, or runs none; a granted sync shim with fitting arguments and calls left does run |
| ToolBridge.ToolBridge.DispatchAsync | src/runtime/ops.rs:330-385 | an async shim the history grants, with fitting arguments and an event loop, leaves exactly one coroutine behind; nothing else does |
| ToolBridge.ToolBridge.RunCoroutine | python/peno/_tools.py:272-275 | an awaited coroutine runs its tool, charged, while calls are left, and is gone either way |
| ToolBridge.AwaitedToolRuns | python/peno/_tools.py:272-275 | an async tool that the guest may call and that is awaited runs once and is charged once |
| ToolBridge.ToolBridge.Attach | python/peno/_tools.py:290-313 | succeeds if and only if every bind finds a token and its script runs; then every tool's shim is exposed under a token of its own, in order; the bridge ends up holding a token for every exposed way into its shims, also when binding fails half-way |
| ToolBridge.ToolBridge.Detach | python/peno/_tools.py:315-329 | every held token is revoked, the result counts those still registered, and no exposed token leads to a shim any more |
| ToolBridge.ToolBridge.RunGuest | python/peno/_tools.py:239-286 | over any sequence of guest calls and event-loop turns, exactly the tools that the history of capabilities grants run, each charged, within the budget; after a detach only coroutines already made can still run a tool |
| IsolatePool.WorkerLoop | src/runtime/pool.rs:161-183 | a worker answers every eval of a well-shaped channel, in order, and what its heap still holds is what the channel says |
| IsolatePool.EvalKeepsSeparated | src/runtime/pool.rs:302-308 | evals of different checkouts always have a reclaim between them |
| IsolatePool.CheckedOutKeeps | src/runtime/pool.rs:262-274 | a checkout hands out the longest-idle worker or a new one, to nobody else |
| IsolatePool.ReleasedKeeps | src/runtime/pool.rs:312-327 | a release queues the worker behind a reclaim or shuts it down, and changes no other checkout |
| IsolatePool.ReleasedGoesWhereThereIsRoom | src/runtime/pool.rs:312-327 | while there is room a released worker waits last in the queue behind a reclaim; when there is none it is shut down; nobody else's channel changes |
| IsolatePool.EveryWorkerIsAccountedFor | src/runtime/pool.rs:223-333 | every worker is in exactly one of idle, held and shut down; an idle one is clean; nothing follows a shutdown |
| IsolatePool.PoolIsConserved | src/runtime/pool.rs:241-333 | over every sequence of checkouts, evals, releases and closes from a fresh pool: the invariant holds, so no worker is ever lost, shared or used after its shutdown |
| IsolatePool.ReleasedAfterCloseIsQueued | src/runtime/pool.rs:276-285 | after a close, a released isolate is queued again |
| IsolatePool.Pool.Checkout | src/runtime/pool.rs:262-274 | the queue is popped at the front or a worker is spawned, keeping the pool's invariant |
| IsolatePool.Pool.Close | src/runtime/pool.rs:279-285 | every idle worker is shut down, in order, and every checkout keeps its worker |
| IsolatePool.PooledIsolate.SendEval | src/runtime/pool.rs:302-308 | one eval goes to the held worker; a released isolate refuses |
| IsolatePool.PooledIsolate.Release | src/runtime/pool.rs:312-327 | idempotent; the queue never grows past its limit |
| Streams.ChunkRoundTrip | src/runtime/stream.rs:76-137 | a chunk survives its value form, whatever it carries |
| Streams.ReadResultIsAChunk | src/runtime/stream.rs:90-137 | a reader's own result object is a chunk too |
| Streams.TextFlagIsRead | src/runtime/stream.rs:90-137 | a done flag given as the text true or false is read exactly where no chunk tag is present |
| Streams.OpenedBalances | src/runtime/stream.rs:344-359 | registering a stream keeps the books, with an id never used before; the handle has yet to track it |
| Streams.AnnouncedBalances | src/runtime/stream.rs:391-398 | announcing a removed entry keeps the books; with `RemovedBalances`, each removal is announced at most once |
| Streams.RemovedBalances | src/runtime/stream.rs:391-398 | removing an entry keeps the books, before its announcement |
| Streams.HistoriesBalance | src/runtime/stream.rs:344-398 | over every interleaving of registering, tracking, removing, announcing and untracking, every id issued is live, on its way out or announced exactly once, and the counters agree |
| Streams.DeadIdsWereTrackedTooLate | src/runtime/handle.rs:707-717 | over every such interleaving a tracked id is dead if and only if its release was announced before the handle tracked it |
| Streams.CancelledBeforeTracked | src/runtime/handle.rs:707-717 | such an interleaving exists: a stream cancelled between its registration and its tracking stays tracked |
| Streams.PyStreamRegistry.PullNext | src/runtime/stream.rs:361-378 | the iterator's next outcome, exactly the bytes of a byte chunk counted, the stream released at its end |
| Streams.PyStreamRegistry.RemoveEntry | src/runtime/stream.rs:391-398 | the listener is called exactly when the entry was still there |
| Streams.PyStreamRegistry.DrainTracked | src/runtime/handle.rs:954-957 | the ids handed back are the tracked ones, and each is live unless it was tracked too late |
| Streams.JsStreamRegistry.UpdateStatsAfterChunk | src/runtime/stream.rs:275-286 | a live stream's own chunk and byte counts and the total grow by the chunk, saturating; no other stream changes |
| StreamReader.ChunkArrives | src/runtime/ops.rs:547-555 | a chunk arrives in the guest with its own done flag and the revived form of its value |
| StreamReader.PenoReadableStream.Read | src/runtime/ops.rs:744-773 | one read gives the iterator's next outcome; a failed pull leaves the stream open |
| StreamReader.PenoReadableStream.ReadMany | src/runtime/ops.rs:786-806 | reads see the iterator's outcomes in order, once each, and then done for ever |
| TextCodec.EncodeText | examples/arrow_ipc_dataframes.py:81-98 | the encoder's loop computes the encoding |
| TextCodec.DecodeText | examples/arrow_ipc_dataframes.py:57-76 | the decoder's loop computes the decoding, bytes past the end read as zero bits |
| TextCodec.PointComesBack | examples/arrow_ipc_dataframes.py:55-99 | each encoded code point is read back from the front of any byte string |
| TextCodec.RoundTripIffPaired | examples/arrow_ipc_dataframes.py:55-99 | decoding the encoding gives the string back if and only if every lead surrogate that something follows is followed by a trail surrogate |
| TextCodec.EncodesToUtf8 | examples/arrow_ipc_dataframes.py:79-99 | on the UTF-16 form of a text (section 2.1 of RFC 2781) the bytes are its UTF-8 form (section 3 of RFC 3629) |
| TextCodec.DecodesUtf8 | examples/arrow_ipc_dataframes.py:55-77 | on the UTF-8 form of a text the units are its UTF-16 form |

## Where the code and its comments disagree

- `IsolatePool.close` is documented to leave checked-out isolates to shut themselves down; the
  code queues them again, because the emptied queue has room (`ReleasedAfterCloseIsQueued`).
- A handle installs a release listener to drop the ids of streams that are gone
  (`src/runtime/handle.rs:101-110`); registering and tracking are two steps under two locks, and
  a cancel between them leaves a dead id tracked
  (`CancelledBeforeTracked`, and `DeadIdsWereTrackedTooLate` for exactly when).

## Left out

- V8, deno_core, tokio and the GIL: outcomes of V8 calls, promises, `poll_event_loop` and wakes are arbitrary inputs; jobs are values because each box has one owner.
- Error texts: the search for "execution terminated" is a flag on the error, and a timeout records which clock produced it.
- Values and reasons: what a promise delivers is a token, since reading it is the codec's part; the reason a timeout stores is one fixed text, without its call and milliseconds.
- Watchdogs of jobs inside the dispatcher: whether a completed job's watchdog had fired is an input there; the race itself is the `Watchdog` model. A cancelled job may so be answered with a timeout.
- HandleCommand: the commands that are served on the spot are one case; what they answer is not in the contract.
- FreshRunsMeetDeadlines: is stated for runs in which the runtime thread's steps take no time, since a slow script can always overrun; after a shutdown nothing is promised to a job that is due.
- DrainsWithoutTick: exhibits the run that ends the work; fairness of the scheduler is not modelled.
- The second `terminate()` caller, `close()` and a V8 termination still pending after a job's own deadline: nothing is claimed about them.
- The guest-to-host route (`prepare`, `value_to_js_value_internal`) and the function registry: it repeats the graph conversion with identity hashes.
- Floating point: finite doubles are reals, so rounding, the sign of zero and the float seconds between dates and Python datetimes are not modelled.
- ParsesExactlyNumerals: a leading plus sign and underscores, which num-bigint also accepts, and the hexadecimal and blank forms JavaScript's `BigInt` accepts, are not modelled, so decoding refuses them here.
- JavaScript's reordering of integer-like keys, `__proto__` during materialization, and serde_v8's own number encodings beyond the safe-integer split.
- RoutesAgreeExactly: covers values without functions and JavaScript streams and with integers of magnitude below 2^53, where serde_v8 keeps a number a number.
- ComesBackIffPlain: sets are excluded because a Python set has no order of its own.
- Python values whose conversion runs code (stream sources and function proxies that have been closed, `__iter__` of subclasses): a leaf converts or is unsupported.
- Depth counters at the very top of their machine word: the counter is then not restored, which the contracts say (`Budget.Spent`).
- RegisterOp: the random source is a list of draws; a list that runs dry stands for the loop going on.
- Opened: an entry and its counters appear in one step; removing an entry and announcing it, and registering and tracking, are two steps each.
- A bind's script is an outcome only: guest calls it makes while it runs are guest calls like any other.
- ToolBridge: a bridge attached to one runtime; several runtimes at once are not modelled.
- PullNext: a pull is one step; two pulls of one stream overlapping each other, or a release in the middle of one, are not interleaved.
- HistoriesBalance: holds until the 32-bit stream ids wrap; after that nothing is claimed about ids and active counts.
- PendingCallTable: ids are distinct until the 64-bit counter wraps.
- Read: overlapping reads on the polyfill are not modelled; nor is a script that calls the controller itself.
- UTF-16 shifts and masks are written as division and remainder; the `input.buffer` forms of the decoder's argument are not modelled.
- Module loading, the inspector, snapshots, statistics rendering, heap headroom, configuration and the command line: thin wrappers with nothing to prove.
