# SimBridge, modelled and proved in Dafny

SimBridge joins a GSM modem, Asterisk and Telegram. This project models the parts of it whose
correctness depends on interleaving, history or exact text, and proves what they promise.

How the project is built:

- Every component is written twice. A **value model** (datatypes and functions) says what one step
  does; **methods and classes** follow the program's loops and field updates, and their `ensures`
  equate the object's `View()` after the call with the value model applied to the `View()` before.
  What the program promises over whole runs is then proved about the value model.
- What a value model computes is also stated without it: by what happened before (`CallExpiry`,
  `ModemHistory` and `SmsReports`, over `History`), or by a printer of its own whose output is read back
  (`AmiReplies`, `SipFrames`, `YamlDocuments`).
- **Call control** (`Calls`, `Modems`, `ModemHistory`, `Registry`, `Switchboard`, `CallSafety`,
  `CallTheorems`, `CallHandlers`, `CallTimeouts`, `CallExpiry`, `CallControl`, `Routes`). An HTTP handler is cut at each `await`: it runs up
  to the next one, parks as a task, and anything may happen before it resumes: other handlers, device
  reports, clock ticks, and the second half of a modem release. `Switchboard.World` is the whole
  state, `Switchboard.Next` one event, and `CallSafety.Inv` the invariant that every event keeps.
  `Routes` has the handlers as methods over the registry class, with their status codes: each
  method is one event of the switchboard followed by the completion of the releases it began
  (`Quiet`), and a parked handler is resumed by `ResumeTask`.
- **AMI client** (`AmiStream`, `AmiPoll`, `AmiReplies`, `AmiWire`, `Recovery`). The shared stream as a set of
  coroutines each standing at one await; the drain loop over a queue of messages; the line protocol
  as characters; the reconnect loop and the task that starts it.
- **Stores and windows** (`SmsCorrelation`, `SmsReports`, `Phone`, `Blacklist`, `Windows`).
- **Text cores** (`SipFraming` and `SipFrames`; `YamlPatch`, `YamlFields` and `YamlDocuments` over
  `TextLines`).
- `Options`, `Ordering`, `Text` and `History` hold the notions the others share.

Findings where the code and the expectation differ; the model follows the code:

- The counter of incoming timeouts is never incremented by any transition, so it stays 0 in every
  run (`CallTheorems.MetricsConserved`).
- A destination that starts with 8 and has 12 to 15 digits is accepted as an external number but
  normalizes differently: the two agree exactly at 11 digits (`Phone.EightFormsAgree`; one such number
  in `Phone.TwelveDigitsDisagree`).
- The first wait of the backoff loop is not capped, so the documented formula holds for all waits
  exactly when the minimum is not above the maximum (`Recovery.WaitsFollowFormula`; one such policy in
  `Recovery.FirstWaitNotCapped`).
- The SMS log is appended to without a look at its end. Behind a half-written last line the next record
  is glued to it and both are lost on reload; a run survives every crash exactly when the log ended in a
  line break, or nothing was written, or the glued line held nothing new
  (`SmsCorrelation.CrashReplayExactly`; the smallest such log in `SmsCorrelation.TornLogExample`). A
  crash that tears a character makes the log unloadable, and nothing else does
  (`SmsCorrelation.CrashInsideAppend`).
- A patched field is read back unchanged exactly when its value has no line separator of any kind and
  was quoted, or is trimmed and not itself in quotes; that is for a line that ends in a newline or is
  the last (`YamlPatch.ReadBackUsual`, one failing value in `YamlPatch.CarriageReturnCuts`).
- A patch writes a line break back only if it was a newline. Behind any other separator (a form feed,
  say) the next line runs into the patched one. Line count, idempotence, read-back, the reading of other
  fields and the order of two patches each have their exact condition (`YamlPatch.LineCountKept`,
  `YamlPatch.LastPatchWins`, `YamlPatch.ReadBack`, `YamlFields.OtherFieldsReadSame`,
  `YamlFields.PatchesCommute`); one text where a field is lost and the order matters is in
  `YamlFields.FieldEaten` and `YamlFields.OrderMatters`.
- A blacklist write that fails leaves the manager's cache ahead of the file; that manager then answers as
  the file does exactly when the file has changed since, and its next successful write carries the
  failed change into the file (`Blacklist.FailedWrite`, `Blacklist.AheadAnswers`,
  `Blacklist.PhantomWritten`).

## Model

| member | source | states |
|---|---|---|
| Calls.RankRises | core/call_control.py:88-156 | every allowed transition of either table strictly raises a rank bounded by 7 (incoming) and 11 (outgoing) |
| Calls.TrailClimbs | core/call_control.py:88-156 | along any life of a call the rank grows by at least one per transition |
| Calls.TrailBounded | core/call_control.py:88-156 | no life makes more than 7 or 11 transitions or enters a state twice, and both bounds are reached |
| Calls.AfterOutcome | core/call_control.py:338-371 | after a state that counts as an outcome only HUNG_UP and CLEANUP can follow |
| Calls.AtMostOneOutcome | core/call_control.py:338-371 | no call contributes to two outcome counters, or twice to one |
| Calls.NoStepSkipped | core/call_control.py:88-156 | a life that stands on the way to the bridge went through all the earlier steps of the way, in order and through nothing else |
| Calls.EndsFrom | core/call_control.py:88-156 | for each way of ending the exact states it is open from, in either direction |
| Calls.TerminalExactly | core/call_control.py:146-156 | a state counts as ended exactly when nothing but hanging up and cleaning up can follow, the bridged state excepted |
| Modems.ReadyExactlyWhenIdle | core/modem.py:270-290 | READY is derived exactly for a registered, error-free modem with both activity flags down; a stored READY implies no call |
| Modems.PollerNeverFreesACall | core/modem.py:218-268 | no device report and no disappearance makes a modem on a call selectable |
| ModemHistory.RecordsLastWords | core/modem.py:218-268 | after any run of reports, disappearances and flag changes each field is what the last of them that speaks of it said; a report without an optional field is silent, a disappearance withdraws it |
| ModemHistory.ReadyByHistory | core/modem.py:218-290 | READY if and only if the last report or disappearance was a report that said registered, no error stands, and the last change of either activity flag was down |
| ModemHistory.SelectableByHistory | core/modem.py:509-520 | the pool offers a modem if and only if it is unreserved and that holds |
| ModemHistory.SignalByHistory | core/modem.py:218-268 | the signal is the last one reported since the modem was last gone, or none |
| ModemHistory.OperatorByHistory | core/modem.py:218-268 | so is the operator |
| ModemHistory.StateByHistory | core/modem.py:270-290 | on a positive clock, from the same events, exactly when each other state holds |
| Modems.RoundRobinFair | core/modem.py:350-370 | over any number m of requests that see the same n modems, in whatever order each listing shows them, each modem is chosen floor(m/n) or ceil(m/n) times |
| Modems.HitsSpread | core/modem.py:359-370 | the counter modulo n falls on each position floor(k/n) to ceil(k/n) times in any k consecutive turns, from any counter value |
| Modems.TurnsCount | core/modem.py:359-370 | how often a modem is chosen is how often the counter falls on its sorted position |
| Modems.PermutationsShowOrder | core/modem.py:359-370 | listings that are permutations of one another sort to the same order, so position means modem |
| Ordering.LeqIsLexical | core/modem.py:350-370 | ids are ordered by the first character in which they differ, a prefix first |
| Modems.Provider.UpdateState | core/modem.py:218-239 | a known modem takes the report, a lost registration included, and re-derives its state, which is one more event of `ModemHistory.ReadyByHistory`; an unknown one changes nothing |
| Modems.Provider.SetCallActive | core/modem.py:249-255 | only the call flag and the derived state change |
| Modems.Provider.SetSmsActive | core/modem.py:241-247 | only the SMS flag and the derived state change |
| Modems.Provider.MarkOffline | core/modem.py:257-268 | the report fields are cleared and the activity flags kept |
| Modems.Strategy.Select | core/modem.py:334-370 | picks the least id, or the counter's turn in sorted order; `None` exactly for an empty list |
| Modems.ModemPool.GetAvailable | core/modem.py:509-520 | lists each unreserved READY modem once and nothing else |
| Modems.ModemPool.SelectForCall | core/modem.py:478-492 | fails exactly when no modem is available; otherwise reserves an available one and raises its call flag, touching no other |
| Modems.ModemPool.Release | core/modem.py:494-498 | drops the reservation and clears the flag of that modem only |
| Modems.ModemPool.IsAllOffline | core/modem.py:452-461 | true exactly when every modem is OFFLINE |
| CallControl.MetricsCollector.RecordAnsweredDuration | core/metrics.py:139-148 | only a positive duration is accumulated and counted |
| CallControl.CallMachine.Transition | core/call_control.py:220-255 | moves exactly along the direction's table, stamping the entry time of every state (`CallExpiry.SinceIsEntry`) and counting metrics; a refusal changes nothing |
| CallControl.CallMachine.MetricsHook | core/call_control.py:338-371 | the counter that goes with the state just entered, and the bridged duration on HUNG_UP |
| CallControl.CallRegistry.Transition | core/call_control.py:501-511 | answers whether the call is known and the table allows it; no other call, no modem changes |
| CallControl.CallRegistry.CleanUp | core/call_control.py:513-526 | pops the call and gives back its modem; a second cleanup changes nothing |
| CallControl.CallRegistry.CreateOutgoing | core/call_control.py:408-495 | fails exactly when a modem is needed and none is free, changing nothing; otherwise reserves one and enrols the call |
| CallControl.CallRegistry.CreateIncoming | core/call_control.py:373-406 | enrols a ringing call that holds no modem |
| CallControl.CallRegistry.FastForwardBridged | core/call_control.py:601-627 | runs the rest of the answer chain from wherever the call stands, and reports whether it is bridged |
| CallControl.CallRegistry.GetTimedOutCalls | core/call_control.py:725-774 | returns, each once, exactly the calls that ring for longer than the ring limit, wait for their user for longer than the Telegram limit, or are bridged for longer than the call limit |
| CallControl.ChainIsFastForward | core/call_control.py:601-627 | the loop over the step table is the four conditional steps in order |
| CallSafety.ReserveConserves | core/call_control.py:408-495 | a new reservation keeps reservations and modem-holding calls equal, and no two calls share a modem |
| CallSafety.VacateConserves | core/modem.py:494-498 | the first half of a release keeps them equal and leaves the modem unselectable |
| CallSafety.SettleConserves | core/modem.py:494-498 | the second half of a release keeps them equal |
| CallSafety.MoveTallied | core/call_control.py:338-371 | an allowed transition keeps each counter equal to the number of calls with that outcome |
| CallSafety.HangupFinishInv | agent/routes.py:834-873 | a handler that finishes a hangup after its awaits keeps the invariant, whatever happened meanwhile |
| CallSafety.RecordInv | agent/routes.py:955-1010 | recording a failed dial and waiting to notify the user keeps the invariant; the call now has one handler bound to remove it |
| CallSafety.DischargeInv | agent/routes.py:955-1010 | the cleanup after that wait pops exactly that call and keeps the invariant |
| CallSafety.SweepInv | agent/routes.py:1352-1407 | every part of a timeout pass keeps the invariant |
| CallSafety.ResumeInv | agent/routes.py:834-1042 | resuming any parked handler keeps the invariant |
| CallSafety.CompletedInv | agent/routes.py:819-1044 | an outcome report, up to its first await, keeps the invariant |
| CallSafety.AcceptedInv | agent/routes.py:757-805 | accepting the only pending outgoing call keeps the invariant |
| CallSafety.DeviceInv | core/modem.py:218-268 | a poller step between any two other steps keeps the invariant |
| CallSafety.NextInv | agent/routes.py:613-1409 | every event keeps the invariant |
| CallSafety.RunInv | agent/routes.py:613-1409 | the invariant holds in every reachable state |
| Routes.QuietByFinishing | core/modem.py:494-498 | completing the releases under way is a run of release events, so the invariant also holds after it |
| Routes.HandlerInv | agent/routes.py:613-1409 | what any handler method leaves behind satisfies the invariant |
| Routes.SweepQuiet | agent/routes.py:1352-1407 | a pass that completes each release on the spot ends where one that leaves them for later ends once they are done |
| Routes.CallRoutes.CallIncoming | agent/routes.py:613-650 | enrols the call and lets it ring, as one event |
| Routes.CallRoutes.CallOutgoing | agent/routes.py:728-748 | 503 if and only if a modem is needed and none can be had, changing nothing; otherwise the new call is ringing the user |
| Routes.CallRoutes.CallOutgoingAccepted | agent/routes.py:757-805 | 404 exactly without a pending outgoing call; 200 exactly with one, which is then dialling; several change nothing |
| Routes.CallRoutes.CallTransition | agent/routes.py:1047-1177 | 404 for an unknown call, 409 for a transition its table refuses, changing nothing either way; otherwise that transition |
| Routes.CallRoutes.CallAnswerGsm | agent/routes.py:1087-1138 | fails whenever a GSM channel is recorded, otherwise the transition |
| Routes.CallRoutes.CallSetBridgeLeg | agent/routes.py:1179-1191 | records the channel, 404 exactly for an unknown call |
| Routes.CallRoutes.CallSetGsmChannel | agent/routes.py:1305-1318 | records the channel, 404 exactly for an unknown call |
| Routes.CallRoutes.CallReject | agent/routes.py:1193-1222 | closes the call and gives back its modem exactly when its table allows a rejection |
| Routes.CallRoutes.CallHangup | agent/routes.py:1224-1273 | waits exactly when a channel is up, otherwise hangs up and closes if the table allows it |
| Routes.CallRoutes.CompleteIncoming | agent/routes.py:876-953 | for each status the answer and the event's effect |
| Routes.CallRoutes.CompleteOutgoing | agent/routes.py:956-1042 | for each status whether it waits, is refused or succeeds, and the event's effect |
| Routes.CallRoutes.CallComplete | agent/routes.py:818-1044 | for every state and status whether the answer is 404, 409, 200 or comes after an await; the effect is the report event up to its first await |
| Routes.RefusedChangesNothing | agent/routes.py:818-1044 | in every state of the invariant a report is answered 404 or 409 if and only if it changes nothing |
| Routes.AnswerMeans | agent/routes.py:818-1044 | the answer from the effect: 404 exactly without a live call, an await exactly where a channel is hung up or a failed dial is told, otherwise 200 exactly when the report moves the call and 409 when not |
| Routes.WhoCanBridge | core/call_control.py:601-627 | an incoming answer report succeeds exactly from the four source states |
| Routes.CallRoutes.CallCheckTimeouts | agent/routes.py:1321-1409 | takes exactly the calls overdue now and runs the pass over them up to its first await |
| Routes.CallRoutes.Pass | agent/routes.py:1352-1407 | the loop, releases and parking included, does what the sweep of the model does |
| Routes.CallRoutes.ResumeTask | agent/routes.py:843-873 | a returned await is the resume event: one wait less, or the finish and the rest of the pass |
| CallTheorems.PoolReservationsConserved | core/call_control.py:408-526 | in every reachable state the reserved modems are exactly those of live outgoing calls holding one, no two calls share one, and a modem whose release is half done cannot be selected |
| CallTheorems.CounterConserved | core/call_control.py:408-526 | without a pool the counter equals the number of calls holding the modem and is at most 1 |
| CallTheorems.LateReleaseHarmless | core/modem.py:494-498 | however late the second half of a release runs, it never changes the modem of a live call |
| CallTheorems.ReleasedExactlyOnce | core/call_control.py:513-526 | in every reachable state a live call was never released, a closed one exactly once if it held a modem |
| CallTheorems.NoLeakedCalls | agent/routes.py:834-1042 | an ended call still in the registry has exactly one parked handler bound to remove it; with none parked there is none |
| CallTheorems.LateHandlerHarmless | agent/routes.py:834-873 | a handler whose call another one closed leaves that call alone: it goes on waiting, or goes on with the rest of its pass |
| CallTheorems.ClosedStaysClosed | agent/routes.py:826-838 | repeated reports, hangups, rejections and bridgings of a closed call change nothing |
| CallTheorems.OutcomesPartition | core/metrics.py:112-148 | the six outcomes partition the calls that have one |
| CallTheorems.MetricsConserved | core/metrics.py:112-148 | in every reachable state the outcome counters sum to the calls with an outcome, answered calls are those bridged now plus those that left the bridge, and the seconds and the number of durations are the sum and the number of the finished conversations |
| CallHandlers.SettleHangup | agent/routes.py:843-873 | a handler waiting for one or two hangups, undisturbed, ends where its finish leads |
| CallHandlers.FastForwardReaches | core/call_control.py:601-627 | fast-forward bridges a call from each of its four source states, and changes nothing from the others |
| CallHandlers.CompleteEffect | agent/routes.py:819-1044 | for each direction, state and status: the report is refused and changes nothing, or leaves exactly that call in the stated state, closed with its modem given back if the state is terminal |
| CallHandlers.HangupEffect | agent/routes.py:1224-1273 | a hangup, awaits included, closes exactly a call in one of nine states and gives back its modem; from any other state it changes nothing |
| CallHandlers.RejectEffect | agent/routes.py:1193-1222 | a rejection closes exactly a call that is ringing or waits for its user |
| CallHandlers.AcceptEffect | agent/routes.py:757-805 | the accept takes the only outgoing call that has its modem or rings its user to its GSM dial, notes the channel and touches no other; with none or several such calls nothing changes |
| CallHandlers.OpenEffect | agent/routes.py:652-755 | a new outgoing call rings its user with a modem no other call holds; without a free modem nothing changes; an internal call takes none |
| CallHandlers.RangEffect | agent/routes.py:613-650 | a new incoming call rings its user on the channel it came in on, takes no modem and touches nothing else |
| CallHandlers.StepEffect | agent/routes.py:1047-1177 | each single step moves a call exactly from the state before it; answering by hand needs a call without a GSM channel |
| CallHandlers.EveryLegHungUp | agent/routes.py:1179-1318 | the two channel reports record one channel each; a hangup then waits for exactly as many answers as channels are recorded |
| CallTimeouts.SweepIsExpiry | agent/routes.py:1352-1407 | the pass with all its awaits does what closing each call on the spot would do |
| CallTimeouts.ExpiredAllCloses | agent/routes.py:1352-1407 | closing them one by one closes exactly those calls in their closing states, gives back exactly their modems, counts exactly their outcomes and talk times |
| CallTimeouts.TimeoutPass | agent/routes.py:1321-1409 | an undisturbed pass closes exactly the overdue calls; the reserved modems lose exactly theirs, to be made selectable by the second halves of their releases (or the counter goes down by as many), the counters gain exactly their outcomes and talk times, all else stays, the invariant holds, and a second pass at the same time does nothing |
| CallExpiry.NextTimed | core/call_control.py:220-255 | every event leaves each record in its state with its entry time, or moves it up its table and stamps the current time |
| CallExpiry.SinceIsEntry | core/call_control.py:220-255 | after any run a call's recorded time is the time of the event that brought it into its state |
| CallExpiry.EntryExists | core/call_control.py:220-255 | every live call was brought into its state by some event of the run |
| CallExpiry.ExpiresByAge | core/call_control.py:725-774 | after any run an undisturbed pass closes a call if and only if the event that brought it into its state lies further back than the one limit of that state, whatever the other two are, in that limit's closing state and with the time of the pass; every other call keeps its record |
| CallExpiry.BridgedSinceEntry | core/call_control.py:238-240 | a bridged call's bridging time is the time of the event that bridged it |
| AmiStream.NextInv | agent/ami_client.py:88-161 | every step of every coroutine, timeout and cancellation included, keeps the stream invariant |
| AmiStream.RunInv | agent/ami_client.py:88-161 | the stream invariant holds in every reachable state |
| AmiStream.OneReaderAndNoHalfOpenSocket | agent/ami_client.py:88-161 | at most one coroutine reads; with the lock free the streams are both absent or both present and logged in |
| AmiStream.NoCommandBeforeLogin | agent/ami_client.py:463-485 | every command went out on a stream whose login had been sent and accepted before |
| AmiStream.ConnectRuns | agent/ami_client.py:88-132 | a connection attempt that finds the lock free opens one stream and logs in on it; the client has that stream exactly if the login is accepted, and the lock is free again |
| AmiStream.CommandRuns | agent/ami_client.py:463-515 | a command that finds the lock free goes out once and keeps the stream, unless its answer is late: then the stream is given up |
| AmiStream.CommandRefused | agent/ami_client.py:463-485 | without a stream or with a line break in a field nothing is sent and nothing changes |
| AmiStream.FailureReleases | agent/ami_client.py:88-161 | an await that fails, wherever the lock's holder stands, frees the lock |
| AmiStream.WhatDrops | agent/ami_client.py:88-161 | a stream is given up by a close, a failure before its login is accepted or a late answer, and by nothing else |
| AmiStream.CloseRuns | agent/ami_client.py:134-144 | a close gives the streams up and frees the lock; while another holds the lock it waits |
| AmiStream.AMIClient.AcquireLock | agent/ami_client.py:88-161 | the code behind the lock up to the first await is the model's step |
| AmiStream.AMIClient.LoginReadDone | agent/ami_client.py:110-132 | a refused, broken or cancelled login drops both streams |
| AmiStream.AMIClient.CommandReadDone | agent/ami_client.py:487-515 | only a timeout drops the streams |
| AmiPoll.GetModemStatus | agent/ami_client.py:228-342 | the drain loop computes `Poll` (entry, messages consumed, reason to stop), and the answer is empty exactly without an entry, otherwise what `AmiReplies.PollTells` says of it |
| AmiPoll.PercentScale | agent/ami_client.py:321-330 | the signal scale is monotone, nearest to the exact percentage, and reaches 0 and 100 exactly at its ends |
| AmiReplies.SignedReadsBack | agent/ami_client.py:321-327 | a printed decimal number, negative ones included, parses to itself |
| AmiReplies.EntryTells | agent/ami_client.py:316-338 | an entry printed for a modem normalizes to its device, registered exactly for the home network and roaming, the percentage of the dBm before the comma or none, the operator if named, and the last four characters of the IMEI or all of a shorter one |
| AmiReplies.Kinds | agent/ami_client.py:297-314 | entry, list end or remark by what the title contains, and an entry also by its two fields |
| AmiReplies.PollTells | agent/ami_client.py:228-338 | a poll that fits in the cap reports exactly the modem its answer shows first, whatever stands before the answer and whatever remarks and entries are in it; no modem exactly for an answer without an entry |
| AmiReplies.DriverPoll | agent/ami_client.py:168-181 | so for the acknowledgement, entry and terminator as the driver words them |
| AmiPoll.PollResynchronises | agent/ami_client.py:246-295 | whatever is queued before its reply, a poll that fits in the cap returns its own first device entry and stops right behind its own terminator |
| AmiPoll.LeftoversForeign | agent/ami_client.py:246-295 | what earlier polls and events leave behind never carries a later poll's action id |
| AmiPoll.EveryFittingPollIsExact | agent/ami_client.py:44-295 | in any run, after any number of cap hits and improper replies, each poll with a proper reply that fits is exact and leaves nothing behind |
| AmiWire.SendAction | agent/ami_client.py:463-485 | refused exactly without a connection, then exactly when some value has a line break; otherwise the bytes of one message |
| AmiWire.ReadResponse | agent/ami_client.py:487-515 | the header loop computes `Read` on the waiting stream |
| AmiWire.ReadPrinted | agent/ami_client.py:463-515 | reading a printed message consumes exactly it, whatever follows |
| AmiWire.WireRoundTrip | agent/ami_client.py:463-515 | any list of actions, written back to back, reads as those maps in order with nothing left |
| AmiWire.HeaderRead | agent/ami_client.py:487-515 | a header line with any blanks and either line end sets its key to its value |
| AmiWire.OtherLinesRead | agent/ami_client.py:487-515 | a line without a colon says nothing; an empty line of either kind or the end of the stream ends the message |
| AmiWire.PrintsLines | agent/ami_client.py:463-485 | each field is printed behind the earlier ones as a line of its own |
| AmiWire.FlattenRun | agent/ami_client.py:208-213 | each maximal run of line breaks becomes one space and nothing else changes |
| AmiWire.FlattenOneLine | agent/ami_client.py:208-213 | a flattened text has no line break |
| AmiWire.SmsIsOneMessage | agent/ami_client.py:183-226 | whatever the text, an SMS action is exactly one message, and the driver reads exactly the modem, the recipient, the flattened text up to edge whitespace, the validity, the wish for a report, the action id and the payload if one was given |
| Recovery.WaitsFollowFormula | core/recovery.py:76-112 | the waits are min(min·2^(k-1), max) for every k if and only if min is not above max |
| Recovery.FirstWaitNotCapped | core/recovery.py:76-112 | a policy whose first wait is above its maximum |
| Recovery.RetryLoop | core/recovery.py:74-112 | at most max(1, max_retries) attempts, the k-th wait as given, none after the last attempt; without a stop it gives up, once, exactly when every attempt failed; with a stop anywhere what had happened until then |
| Recovery.NextInv | core/recovery.py:64-118 | every step of every task, stops included, keeps: one loop at work, each within its budget, the shared flag up exactly while one is at work and not stopped |
| Recovery.OneLoopAtATime | agent/ami_reconnect.py:55-60 | in any interleaving of kicks, starts, stops and loop steps two loops are never at work together, and each that is not stopped gives up once exactly when it ends without success |
| Recovery.EpisodeStaysAlone | agent/ami_reconnect.py:55-60 | while a loop is at work any number of kicks and starts begins no other |
| Recovery.KickStartsLoop | agent/ami_reconnect.py:55-60 | a kick with nothing in flight leads to a new loop |
| Recovery.BackoffReconnector.Start | core/recovery.py:64-72 | begins a loop exactly when none is in flight |
| Recovery.BackoffReconnector.StopLoop | core/recovery.py:114-118 | lowers the flag and asks a loop at work to end |
| Recovery.AMIReconnect.Kick | agent/ami_reconnect.py:55-60 | makes a task exactly when none is in flight |
| SmsCorrelation.SMSCorrelationStore.Open | core/sms_correlation.py:66-103 | fails exactly when the log is not all text; otherwise the store is the replay of the log's readable lines |
| SmsCorrelation.SMSCorrelationStore.CreateRecord | core/sms_correlation.py:123-149 | memory and log take the same new record |
| SmsCorrelation.SMSCorrelationStore.MarkFailed | core/sms_correlation.py:177-198 | memory and log take the same change; an unknown id changes neither |
| SmsCorrelation.SMSCorrelationStore.FindByTelegramMessage | core/sms_correlation.py:200-211 | answers `FoundByMessage` on the values in insertion order |
| SmsCorrelation.SMSCorrelationStore.Recent | core/sms_correlation.py:213-228 | answers `RecentOf` on the values in insertion order, which `SmsReports.RecentExactly` describes |
| SmsCorrelation.SMSCorrelationStore.MatchReport | core/sms_correlation.py:230-261 | answers `Matched` on the values in insertion order, which `SmsReports.ResolvesNewest` and `SmsReports.NamedRussian` describe |
| SmsCorrelation.CrashReplay | core/sms_correlation.py:77-198 | from any log that loads and ends in a line break, damaged lines included, after any creations and marks, reloading gives the map in memory in the same order, so every query answers as before |
| SmsCorrelation.CrashInsideAppend | core/sms_correlation.py:105-117 | a crash inside an append leaves the store from before or after it, unless it tears a character: then, and only then, the log no longer loads |
| SmsCorrelation.CrashReplayExactly | core/sms_correlation.py:77-198 | for every log that loads, a run survives a crash between any two of its changes if and only if the log ended in a line break, nothing was written, or gluing the first record to the rest lost nothing |
| SmsCorrelation.NewMessageBehindRest | core/sms_correlation.py:105-117 | a new message written behind an unfinished line is always lost on reload |
| SmsCorrelation.TornLogExample | core/sms_correlation.py:105-117 | the log of one half-written line swallows the first message |
| SmsCorrelation.SortDescCorrect | core/sms_correlation.py:213-261 | the sort is descending, a permutation and stable |
| SmsCorrelation.ReportMatching | core/sms_correlation.py:230-276 | the match is a submitted, pending record of the modem; one named by the report if there is any (`SmsReports.NamedRussian` says when); the newest of its pool, ties to the first created; none only when no candidate exists |
| SmsCorrelation.FoundIsLatest | core/sms_correlation.py:200-211 | the last created record of that message, `None` only when there is none |
| SmsCorrelation.NoDoubleResolution | agent/routes.py:429-451 | over any run of submissions and reports no SMS is resolved twice, and the resolved ones are exactly those no longer pending |
| SmsReports.NamedRussian | core/sms_correlation.py:251-276 | a number of the digits 7 and d is named by a report if and only if the report's digits hold 7 and d or 8 and d in one piece, however number and report are laid out |
| SmsReports.NamedOther | core/sms_correlation.py:251-276 | any other number is named by its own digits alone, one without digits never |
| SmsReports.OnlyNamed | core/sms_correlation.py:230-261 | the only awaiting message a report names is the one it resolves |
| SmsReports.ResolvesNewest | core/sms_correlation.py:230-261 | of the named awaiting messages of the modem, or of all when none is named, the one sent last is resolved, and of several sent at once the first of the store; none only when nothing awaits |
| SmsReports.ReportSettles | agent/routes.py:429-451 | the message resolved is marked delivered or failed as the report's wording says, and no other message changes |
| SmsReports.RecentExactly | core/sms_correlation.py:213-228 | only messages of the user, newest first, equally new ones in the order of the store, at most the limit; one is left out only when the answer is full of messages that are not older |
| SmsReports.MessageLife | core/sms_correlation.py:123-198 | after any run a message is as created except for its two statuses, two times and error, each what the last mark of this message said of it |
| SmsReports.OrderOfCreation | core/sms_correlation.py:123-198 | the store lists its messages in the order of creation, and no mark moves one |
| Phone.NormalizedCanonical | core/phone.py:29-89 | every normalized number is a plus and 7 to 15 digits |
| Phone.CanonicalFixed | core/phone.py:29-89 | every such number is its own normal form |
| Phone.NormalizeIdempotent | core/phone.py:29-89 | normalizing twice is normalizing once |
| Phone.DestinationsNormalize | core/phone.py:120-146 | every long destination is canonical and a fixed point; short ones normalize to nothing |
| Phone.EightFormsAgree | core/phone.py:120-146 | for numbers starting with 8, destination and normal form agree if and only if there are 11 digits |
| Phone.TwelveDigitsDisagree | core/phone.py:120-146 | a twelve-digit destination starting with 8 that normalizes to another number |
| Phone.NormalizeWritten | core/phone.py:29-89 | whatever is written between the digits: seven to fifteen digits are kept behind a plus sign, except that eleven beginning with 8 and written without a plus sign become the number of country 7; any other count is malformed |
| Phone.NormalizeExample | core/phone.py:29-89 | a number with brackets, blanks and dashes |
| Phone.DestinationForms | core/phone.py:120-146 | the four accepted forms, each with its number and whether it is internal, and nothing else |
| Blacklist.WriteThenLoad | core/blacklist.py:66-162 | loading what was written gives back exactly the numbers written |
| Blacklist.ParseExactly | core/blacklist.py:66-78 | a file lists a number if and only if one of its lines, blanks around it aside, is no comment and writes that number |
| Blacklist.RunFile | core/blacklist.py:50-162 | over any run of operations of several managers and hand edits the file holds the result of applying them to one set: no update is lost |
| Blacklist.Coherence | core/blacklist.py:50-162 | what any manager answers next is membership of the normalized number in the file as it is now |
| Blacklist.FailedWrite | core/blacklist.py:97-123 | a failed block and a failed unblock leave the manager's cache ahead of the file |
| Blacklist.AheadAnswers | core/blacklist.py:50-85 | a manager that is ahead answers as the file does, for all numbers, if and only if the file has changed since |
| Blacklist.PhantomWritten | core/blacklist.py:87-162 | its next successful write puts the change that failed into the file |
| Blacklist.BlacklistManager.MaybeReload | core/blacklist.py:50-78 | afterwards the cache is the file's content and mtime |
| Blacklist.BlacklistManager.IsBlocked | core/blacklist.py:80-85 | membership of the normalized number in the file; false for a malformed one |
| Blacklist.BlacklistManager.BlockNumber | core/blacklist.py:87-105 | true exactly for a new well-formed number; the file then holds the old numbers and it |
| Blacklist.BlacklistManager.UnblockNumber | core/blacklist.py:107-123 | true exactly for a listed number; the file then holds the others |
| Blacklist.BlacklistManager.Write | core/blacklist.py:134-162 | the file holds the sorted numbers under two comment lines, and the cache remembers its mtime |
| Windows.WindowBound | core/ratelimit.py:28-44 | whatever the requests, the rule leaves no half-open interval of the window's length with more than max admissions |
| Windows.RateLimiter.NeverTooMany | core/ratelimit.py:28-44 | the same of the admissions the limiter's pruned buckets have made, at every moment |
| Windows.RateLimiter.RefusedWhenFull | core/ratelimit.py:28-44 | a request is refused only when max admissions lie in the window ending now |
| Windows.RateLimiter.Allow | core/ratelimit.py:28-44 | the pruned bucket decides exactly what the full history of admissions demands |
| Windows.RateLimiter.Remaining | core/ratelimit.py:46-54 | max minus the admissions in the window, positive exactly when a request would be admitted |
| Windows.KeptAsked | core/ratelimit.py:28-54 | pruning at any request forgets nothing that any later cutoff needs, and the admissions stay those of the rule |
| Windows.PruneRemembers | agent/deps.py:130-136 | pruning the shared table keeps every id accepted within the window |
| Windows.ReplayGuard.CheckReplay | agent/deps.py:123-141 | rejected exactly when the same id was accepted within the window |
| Windows.GuardedSpaced | agent/deps.py:123-141 | over any run the rule accepts no id twice within the window; `ReplayGuard.CheckReplay` keeps the pruned table's acceptances equal to the rule's |
| SipFraming.BytesConserved | scripts/e2e_sip_probe.py:204-218 | emitted messages followed by the buffer are the bytes put in, and the buffer holds no complete message |
| SipFraming.FirstMessageStable | scripts/e2e_sip_probe.py:204-218 | a complete message stays the same when more bytes follow |
| SipFraming.ExtractResumes | scripts/e2e_sip_probe.py:204-218 | extracting now and again later gives what extracting once gives |
| SipFraming.ChunkIndependent | scripts/e2e_sip_probe.py:204-236 | any split of the stream gives the messages and the rest of the whole stream |
| SipFraming.SameStreamSameMessages | scripts/e2e_sip_probe.py:204-236 | two splits of one stream give the same messages and the same rest |
| SipFraming.Probe.ExtractSip | scripts/e2e_sip_probe.py:204-218 | the loop terminates and computes `Extract` on the buffer, which is the messages sent (`SipFrames.FramesRoundTrip`) |
| SipFrames.AnnouncedBody | scripts/e2e_sip_probe.py:211-212 | the body length is the number behind the first header of that name that has one, in any letter case and behind any blanks; without one it is 0 |
| SipFrames.FramesRoundTrip | scripts/e2e_sip_probe.py:204-218 | any messages printed one after another come out exactly as they are and in order, and an unfinished rest stays behind |
| SipFrames.FramesFromChunks | scripts/e2e_sip_probe.py:204-236 | so they do when the bytes arrive in any chunks |
| TextLines.LinesJoin | scripts/modem_profile.py:487-511 | splitting a text into lines with their breaks loses nothing, for every separator `splitlines` knows |
| TextLines.JoinedLines | scripts/modem_profile.py:525 | joined lines split into the same lines again |
| TextLines.TenBreaks | scripts/modem_profile.py:487-511 | the ten characters that end a line |
| YamlPatch.YamlField | scripts/modem_profile.py:484-499 | the loop over the lines without their breaks computes `Read` |
| YamlPatch.PatchYamlField | scripts/modem_profile.py:502-525 | the loop over the lines with their breaks computes `Patch`; a missing section or key is the error |
| YamlPatch.FoundInside | scripts/modem_profile.py:484-525 | the line found lies in the section |
| YamlPatch.FoundFirst | scripts/modem_profile.py:484-525 | no earlier line of the section names the key, and one that does is always found |
| YamlDocuments.ReadsPrinted | scripts/modem_profile.py:484-498 | in a printed document of headings, fields, remarks and gaps, reading gives the value of the first field with that key under that heading, or nothing when there is none |
| YamlDocuments.PatchesPrinted | scripts/modem_profile.py:502-525 | patching it prints the document with that one value changed, and fails if and only if there is no such field |
| YamlDocuments.ColonStandsOff | scripts/modem_profile.py:492-516 | with blanks before the colon a line is the key's for the writer and not for the reader |
| YamlPatch.PatchChangesOneLine | scripts/modem_profile.py:502-525 | a patch with a one-line value fails exactly when no line is found; it changes that line only if it keeps its break, and otherwise joins the next line to it and changes nothing else |
| YamlPatch.LineCountKept | scripts/modem_profile.py:515-519 | the line count is preserved if and only if the found line ends in a newline or is the last |
| YamlPatch.ReadsAs | scripts/modem_profile.py:484-525 | for any value at all, what the reader gets is the patched text up to its first break, stripped and unquoted |
| YamlPatch.ReadBack | scripts/modem_profile.py:484-525 | for any value and text, the exact condition under which a patched field reads back, text that ran on into the line included |
| YamlPatch.ReadBackUsual | scripts/modem_profile.py:484-525 | where the line keeps its break: if and only if the value has no line separator and was quoted, or is trimmed and not itself quoted |
| YamlPatch.CarriageReturnCuts | scripts/modem_profile.py:487-498 | a value with a carriage return never reads back |
| YamlPatch.LastPatchWins | scripts/modem_profile.py:502-525 | a second patch of the field makes the first vanish, so patching twice is patching once, if and only if the line keeps its break or the next line is empty |
| YamlFields.OtherFieldsRead | scripts/modem_profile.py:484-525 | after a patch every other field reads as in the lines without the one that was eaten, or in all lines if none was |
| YamlFields.OtherFieldsReadSame | scripts/modem_profile.py:484-525 | every other field reads as before if and only if the break is kept or leaving out the next line does not change its reading |
| YamlFields.EatenLineOfAnother | scripts/modem_profile.py:515-519 | eating an indented line changes the reading of no field but the one found on it |
| YamlFields.NeighbourEaten | scripts/modem_profile.py:515-519 | a field that stood on the eaten line and nowhere behind it is lost |
| YamlFields.FieldEaten | scripts/modem_profile.py:515-519 | a text in which every patch of one field loses another |
| YamlFields.PatchAfter | scripts/modem_profile.py:502-525 | the text after two patches: both lines rewritten where they stood, or failure if the first hides the second |
| YamlFields.PatchesCommute | scripts/modem_profile.py:502-525 | patches of two fields can trade places for all one-line values, failures included, if and only if each is found at the same place whether or not the other was patched before, or neither order succeeds |
| YamlFields.KeptPatchesCommute | scripts/modem_profile.py:502-525 | that is so when both lines keep their breaks |
| YamlFields.OrderMatters | scripts/modem_profile.py:515-519 | a text on which one order fails and the other succeeds, whatever the values |

## Left out

- Routes.CallRoutes.ResumeTask: an await is where a method ends and a later call resumes the parked
  task; a hangup or notification that fails returns like one that succeeds, as in the program. The
  methods complete each release before they end; the states in between are those of the switchboard.
- CallTimeouts.TimeoutPass: speaks of a pass that nothing interrupts. A pass reads each call's state
  again but not its age, so after an await it may also close a call that moved on meanwhile; what then
  still holds is the invariant.
- CallSafety.NextInv: a handler is assumed to run on to its next await and to its end; cancelling a
  request in the middle is not modelled. Creating a pooled call is one step, a release two.
- AmiStream.NextInv: coroutines are modelled as the point they wait at; `asyncio` itself is not.
- AmiPoll.GetModemStatus: numbers and whitespace are ASCII.
- AmiPoll.PollResynchronises: assumes a proper reply (a positive answer with the poll's action id, a
  body, a terminator); action ids are fresh.
- AmiWire.WireRoundTrip: keys are colon-free and on one line, as all keys in the program are.
- Recovery.RetryLoop: the callbacks' own failures (which the loop swallows) have no effect here.
- SmsCorrelation.CrashReplay: an append that fails without a crash is not modelled; JSON is an injective
  encoding.
- SmsCorrelation.NoDoubleResolution: whether a report's wording means failure is a parameter; the two
  id-based routes can overwrite a delivery status and are not part of that run.
- Blacklist.Coherence: every change of the file is assumed to get a new modification time, writes are
  assumed to succeed (`Blacklist.FailedWrite`, `Blacklist.AheadAnswers` and `Blacklist.PhantomWritten` say what a failed
  one does), and operations of different
  managers do not overlap.
- Blacklist.BlacklistManager.Write: the write that fails and raises is not part of the class.
- Phone.NormalizedCanonical: digits are ASCII digits, as they are in reports and numbers everywhere here.
- YamlPatch.ReadBack: keys are without whitespace and colons, and section names do not start with
  whitespace.
- SipFraming.ChunkIndependent: messages stay bytes; decoding them is left out.
- YamlDocuments.ReadsPrinted: the printed documents are tidy: keys without whitespace and colons, names
  not beginning with whitespace or a number sign, bare values trimmed; `YamlPatch.ReadBack` has no such
  condition on the text.
- Windows.WindowBound: clock readings are whole numbers that never decrease.
- CallTheorems.MetricsConserved: talk times are whole clock ticks.
- Caller names and numbers, audit records, error texts and response bodies of the call routes; a
  refused request is one that changes nothing.
- `StickyStrategy`, `ExplicitStrategy`, `select_for_sms` and `terminate_bridged_calls`: unimplemented
  or not called by the routes.
- `ModemWatchdog`, voicemail, health checks, access lists, alerts, configuration schema, deployment
  scripts, the Telegram side and the dialplan: plumbing or external systems.
