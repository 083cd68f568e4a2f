# Verified models of the ps2api gateway

ps2api is a gateway: it accepts OpenAI- and Anthropic-style chat requests and
answers them from a pool of upstream accounts. This project models, in Dafny, the
small state machines and text algorithms under its HTTP plumbing, and proves what
they promise. `dafny verify dfyconfig.toml` checks all of it.

| file | what it models |
|---|---|
| `Base.dfy` | an optional value; decimal text as `strconv` writes and reads it |
| `Http2Send.dfy` | the send side of the hand-written HTTP/2 client: windows, SETTINGS, waiting writers, close |
| `RouteLoop.dfy` | the retry and failover loop, with account selection and account status |
| `Pool.dfy` | the account scheduler |
| `HoldBack.dfy` | withholding text that may turn out to be a simulated tool call while streaming |
| `QueryFold.dfy` | folding a chat history into one query of bounded length |
| `ConversationStore.dfy`, `MemoryStore.dfy`, `RedisStore.dfy`, `RedisExpiry.dfy` | the conversation store: its meaning, its two forms, and key expiry |
| `Conversation.dfy` | looking a conversation up by the longest known prefix of a chat |
| `ResponseCache.dfy` | the response cache |
| `JsonDiff.dfy` | the leaf-by-leaf comparison of two request bodies and the paths it prints |
| `Bisect.dfy` | the bisection to the line that triggers a block |
| `AnthropicStream.dfy` | the Anthropic event stream |

Each file has the same build. Pure functions and event systems say what a
component does; classes and methods with loops have the shape of the Go code and
are proved equal to them; lemmas state what the component is for, over all inputs
and all runs. Time, the network, the table of accounts, other requests, JSON and
regular expressions enter as parameters.

Strings are sequences of characters. Where Go counts runes a character is a rune;
where it counts bytes (hold-back, probe padding, paths) a character is a byte. Go's
`int` and `int64` are unbounded here except where a 64-bit bound matters: account
ids, array indexes in printed paths, and the number of sections, whose decimal text
must be short.

## Where the code does less than it says

Each of these comes with the exact condition, over all inputs.

- Plan preference (`internal/pool/pool.go:184`): the early exit can pass over an equally idle account of the preferred plan (`Pool.PlanPreferenceCanBeMissed`), exactly when an idle account of another plan stands before all preferred ones (`Pool.ScanAccounts`); with one plan class never (`Pool.SingleClassIsOptimal`).
- A negative remaining count on a known limit, which nothing keeps a response header from reporting (`internal/provider/errors.go:69-72`), can leave the ratio mode without a best candidate, whichever is picked being displaced by another (`Pool.NegativeRemainingMakesACycle`); `Pool.NobodyUnbeatenIff` says exactly when, over all lists, and `Pool.CircleIff` exactly when three candidates displace one another. No caller asks for selection by quota today (`internal/router/route_loop.go:91`, `internal/api/toolsets.go:71`).
- The "impossible" fallback (`internal/provider/messages.go:590`) is reachable with today's budgets: a history of three messages, a directory of a hundred skills, a task and a tool result, takes it (`QueryFold.HistoryOverflows`); `QueryFold.CutAtBordersIff` says exactly when a query is cut through.
- Low-weight sections are dropped first and middle ones when that is not enough, but then dropping restarts with the oldest of both, so a system text can go while a later, low-weight reply stays (`QueryFold.SystemDroppedBeforeReply`); `QueryFold.MiddleBeforeLowIff` says exactly when.
- The task of an ordinary replay is put in front to be safe from the cut (`internal/provider/messages.go:406-411`), but a skill list before it can be longer than the part in front that is kept: behind the same directory and before a latest message of more than 6858 runes the task is lost altogether (`QueryFold.HistoryLosesTask`). `QueryFold.OrdinaryTaskKeptIff` says exactly when the task block is kept whole. In a tool-result replay it always is (`QueryFold.ReplayKeepsTask`).
- A stored conversation can lose its owner, and with it sticky routing (`Conversation.ResetCanOrphanAConversation`); `Conversation.AlwaysOwnedIff` says exactly through which resets. Nothing in the repository resets an account's conversations today (`internal/provider/conversation.go:155`), and without resets it never happens.
- A JSON key with a dot can give two differences the same path (`JsonDiff.DottedKeysCollide`); `JsonDiff.PathsCollideIff` says exactly when two do, and `JsonDiff.RoundTripIff` exactly which paths read back.

Four conditions in the theorems below are always met by the rest of the code: a
stream increment carries text or reasoning, never both
(`internal/provider/sse.go:198-213`, `HoldBack.OneKind`); a usage report of
`EXCEEDED` always comes with the kind for spent quota
(`internal/provider/stream.go:261-265`, `RouteLoop.FollowsProvider`); a successful
streaming call delivers at least one increment, its finish mark, with tools
(`internal/provider/postman.go:239-270`), without them
(`internal/provider/postman.go:134-146`, `internal/provider/sse.go:130-139`) and
from the cache (`internal/router/stream.go:27`), so that the Anthropic stream is
always well formed; and account ids and section counts fit 64 bits.

## Model

| member | source | states |
|---|---|---|
| Decimal.AtoiItoa | internal/provider/redisstore.go:104-108 | an account id written in decimal reads back as itself, for every 64-bit id |
| Http2Send.EveryChunkFits | internal/tlsfp/h2client.go:322-362 | what a writer takes in one turn is 1 to 16384 bytes, fits both windows, is charged to both, and is less than asked for only at a frame or window limit |
| Http2Send.InvariantStep | internal/tlsfp/h2client.go:184-201 | every step of a writer, of the read loop and of close keeps window accounting, body order, owed wake-ups, registration and done signals in order |
| Http2Send.InvariantRun | internal/tlsfp/h2client.go:293-362 | the same over every interleaving |
| Http2Send.ConnectionWindowRespected | internal/tlsfp/h2client.go:322-362 | in every interleaving the body bytes written and reserved stay within 65535 plus the increments received for stream 0, and the window is what that leaves (section 6.9.1 of RFC 7540) |
| Http2Send.StreamWindowExact | internal/tlsfp/h2client.go:433-487 | an open stream's window is the last initial window received, 65535 before any, plus the increments received for the stream less its reservations, below zero when SETTINGS puts it there (section 6.9.2 of RFC 7540) |
| Http2Send.FramesDecide | internal/tlsfp/h2client.go:433-487 | over every run, connection credit and initial window are sum and last value of the frames received |
| Http2Send.StreamCreditIs | internal/tlsfp/h2client.go:478-487 | a stream's credit is the sum of the increments received for its number since it opened |
| Http2Send.NoneOpensLater | internal/tlsfp/h2client.go:184-201 | in no run does a stream open after a GOAWAY or a close |
| Http2Send.BodyArrivesInOrder | internal/tlsfp/h2client.go:293-362 | the DATA payloads of a stream are always a prefix of its body, all of it once the stream ended, with nothing after the end mark |
| Http2Send.StreamFate | internal/tlsfp/h2client.go:184-362 | over every run, whether a stream is registered, closed, signalled or stopped follows from what was done to it; one that stopped without a failure has sent its whole body, one without a body nothing |
| Http2Send.BroadcastsAreOwed | internal/tlsfp/h2client.go:433-600 | over every run, each frame that moves windows, each finished stream and the first close owe one broadcast, each paid once |
| Http2Send.SleepsIff | internal/tlsfp/h2client.go:323-337 | a writer with data left waits exactly when nothing is closed and a window is used up, and gives up exactly when something is closed |
| Http2Send.NoWriterSleepsForever | internal/tlsfp/h2client.go:322-337 | whenever a waiting writer could go on a broadcast is owed, and the broadcast wakes it with its data intact |
| Http2Send.ClosedStaysClosed | internal/tlsfp/h2client.go:184-201 | after close no stream registers, and close is never undone |
| Http2Send.CloseSignalsEveryStream | internal/tlsfp/h2client.go:587-611 | when close has run its course every stream registered at that moment has had its done signal exactly once; no stream ever gets two |
| Http2Send.SettingsInOrder | internal/tlsfp/h2client.go:433-477 | using the last initial window of a SETTINGS frame moves the windows as handling the values one by one would (section 6.5.3 of RFC 7540) |
| Http2Send.WindowWhileWaiting | internal/tlsfp/h2client.go:338-361 | while a reserved part waits to be written, its stream's window moves by exactly the credit that comes in and the change of the initial window |
| Http2Send.WrittenBelowZeroIff | internal/tlsfp/h2client.go:338-361 | reservations are made only from positive windows (section 6.9.2 of RFC 7540), and a reserved part meets a negative window exactly when SETTINGS lowered the initial window by more than what was left plus the credit since |
| Http2Send.LastInitialWindow | internal/tlsfp/h2client.go:433-452 | the scan over a SETTINGS frame finds its last initial window, if it has one |
| Http2Send.ShiftWindows | internal/tlsfp/h2client.go:453-466 | exactly the registered streams' windows move, all by the difference |
| Http2Send.Connection.Open | internal/tlsfp/h2client.go:184-206 | a stream is registered under the next number unless the connection is closed or going away, and then nothing changes |
| Http2Send.Connection.TryReserve | internal/tlsfp/h2client.go:322-345 | one locked turn of a writer is one reservation step of the transition system |
| Http2Send.Connection.HandleSettings | internal/tlsfp/h2client.go:433-477 | is the SETTINGS step |
| Http2Send.Connection.HandleWindowUpdate | internal/tlsfp/h2client.go:478-487 | is the WINDOW_UPDATE step: connection credit for stream 0, stream credit for a known stream, nothing for an unknown one |
| Http2Send.Connection.Finish | internal/tlsfp/h2client.go:558-566 | closes a stream, takes it out of the table and owes a broadcast |
| Http2Send.Connection.Remove | internal/tlsfp/h2client.go:567-573 | takes a stream whose headers failed out of the table |
| Http2Send.Connection.BeginClose | internal/tlsfp/h2client.go:587-600 | takes down exactly the registered streams, none on a second close |
| Http2Send.Connection.SignalDoomed | internal/tlsfp/h2client.go:600-611 | signals each of them once and no other stream |
| RouteLoop.RunAttempts | internal/router/route_loop.go:48-247 | the loop ends although three branches raise its bound, and what it did is a run of attempts with the reported outcome and final state |
| RouteLoop.TryOnce | internal/router/route_loop.go:84-246 | one turn is one attempt of the model, or there was no account to use |
| RouteLoop.HandleReply | internal/router/route_loop.go:103-245 | after a reply, the bound, the excluded accounts, the pinned account, the gateway flag, the account table, the scheduler and the result are those of the branch taken |
| RouteLoop.HandleFailure | internal/router/route_loop.go:120-245 | the same for a reply that is no success, branch by branch |
| RouteLoop.HandleGateway | internal/router/route_loop.go:129-156 | a gateway block ends the request, except for one retry when the body carries no injection pattern |
| RouteLoop.HandleDrop | internal/router/route_loop.go:162-205 | blocked, exhausted and dead accounts are excluded and marked; the first and last raise the bound |
| RouteLoop.HandlePassing | internal/router/route_loop.go:206-245 | passing failures mark the account, pin it for a continued chat, and exclude it only when safety checks flagged it |
| RouteLoop.SelectAccount | internal/router/account.go:32-61 | the pinned account, else the conversation's usable owner, else the scheduler's choice; none only when nothing is left |
| RouteLoop.ExcludedNeverUsed | internal/router/account.go:32-61 | in every run no attempt uses an excluded account and no exclusion is taken back |
| RouteLoop.ExcludedNotAskedAgain | internal/router/route_loop.go:162-205 | an account a request dropped is not asked again by it |
| RouteLoop.BoundIsExact | internal/router/route_loop.go:141-204 | the bound is the retry budget plus one per distinct account dropped as dead or blocked plus one for a gateway retry |
| RouteLoop.CallsAreBounded | internal/router/route_loop.go:84-246 | provider calls never exceed that |
| RouteLoop.Progresses | internal/router/route_loop.go:84-246 | a measure over untried accounts, gateway retry and remaining bound shrinks with every attempt that goes on |
| RouteLoop.NoRetryAfterOutput | internal/router/stream.go:32-43 | an attempt that is followed by another has sent nothing to the client |
| RouteLoop.OutputHasOneSender | internal/router/route_loop.go:70-78 | all the client sees comes from the last provider call |
| RouteLoop.OneGatewayRetry | internal/router/route_loop.go:141-150 | a gateway block is retried at most once, and only for a body without injection patterns |
| RouteLoop.PinnedUntilUnusable | internal/router/route_loop.go:213-245 | after an account-independent failure of a continued chat every later attempt uses that account until it is excluded, disabled or used up |
| RouteLoop.EgressCountsTheStreak | internal/router/egress.go:9-14 | the outlet number is the count of attempts in a row on the account |
| RouteLoop.FailedStatusNeedsCause | internal/router/route_loop.go:235-244 | only a blocked report or an unclassified failure puts an account in failed status; an upstream-model failure does not |
| RouteLoop.BlockedAccountIsOut | internal/router/quota_probe.go:223-231 | a blocked report leaves every row of the account failed and disabled, in every run and whatever else the reply says |
| RouteLoop.DeadSessionIsOut | internal/router/route_loop.go:188-205 | a dead session leaves the account offline and disabled |
| RouteLoop.SuccessIsRecorded | internal/router/route_loop.go:111-119 | a success sets the last use and the reservation deadline, and with quota left makes the account active |
| RouteLoop.UsedUpIsRecorded | internal/router/quota_probe.go:232-247 | a success whose report says the quota is used up leaves the account marked as used up |
| RouteLoop.FailureIsRecorded | internal/router/route_loop.go:178-245 | spent quota is on record, an account that may be tried again is active, one with an unexplained failure failed |
| RouteLoop.OtherRowsKept | internal/router/route_loop.go:106-245 | no other account's row is touched |
| RouteLoop.OutcomeByFields | internal/router/route_loop.go:111-246 | how a reply ends the request or lets it go on, by its success, error text, kind and whether output began |
| RouteLoop.CarriedByFields | internal/router/route_loop.go:141-245 | what the next attempt carries on (exclusions, pinned account, bound, gateway retry) by the reply's kind, report and error text |
| RouteLoop.TransientIff | internal/pool/pool.go:314-322 | an error is transient exactly when one of fifteen texts occurs in it in any letter case |
| RouteLoop.GatewayBlockCools | internal/router/route_loop.go:141-142 | exactly a gateway block without injection patterns puts the account on cooldown |
| RouteLoop.OwnerIsUsed | internal/router/account.go:21-61 | a continued chat goes back to its owner while that is enabled and has quota, even in failed status, unless another account is pinned |
| RouteLoop.ExhaustionKeptIff | internal/router/route_loop.go:106-245 | exactly when a quota reported as exceeded is still on record after the attempt, by kind, error text and whether output began |
| RouteLoop.ReportedExhaustionIsKept | internal/router/route_loop.go:178-187 | with the provider's own rule for that report, it is on record after every attempt of every run |
| RouteLoop.InFlightIsReturned | internal/router/route_loop.go:102-105 | over every run, accounts taken from the scheduler are returned exactly once |
| Pool.RatioCmpIsShareOrder | internal/pool/pool.go:219-245 | cross-multiplication orders by remaining share, an unknown limit counting as nothing left, exactly unless a negative count meets an unknown limit |
| Pool.RatioTransitiveIff | internal/pool/pool.go:219-245 | exactly when the comparison is transitive; always for non-negative counts |
| Pool.NegativeRemainingMakesACycle | internal/pool/pool.go:201-245 | three accounts that beat each other in a circle |
| Pool.CircleIff | internal/pool/pool.go:201-245 | exactly when three candidates displace one another in ratio mode: two of known limit with nothing left, out of order, and one of unknown limit between them on the tie-break |
| Pool.NobodyUnbeatenIff | internal/pool/pool.go:201-245 | over all lists, ratio mode has no best candidate exactly when such a circle runs through a best of known and a best of unknown limit |
| Pool.BeatsIsStrictWeakOrder | internal/pool/pool.go:131-187 | displacement (quota, preferred plan, never used, lower load, unreserved) is a strict weak order |
| Pool.ScanAccounts | internal/pool/pool.go:131-187 | the rotated one-pass scan yields the first of the best; in round-robin mode, where it may stop early, the first of the best of its plan class, and of all exactly when no ideal account of another plan stands before the preferred ones |
| Pool.Scan.StopIsRight | internal/pool/pool.go:177-187 | stopping at the first ideal account loses nothing within its plan class, and nothing at all if and only if it does not overtake a preferred one |
| Pool.PickIndex | internal/pool/pool.go:123-190 | the same for the rotation that starts after the account taken last |
| Pool.ChooseIndex | internal/pool/pool.go:64-91 | an account is found exactly when one is not excluded, from the healthiest of the three tiers that has one |
| Pool.NextYieldsActive | internal/pool/pool.go:64-91 | what is yielded is active, enabled and not excluded, and only its load grows, by one |
| Pool.HealthiestTaken | internal/pool/pool.go:64-105 | no account left over stands better: known and used-up quota last, an unknown limit not counting as used up, then cooldown, then healthy |
| Pool.LeastKeyTaken | internal/pool/pool.go:123-245 | of accounts that stand equally well and (taking turns) share a plan class, the one taken comes first by plan, use, load and reservation, or by what is left; of equals it is the next in turn |
| Pool.DatedPlansArePreferred | internal/pool/pool.go:116-121 | a plan name with a dated ending is still the preferred plan |
| Pool.SingleClassIsOptimal | internal/pool/pool.go:177-187 | with one plan class the early exit gives what a full scan would |
| Pool.PlanPreferenceCanBeMissed | internal/pool/pool.go:177-187 | with two it need not |
| Pool.TakeThenRelease | internal/pool/pool.go:266-274 | returning an account undoes taking it |
| Pool.LoadsStayBalanced | internal/pool/pool.go:123-187 | loads of equally ranked accounts never drift apart by more than one |
| Pool.Scheduler.Next | internal/pool/pool.go:64-91 | takes an account exactly when one is left and changes nothing otherwise |
| Pool.Scheduler.Done | internal/pool/pool.go:266-274 | gives back one use and keeps no zero or negative counts |
| HoldBack.ViablePrefixClosed | internal/provider/toolsim.go:304-345 | every non-empty prefix of a text that may become a marker may too |
| HoldBack.ViableIffCanBecomeMarked | internal/provider/toolsim.go:289-345 | a text is held back exactly when some continuation makes it a marker |
| HoldBack.FirstViableUnique | internal/provider/toolsim.go:346-363 | where the hold-back starts is determined: the first position whose whole suffix may become a marker |
| HoldBack.ViableFirstByte | internal/provider/toolsim.go:350-363 | a text that may become a marker begins with one of the two bytes the scan looks for |
| HoldBack.HoldBackLen | internal/provider/toolsim.go:350-363 | the scan returns the length from that position on |
| HoldBack.SplitStreamSafe | internal/provider/toolsim.go:365-368 | safe and pending are the text before and from that position |
| HoldBack.FirstViableIncremental | internal/provider/toolsim.go:365-368 | splitting what was pending plus the next chunk equals splitting the whole text |
| HoldBack.ForwardedTextMeetsNoMarker | internal/provider/toolsim.go:346-368 | no marker starts inside forwarded text, whatever follows |
| HoldBack.StreamedText | internal/provider/postman.go:165-213 | the client always has a prefix of the received text, however early it leaves; before a native tool call that prefix ends at the first held position and the rest is pending, after one nothing is held |
| HoldBack.ChunkIndependence | internal/provider/postman.go:165-213 | two ways of cutting the same text leave the same forwarded and pending text |
| HoldBack.CompleteStream | internal/provider/postman.go:216-274 | at the end the client has the whole text, or what the tool-call parser leaves of it |
| HoldBack.CompleteCalls | internal/provider/postman.go:216-274 | after success the client gets one tool piece for each native call, or each call the parser found, then exactly one finish mark, which says whether there was a call; after a failure neither |
| HoldBack.ReasoningForwardedOnceIff | internal/provider/postman.go:175-213 | over arbitrary increments, reasoning reaches the client exactly once if and only if none after a native tool call carries text and reasoning together |
| HoldBack.ReaderReasoningForwardedOnce | internal/provider/sse.go:198-213 | over increments as the stream reader makes them, always exactly once |
| HoldBack.StreamRelay.ReleaseAll | internal/provider/postman.go:153-163 | is the step that forwards all pending text |
| HoldBack.StreamRelay.ReleaseSafe | internal/provider/postman.go:165-173 | is the step that forwards the safe part |
| HoldBack.StreamRelay.Receive | internal/provider/postman.go:175-215 | is the step for one upstream increment, a refusal stopping the upstream |
| HoldBack.StreamRelay.ReceiveAll | internal/provider/postman.go:175-215 | is the run over all increments |
| HoldBack.StreamRelay.Close | internal/provider/postman.go:217-273 | is the final step: release, or parse simulated calls |
| QueryFold.CapSections | internal/provider/messages.go:592-642 | computes the fold the lemmas below describe |
| QueryFold.Drop | internal/provider/messages.go:603-625 | drops the fewest oldest sections below the weight whose removal fits, or all of them |
| QueryFold.KeptJoin | internal/provider/messages.go:644-653 | joins the kept sections in order |
| QueryFold.InsertMarker | internal/provider/messages.go:655-673 | the same with one marker where the first dropped section stood |
| QueryFold.FoldedFits | internal/provider/messages.go:592-642 | the result has at most 9900 runes and is the plain join when that fits |
| QueryFold.CutAtBordersIff | internal/provider/messages.go:592-642 | exactly when an overlong query is shortened by whole sections instead of cut through |
| QueryFold.LevelIsForced | internal/provider/messages.go:626-636 | middle sections are touched only when dropping low ones does not fit |
| QueryFold.DroppedRunIsShortest | internal/provider/messages.go:603-625 | the dropped ones are the oldest run below the level, and no shorter run fits |
| QueryFold.MarkerAtFirstGap | internal/provider/messages.go:655-673 | one marker, at the first gap, everything else in order |
| QueryFold.HeavyTailSurvives | internal/provider/messages.go:592-642 | weight-3 sections at the end survive whole whatever precedes them, if they fit the tail the cut keeps |
| QueryFold.HeavyHeadSurvives | internal/provider/messages.go:592-642 | likewise at the front |
| QueryFold.HeavyAloneIsCut | internal/provider/messages.go:586-642 | weight-3 sections that are too long together are cut through |
| QueryFold.CapKeepsTail | internal/provider/messages.go:478-489 | the cut keeps every ending of up to 6858 runes |
| QueryFold.LevelIff | internal/provider/messages.go:603-630 | only low sections are dropped exactly when dropping all of them is enough |
| QueryFold.MiddleBeforeLowIff | internal/provider/messages.go:576-636 | a middle section is dropped while a low one is kept exactly when the low ones together are not enough and yet enough, counting middle ones, stands before some low one |
| QueryFold.SystemDroppedBeforeReply | internal/provider/messages.go:355-462 | a history of three messages where that happens to the system text |
| QueryFold.FoldedAtBorders | internal/provider/messages.go:592-673 | the whole result when enough can be dropped: the sections before the first dropped one, the marker with the count, then what is kept of the rest |
| QueryFold.HighSectionsCanOverflow | internal/provider/messages.go:586-592 | a full skill list, task and tool tail are too long together and are cut through |
| QueryFold.HistoryOverflows | internal/provider/messages.go:239-462 | a tool-result replay of three messages, with a full skill directory, whose weight-3 sections alone are cut through |
| QueryFold.ReplayKeepsTask | internal/provider/messages.go:415-461 | a tool-result replay without a conversation ends with the task message and the pending results, whatever the history |
| QueryFold.KeptWholeIff | internal/provider/messages.go:478-489 | over all section lists, none of a heavy section's runes is lost exactly when nothing is cut through, or it ends within the kept head, or starts within the kept tail |
| QueryFold.OrdinaryTaskKeptIff | internal/provider/messages.go:406-462 | when that holds of the task block of an ordinary replay, in the lengths of skill list, task, latest message and what can be dropped |
| QueryFold.HistoryLosesTask | internal/provider/messages.go:239-462 | an ordinary replay of three messages that loses its task altogether |
| QueryFold.TaskBehindSkillsCanBeLost | internal/provider/messages.go:478-489 | the query is then the front of the skill list and the end of the latest message |
| QueryFold.SkillListFits | internal/provider/messages.go:198-237 | the skill list fits its budget: all names in order, each with its description exactly when that leaves room for the names that follow, or the longest run of names that fits |
| QueryFold.BareIs | internal/provider/messages.go:198-237 | an entry is reduced to what stands before its first colon and space |
| QueryFold.FoldSkillList | internal/provider/messages.go:198-237 | the loop computes that list |
| QueryFold.ToolTailIff | internal/provider/messages.go:28-47 | a request ends with the results of a message exactly when that holds a tool result and only token accounts follow |
| QueryFold.FindToolTail | internal/provider/messages.go:28-47 | finds the tool results a request ends with, past token metadata |
| QueryFold.CollectPending | internal/provider/messages.go:248-280 | collects the pending results from the end backwards, up to the turn they answer |
| QueryFold.QueryHoldsResults | internal/provider/messages.go:248-284 | results handed back make up the query in message order, then the texts that came with them, then the instruction |
| QueryFold.ToolRunResults | internal/provider/messages.go:252-256 | a run of tool messages gives one labelled result each, in order |
| QueryFold.QueryIsLastUser | internal/provider/messages.go:285-355 | otherwise the query is the last user message, and the task the first user turn but that one |
| QueryFold.TaskIsLatestTurn | internal/provider/messages.go:333-341 | with results handed back the task is the last user turn before them |
| QueryFold.TaskIsShown | internal/provider/messages.go:413-425 | a task that has text left besides system reminders is shown under its header at the highest weight |
| QueryFold.ContextIsWhatTheySay | internal/provider/messages.go:355-405 | the context is what the messages say, in order, each under its role, block by block, shortened to its budget |
| QueryFold.TruncationKeepsEnds | internal/provider/strutil.go:16-29 | a shortened text keeps its front and its end around the mark |
| QueryFold.ResultsAreCounted | internal/provider/messages.go:65-80 | the results that share the budget are exactly the places where the context shows one |
| QueryFold.ResultsShareTheBudget | internal/provider/messages.go:85-101 | the results of a replay share 6000 runes evenly, at least 500 each |
| QueryFold.MakePlan | internal/provider/messages.go:239-355 | finds the query, the task message and what to skip |
| QueryFold.BuildContext | internal/provider/messages.go:342-414 | turns the rest of the history into sections and skill lines |
| QueryFold.SplitMessages | internal/provider/messages.go:239-462 | with a conversation only the new turn: the results handed back in order, or the last user message; without one a query within 9900 runes, ending with task message and results in a tool-result replay |
| ConversationStore.AccountKeyInjective | internal/provider/convstore.go:63-69 | a composite key determines account and fingerprint |
| ConversationStore.AccountPrefix | internal/provider/convstore.go:104-111 | the prefix scan for an account finds its keys and no other account's |
| MemoryStore.MemStep | internal/provider/convstore.go:71-142 | each operation on the three maps does what it means on conversations, owners and tool groups |
| MemoryStore.MemRun | internal/provider/convstore.go:71-142 | so does every sequence |
| MemoryStore.MemoryStore.GetConversation | internal/provider/convstore.go:71-76 | answers what the store means |
| MemoryStore.MemoryStore.GetOwner | internal/provider/convstore.go:82-87 | answers what the store means |
| MemoryStore.MemoryStore.Reset | internal/provider/convstore.go:104-118 | the two ranges remove exactly the account's conversations and owner entries, in any order |
| MemoryStore.MemoryStore.InvalidateConversation | internal/provider/convstore.go:120-142 | removes the account's entries for the id and the named tool groups, and no owner |
| RedisStore.SpellInjective | internal/provider/redisstore.go:63-77 | no two keys of the store are spelled alike, across all four kinds |
| RedisStore.ScanFinds | internal/provider/redisstore.go:150-153 | scanning an account's conversation pattern meets its conversations and no other key of the store |
| RedisStore.OwnedIff | internal/provider/redisstore.go:155-169 | the index leads to exactly the owner entries that still name the account |
| RedisStore.RedisStep | internal/provider/redisstore.go:79-219 | each operation does to the database what it means, keeping every owned fingerprint indexed under its account |
| RedisStore.RedisRun | internal/provider/redisstore.go:79-219 | so does every sequence |
| RedisStore.StoresAgree | internal/provider/redisstore.go:144-149 | after every sequence of operations the Redis store and the in-memory store give the same answers |
| RedisStore.ForeignKeysUntouched | internal/provider/redisstore.go:144-219 | keys that are not the store's keep their values |
| RedisStore.RedisStore.GetConversation | internal/provider/redisstore.go:79-87 | answers what the store means |
| RedisStore.RedisStore.GetOwner | internal/provider/redisstore.go:97-109 | answers what the store means |
| RedisStore.RedisStore.PutOwner | internal/provider/redisstore.go:111-124 | the entry and the index together |
| RedisStore.RedisStore.Reset | internal/provider/redisstore.go:146-174 | is the reset step however the scan batches its keys |
| RedisStore.RedisStore.ScanDelete | internal/provider/redisstore.go:222-239 | deletes exactly the matching keys, whatever the batches and repetitions |
| RedisStore.RedisStore.InvalidateConversation | internal/provider/redisstore.go:181-219 | is the invalidation step however the scan batches its keys |
| RedisExpiry.RunKeeps | internal/provider/redisstore.go:111-124 | with expiry on, an index entry never expires before the owner entry it leads to |
| RedisExpiry.OwnedIff | internal/provider/redisstore.go:111-173 | over every run, a reader finds an account as owner exactly while its last entry is younger than the expiry and neither replaced nor reset |
| RedisExpiry.ResetLeavesNone | internal/provider/redisstore.go:155-173 | so a reset leaves no owner entry of the account that any later reader sees |
| RedisExpiry.ResetTakesOnlyItsOwn | internal/provider/redisstore.go:155-173 | and takes nobody else's |
| Conversation.FoundAtLeastAsDeep | internal/provider/conversation.go:82-116 | a lookup answers at least as deep as any stored proper prefix |
| Conversation.AnswerIs | internal/provider/conversation.go:62-92 | what is stored for the longest proper prefix answers, and only a history that goes on from an assistant turn or a tool result |
| Conversation.OwnerIs | internal/provider/conversation.go:106-116 | likewise for the account |
| Conversation.RememberedIsFound | internal/provider/conversation.go:130-153 | after remembering, every longer history with an assistant or tool turn finds an entry at least that deep: the remembered id and account when nothing deeper is stored |
| Conversation.EchoIsFound | internal/provider/conversation.go:149-152 | a client that echoes the assistant turn finds the deeper entry |
| Conversation.FoundUntilDroppedIff | internal/provider/conversation.go:144-183 | over every run, a remembered history stays found exactly as long as its account is not reset and no corrupt report looks up its conversation |
| Conversation.DroppedStaysGone | internal/provider/conversation.go:171-183 | a conversation reported corrupt is never looked up again on its account until it is remembered again |
| Conversation.DropTouchesNothingElse | internal/provider/conversation.go:171-183 | other accounts, other ids and all sticky accounts are unchanged |
| Conversation.StickyAccountCanResume | internal/provider/conversation.go:103-116 | over every run in which none of its conversations broke, the account a history sticks to can resume it at least as deep |
| Conversation.OwnedStepIff | internal/provider/conversation.go:94-183 | a step keeps every stored conversation owned exactly unless it resets an account that owns a history another account also has |
| Conversation.AlwaysOwnedIff | internal/provider/conversation.go:94-183 | so over every run from an empty store |
| Conversation.ConvAfter | internal/provider/conversation.go:94-183 | entry by entry, what remembering, dropping and resetting do to conversations |
| Conversation.OwnAfter | internal/provider/conversation.go:94-183 | and to owners, which dropping never touches |
| Conversation.ToolsAfter | internal/provider/conversation.go:159-183 | only a corrupt report drops tool groups, those of the calls whose results the request hands back, on that account |
| Conversation.Conversations.LookupConversation | internal/provider/conversation.go:82-92 | the loop finds the deepest stored proper prefix, nothing for a chat without assistant or tool turns |
| Conversation.Conversations.StickyAccount | internal/provider/conversation.go:106-116 | likewise for owners |
| Conversation.Conversations.RememberConversation | internal/provider/conversation.go:144-153 | stores the bare history and the history with the assistant turn |
| Conversation.Conversations.InvalidateConversation | internal/provider/conversation.go:177-183 | drops the conversation the history leads to, with the tool groups the request carries |
| ResponseCache.AlwaysFaithful | internal/router/cache.go:40-77 | over every sequence of gets and puts: at most 512 entries, in order of last use, each its key's last put |
| ResponseCache.HitIsLastPut | internal/router/cache.go:40-58 | a hit is the last put of the key, at most 24 hours old; no key is held twice |
| ResponseCache.EvictsLeastRecent | internal/router/cache.go:60-77 | an entry is pushed out only by a new key in a full cache, and is then the one whose last use is oldest |
| ResponseCache.PushingOutTakesMany | internal/router/cache.go:69-76 | pushing an entry out takes 512 other keys used since |
| ResponseCache.HeldIffLive | internal/router/cache.go:40-77 | while fewer are used in between, a key is held exactly if it was put and not asked for after expiry |
| ResponseCache.UsesAreThose | internal/router/cache.go:94-112 | over every run the cache is asked once by each cacheable request made while it is enabled, filled once by each good answer to a cacheable request, and by nothing else |
| ResponseCache.ReplaysAGoodAnswer | internal/router/cache.go:94-112 | what is replayed was a successful answer without tool calls to a request with the same key, at most 24 hours ago |
| ResponseCache.ResponseCache.Get | internal/router/cache.go:40-58 | list and map stay in agreement, the answer and the new recency order are those of the model, one counter moves |
| ResponseCache.ResponseCache.Put | internal/router/cache.go:60-77 | likewise, with eviction from the back |
| ResponseCache.ResponseCache.CacheGet | internal/router/cache.go:94-104 | asks only when enabled and cacheable, and marks the copy as cached |
| ResponseCache.ResponseCache.CachePut | internal/router/cache.go:106-112 | stores only good answers to cacheable requests |
| JsonDiff.NothingReportedIff | internal/api/waf.go:101-172 | nothing is reported exactly when the trees are equal |
| JsonDiff.LeavesAreSound | internal/api/waf.go:101-182 | every report names a place where the trees differ, with both values there and the right kind |
| JsonDiff.LeavesAreOrdered | internal/api/waf.go:100-157 | the leaves come depth first in the order of keys and indexes |
| JsonDiff.LeavesAreApart | internal/api/waf.go:101-161 | no two reports lie at or below one another |
| JsonDiff.NothingMissed | internal/api/waf.go:101-161 | wherever the trees differ there is a report at, above or below that place |
| JsonDiff.DifferenceIsALeaf | internal/api/waf.go:101-172 | values that differ and cannot be compared further are reported at their own place |
| JsonDiff.RoundTripIff | internal/api/waf.go:293-327 | a printed path reads back exactly when its keys are non-empty and free of '.' and '[' |
| JsonDiff.ReadKeysAreGood | internal/api/waf.go:296-327 | no path reads as anything else |
| JsonDiff.PathsLeadBack | internal/api/waf.go:329-360 | every reported path but the root's, read back, finds the target's value in the target and the baseline's in the baseline |
| JsonDiff.PathsDiffer | internal/api/waf.go:101-161 | reported paths are distinct |
| JsonDiff.DottedKeysCollide | internal/api/waf.go:120-125 | with a dot in a key they need not be |
| JsonDiff.PathsCollideIff | internal/api/waf.go:101-161 | two reports carry the same path exactly when, in one object on their way, one goes down by a key that spells out the other's key and all that follows it |
| JsonDiff.ContinuesWithMark | internal/api/waf.go:120-125 | such a key continues the other with a dot or a bracket |
| JsonDiff.ParseLeafPath | internal/api/waf.go:296-327 | the scan reads the path, nothing for a malformed or empty one |
| JsonDiff.LeafValue | internal/api/waf.go:331-360 | follows the path down the tree |
| JsonDiff.WalkInto | internal/api/waf.go:101-161 | appends the differing leaves in key and index order, with printed paths |
| JsonDiff.LeafDiff | internal/api/waf.go:77-97 | an empty body is added or removed as a whole, bodies that do not parse are compared as a whole, and others leaf by leaf; nothing is reported exactly when both are there and equal |
| Bisect.BisectDescend | internal/api/waf_probe.go:82-98 | the loop computes the descent the lemmas below describe, counting its probes |
| Bisect.RoundsAreLogarithmic | internal/api/waf_probe.go:82-98 | for any oracle, at most the rounded-up base-2 logarithm of the lines in rounds, and two probes a round |
| Bisect.CeilLog2Is | internal/api/waf_probe.go:82-98 | that logarithm is the least exponent that reaches the number of lines |
| Bisect.ALineTakesRounds | internal/api/waf_probe.go:82-98 | a single line is not reached in fewer rounds than halving allows |
| Bisect.EndsAtALocalAnswer | internal/api/waf_probe.go:82-98 | for any oracle, the result still hits if the whole did, and is one line unless ambiguous, when neither half hits |
| Bisect.AllTriggersKept | internal/api/waf_probe.go:79-98 | when all trigger lines are needed, the result contains them, and is a single line exactly when there is one |
| Bisect.FirstTriggerFound | internal/api/waf_probe.go:79-98 | when any one is enough, the result is the first |
| Bisect.ProbePad | internal/api/waf_probe.go:24-38 | the text untouched, then filler, to exactly the target length |
| Bisect.FillingByte | internal/api/waf_probe.go:25-36 | the filler repeats without a break |
| AnthropicStream.StepKeeps | internal/api/anthropic.go:303-362 | every piece of a delta keeps the emitter's flags and indexes in agreement with what a client has read |
| AnthropicStream.WellFormedIff | internal/api/anthropic.go:276-418 | the stream is well formed (one start first, blocks 0, 1, 2, … opened and closed once, thinking signed before its block closes, deltas only while open, one closing frame, one stop last) exactly when the request failed or a delta arrived |
| AnthropicStream.NothingLost | internal/api/anthropic.go:316-362 | text deltas join to the received content, thinking deltas to the reasoning, each tool block's deltas to that tool's arguments |
| AnthropicStream.ToolBlocksAreNamed | internal/api/anthropic.go:338-357 | a tool block carries the id and name of the tool's first delta |
| AnthropicStream.BlocksOverlapIff | internal/api/anthropic.go:338-378 | two blocks are open at once exactly when a tool call is followed by anything but more of the same call |
| AnthropicStream.LastFrames | internal/api/anthropic.go:379-417 | the last two frames are an error, or a stop reason that says whether a tool was called, and the stop |
| AnthropicStream.AnthropicWriter.Receive | internal/api/anthropic.go:316-363 | handles one delta as the model does |
| AnthropicStream.AnthropicWriter.End | internal/api/anthropic.go:371-417 | ends the stream as the model does |
| AnthropicStream.AnthropicWriter.Stream | internal/api/anthropic.go:276-418 | writes the trace of the model for any deltas and outcome |

## Left out

- HTTP/2: receiving (headers, data, receive windows, resets), HPACK, header order, dialing and TLS; the receive windows are not conserved for streams the client has forgotten (`internal/tlsfp/h2client.go:516-535`), so only the send side is modelled.
- HTTP/2: a stream is a record in the connection's table, not an object of its own, so aliasing between the table and a goroutine's pointer is not captured; each locked section is one step.
- Http2Send.Connection.TryReserve: one turn of the wait loop; the loop itself is the interleaving of such turns with broadcasts.
- Waiting is modelled without fairness: a broadcast that is owed is possible at every later moment until it happens; that the scheduler runs it is not part of this model.
- RouteLoop: backoff sleeps, tracing and logs; other requests and background jobs are an arbitrary change of table and scheduler around each attempt.
- RouteLoop.RunAttempts: ends under the assumption that other requests do not keep bringing in new accounts: there is a finite set that holds the starting table's and that they do not leave.
- RouteLoop: matching of transient and safety-check texts folds ASCII letters only.
- Pool: 64-bit overflow of the products in the ratio comparison; quota amounts are exact numbers.
- HoldBack: lower-casing is ASCII, and blanks are the ASCII ones; parsing and repairing simulated tool calls is a parameter; merging of native tool-call pieces is reduced to their presence.
- QueryFold: the regular-expression steps (removing system reminders, taking skill lines out of a system message) are parameters; the attribution, title and classifier rewrites after folding are not part of this model.
- QueryFold.FoldSkillList: counts characters throughout, where the source counts some lengths in bytes.
- Conversation: the fingerprint is an arbitrary function of a message list; JSON encoding of the assistant turn is not part of this model; nor are the tool-group lookups.
- RedisStore: failures, timeouts and partial pipelines; the prefix is taken to hold no pattern characters; a scan sees a database nobody else writes meanwhile.
- RedisExpiry: covers owner entries and their index; conversations and tool groups expire one by one and lead nowhere else.
- ResponseCache: which requests are cacheable and their keys are parameters; replaying a cached answer to a stream is not part of this model.
- JsonDiff.PathsCollideIff: covers trees without an empty key at the top, whose path is the root's own.
- JsonDiff: JSON decoding is a parameter and numbers are compared as decoded values; lengths and previews of a report are functions of the values kept here; trimming blanks inside brackets is ASCII.
- Bisect: the background job around the bisection, its pauses and repetitions.
- AnthropicStream: ids, token counts, safeguard results and the non-streaming answer; write errors are ignored by the source.
- SQLite queries, settings, the dashboard, login and log cleanup: thin wrappers that would only add easy members.
