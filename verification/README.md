# Verified model of the agent daemon

A local agent daemon runs conversations with a language model: it streams model output to its
clients, executes tools, asks for approvals, delegates to sub-agents and remembers everything in
logs. This project models the concurrent protocols and the streaming state machines of that daemon
in Dafny and proves what they keep, for every interleaving, every input and every behaviour of the
outside world. `dafny verify dfyconfig.toml` checks the whole project. Nothing was executed.

## How the model is built

The modules follow the daemon's components.

* **Run events** (`RunEvents`, `RunSubscription`, `RunNotices`, `RunResync`, `RunEnding`, `RunShown`,
  `ActiveReplay`): a run's executor appends events to a durable log and broadcasts them; a subscriber
  registers, reads a snapshot, replays one page and follows the live channel. Other tasks append to the
  same log, open approvals and finish the run from outside. A delegation notice is logged first, and from
  then on broadcast any number of times, or never. Every atomic action is a `Step`; theorems quantify over
  all sequences of steps. The receive loop is a class whose method is tied to those steps.
* **Approvals** (`Approvals`, `ApprovalProtocol`): the waiters in the broker, the durable interaction
  rows, and control requests that answer or cancel under the control lock.
* **Delegations** (`DelegationTree`, `DelegationCancel`): admission with inherited budgets, the
  fixpoint loop that finds what to cancel, and cancellation while others keep delegating.
* **Paging** (`WebPaging`, `JsonBytes`, `Decimal`): size-bounded pages of compacted JSON records.
* **Model requests** (`Circuit`, `Attempt`, `Retry`, `RequestModel`, `RequestEndings`): the circuit
  breaker, one attempt and what the user sees of it, the retry policy, the routed request with retries,
  fallbacks and one compaction, and what each way a reply can end makes of it. What providers, clocks,
  other requests and cancellations do is an arbitrary function of the attempt's number (`Outside`), so
  every result holds for all of it.
* **Streams** (`ProviderEvents`, `ToolCalls`, `ToolCallLaw`, `Lines`, `SseLines`, `AnthropicStream`,
  `AnthropicBatch`, `AnthropicText`, `AnthropicRefusal`, `StreamToCalls`): bytes to lines, lines to
  payloads, payloads to provider events, events to one response: a text, a batch of calls or a refusal.
  JSON parsing and lossy UTF-8 decoding are parameters.
* **Identities** (`Utf8`, `Base64Url`, `Identity`, `LegacyStream`): the printed form of an execution
  identity and its parser, and responses of providers that do not stream.
* **Turns** (`ToolWaves`, `History`, `Turn`, `TokenChunks`, `SessionLog`, `Cancellation`): waves of tool
  calls under an arbitrary schedule, compression of the history, whole turns, token chunks, the session
  log with crashes, and the cancellation token.
* **Services** (`McpReload`, `CronJobs`): the reload of tool servers and scheduled jobs.

Objects that the daemon updates in place are classes; each method is proved against a function or a
predicate of the old state, and the properties are lemmas about those. Three parts are used through
their contracts only: the per-run log returns the rows above a number in order, at most 1000 at a
time; the broadcast channel keeps its last 1024 updates for each receiver; JSON printing and parsing
agree where a round trip is claimed.

## Where the code does not do what it seems to promise

Each of these is proved, with a concrete run or input where the promise fails and the condition under
which it holds.

* A subscription told to resynchronise after a page overflow is given the cursor of the page that was
  read and dropped. Paging from it loses exactly that page
  (`RunResync.OverflowResyncSkipsThePage`, `RunResync.OverflowCanLoseAnEvent`).
* An approval opened between the read of the open ids and the read of the page is never shown to that
  subscriber, although it is still open (`RunSubscription.ApprovalFate` is the exact condition,
  `RunSubscription.ApprovalCanBeLost` the run).
* A delegation notice is numbered in the log and unnumbered on the channel, it is logged in one
  transaction and broadcast later, a repeated spawn request broadcasts it again, and removing a queued
  child logs its end without any broadcast. So it can be shown twice
  (`RunNotices.DelegationCanBeShownTwice`) and not at all (`RunNotices.NoticeCanBeLost`). How often it
  is shown is exact (`RunNotices.NoticesShown`), and with it when every displayable event arrives once
  (`RunNotices.EveryEventOnce`). All other events that are not approvals arrive exactly once.
* After a channel lag the returned cursor is right for the run's own events
  (`RunResync.LagKeepsOwnEvents`) and not for notices, whose rows it may have passed
  (`RunResync.LagCanLoseANotice`; `RunResync.LagResyncIsComplete` is the exact condition).
* A run that is finished from outside while its executor works answers a new subscriber with failure,
  and can still complete afterwards (`RunEnding.FailedAnswerCanBeOvertaken`;
  `RunEnding.MayCompleteExactly` is the exact condition).
* A cancellation lists the delegations once; a grandchild delegated after that is not cancelled
  (`DelegationCancel.CancellationIsComplete` is the exact condition,
  `DelegationCancel.GrandchildCanEscape` the run).
* An approval that a cancelled run opens after the sweep can still be answered true
  (`ApprovalProtocol.OpenedAfterSweepCanBeApproved`). Those and only those can
  (`ApprovalProtocol.ApprovedAfterSweepExactly`), as long as their receiver is alive
  (`ApprovalProtocol.OpenAfterSweepExactly`).
* Two candidates can share a circuit when a profile id holds a colon (`Circuit.KeysCanCollide`;
  `Circuit.ProfilesSeparate` is the exact condition). Saving a profile turns its id into letters, digits
  and dashes (src/config.rs:233), so a colon comes only from a file edited by hand.
* A call whose identity is a position is sent back to Anthropic under its printed identity and never as
  `toolu_pos_n` (`Identity.RequestIdOf`): the fallback is only reached for the empty id and for a tool
  result without one, where it gives `tool` (`Identity.FallbackKnowsNoPosition`).
* Two calls of a response with different ids can get one identity, and the batch is then refused
  (`LegacyStream.DistinctIdsCanCollide`; `LegacyStream.SameIdentityExactly` is the exact condition).
* Compacting a request after a context overflow replaces its system prompt by the summary
  (`History.CompactionCanLoseThePrompt`; `History.CompactionReplacesTheFirst` is the exact condition).
* Nothing repairs a torn tail of the session log: the next append continues the torn line, and unless
  the two happen to be a message together, the log cannot be loaded any more
  (`SessionLog.AppendAfterATornTail`, `SessionLog.CorruptForGood`, `SessionLog.TornLogBecomesUnreadable`).
* Tools of different servers can share a bridged name, and the later server is then refused
  (`McpReload.ServersCollideExactly` is the exact condition, `McpReload.BridgeNamesCollide` two examples).
* A scheduled job with `max_retries` of `u32::MAX` that always fails is retried forever
  (`CronJobs.NeverGivesUpAtTheMaximum`), and a run record goes to an earlier job that has the id of the
  job for its name (`CronJobs.RecordCanGoAstray`; `CronJobs.RecordReachesItsJob` is the exact condition).
* An interval spaces the takings of a job and not its runs. Takings get closer when the job is switched
  on under a clock that was set back (`CronJobs.SwitchingOnCanBringTakingsCloser`;
  `CronJobs.NextTakingIsApartExactly` is the exact condition), and runs get closer when one of them waits
  for other jobs of its tick (`CronJobs.RunsCanBeCloser`; `CronJobs.RunsAreApartExactly`).

## Model

| member | source | states |
|---|---|---|
| `RunEvents.Replay` | src/daemon/handlers.rs:2465-2473 | the replay loop leaves the cursor on the last row of the page and sends exactly the displayable, unresolved events of that page in order |
| `RunEvents.AccountedStep` | src/daemon/handlers.rs:2547-2641 | every atomic action keeps the account "own updates broadcast so far + those logged and not yet broadcast = own rows of the log", so broadcasts follow the log in order and the number of the completion is exact |
| `RunEvents.ClosingStep` | src/daemon/handlers.rs:2588-2641 | every action keeps: nothing of the run itself follows its Terminal, and after its commit the run is no longer active |
| `RunSubscription.InvAlways` | src/daemon/handlers.rs:2369-2545 | the invariant of log, broadcast history, cursor, page and snapshot holds in every reachable state of every interleaving |
| `RunSubscription.TerminalMeansComplete` | src/daemon/handlers.rs:2507-2520 | a subscription that ends with the Terminal has delivered the whole own, non-approval event sequence above after_seq: no gap and no repeat, in log order, also when the page was exactly full |
| `RunSubscription.ExactlyOnce` | src/daemon/handlers.rs:2465-2520 | so each single own event above after_seq that must be shown occurs at exactly one place among the delivered frames |
| `RunSubscription.NumbersIncrease` | src/daemon/handlers.rs:2507-2514 | numbered events reach the subscriber in strictly increasing seq, in every interleaving |
| `RunSubscription.ApprovalFate` | src/daemon/handlers.rs:2435-2474 | an approval above after_seq reaches a subscription that ends with the Terminal if and only if it lies above the replayed page or its id was among the open ids read before the page |
| `RunSubscription.ApprovalCanBeLost` | src/daemon/handlers.rs:2435-2474 | a reachable state in which an approval is still open, the subscriber has read everything, and it was never shown |
| `RunSubscription.Subscription.Follow` | src/daemon/handlers.rs:2506-2543 | the receive loop ends in the state reached by taking Receive steps until the channel is drained or the subscription is over |
| `RunSubscription.DrainedIsReachable` | src/daemon/handlers.rs:2506-2543 | the state the receive loop ends in is reachable, so all of the above holds of it |
| `RunNotices.NoticesShown` | src/daemon/handlers.rs:858-881 | in every interleaving a delegation notice has been shown exactly as often as its rows lie in the replayed page and its broadcasts were read between the registration and the terminal |
| `RunNotices.SpawnShown` | src/daemon/handlers.rs:736-773 | a spawn is logged once, so its notice is shown once for the page, if it lies there, and once for each broadcast read, repeated spawn requests included |
| `RunNotices.OwnShownOnce` | src/daemon/handlers.rs:2465-2520 | at the terminal every own event above after_seq that is not an approval has been shown exactly once |
| `RunNotices.EveryEventOnce` | src/daemon/handlers.rs:2465-2520 | at the terminal every displayable event above after_seq that is not an approval, notices included, has been shown exactly once if and only if every notice among them has exactly one source: one row in the page, or one broadcast read |
| `RunNotices.AnsweredShowsNotices` | src/daemon/handlers.rs:2475-2505 | a subscription answered from a completed snapshot has shown each notice as often as it was logged above after_seq |
| `RunNotices.DelegationCanBeShownTwice` | src/daemon/handlers.rs:858-881 | a reachable state in which one notice was shown twice, because its broadcast copy carries no number |
| `RunNotices.NoticeCanBeLost` | src/daemon/handlers.rs:1324-1329 | a reachable subscription that was shown the spawn of a child and ends with the terminal, but was never shown the logged end of that child, because the broadcast comes only after the child has committed |
| `RunResync.ReadPages` | src/storage/mod.rs:1219-1246 | paging the log from a cursor until its end yields exactly the displayable rows above that cursor |
| `RunResync.OverflowResyncSkipsThePage` | src/daemon/handlers.rs:2454-2464 | after a page overflow nothing was shown and the pages from the returned cursor miss exactly the page that was read; they are complete if and only if that page holds no displayable event other than approvals |
| `RunResync.OverflowCanLoseAnEvent` | src/daemon/handlers.rs:2454-2464 | a reachable overflow in which a text event is in the log above after_seq and in no page from the returned cursor |
| `RunResync.LagShows` | src/daemon/handlers.rs:2531-2542 | after a lag and the pages from the returned cursor, row by row: an own event has been seen exactly once, a notice as often as its rows lie in the replayed page or above the cursor and its broadcasts were read before the lag |
| `RunResync.LagResyncIsComplete` | src/daemon/handlers.rs:2531-2542 | so nothing above after_seq is missing if and only if every notice has a source, and nothing is missing or repeated if and only if every notice has exactly one |
| `RunResync.NoticeSeenAfterLag` | src/daemon/handlers.rs:2531-2542 | a notice has been seen if and only if a row of it lies in the replayed page or above the cursor, or a broadcast of it was read before the lag |
| `RunResync.SpawnBelowTheLag` | src/daemon/handlers.rs:2531-2542 | a spawn at or below the returned cursor has been seen if and only if it was in the replayed page or its broadcast was read |
| `RunResync.LagKeepsOwnEvents` | src/daemon/handlers.rs:2531-2542 | the own events delivered before the lag, followed by those of the pages, are all of them in the order of the log |
| `RunResync.LagCanLoseANotice` | src/daemon/handlers.rs:2531-2542 | a reachable lag whose cursor has passed a notice that was neither shown nor comes in a later page |
| `RunEnding.TerminalTellsTheTruth` | src/daemon/handlers.rs:1274-1361 | a subscription that ends with the terminal ends with exactly one, as its last frame, and it says success if and only if the run has stored an answer |
| `RunEnding.NoOtherTerminal` | src/daemon/handlers.rs:2507-2520 | a terminal stands only at the end of a subscription that it ended |
| `RunEnding.AfterThePage` | src/daemon/handlers.rs:2454-2505 | which of resynchronise, answered with success, answered with failure, following and not running comes after a page, from the snapshot, the log and the registration alone |
| `RunEnding.AnswersAreTrue` | src/daemon/handlers.rs:2475-2505 | an answer of success is true of the log, and a subscription that found no channel belongs to an executor that is gone |
| `RunEnding.MayCompleteExactly` | src/daemon/handlers.rs:1294-1361 | a run without an answer can still store one if and only if its executor works or is about to broadcast, even after it was finished from outside |
| `RunEnding.FailedAnswerCanBeOvertaken` | src/daemon/handlers.rs:2483-2497 | a reachable state in which a subscriber was answered with failure and the run has completed since |
| `RunShown.ShownIsSo` | src/daemon/handlers.rs:2465-2520 | nothing is shown that is not so: a numbered frame is the row of this number above after_seq, a frame without a number announces a child, and the announced start of a child is in the log |
| `RunShown.OpenExactly` | src/daemon/handlers.rs:2435-2453 | the approvals read as open are those registered and not resolved since their first registration |
| `RunShown.ChannelEnds` | src/daemon/handlers.rs:1357-1364 | an executor that has sent its terminal or finds its run ended leaves without another word, and whoever follows the channel of an executor that has left comes to an end |
| `ActiveReplay.ActiveRequest.Publish` | src/daemon/mod.rs:146-157 | the buffer stays the longest suffix of everything published that fits 1 MiB, and the byte counter its exact weight |
| `ActiveReplay.ActiveRequest.Subscribe` | src/daemon/mod.rs:159-169 | a new subscriber is given that longest suffix |
| `ActiveReplay.LongestSuffixIsUnique` | src/daemon/mod.rs:146-157 | a suffix of the published updates fits if and only if it is no longer than the buffer |
| `Approvals.ApprovalBroker.Request` | src/daemon/approval.rs:184-225 | a request gets a fresh id and one waiter with its session and request; when it cannot be announced that waiter goes again, and nothing else changes |
| `Approvals.ApprovalBroker.RespondClaimed` | src/daemon/approval.rs:111-128 | without a waiter nothing happens, without a granted claim the waiter stays, otherwise the waiter leaves and is sent the answer |
| `Approvals.ApprovalBroker.CancelMatching` | src/daemon/approval.rs:134-149 | whatever order the map lists them in, exactly the matching waiters leave and are sent one refusal each |
| `Approvals.InteractionStore.ClaimInteraction` | src/storage/mod.rs:811-872 | the claim looks at owner, earlier answer, revision and run status in that order, and answers the row or refuses |
| `Approvals.ClaimIsGrantedExactly` | src/storage/mod.rs:811-850 | a claim is granted if and only if the interaction is of this session and run and either was answered like this before, or is unanswered at the expected revision while its run waits |
| `Approvals.ClaimWrites` | src/storage/mod.rs:843-863 | a granted claim on an unanswered interaction writes the answer at the next revision and nothing else among the rows |
| `Approvals.ClaimedForGood` | src/storage/mod.rs:830-841 | once a claim is granted the same answer is granted again at any revision, the other one never, and neither changes anything |
| `Approvals.ClaimReleasesTheRun` | src/storage/mod.rs:851-863 | a claim changes no other row, and its run resumes exactly when no other interaction of the run is open |
| `Approvals.OneAnswerWins` | src/storage/mod.rs:811-872 | however many claims race, all that are granted for one interaction give the same answer, which stays on record |
| `ApprovalProtocol.InvAlways` | src/daemon/handlers.rs:2643-2704 | waiters, durable rows, the control lock and the sweeps agree after every sequence of steps |
| `ApprovalProtocol.AnswersAreClaimed` | src/daemon/approval.rs:111-128 | each waiter is sent at most one value, and true only if its own durable row was approved |
| `ApprovalProtocol.DurableAnswerIsDelivered` | src/daemon/handlers.rs:2676-2698 | a durable answer is the one its waiter was sent, unless the receiver was already gone |
| `ApprovalProtocol.SweptIsNeverApproved` | src/daemon/handlers.rs:2899-2912 | a waiter refused by a cancellation is never answered true |
| `ApprovalProtocol.SweepIsScoped` | src/daemon/approval.rs:130-149 | a sweep hits exactly the waiters of its own session and request, even when request ids repeat |
| `ApprovalProtocol.DecidedIsFinal` | src/daemon/approval.rs:111-149 | a waiter that has left the map is sent nothing more, whatever happens later |
| `ApprovalProtocol.GivenUpIsNeverAnswered` | src/daemon/approval.rs:184-225 | a request that gave up is sent nothing more, whatever follows |
| `ApprovalProtocol.UndeliveredAnswerEndsItsRun` | src/daemon/handlers.rs:2682-2698 | an answer that was stored but could not be delivered ends the run of its interaction before the control lock is released; one that was delivered or not stored ends no run |
| `ApprovalProtocol.SweepEndsApprovals` | src/daemon/handlers.rs:2899-2912 | an approval registered before the sweep of its run can never be answered true after it |
| `ApprovalProtocol.ApprovableExactly` | src/daemon/handlers.rs:2643-2704 | from every reachable state an opened approval can still be answered true if and only if it was so already, or it is open, its receiver listens, its interaction is not orphaned and the holder of the control lock is not about to end it |
| `ApprovalProtocol.ApprovedAfterSweepExactly` | src/daemon/handlers.rs:2899-2912 | after the sweep an approval of that session and request can be open and be answered true if and only if it is opened after the sweep |
| `ApprovalProtocol.OpenAfterSweepExactly` | src/daemon/handlers.rs:2899-2912 | one that is open at some later moment was opened after the sweep, and can be answered true if and only if its receiver is alive, its interaction is not orphaned and the holder of the control lock is not about to end it |
| `ApprovalProtocol.OpenedAfterSweepCanBeApproved` | src/daemon/handlers.rs:2907-2912 | a concrete run in which an approval opened after the sweep is answered true |
| `DelegationTree.CancelTargets` | src/daemon/handlers.rs:2809-2820 | the fixpoint loop terminates; its targets are exactly the strict descendants among the listed delegations, each once, each after a parent of it, for any list order |
| `DelegationTree.ForestCancelsTopDown` | src/daemon/handlers.rs:2809-2829 | in a forest every target is cancelled after the only run that delegated it |
| `DelegationTree.AdmitKeepsInv` | src/daemon/handlers.rs:662-735 | admitting one request keeps: each run delegated once and after its parent, children within their parents, at most eight spawns for each root, depth at most two |
| `DelegationTree.AdmittedWithinLimits` | src/daemon/handlers.rs:662-735 | everything ever admitted was asked for by a running parent, has the tool read_file only, 1 to 15 rounds, 512 to 32000 tokens, 1 to 32 tool calls and a deadline after its admission, at depth one or two, with at most eight for each root |
| `DelegationTree.RootRequestIsAdmittedExactly` | src/daemon/handlers.rs:662-735 | a request of a run that was not delegated is admitted if and only if it is fresh, within these limits and those of its session, and its root has fewer than eight delegations and fewer than four live ones; it then gets exactly what it asked for |
| `DelegationTree.ChildRequestIsAdmittedExactly` | src/storage/delegation.rs:65-146 | a request of a delegated run is admitted if and only if, besides, it asks for no more than that run has, before its deadline and one level below; its deadline is the earlier of the two |
| `DelegationTree.BudgetsNeverGrow` | src/daemon/handlers.rs:662-735 | in every forest admission can build, tools, rounds, tokens, tool calls and deadline never grow along a path |
| `DelegationCancel.CancellationIsComplete` | src/daemon/handlers.rs:2791-2831 | while others keep delegating, a finished cancellation has marked every descendant if and only if nothing below the top was delegated after the listing |
| `DelegationCancel.MarkedRunsStopDelegating` | src/daemon/handlers.rs:736-753 | whatever follows, a marked run stays marked and its children stay what they are |
| `DelegationCancel.CancelledTreeIsFinal` | src/daemon/handlers.rs:736-753 | a tree that is wholly marked at some moment is the same wholly marked tree at every later one |
| `DelegationCancel.GrandchildCanEscape` | src/daemon/handlers.rs:2797-2829 | a reachable finished cancellation with a grandchild that was neither listed nor cancelled |
| `WebPaging.TruncationLaws` | src/daemon/handlers.rs:2970-2990 | truncation keeps shape and keys, cuts every longer string to the limit, of which all but the seven characters of the marker are its own beginning, leaves what fits alone and is idempotent |
| `WebPaging.CompactedLaw` | src/daemon/handlers.rs:2950-2968 | a record that fits is kept; otherwise its strings are cut to the first of 65536, 16384, 4096, 1024 and 256 characters with which it fits, and it is replaced when it fits with none |
| `WebPaging.CompactJson` | src/daemon/handlers.rs:2950-2968 | the result fits the byte limit or is the placeholder, and is the first of the five truncations that fits |
| `WebPaging.BoundedPage` | src/daemon/handlers.rs:2917-2948 | the page is a prefix of the compacted records, one at least and else as many as the limit and the byte budget allow, and has_more holds exactly when records remain |
| `WebPaging.PageSizeIsUnique` | src/daemon/handlers.rs:2917-2948 | the records, the limit and the budget leave no choice of how long a page is |
| `WebPaging.ShownIsSmall` | src/daemon/handlers.rs:2939-2968 | every shown record encodes within WEB_PAGE_MAX_ITEM_BYTES |
| `WebPaging.PageFitsTheFrame` | src/daemon/handlers.rs:2917-2948 | every page, of whatever records, encodes within WEB_PAGE_MAX_BYTES |
| `JsonBytes.LengthIsExact` | src/daemon/handlers.rs:2937-2938 | the size counted for a record is the number of bytes of its compact JSON encoding, escapes and UTF-8 included |
| `JsonBytes.PageBytesFitTheFrame` | src/daemon/handlers.rs:2917-2948 | the encoded bytes of every page fit into 4 MiB less 256 KiB, and those of every record into 256 KiB |
| `WebPaging.LoadAllPages` | src/daemon/handlers.rs:1462-1480 | asking with offset += returned until has_more is false terminates and yields every compacted record once, in order, in pages that are as long as they may be under the limit kept within 1 and 200 |
| `Circuit.CircuitBreaker.AcquireKey` | src/provider/circuit.rs:33-50 | the answer and the new entries are those of the history of all calls, which grows by this one |
| `Circuit.CircuitBreaker.RecordKey` | src/provider/circuit.rs:52-77 | the same for a record |
| `Circuit.EntryMeaning` | src/provider/circuit.rs:33-77 | an entry says exactly what the records of its own key say: opened if and only if the trailing run of transient failures is at least three; an active probe implies opened |
| `Circuit.AcquireLaw` | src/provider/circuit.rs:40-49 | closed, half-open or open is decided by the history alone: a probe needs the open duration to have passed since the last record and no probe granted since |
| `Circuit.RecordLaw` | src/provider/circuit.rs:59-76 | a record leaves the circuit open exactly when it makes at least three transient failures in a row |
| `Circuit.OneProbePerRecord` | src/provider/circuit.rs:40-49 | between two granted probes on a key there is a record on that key |
| `Circuit.KeysAreIndependent` | src/provider/circuit.rs:33-77 | erasing all calls on other keys changes no entry |
| `Circuit.ProfilesSeparate` | src/provider/route.rs:36-38 | some models of two profiles share a circuit if and only if one profile id, closed by a colon, begins the other |
| `Circuit.ModelsSeparate` | src/provider/route.rs:36-38 | models of one profile have separate circuits |
| `Circuit.KeysCanCollide` | src/provider/route.rs:36-38 | two different candidates that share a circuit |
| `Attempt.Observer.Consume` | src/loop_engine.rs:1249-1337 | after every event the flags say what they should of the events seen, the assembler has them all, and the user has been shown exactly their text and thinking, with thinking closed before text |
| `Attempt.RequestModelOnce` | src/loop_engine.rs:815-1017 | the outcome, the commit flag and what was shown, as a function of the events and the ending alone |
| `Attempt.UncommittedIsSilent` | src/loop_engine.rs:1249-1330 | an attempt is uncommitted if and only if it has shown nothing and spoken of no tool |
| `Attempt.TextualExactly` | src/loop_engine.rs:1260-1267 | a stream has started no call, reported no failure and nothing unlawful if and only if it holds no event about tools |
| `Retry.DecideLaw` | src/provider/retry.rs:38-82 | kind by kind: retried if and only if that is safe and fewer retries were made than the policy says for this kind; handed on if and only if there is another candidate and no retry left; the overall deadline, cancellations and permanent kinds always fail |
| `Retry.DelayLaw` | src/provider/retry.rs:57-63 | a retry waits what the provider asked for, or a time that starts at 100 ms and doubles with each of the first six retries plus less than 67 ms, and never longer than the policy allows |
| `RequestModel.RequestModel` | src/loop_engine.rs:579-812 | for every behaviour of the outside the attempts form a possible run, the answer is the one the run leads to, the request sleeps exactly before the retries, and the user was shown exactly what the attempts emitted |
| `RequestModel.OnlyTheLastCommits` | src/loop_engine.rs:757-782 | only the last attempt of a request may have shown text or thinking or touched a tool |
| `RequestModel.NeverOnAnOpenCircuit` | src/loop_engine.rs:774-782 | no attempt follows on a candidate whose circuit the last record left open |
| `RequestModel.CompactsOnce` | src/loop_engine.rs:757-766 | attempts send the original messages, and after one successful compaction its result |
| `RequestModel.CompactionIsTriedOnce` | src/loop_engine.rs:757-766 | compacting is tried at most once in a request, whether it succeeds or not |
| `RequestModel.AttemptsAreBounded` | src/loop_engine.rs:579-812 | at most (largest retry budget + 1) attempts for each candidate, and one more |
| `RequestModel.AnswerIsWhatWasShown` | src/loop_engine.rs:579-812 | when a request answers with text, the concatenation of all text shown over all attempts is that text; the shown thinking is the returned thinking |
| `RequestModel.AnswerIsUsable` | src/loop_engine.rs:674-688 | an answer is never an empty text, never cut, and never from a stream that did not end properly |
| `RequestEndings.ErrorOfABrokenReply` | src/loop_engine.rs:885-934 | a cancelled reply is cancelled, an overall deadline is the overall timeout, the own kind of a provider is kept, any other failure is a protocol error, and an expired phase is connect, first event or stream idle by the events before it |
| `RequestEndings.ErrorOfAFinishedReply` | src/loop_engine.rs:674-688 | a finished reply is a protocol error, truncated, reasoning only, empty or without error, each exactly when the events say so |
| `RequestEndings.WhatTheCircuitIsTold` | src/loop_engine.rs:689-751 | an attempt counts against its circuit if and only if it ran into a deadline or the provider named a rate limit, its transport, its server or a timeout; it clears it if and only if it has no error and its calls could be assembled |
| `RequestEndings.PermanentFailureClears` | src/loop_engine.rs:744-751 | a failure that is not for the moment ends the run of failures on its circuit and leaves it closed |
| `RequestEndings.FinalErrorsEnd` | src/loop_engine.rs:767-811 | an attempt with a kind that is neither retried nor handed on is the last under every policy, and the request is refused with that kind |
| `RequestEndings.CancellationEndsTheRequest` | src/loop_engine.rs:719-751 | a request cancelled while a provider answers makes no further attempt, is refused as cancelled, and its circuit does not count it |
| `RequestEndings.OverallDeadlineEndsTheRequest` | src/loop_engine.rs:917-934 | the deadline of the whole request is never retried: the attempt is the last and the request is refused with it; it counts against the circuit |
| `RequestEndings.OwnKindIsKept` | src/loop_engine.rs:719-729 | the kind a provider gives its failure is the error of the attempt, and of the request when that attempt is the last |
| `RequestEndings.CandidatesInOrder` | src/loop_engine.rs:612-639 | candidates are taken in order past open circuits only, the first attempt on a candidate has no retries behind it and each later one has one more, compactions aside |
| `RequestEndings.WaitsAsTold` | src/loop_engine.rs:784-799 | the request sleeps after an attempt if and only if it is retried on the same candidate, for the time the provider asked for within the limit of the policy, or at least 100 ms |
| `RequestEndings.NothingTried` | src/loop_engine.rs:588-625 | a request without any attempt was cancelled, or met only open circuits and blames the server |
| `RequestEndings.RequestIsDetermined` | src/loop_engine.rs:579-812 | attempts and answer are determined by the policy and what the outside does |
| `ToolCalls.ToolCallAssembler.AcceptEvent` | src/tool_calls.rs:53-160 | one event moves the assembler as the transition function says, and lets through exactly the text deltas |
| `ToolCalls.ToolCallAssembler.FinishStream` | src/tool_calls.rs:162-211 | the loops of finish compute the response the specification gives |
| `ToolCallLaw.AlwaysWellFormed` | src/tool_calls.rs:38-45 | the keys of the table are always exactly the duplicate-free order, failed or not |
| `ToolCallLaw.AssemblerIsFaithful` | src/tool_calls.rs:53-160 | the assembler has not failed if and only if no failure was reported and the own events of every identity read start, fragments, completion; then it remembers exactly those |
| `ToolCallLaw.FirstFailureWins` | src/tool_calls.rs:53-60 | the first failure decides the response whatever follows |
| `ToolCallLaw.AllOrNothing` | src/tool_calls.rs:162-211 | calls come back if and only if every start completed lawfully, nothing was reported or cut and all arguments parse; then one call for each start in order, each from its own events |
| `ToolCallLaw.TextOnly` | src/tool_calls.rs:162-185 | text comes back if and only if nothing was reported and no call started; it is all the text shown |
| `ToolCallLaw.FirstFailureCode` | src/tool_calls.rs:53-160 | the error code of a refused stream is that of the first event that made it unlawful, whatever follows: blank name, repeated identity, fragment or completion without a start, after the completion or after a snapshot |
| `ToolCallLaw.RefusalOfALawfulStream` | src/tool_calls.rs:162-211 | a lawful stream is refused for a cut output, a call that never ended or arguments that do not parse, in this order and exactly then |
| `AnthropicStream.StreamState.ConsumeSseLine` | src/provider/anthropic.rs:244-288 | one line moves the adapter as the specification says: skipped lines, garbage, usage, blocks, truncation, error and stop |
| `AnthropicStream.StreamState.StartContentBlock` | src/provider/anthropic.rs:290-338 | a tool block without id or name, or on a live index, is reported; otherwise it opens and starts a call |
| `AnthropicStream.StreamState.ConsumeContentDelta` | src/provider/anthropic.rs:340-384 | text and thinking are sent on, and a JSON fragment goes to the call of its index or is reported as anonymous |
| `AnthropicStream.StreamState.StopContentBlock` | src/provider/anthropic.rs:386-399 | stopping an open block completes its call, any other stop does nothing |
| `AnthropicStream.CouplingAlways` | src/provider/anthropic.rs:199-203 | after every payload, unless the assembler has failed, the open blocks are distinct and exactly the started and uncompleted calls |
| `AnthropicStream.NeverOutOfOrder` | src/provider/anthropic.rs:290-399 | the adapter never makes the assembler itself report an event out of order |
| `AnthropicStream.MeaningOfALine` | src/provider/anthropic.rs:249-255 | a line is data if and only if it starts with data: and its rest, without leading whitespace, is neither empty nor [DONE] |
| `AnthropicBatch.EndToEnd` | src/provider/anthropic.rs:290-399 | a batch comes back if and only if the tool blocks of the payload stream are well formed and closed, the output is not cut and every block parses; then one call for each block in order of block start, from exactly its own fragments |
| `AnthropicBatch.ReadingSucceeds` | src/provider/anthropic.rs:220-241 | reading succeeds if and only if no error was reported and message_stop arrived |
| `AnthropicText.TextIsWhatWasSaid` | src/provider/anthropic.rs:290-384 | the text shown is the texts of text blocks and text pieces, joined in order up to an error report; the thinking likewise; and tools are spoken of if and only if a payload starts a tool block or brings a JSON piece |
| `AnthropicText.TextResponseExactly` | src/provider/anthropic.rs:290-384 | the response is a text if and only if no payload touches a tool, and then it is that text |
| `AnthropicText.NotesAreCounted` | src/provider/anthropic.rs:262-285 | usage, the end of the message and a cut output are noted once for each payload that says so |
| `AnthropicRefusal.RefusedExactly` | src/provider/anthropic.rs:290-399 | a response is refused with an error if and only if the payloads give that reason: the first illegal payload, else an unclosed block, else a cut output, else pieces that do not parse |
| `SseLines.ParseSse` | src/provider/anthropic.rs:205-242 | for every chunking the events sent and the outcome are those of the whole byte string cut at line feeds |
| `SseLines.StripMeaning` | src/provider/anthropic.rs:215-218 | a line loses exactly the line feeds and carriage returns at its end |
| `SseLines.BytesArePayloads` | src/provider/anthropic.rs:205-242 | a byte string all of whose lines can be read does what its payloads do in order |
| `StreamToCalls.CollectResponse` | src/tool_calls.rs:8-32 | from the chunks of a connection: a response exists if and only if the connection did not break, every line could be read, no error was reported and message_stop arrived; it is the text, the batch or the refusal that the payloads in the bytes ask for, each exactly when they ask for it, whatever the chunking and the interleaving |
| `Lines.CutIsExact` | src/provider/anthropic.rs:213-214 | cutting after every line feed loses nothing |
| `Lines.CutIsUnique` | src/provider/anthropic.rs:213-214 | there is only one way to cut into lines with one line feed at their end and a rest without |
| `Lines.CutExtends` | src/provider/anthropic.rs:212-220 | cutting a longer byte string continues from the buffered rest of the shorter one |
| `Utf8.RoundTrip` | src/provider.rs:485-518 | RFC 3629: every text is read back from its bytes |
| `Utf8.OnlyEncodingsDecode` | src/provider.rs:505-508 | no bytes other than the encoding of a text decode to it |
| `Base64Url.Base64RoundTrip` | src/provider.rs:485-518 | RFC 4648 sections 3.2 and 5: every byte string is read back from its unpadded letters |
| `Base64Url.OnlyEncodingsDecode64` | src/provider.rs:505-507 | no letters other than the encoding of some bytes decode to them |
| `Decimal.ParsePrint` | src/provider.rs:509-513 | every u64 is read back from its decimal form, and no larger number is read |
| `Base64Url.TestVectors` | src/provider.rs:485-493 | the test vectors of section 10 of RFC 4648 and the two letters of the URL-safe alphabet |
| `Identity.PrintedForms` | src/provider.rs:485-497 | how a wire id and a position are printed |
| `Identity.IdentityRoundTrip` | src/provider.rs:485-518 | decode(encode(x)) is x for every identity |
| `Identity.EncodingIsInjective` | src/provider.rs:485-497 | different identities print differently |
| `Identity.RequestIdOf` | src/provider/anthropic.rs:158-191 | a wire id goes back to the provider as it came; a position is sent as the printed identity, not as toolu_pos_n |
| `Identity.FallbackKnowsNoPosition` | src/provider/anthropic.rs:158-191 | a result carries the id of its call; the position fallback is reached exactly for the empty id and for a result without one, and gives the empty id or "tool" |
| `LegacyStream.EmitLegacyResponse` | src/provider.rs:605-657 | the loop sends the start, the snapshot and the completion of every call in order, or one failure for an empty batch |
| `LegacyStream.LegacyRoundTrip` | src/provider.rs:605-657 | a non-empty batch comes back with the same names and arguments in order if and only if names are non-blank and identities distinct |
| `LegacyStream.ImproperBatchIsRefused` | src/provider.rs:605-657 | any other batch is refused for its first call with a blank name or an identity that came before |
| `LegacyStream.OthersComeBack` | src/provider.rs:605-621 | a text comes back as that text, a failure as that failure, and an empty batch as the failure empty_tool_calls |
| `LegacyStream.SameIdentityExactly` | src/provider.rs:623-629 | two calls of a response get one identity if and only if they share a non-empty id, or their ids print the same identity, or the id of one prints what the other is given |
| `LegacyStream.PlainIdsAreDistinct` | src/provider.rs:623-629 | where no id looks like a printed identity, a batch is distinct if and only if no two calls share a non-empty id |
| `LegacyStream.DistinctIdsCanCollide` | src/provider.rs:623-629 | two calls with different ids that get one identity |
| `ToolWaves.ExecuteInWaves` | src/loop_engine.rs:1035-1081 | for every schedule: reads in a row are one wave and every other call its own, played one after the other as the schedule decides; result i belongs to call i, at most eight calls are in flight, calls that cannot run together are ordered, the first failing call by position decides, and no later wave starts after it |
| `ToolWaves.EndOfReads` | src/loop_engine.rs:1046-1049 | a read wave takes all the reads from the cursor on |
| `ToolWaves.StepGoesOn` | src/loop_engine.rs:1050-1063 | every step of every schedule keeps what a wave keeps and brings it closer to its end |
| `ToolWaves.EightMayRun` | src/loop_engine.rs:1050-1063 | eight reads of a wave can be in flight at once, started in order, and a ninth has to wait |
| `ToolWaves.NoOverlap` | src/loop_engine.rs:1035-1081 | of two calls not both read-only the earlier has finished at every moment at which the later has started |
| `ToolWaves.PrefixIsGood` | src/loop_engine.rs:487-498 | a batch dropped midway by a cancellation has kept all of this so far |
| `History.FindSplit` | src/context.rs:250-257 | the split is the largest one up to the target that does not start the rest with a tool result |
| `History.TargetLaw` | src/context.rs:245-249 | a strong compression aims at all but the recent messages, a mild one at a third of them, rounded up |
| `History.CompressHistory` | src/context.rs:232-272 | the history is unchanged or its first messages up to that split become their summary; it fails if and only if that summary fails, and then nothing changes |
| `History.WhatCompressionLeaves` | src/context.rs:259-271 | when the summary succeeds the history is the summary note and the messages from the split on |
| `History.CompressionKeepsPairs` | src/context.rs:250-257 | compression never parts a tool result from its call |
| `History.CompressionKeepsTie` | src/context.rs:262-271 | the history stays the log, or one summary and a suffix of the log |
| `History.CompressionKeepsRecent` | src/context.rs:232-272 | the last recent_messages messages survive every compression |
| `History.PairedPrefix` | src/session.rs:191-227 | a log cut by a crash between two messages still has every result with its call |
| `History.CompactForOverflow` | src/context.rs:275-287 | a compacted request is estimated smaller and is a strong compression of the original; there is none if and only if the request has at most two messages or no strong compression is smaller |
| `History.CompactionReplacesTheFirst` | src/context.rs:275-287 | a compacted request is the summary of the messages before the split and the messages from it on; its first message, the system prompt, is still there if and only if it reads like that summary or is repeated from the split on |
| `History.CompactionKeepsTheRest` | src/context.rs:275-287 | a compacted request keeps results with their calls and the last messages |
| `History.CompactionCanLoseThePrompt` | src/context.rs:275-287 | a request of three messages whose compaction has lost the system prompt |
| `Turn.ConstantSuffixIsLongest` | src/loop_engine.rs:1389-1397 | the repeat count is the length of the longest suffix of equal batches |
| `Turn.RepeatDetector.Observe` | src/loop_engine.rs:1389-1397 | the returned count is that length for everything observed, saturating |
| `Turn.Conversation.Record` | src/loop_engine.rs:1019-1025 | a message is appended to the log and then to the history, or neither changes; the history invariants are kept |
| `Turn.Conversation.RecordExecution` | src/loop_engine.rs:482-514 | the calls and then their results in order are recorded, up to the first append that is refused |
| `Turn.Conversation.Compress` | src/context.rs:143-178 | a compression before a round keeps the invariants, the log and the recent messages, and fails if and only if a summary was needed and failed |
| `Turn.RunTurn` | src/loop_engine.rs:283-577 | over whole turns with arbitrary replies, failures, compressions and store errors: what is appended is the script of the rounds up to the first refused append, which exactly is a store error; otherwise the turn ends in the very round that ends it, with its text if and only if the last reply is a text, and the history is what the compressions and messages of the rounds make of it |
| `Turn.VerdictLaw` | src/loop_engine.rs:398-574 | which replies end a turn and how: text, failed request, broken tools, ten executed rounds with the same calls and results, or a failing round with three failures counted |
| `Turn.TranscriptLaw` | src/loop_engine.rs:398-514 | what a reply leaves in the conversation: the text, the calls followed by one result for each in order, or one note |
| `Turn.FailuresSinceTheLastCleanRound` | src/loop_engine.rs:412-574 | the failures counted are the failing calls and unusable replies since the last round without any |
| `Turn.BudgetLaw` | src/loop_engine.rs:358-396 | the budget ends a turn if and only if the last reply is no text and the measured or the summed tokens exceed it |
| `Turn.TextIsTheAnswer` | src/loop_engine.rs:398-410 | a turn of which everything was stored is answered if and only if the last reply is a text, and with that text |
| `Turn.FailingRoundsAreCounted` | src/loop_engine.rs:412-574 | a turn that goes on has not had as many failing rounds in a row as the limit |
| `TokenChunks.EstimateTextTokens` | src/context.rs:355-366 | the counting loop computes two tokens for three CJK and one for four other characters, both rounded up |
| `TokenChunks.EstimateLaw` | src/context.rs:355-366 | the estimate is two thirds of the CJK characters and a quarter of the others, each rounded up |
| `TokenChunks.CjkBlocks` | src/context.rs:373-378 | the first and the last character of each CJK block count, and their neighbours do not |
| `TokenChunks.OneMoreCharacter` | src/context.rs:355-366 | one more character costs at most one more token |
| `TokenChunks.SplitForTokenBudget` | src/context.rs:380-394 | the chunks join to the text, each was closed as soon as it was full, and only the last may not be full |
| `TokenChunks.ChunksFitTheBudget` | src/context.rs:380-394 | with a budget of at least one, every chunk fits it and has at most three characters for each token of it, every chunk but the last has reached one of the two, and n characters make at most ceil(n / budget) chunks |
| `SessionLog.SessionStore.Append` | src/session.rs:229-251 | the file grows by the line of the message |
| `SessionLog.SessionStore.LoadPath` | src/session.rs:191-227 | the loop over lines computes the specified load |
| `SessionLog.LoadFailsAtFirstGarbage` | src/session.rs:206-223 | loading fails exactly at the first terminated line that is neither blank nor a message |
| `SessionLog.LoadedIsDecoded` | src/session.rs:191-227 | what is loaded is one message for each line that is not blank, in order, and one more for an unterminated rest that is a message |
| `SessionLog.DropEndLaw` | src/session.rs:199-206 | a line may end with a line feed or a carriage return and a line feed |
| `SessionLog.AnyCutLoads` | src/session.rs:191-251 | wherever a crash cuts the appended lines, exactly the wholly written messages are loaded |
| `SessionLog.AppendAfterACleanEnd` | src/session.rs:229-251 | appending to any readable log that ends with a line feed adds the message |
| `SessionLog.AppendAfterATornTail` | src/session.rs:229-251 | after a torn tail an append leaves the log readable if and only if the torn bytes and the new message together are a message or blank |
| `SessionLog.CorruptForGood` | src/session.rs:191-251 | a log that cannot be loaded fails at the same line whatever is appended later |
| `SessionLog.TornLogBecomesUnreadable` | src/session.rs:206-251 | a log of one message and one torn byte that loads, and after one more message never again, whatever follows |
| `Cancellation.InvAlways` | src/loop_engine.rs:98-117 | after every interleaving of waiters and cancellers: who sleeps registered before the first notification |
| `Cancellation.NoWakeupIsLost` | src/loop_engine.rs:108-117 | once cancelled and notified, every continuation that holds enough actions of a waiter leaves it returned, wherever it was and whatever the others do |
| `Cancellation.ReturnsOnlyWhenCancelled` | src/loop_engine.rs:108-117 | a waiter returns only after a cancellation |
| `Cancellation.NotifiesOnceAlways` | src/loop_engine.rs:98-102 | however many cancel, the waiters are notified once |
| `Cancellation.CancellationReachesEveryone` | src/loop_engine.rs:98-117 | when someone has cancelled and everyone who began to has also notified, every waiter that takes three actions of its own has returned |
| `Cancellation.OnlyCancellersCancel` | src/loop_engine.rs:98-102 | the token is cancelled if and only if someone has cancelled it |
| `McpReload.TakeIn` | src/mcp.rs:83-125 | a connected server is taken in whole, or a collision leaves the tool map as it was |
| `McpReload.Reload` | src/mcp.rs:71-158 | the tool map is the disjoint union of what exactly the connected servers offer, and the status says which they are |
| `McpReload.SanitizeLaw` | src/mcp.rs:690-701 | letters are written small, digits and underscores stay, everything else becomes an underscore |
| `McpReload.SameServerNames` | src/mcp.rs:686-701 | within one server two tools share a bridged name if and only if their sanitized names are equal |
| `McpReload.ServersCollideExactly` | src/mcp.rs:686-701 | two servers have tools that share a bridged name if and only if one sanitized server name, followed by the separator, begins the other |
| `CronJobs.ExecuteJob` | src/cron.rs:437-471 | tries until the first success or until the retries are used up, and sleeps the sum of the delays |
| `CronJobs.DelayDoubles` | src/cron.rs:451-452 | the first wait is the backoff, each of the next twenty doubles, then it stays, and none exceeds u64::MAX |
| `CronJobs.RunIsBounded` | src/cron.rs:445-459 | below the maximum, at most max_retries + 1 attempts and at most backoff * (2^max_retries - 1) seconds of sleep |
| `CronJobs.NeverGivesUpAtTheMaximum` | src/cron.rs:447-450 | every number of failures is retried if and only if the counter cannot exceed max_retries |
| `CronJobs.CronStore.TakeDue` | src/cron.rs:223-237 | takes exactly the enabled due jobs in order and moves exactly their next run; nothing changes when the state cannot be stored |
| `CronJobs.CronStore.Record` | src/cron.rs:239-249 | the record goes to the first job with this id or name, whose last twenty records are kept |
| `CronJobs.TheLastTwenty` | src/cron.rs:244-247 | at most twenty records are kept, and they are the last |
| `CronJobs.RecordReachesItsJob` | src/cron.rs:239-268 | a record made under the id of a job reaches that job if and only if no earlier job has that id for a name; otherwise that earlier job gets it |
| `CronJobs.RecordOfARemovedJob` | src/cron.rs:239-268 | the record of a job that was removed meanwhile goes to the job named like its id, if there is one |
| `CronJobs.RecordCanGoAstray` | src/cron.rs:239-268 | two jobs with different ids and names where the record of the second goes to the first |
| `CronJobs.CronStore.SetEnabled` | src/cron.rs:186-198 | switches the first job with this id or name on or off; switching on starts its interval anew |
| `CronJobs.NextRunComesFromLastSet` | src/cron.rs:44-47 | the next run is exactly one interval after the clock of the taking or switching on that set it last, or u64::MAX |
| `CronJobs.NextTakingIsApartExactly` | src/cron.rs:44-47 | after a taking, every tick that can take the interval job next is at least one interval later if and only if the last switching on since, if any, read a clock that was not behind the taking |
| `CronJobs.TakingsAreApart` | src/cron.rs:223-237 | any two takings of an interval job are at least one interval apart, whatever the ticks read, as long as no switching on between reads a clock behind an earlier taking |
| `CronJobs.SwitchingOnCanBringTakingsCloser` | src/cron.rs:186-196 | a job that runs every minute, switched on while the clock is behind, is taken at 100 and at 101 |
| `CronJobs.RunDue` | src/cron.rs:424-435 | the jobs of one tick run one after the other: each starts when those before it and the pauses are over |
| `CronJobs.RunsAreApartExactly` | src/cron.rs:424-435 | takings an interval apart make runs an interval apart, whatever the later one waits, if and only if the earlier one did not wait or the clock is saturated |
| `CronJobs.RunsCanBeCloser` | src/cron.rs:424-435 | two ticks in which a job that runs every minute starts at 100 and at 110, behind a long run |
| `CronJobs.DueIsTaken` | src/cron.rs:223-237 | a tick takes a job if and only if it is enabled and its time has come |

## Left out

- SQLite, files, sockets, child processes, HTTP, the tokio runtime, JSON parsing and printing, hashing and tracing: only their contracts are used.
- The failing branches of storage calls inside the event protocol, and the audit records of provider attempts and tools: they only abort the request that meets them.
- `handle_subscribe` with an ambiguous request id or without a known run answers at once and is not modelled; the snapshot's content is reduced to its last number and status.
- The table of active requests, the queue of a session and the queue's own limits: liveness of the queue is not claimed.
- DelegationTree.RootRequestIsAdmittedExactly: a repeated spawn key returns the record of the earlier request and admits nothing, which is not modelled; refusals are not told apart by their error.
- Texts of error messages; error codes are kept where a decision depends on them.
- RunSubscription.ExactlyOnce: speaks of the run's own events that are not approvals; delegation notices are counted in `RunNotices.EveryEventOnce`, approvals in `RunSubscription.ApprovalFate`.
- RunSubscription.TerminalMeansComplete: the run is taken while its executor lives; reconciling an unknown run after a restart may log its content later (src/storage/mod.rs:978-1060), and cancelling a run that is still queued broadcasts its Terminal without an executor (src/daemon/handlers.rs:2866-2880).
- WebPaging.ShownIsSmall: the placeholder message is taken to have at most 1000 characters and encoded lengths to be machine words; the two messages in use are far shorter.
- WebPaging.CompactJson: the tree is rebuilt instead of mutated in place.
- RequestModel.RequestModel: a request without a route makes the single attempt of `Attempt.RequestModelOnce`; writing audit events may abort a request and is not modelled; the sleeps are recorded but time itself is not modelled.
- Attempt.RequestModelOnce: deadlines are not clocks here; which of the competing branches ends an attempt, and how many events are still queued then, is arbitrary.
- AnthropicBatch.EndToEnd: requires that no error payload was reported, because a request with one fails before a response is made; `AnthropicBatch.ReadingSucceeds` says exactly when that is.
- SseLines.ParseSse: a lone carriage return ends no line, as in the code; the other line ends of section 9.2.5 of the WHATWG HTML Living Standard are not recognised there either.
- ToolWaves.ExecuteInWaves: what executing a call gives is fixed in advance for each call, so effects of one call on another are not modelled; a cancellation midway is a prefix (`ToolWaves.PrefixIsGood`).
- Turn.RunTurn: runs over a finite list of rounds, so every result is about every finite beginning of a turn; reminders and transient messages change requests only and are left out; what a request and its reply cost is an arbitrary number for each round; an append to the session log is atomic here; the notes for an unusable reply differ in their text only and are one note here.
- History.CompressHistory: the recursion that makes the summary text is a parameter; its depth limit is not modelled.
- SessionLog.AnyCutLoads: the codec is abstract; it prints one line, reads it back, and takes no proper part of a line for a message.
- Cancellation.NoWakeupIsLost: the notifier is a generation counter read when a waiter registers, which is what the code relies on.
- McpReload.Reload: connecting, shutting down and the sorting of the status by name are left out.
- CronJobs.ExecuteJob: five-field cron expressions and the set of running jobs are left out; schedules are intervals, and a job that is still running when it is taken is not modelled.
- CronJobs.TakingsAreApart: speaks of takings by ticks; a run by hand (src/cron.rs:419-422) ignores the schedule and starts at any time.
- The OpenAI and Ollama adapters, request building, the safety policy, memory, skills, plans, configuration, the command line and the web client: tables and formatting that would add easy members.
- The client library's demultiplexer: its promise of one terminal frame for each request does not hold when its reader and its failure handler race.
