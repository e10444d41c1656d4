# tobee: the durable task pipeline and the agent loop

A Dafny model of the part of tobee that must not lose, repeat or misdirect work, with proofs.
`dafny verify dfyconfig.toml` checks all of it.

- **Tasks.** `TaskQueue` is the on-disk FIFO of `internal/taskqueue/queue.go`: a class whose methods change the
  in-memory slice and map and two directories, over a drive that records every state its files pass through.
  `Events` holds the keys that match an answer to a question, `Approval` what counts as a yes. `Wakeup` is the
  capacity-one notify channel as interleaved steps, and `Waking` shows that the queue's own operations are chains of
  them. `Pipeline` is ingest, worker, park, crash and reopen as one state machine, `Guarantees` what holds in every
  state of every run of it, and `Losses` runs that show what does not. `Driven` is the same machine with the
  tool-calling loop inside it.
- **The agent loop.** `AgentLoop` is `internal/agent/loop.go` as classes that change the turn, the conversation, the
  repeat state and the tool host in place; `LoopSpec` says on values what each step does, and each method is proved
  equal to it. `Chat`, `Turns` and `Host` are the conversation, the turn's records and the tool catalog. About the loop:
  `LoopBounds` (it ends, and stops soon after it stops learning), `LoopMemo` (a remembered result is what the
  call would return now), `LoopPairing` (every prompt is well paired), `LoopAuthority` (which calls a turn makes),
  `LoopRecord` (what it says it did is what it did), `LoopStory` (what every prompt starts with, and what a turn
  saves), `LoopOutcomes` (where each decision leads, and what the user is told and asked).
- **Turns and sessions.** `Runtime` runs one task from history to park or done; `Sessions` is the per-person store.
- **Decisions.** `JsonValues`, `Schema` and `Decision` give JSON Schema a meaning (JSON Schema 2020-12 Core sections
  10.2.1 and 10.3, Validation section 6), the simplifier and the generated decision schema, and the parser.
- **Small algorithms.** `Paths` (the two path checks), `Ranges` (line ranges), `Lessons` (the bounded lessons file),
  `Ingest` (the dedup window). `Text` and `Wrappers` are shared helpers.

How the parts connect: `Queue`'s methods end in the states that `Pipeline`'s steps name, and the intermediate files
they leave are its crash steps (`Pipeline.EnqueuePointsAreCrashPoints`, and the traces in `Queue.Take`, `Queue.Park`
and `Queue.Open`). `Pipeline` lets a turn make only calls it may make; `Driven` does not, and takes every turn's calls
and its end from the loop: `Driven.DrivenRunsAreRuns` shows that its runs are runs of `Pipeline`, so that every
guarantee holds of them, and `Driven.TurnPlaysOut` that each turn of the loop is a chain of the machine's steps.

## Hypotheses

- Task ids are fresh, times of enqueueing and asking strictly increase, and one operation reads the clock once.
- Disk operations succeed, except that a process may die between any two of them.
- The queue has one consumer (`TwoConsumersCanStarveOne` shows that this matters).
- The tool catalog is fixed during a run, and a configured server name holds no NUL character.
- A tool with the read-only hint changes nothing, and answers as a function of the calls that were not reads and of
  its arguments in canonical form (`LoopMemo.ReadsArePure`, used only by `LoopMemo`).
- A model's call to a tool it was not offered is an invalid decision, as `parseDecision` makes it.
- One person's session is not recorded to while it is being expired.

The model, the tool servers, the clock, the connector, canonical JSON and the wording of what the harness says are
arbitrary functions in `LoopSpec.Env`: every theorem about the loop is about all of them.

## What the code does that its documents do not say

- A task is dropped after two counted attempts, not after two deliveries: the attempt is written before the task is
  handed over. `Losses.DroppedWithoutDelivery` is a run that drops a task nobody saw;
  `Guarantees.BoundedRedeliveryWithoutLoss` says when a dropped task had every delivery.
- An answered question can be lost: a crash in `Enqueue` after the question's file is removed and before the answer's
  is written leaves neither (`Losses.AnswerLostInEnqueue`; the `lost` set of `Pipeline.History` holds those).
- A live question can be lost unanswered. A task whose first question outlived a crash can ask again; both questions
  share a file name, so the answer to the first removes the second one's file, and the next crash loses it
  (`Losses.SecondQuestionLost`; the `unfiled` set holds those). `Guarantees.QuestionsSurviveCrashes` says exactly which
  questions a crash leaves. In both runs the turns are the loop's own, in a setting given
  there, and `Losses.SomeStoryTells` gives the events.
- When the call a user approved puts a question itself, the loop goes on all the same
  (`LoopAuthority.QuestionIsTheLastThing`). A guarded call the model proposes next puts its own question in the first
  one's place, and a reply it writes is dropped, because the turn parks: `Losses.FirstQuestionOverwritten` and
  `Losses.ReplyDropped` show a turn of each kind, and
  `Losses.SomeoneSaidYes` a task for them. Only a guarded tool of a configured, trusted server can do this: a
  question is read from trusted servers' results alone (`internal/mcphost/host.go:411-413`), and the program's own
  asking tool is not guarded.
- Ids are not escaped in resume keys, so a place with ':' in its connector or channel shares the keys of each of its
  ids with another place, while two places without one never share a key (`Events.KeysIdentifyTheirSource`). Discord's
  channel ids are digits. An email channel is the sender's address, where a quoted local part or an address literal can hold ':'
  (`internal/connectors/email/imap.go:38`), and the channel a server's notifications go to is whatever is configured
  after the first ':' (`internal/mcphost/config.go:119-123`).
- The simplifier can tighten a schema in three ways (`Schema.BooleanAlternativesTighten`,
  `Schema.ClosedObjectTightens`, `Schema.PrefixTightens`).
- The generated schema can admit what the parser refuses, exactly when some tool's argument schema admits something
  that is not an object (`Decision.AgreementIff`); a tool that declares `{"type": "string"}` is enough
  (`Decision.TextArgumentsAreRefused`), and `Decision.AgreementByType` reads the condition off the declared types.

## Model

| member | source | states |
|---|---|---|
| Events.KeysIdentifyTheirSource | internal/event/event.go:48-56 | a key identifies its place and id among the places without a colon if and only if its own place has none; a place with one shares the keys of each of its ids with a different place |
| Events.KeysSpellTheirSource | internal/event/event.go:48-61 | keys of different kinds never collide, and keys of one kind agree exactly when they spell the same place and id |
| TaskQueue.AnswerIsUnique | internal/taskqueue/queue.go:157-179 | with distinct ask times the record an event answers is determined: map iteration order cannot change it |
| TaskQueue.MostSpecificWins | internal/event/event.go:63-76 | only a person's message answers a question; it gets the newest live question it replies to, else the account's newest there, else the person's newest |
| TaskQueue.RecoveryIsRestartable | internal/taskqueue/queue.go:94-133 | a second crash anywhere inside loading leaves files from which a later load reads exactly the queue it would have read |
| TaskQueue.SortByEnqueued | internal/taskqueue/queue.go:114 | the loaded tasks in enqueue order, the same bag of them |
| TaskQueue.Queue.Open | internal/taskqueue/queue.go:73-92 | memory holds each surviving pending file once, oldest first, and each live question; the files are the cleaned ones; every state passed through removed only what loading removes |
| TaskQueue.Queue.LoadPending | internal/taskqueue/queue.go:94-114 | keeps in order exactly the tasks with attempts left and removes the files of the others |
| TaskQueue.Queue.LoadParked | internal/taskqueue/queue.go:116-127 | keeps exactly the questions that have not run out and removes the files of the others |
| TaskQueue.Queue.Enqueue | internal/taskqueue/queue.go:135-155 | refuses exactly at capacity and then changes nothing; otherwise leaves a token, takes the event in as said below, and leaves only the named intermediate files |
| TaskQueue.EnqueueTakesIn | internal/taskqueue/queue.go:135-179 | an accepted event is the last task, untried, and the consumer has a token; if it shares a key with any question of the last day it takes one up, with all that was parked, and no other question of the last day goes with it |
| TaskQueue.Queue.MatchParked | internal/taskqueue/queue.go:157-179 | the most recently asked live record for the first key that has a live one, none if no key has; records that ran out are dropped from memory and disk |
| TaskQueue.Queue.Scan | internal/taskqueue/queue.go:161-173 | one pass: the newest live record with the key, whatever the map order, and exactly the records that ran out dropped |
| TaskQueue.Queue.Take | internal/taskqueue/queue.go:182-194 | hands over the oldest task, the same but for one attempt more, and rewrites its file instead of removing it |
| TaskQueue.Queue.Done | internal/taskqueue/queue.go:204-208 | removes exactly that task's file |
| TaskQueue.Queue.Park | internal/taskqueue/queue.go:210-225 | files the question under the first request with exactly its keys and call, then removes the pending file: the files pass through exactly these two states |
| Approval.ApprovedIs | internal/agent/loop.go:458-469 | an answer approves exactly when it is one of the listed yes phrases, in any letter case, with only white space around it and dots or bangs after it |
| Pipeline.EnqueuePointsAreCrashPoints | internal/taskqueue/queue.go:142-151 | every intermediate state of the files during Enqueue is a crash step of the state machine |
| Pipeline.LoadedIsSurvivors | internal/taskqueue/queue.go:94-114 | reopening rebuilds the backlog in order, less the tasks out of attempts |
| Pipeline.FiledPreserved | internal/taskqueue/queue.go:136-225 | each step keeps the pending files equal to the in-flight task plus the queue, in strict enqueue order and at most capacity + 1, and moves them as a plain queue would |
| Guarantees.GuardedCallsWereApproved | internal/agent/loop.go:155-158 | over every run with crashes: a call that ran to a tool needing approval is the very call of a parked question, taken up in time by a later event that carries one of its keys and says a plain yes |
| Guarantees.ResumedCallsAreGuarded | internal/agent/loop.go:437-438 | a task that waits on a call waits on one that needed approval |
| Driven.DrivenRunsAreRuns | internal/agent/runtime.go:68-110 | with every turn's calls and end taken from the loop, whatever models, servers, users and crashes do, the run is a run of the pipeline: the loop makes only calls it may make and parks only calls that need approval |
| Driven.LoopCallsWereApproved | internal/agent/loop.go:83-164 | so of the loop itself: a guarded call that ran is exactly one the user was asked about and approved |
| Driven.UnapprovedCallsAreHarmless | internal/mcphost/host.go:283-297 | and by the annotations: each call on record was made by a step of the loop to a tool of its catalog that says it reads or is not destructive, or was put to the user and approved as said above |
| Driven.OnlyOtherCallsWait | internal/agent/loop.go:155-158 | conversely a call that waits for an answer is to a tool that does not say so |
| Driven.TurnPlaysOut | internal/agent/runtime.go:94-109 | a turn is a chain of steps: one run for each call the loop makes, then done, or parked with the question, keys and call the loop left |
| Driven.TurnsStartWell | internal/agent/loop.go:90-92 | every task that reaches the loop meets what the proofs about a turn ask of a resumed task |
| Guarantees.ApprovedCallsRunOnce | internal/agent/loop.go:441-456 | no two tasks take up one question and no task two; the approved call runs at most twice, and at most once without a crash |
| Guarantees.RecoveryRefinesQueue | internal/taskqueue/queue.go:94-225 | in every reachable state the files are exactly the backlog in order, at most capacity + 1 of them, and every step, crashes included, is a step of a plain queue |
| Guarantees.BoundedRedeliveryWithoutLoss | internal/taskqueue/queue.go:106-111 | Next returns a task at most twice, and at most once more than there were crashes; every task is pending, done or dropped, or the last question it asked is on disk, taken up, expired, or lost in one of the two ways named above; a dropped one was delivered twice exactly if no crash hit it inside Next |
| Guarantees.QuestionsAreAccountedFor | internal/taskqueue/queue.go:135-225 | the same of every question ever asked, unless its task has asked again since |
| Guarantees.EachQuestionHasOneFate | internal/taskqueue/queue.go:135-179 | taken up, expired and lost exclude each other; a question that met any of them is neither in memory nor on disk, and one whose file went with an older one is not on disk |
| Losses.DroppedWithoutDelivery | internal/taskqueue/queue.go:185-194 | a run, in any setting, that drops a task after two crashes inside Next and no delivery |
| Losses.AnswerLostInEnqueue | internal/taskqueue/queue.go:142-151 | a run, its turn the loop's own, that ends with an answered question and its answer both nowhere, after a crash between the two files |
| Losses.SecondQuestionLost | internal/taskqueue/queue.go:144-146 | a run of ten steps, its turns the loop's own, that ends with a live, unanswered question nowhere: the answer to an older question of the task removed its file |
| Losses.FirstQuestionOverwritten | internal/agent/loop.go:90-92 | a turn whose approved call put a question and that parks with another one |
| Losses.ReplyDropped | internal/agent/runtime.go:103-106 | a turn that has a reply and a question, so that it parks and the reply goes nowhere |
| Guarantees.CrashInParkKeepsRequest | internal/taskqueue/queue.go:216-224 | a crash anywhere in Park once the question is written leaves that very question on disk, taken up, expired, or lost as above |
| Guarantees.ResumeKeepsRootRequest | internal/taskqueue/queue.go:210-216 | however long the chain of questions and answers, a resumed task's request is what the first event of the chain said |
| Guarantees.ResumedTurnRetellsTheChain | internal/agent/turn.go:121-131 | a resumed turn opens with that first request, the question it alone took up, and the answer, in this order |
| Guarantees.QuestionsSurviveCrashes | internal/taskqueue/queue.go:116-127 | a crash anywhere keeps a question ingest knew if and only if it is live, its file did not go with an older question, its task was not just parking another, and no answer was just consuming it |
| Guarantees.InvStep | internal/taskqueue/queue.go:94-225 | every step and every crash keeps the whole invariant: files, attempt counts, open questions, root requests, accounting, memory against disk, approvals |
| Guarantees.MirroredPreserved | internal/taskqueue/queue.go:144-146 | memory and disk hold the same questions, but for the one being parked and for those whose file went with an older one |
| Wakeup.NoLostWakeup | internal/taskqueue/queue.go:182-201 | in every interleaving, if the one consumer waits and the queue is not empty, the channel holds a token, except between an append and its signal |
| Wakeup.SomeoneIsAwake | internal/taskqueue/queue.go:182-238 | with any number of consumers they are never all waiting beside work with no token out |
| Wakeup.ConsumerCanAlwaysProceed | internal/taskqueue/queue.go:182-201 | with the lock free and work left, the consumer reaches a task in at most three steps of its own |
| Wakeup.TwoConsumersCanStarveOne | internal/taskqueue/queue.go:233-238 | with two, one can wait beside a queued task while the other is busy: two signals share one slot |
| Waking.ServiceIsRun | internal/taskqueue/queue.go:73-238 | whatever the queue and its consumers do once it is opened is a run of the wakeup protocol: enqueueing appends and signals, Next under the lock takes or finds nothing, refusing and parking touch no token |
| Waking.QueueWakesItsConsumer | internal/taskqueue/queue.go:128-201 | so in every sequence of the queue's own operations, whatever it loaded, the one consumer never waits beside a task without a token |
| Host.ReadsAreUnguarded | internal/mcphost/host.go:285-338 | by the hints alone: a tool must be asked about unless its annotations are there and say it reads or is not destructive, so never one whose results the loop may remember |
| Host.ExposedNamesAreTheirOwn | internal/mcphost/host.go:495-514 | no server can give a tool an empty name or the name of the loop's own reply or plan; a safe name that fits stays as it is behind the server's |
| Host.ToolHost.Run | internal/mcphost/host.go:374-415 | an unknown tool runs nothing; otherwise the call is on record and its outcome is the server's answer: an error is neither verbatim nor a question, and verbatim comes from the catalog alone |
| Chat.PairedIsAdjacent | internal/llm/types.go:17-24 | a list is well paired exactly when each call is followed at once by the one result with its id and no result stands elsewhere |
| Chat.CallGrows | internal/agent/conversation.go:38-49 | a call with a name makes the conversation at least a byte larger |
| Chat.VisibleIsPaired | internal/agent/conversation.go:51-61 | dropping the harness's messages keeps a turn well paired |
| Chat.Conversation.constructor | internal/agent/conversation.go:18-25 | the system prompt if any, the history, and the turn starting after them |
| Chat.Conversation.Append | internal/agent/conversation.go:27-30 | the message at the end and nothing else |
| Chat.Conversation.AppendHarness | internal/agent/conversation.go:32-36 | the same, and its position marked as the harness's |
| Chat.Conversation.CountBytes | internal/agent/conversation.go:38-49 | the bytes of all contents, call names and call arguments |
| Chat.Conversation.ThisTurn | internal/agent/conversation.go:51-61 | this turn's messages but for the harness's, in order |
| Turns.NotedIs | internal/agent/turn.go:96-105 | a report changes the one entry of its kind and tool or adds one, so there is never a second; it shows the latest detail and stays visible once it was |
| Turns.Turn.Note | internal/agent/turn.go:96-105 | the problems become exactly that |
| Turns.Turn.PromoteProblems | internal/agent/turn.go:87-94 | every problem becomes visible and nothing else changes |
| Turns.Turn.AddVerbatim | internal/agent/turn.go:107-119 | the trimmed body is shown unless it is blank or shown already |
| LoopOutcomes.ShownShows | internal/agent/turn.go:107-119 | so a block is shown once, in full, and a blank one never |
| LoopSpec.FuelRunsDown | internal/agent/loop.go:101-164 | every step that goes on uses up conversation room, the one invalid answer or the one model failure |
| AgentLoop.RepeatState.SawResult | internal/agent/loop.go:215-226 | new exactly if no earlier result of the turn equals it; staleness restarts or grows by one |
| AgentLoop.Model.Decide | internal/agent/log.go:16-50 | a proposal outside the offered tools is no decision; the prompt is recorded |
| AgentLoop.Loop.Use | internal/agent/loop.go:312-411 | a remembered call is answered from memory and any other is run: the state after it is the specification's |
| AgentLoop.Loop.Repeat | internal/agent/loop.go:319-344 | the earlier result again with a note; the second refused repeat closes the tool |
| AgentLoop.Loop.Execute | internal/agent/loop.go:346-411 | runs the call; a read is remembered and anything else forgets every remembered result |
| AgentLoop.Loop.Record | internal/agent/loop.go:350-397 | how an error, a question, a rendered answer and a plain result each change the turn; a rendered answer closes every verbatim tool |
| AgentLoop.Loop.AskApproval | internal/agent/loop.go:413-439 | nothing runs: the turn awaits the question's keys with the call exactly as proposed, or the question could not be sent |
| AgentLoop.Loop.ResolveApproval | internal/agent/loop.go:441-456 | a plain yes runs the parked call as proposed, with nothing remembered; anything else runs nothing and says so |
| AgentLoop.Loop.OfferTools | internal/agent/loop.go:179-200 | the catalog less the closed tools, plus reply and plan |
| AgentLoop.Loop.Stalled | internal/agent/loop.go:228-250 | stops at three uses in a row that brought nothing new, over the byte limit, or near the deadline, in this order |
| AgentLoop.Loop.Close | internal/agent/loop.go:166-177 | one last prompt that offers only reply; failing that, the reply code writes itself |
| AgentLoop.Loop.Advance | internal/agent/loop.go:101-164 | one turn of the loop in place is one step of the specification |
| AgentLoop.Loop.Cycle | internal/agent/loop.go:94-177 | the whole loop in place is the specification's, and it terminates |
| AgentLoop.Loop.Handle | internal/agent/loop.go:83-177 | the whole turn in place: request, approval, directive, loop |
| LoopBounds.ModelCallsAreBounded | internal/agent/loop.go:101-164 | with no deadline and against any model, at most one model call for each byte of room left, two for the allowances and one to close |
| LoopBounds.TurnIsBounded | internal/agent/loop.go:83-177 | a turn asks the model at most 192 KiB + 4 times |
| LoopBounds.UsesAreBoundedByResults | internal/agent/loop.go:41-55 | staleness is the length of the trailing run of uses without a new result and at most three; a turn makes at most three uses per distinct result and one more |
| LoopBounds.ClosedStaysClosed | internal/agent/loop.go:179-200 | to the end of the turn, a closed tool stays closed and no later use names it |
| LoopBounds.LoopShowsOneAnswer | internal/agent/loop.go:371-382 | the loop shows the user at most one verbatim answer, whatever the model calls |
| LoopBounds.StepsCountPrompts | internal/agent/loop.go:110-123 | the steps a turn reports are its prompts, but for the one that closes it after a stall |
| LoopBounds.RefusedTwiceCloses | internal/agent/loop.go:319-330 | a tool that is not verbatim is closed exactly when at some point two of its calls had been refused as repeats since anything but a read last ran, whatever came between |
| LoopBounds.RenderingCloses | internal/agent/loop.go:371-382 | a verbatim tool is closed exactly when that, or when some call of the loop has rendered an answer |
| LoopBounds.ThirdIdenticalCallCloses | internal/agent/loop.go:319-330 | a remembered call made twice more closes its tool |
| LoopMemo.KeyIsExact | internal/agent/loop.go:317-318 | two calls share a key exactly when tool and canonical arguments agree |
| LoopMemo.ResultsAgreeWithReexecution | internal/agent/loop.go:312-411 | every result the loop adds to the transcript, remembered or not, is what running its call at that moment, after the calls made by then, would return; no tool and canonical arguments run twice with only reads between |
| LoopRecord.TranscriptIsTheLog | internal/agent/loop.go:341-397 | the results in the transcript, each with its call, are those of the turn's uses in order, and the calls that reached a tool are those of the uses not answered from memory, made where the log says |
| LoopRecord.ActionsAreTheEffects | internal/agent/loop.go:346-411 | the loop's actions are the calls that reached a tool, are not to one that says it reads, and put no question: each once, in order, with the server's answer |
| LoopPairing.TurnIsPaired | internal/agent/loop.go:83-177 | from a well-paired history every prompt of the turn is well paired, on every path: plan, repeat, run, ask, resume, retry, close |
| LoopPairing.OpeningIsTidy | internal/agent/conversation.go:18-25 | a conversation opened on a well-paired history is well paired |
| LoopPairing.SavedIsPaired | internal/agent/runtime.go:119-134 | what a turn saves, with reply calls and harness messages dropped, is well paired |
| LoopStory.PromptsTellTheStory | internal/agent/loop.go:83-123 | every prompt of a turn starts with all that came before the turn, then the user's words (after the request and question they answer), what became of the call that waited for them, and the directive; the first is exactly that; each continues the one before, and the conversation the last |
| LoopStory.SavedIsTheStory | internal/agent/runtime.go:119-134 | what a turn saves is exactly the user's words, the call that waited with its result or refusal, each later call with the result the model was shown, in order, and the reply; nothing the harness said; of the calls those to free tools are the turn's uses |
| LoopAuthority.TurnRunsOnlyPermittedCalls | internal/agent/loop.go:83-164 | a turn's calls to tools needing approval: none, or the first call of a resumed turn when the user approved exactly it; what it parks is such a tool's call |
| LoopAuthority.AskedIsAnsweredBy | internal/agent/loop.go:421-438 | an event shares a key with the question exactly when it seems, by what keys spell, to reply to it or to come from the account asked, or is the same person's; every event that can answer does, and between places without a colon no other |
| LoopAuthority.QuestionIsTheLastThing | internal/agent/loop.go:155-163 | once a question is out no call and no prompt follows, except when the approved call itself put one: then, if there is a directive at all, the loop starts all the same |
| LoopAuthority.QuestionTakesItsPlace | internal/agent/loop.go:436-438 | in that exception, a guarded call decided next parks the turn with its own question and call |
| LoopAuthority.ReplyIsLeftBehind | internal/agent/loop.go:146-148 | and a reply decided next is written while the first question stays out |
| LoopAuthority.ApprovedCallIsReported | internal/agent/loop.go:441-456 | an approved call runs once at the start and its result is in the conversation |
| LoopOutcomes.OpenToolsCanBeCalled | internal/agent/loop.go:179-200 | the model is offered the open tools of the catalog, reply and plan; a call of one of them is its decision, and a call of anything else is none |
| LoopOutcomes.StopsExactlyWhen | internal/agent/loop.go:228-250 | the loop stops exactly at three uses in a row without a new result, over 192 KiB, or near the deadline, and says which |
| LoopOutcomes.StopHidesNothing | internal/agent/loop.go:111-120 | a stop runs nothing and makes every problem so far visible, and its own |
| LoopOutcomes.StopEndsInReply | internal/agent/loop.go:166-177 | then one prompt more, in which only a reply counts: it is sent, or the code writes one and says so |
| LoopOutcomes.OneSlipIsForgiven | internal/agent/loop.go:125-133 | the first answer that is no call costs a nudge and a hidden problem, the second ends the turn with a visible one |
| LoopOutcomes.OneFailureIsForgiven | internal/agent/loop.go:134-141 | the same of the model's failures, unless the turn's time is up |
| LoopOutcomes.ReplyEndsPlanGoesOn | internal/agent/loop.go:145-150 | a reply ends the turn with what the model wrote, a plan is acknowledged and the loop goes on; neither runs anything |
| LoopOutcomes.HarmlessCallsAreMade | internal/agent/loop.go:155-159 | a call of a tool whose annotations say it reads or is not destructive is made, with the server's answer as its result, or answered from memory; nobody is asked |
| LoopOutcomes.CallsSayWhatWentWrong | internal/agent/loop.go:316-370 | a failed call is recorded with its error and a repeat as one, with how often its tool was called in vain once that closes it |
| LoopOutcomes.OtherCallsAreAsked | internal/agent/loop.go:155-158 | a call of any other tool is not made: the turn ends with its question delivered under exactly the asker's keys and the call waiting, or, if the question cannot be sent, with nothing new waiting and the model told so |
| LoopOutcomes.UnaskedCallsAreHarmless | internal/mcphost/host.go:283-297 | every call of a turn goes to a catalog tool whose annotations say it reads or is not destructive, unless it is the first and exactly the one the user granted |
| LoopOutcomes.EveryQuestionWasPut | internal/agent/loop.go:413-439 | a call waits only behind a question about it that was delivered, any other question is one a server put in answer to a call of this turn, and no call waits without a question |
| LoopOutcomes.NothingGoesUntold | internal/agent/loop.go:346-397 | every failed call of a turn is a visible problem of its tool at the end, every verbatim answer is among the blocks shown, and a call the user did not approve is declined, visibly and on record |
| Sessions.FitsIff | internal/session/session.go:133-156 | the kept run of exchanges is unique: the longest newest one within 16 KiB, or the newest alone |
| Sessions.RetoldEnds | internal/session/session.go:133-160 | the history made of exchanges ends with the last one, all its messages and its outcome if anything was done, went wrong or was not answered |
| Sessions.ConversationsCountNames | internal/session/session.go:134-141 | the store's measure of messages is the conversation's less the names of calls |
| Sessions.RetoldIsPaired | internal/session/session.go:149-160 | whole well-paired exchanges with their outcomes make a well-paired history |
| Sessions.ShortenedIsPaired | internal/session/session.go:168-172 | shortening tool results keeps pairing |
| Sessions.ShortenedIs | internal/session/session.go:168-172 | only a tool result over 1000 bytes is cut, to its longest whole-character prefix within them and a mark |
| Sessions.LiveEndsTheStory | internal/session/session.go:173-180 | the last exchange of a live session is the last recorded of its person |
| Sessions.ArchivingKeeps | internal/session/session.go:207-236 | moving a session from live to archived neither loses, repeats nor reorders an exchange |
| Sessions.ExactlyOnePlace | internal/session/session.go:207-236 | each recorded exchange is live or in exactly one archived session, never both and never neither |
| Sessions.Store.Record | internal/session/session.go:163-189 | appends the shortened exchange to the person's session, starting one if needed, and the session is then last active at that exchange; an empty one or no person changes nothing |
| Sessions.Store.Expire | internal/session/session.go:206-236 | a session leaves only if its last exchange is at least the idle time old; asked for one person, that session leaves exactly if it is idle and the archive takes it or there is none; a refused one stays as it was; every exchange recorded stays kept, in order |
| Sessions.Store.ArchiveOne | internal/session/session.go:219-231 | archived if the archive takes it, put back otherwise |
| Sessions.Store.History | internal/session/session.go:119-161 | nothing of an idle session the archive took; otherwise the unique kept run of whole exchanges in order, and of a person heard from less than the idle time ago it ends with the last exchange |
| Sessions.Store.Newest | internal/session/session.go:133-156 | the exchanges kept are that run |
| Runtime.OutcomeHidesNothing | internal/agent/runtime.go:149-177 | no outcome only for a clean turn; otherwise every action and every problem is in it, an action with its real success, and the status says whether the turn replied or parked |
| Runtime.Worker.Run | internal/agent/runtime.go:68-110 | one task is one turn on a well-paired history: the task leaves the queue parked with exactly the turn's question, keys and call, and then nothing is saved, or done, and then exactly the turn's exchange is; every prompt starts with the system prompt, the person's recent history and the user's words, and is well paired; only permitted calls are made, and prompts are bounded |
| Runtime.TurnTells | internal/agent/runtime.go:89-99 | whatever the history, each prompt of the turn starts with the system prompt if there is one, that history, and the user's words |
| Runtime.Worker.End | internal/agent/runtime.go:101-109 | the second half of that, from however the turn ended |
| Runtime.Worker.TakeTurn | internal/agent/runtime.go:89-99 | the turn inside it is the specification's, from any well-paired history |
| Runtime.Worker.RecentHistory | internal/agent/runtime.go:112-117 | the history handed to a turn is well paired, whatever was recorded before; of a person heard from less than the idle time ago it is the newest exchanges that fit, the last one among them |
| Runtime.Worker.AddressUser | internal/agent/runtime.go:179-190 | only a timer's reply is prefixed, and only with a mention |
| Runtime.Worker.Record | internal/agent/runtime.go:119-147 | the session gains the turn's messages with the delivered reply in place of the reply call, with the time, the place, who wrote, and the outcome |
| Runtime.Worker.Outcome | internal/agent/runtime.go:149-177 | the loops build exactly the turn's outcome |
| Schema.SanitizeRelaxes | internal/llm/openai/schema.go:43-107 | every value valid under a schema is valid under its simplified form, when alternatives are objects, closed objects leave nothing to patterns or boolean subschemas, and no items follow a prefix; whatever all other keywords require, also by reading their neighbours |
| Schema.ConstraintsStay | internal/llm/openai/schema.go:66-105 | whatever else a schema holds, type, enum, const, required and the six bounds come out word for word, and of all other keywords at most properties, items, anyOf and a boolean additionalProperties |
| Schema.SimplifyingTwiceIsOnce | internal/llm/openai/schema.go:43-107 | simplifying is done once and takes nothing else away: a schema comes out unchanged exactly when it has no keyword or subschema of the kinds that are dropped, and what comes out is such a schema |
| Schema.OneOfBecomesAnyOf | internal/llm/openai/schema.go:87-99 | alternatives of which exactly one had to hold become the same alternatives of which any may |
| Schema.BooleanAlternativesTighten | internal/llm/openai/schema.go:87-99 | alternatives with no object schema among them become an empty list: nothing is valid any more |
| Schema.MixedAlternativesTighten | internal/llm/openai/schema.go:87-99 | a true among the alternatives admitted every value, and afterwards exactly those are valid that a simplified object alternative admits |
| Schema.AnythingGoes | internal/llm/openai/schema.go:87-99 | where before every value was |
| Schema.ClosedObjectTightens | internal/llm/openai/schema.go:70-104 | a closed object loses every property only a pattern or a boolean subschema allowed |
| Schema.PatternIsLost | internal/llm/openai/schema.go:59-64 | a schema and a value of that kind: valid before, not after |
| Schema.PrefixTightens | internal/llm/openai/schema.go:59-83 | the schema for items after a prefix comes to constrain the prefix |
| Schema.PrefixIsLost | internal/llm/openai/schema.go:59-83 | a schema and a value of that kind: valid before, not after |
| Schema.Sanitize | internal/llm/openai/schema.go:66-107 | for every keyword order, the result is a simplification of the schema as specified |
| Schema.Visit | internal/llm/openai/schema.go:68-105 | one keyword handled extends the simplification by exactly that keyword |
| Schema.SanitizeList | internal/llm/openai/schema.go:87-99 | the alternatives that are objects, each simplified, in order |
| Decision.SanitizeTool | internal/llm/openai/schema.go:43-57 | fails exactly for an input schema that is not an object, where null counts as none; otherwise the simplified schema, with the declared type or else object |
| Decision.DecisionSchema | internal/llm/openai/schema.go:14-41 | fails exactly if some input schema does; otherwise one closed branch per tool |
| Decision.ParseDecision | internal/llm/openai/provider.go:116-156 | accepts exactly an offered native call, or content that names an offered tool with an object for arguments, and returns that call |
| Decision.AcceptsWhatCalls | internal/llm/openai/provider.go:133-150 | of any document without repeated or oddly cased names, valid or not: accepted exactly if its call object names an offered tool and holds an object of arguments, and as that call |
| Decision.ValidIsAccepted | internal/llm/model.go:16-17 | a document valid under the generated schema is accepted as a call of an offered tool with the same arguments object, when argument schemas admit only objects |
| Decision.AgreementIff | internal/llm/model.go:16-17 | all valid documents are accepted if and only if no tool's argument schema admits anything but objects |
| Decision.NonObjectIsRejected | internal/llm/openai/provider.go:147-150 | otherwise some document is valid and refused |
| Decision.ObjectTypesAgree | internal/llm/openai/schema.go:43-57 | an input schema that declares type object, or no type, meets that condition, whatever else it says |
| Decision.AgreementByType | internal/llm/openai/schema.go:43-57 | where no other keyword speaks of values that are not objects, all valid documents are accepted if and only if every tool declares objects only, or no type |
| Decision.TextArgumentsAreRefused | internal/llm/openai/provider.go:147-150 | a tool that declares type string: a document with text for its arguments is valid and refused |
| Decision.LegitimateCallsAreAdmitted | internal/llm/openai/schema.go:14-41 | whatever arguments object a tool's own schema allows, a document calling it so is valid under the generated schema |
| Paths.WritesStayInScope | internal/servers/memory/server.go:224-236 | write and append accept a path exactly when, cleaned, it neither climbs nor starts in the reserved directory; the file is then the scope's segments followed by the path's, with no ".." |
| Paths.CleaningLeadsThere | internal/servers/memory/server.go:231 | a cleaned path leads where the path leads, step by step, from whatever directory it is followed |
| Paths.WritesLeadThere | internal/servers/memory/server.go:224-236 | followed from the scope a name goes down and ".." up: a path is refused exactly if it ever climbs above the scope or leads into the reserved directory, and otherwise the file is where it leads |
| Paths.ReadsStayInScope | internal/sandboxfs/fs.go:35-56 | a joined path resolves below the scope, after the second cleaning too |
| Paths.ReadsLeadThere | internal/servers/memory/server.go:224-236 | reading is refused exactly for climbing, and what is read is where the path leads |
| Paths.InnerPath | internal/servers/memory/server.go:853-870 | what the reserved check and the filesystem make of a joined path |
| Paths.DirIsScopeDir | internal/scope/scope.go:47-67 | a scope's directory is clean, whatever text the person and connector are, exactly when no part of the key is empty |
| Paths.DirsAreTheirOwners | internal/scope/scope.go:37-67 | two owners whose names need no replacing share a directory exactly when they are the same person or account |
| Paths.Sanitize | internal/scope/scope.go:107-122 | each character kept if it is safe and replaced otherwise |
| Ranges.RangesReadBack | internal/mcphost/resources.go:164-205 | parsing a base without '#' and any non-empty list of ranges as printed gives back the base and the list |
| Ranges.SpellingsRead | internal/mcphost/resources.go:167-192 | a list of ranges reads the same in either letter case, with blanks around parts and numbers, and with a line written as a span; without a fragment, or with a blank one, there are none |
| Ranges.ParsedIsProper | internal/mcphost/resources.go:174-190 | whatever the parser accepts is a list of ranges the printer could have written |
| Ranges.HeadersReadBack | internal/mcphost/resources.go:207-228 | in what is returned for any list of ranges, each range that starts in the text has its header and the lines it selects, in full unless only newlines follow; the header parses to a span of exactly those lines, and reading that span gives what reading the range gives |
| Ranges.SlicesInOrder | internal/mcphost/resources.go:209-228 | every range asked for is answered, in that order, with its lines under its header or how long the text is, and nothing else is returned |
| Ranges.CutRanges | internal/mcphost/resources.go:167-192 | the loop accepts and refuses exactly as the grammar does, with the first error |
| Ranges.SliceRanges | internal/mcphost/resources.go:209-228 | the loop prints each clipped span under its header, or says the file is shorter |
| Lessons.AppendKeeps | internal/servers/memory/server.go:653-693 | one call keeps the file within 1024 bytes with no lesson twice; it becomes the newest that fit of the old lines followed by at most three new ones, and no older line would have fitted; the new ones are lessons of the call in order, and every lesson of it is there, old or new, unless it is blank or three were added |
| Lessons.DatesDoNotCount | internal/servers/memory/server.go:697-703 | the key of a line is its lesson, folded, whatever the date: one lesson learned on two days counts once |
| Lessons.AlwaysWellKept | internal/servers/memory/server.go:653-724 | so does every sequence of calls that starts from no file |
| Lessons.LinesReadBack | internal/servers/memory/server.go:705-713 | lines survive being written, split and read |
| Lessons.ReadingKeeps | internal/servers/memory/server.go:705-713 | of any text, line by line and in order, the lines that are not blank without the blanks at their ends |
| Lessons.AppendLessons | internal/servers/memory/server.go:656-693 | the loops compute that file |
| Lessons.AddNew | internal/servers/memory/server.go:672-691 | adds the first three lessons whose key is not taken |
| Lessons.TrimToBytes | internal/servers/memory/server.go:715-724 | drops oldest lines until the text fits, but never the last |
| Lessons.ReadLines | internal/servers/memory/server.go:705-713 | the non-blank lines without trailing blanks |
| Ingest.RepeatsAreFarApart | internal/ingest/engine.go:194-249 | however sources interleave, two deliveries of one message that both pass have at least 1024 other keys remembered between them, all distinct |
| Ingest.WindowIsDistinct | internal/ingest/engine.go:241-249 | the window never holds a key twice |
| Ingest.KeyIsExact | internal/ingest/engine.go:203-211 | a dedup key names one source and one message id |
| Ingest.RedeliveryIsDuplicate | internal/ingest/engine.go:194-249 | a message with an id of its own that was let in is a duplicate when it comes again, until 1024 keys, its own included, have been remembered since, and not after that unless it was let in again |
| Ingest.Engine.Allow | internal/ingest/engine.go:86-99 | a source admits exactly the listed accounts, folded, or everybody if none are listed |
| Ingest.Engine.Admit | internal/ingest/engine.go:194-239 | a duplicate is exactly a key in the window; one refused by the allow-list is remembered too; what passes is the event as it came, named after its source if it named none and with its own id if it has one |
| Ingest.Engine.Remember | internal/ingest/engine.go:241-249 | the set is exactly the order, and the order is the last 1024 keys remembered |

## Left out

- Schema.SanitizeRelaxes: one direction only; the three Tighten lemmas show what each part of its condition prevents, but a schema outside it can still be only relaxed (one that admits nothing, for example), so the converse is not a property of the schema's shape.
- Decision.ValidIsAccepted: documents that repeat a member name are not covered, because which of the two counts is up to the reader of the JSON; a field name in another letter case is taken by the parser through an arbitrary folding.
- LoopMemo.ResultsAgreeWithReexecution: assumes that a tool's answer depends on its arguments only up to canonical JSON, where large integers collapse, and that the read-only hint is true.
- Sessions.ExactlyOnePlace: an expiry interleaved with a recording for the same person is outside the model, and so are the saved session files and their name collisions.
- Guarantees.BoundedRedeliveryWithoutLoss: with a failing disk more can be lost; disk operations succeed here. A question in the unfiled set may still be answered while the process lives.
- TaskQueue.Queue.Open: unreadable files, which loading removes, are not modelled.
- TaskQueue.Queue.Take: the locked part of Next; waiting and waking are in `Wakeup` and `Waking`. A task is a value, so the sharing of one Task between the queue and the turn is not modelled.
- Runtime.Worker.Run: a resumed task's call is not to reply, which `Driven.TurnsStartWell` shows of every task; reactions, the delivery of the reply and a failing Park are left out, and so is a runtime without a session store.
- Sessions.Store.Record: a long tool result keeps whole characters; the code cuts at a byte and can split one.
- Approval.ApprovedIs: lower-casing is exact for characters whose lower case is an ASCII letter, which are the only ones that matter to the comparison.
- Paths.WritesStayInScope: POSIX paths; volume names and the filesystem's final relative-path check, which cannot fail after the earlier ones, are left out, and so is the refusal of a name that clashes with an existing one.
- Lessons.AppendKeeps: trimming and folding of Unicode text are parameters of which only three facts about trimming are used.
- Lessons.DatesDoNotCount: asks two more of trimming, that a blank in front goes, and that text between a visible character and trimmed text or an ellipsis stays whole.
- The shortening of results in problem and action lines, the plan checklist display, rendering of prompts and replies: wording.
- The time an event was received, identities, and the supervision and backoff of sources: they do not touch the window.
- The order of members in the generated schema and the rendered tool menu: presentation.
- The write and external categories of tools: they group the menu and decide nothing.
- Memory grep, listing, deletion, renaming and migration; the scheduler; connectors; telemetry: not part of the pipeline, and I/O for the most part.
