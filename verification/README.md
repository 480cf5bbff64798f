# agent-web, modelled and proved

agent-web puts several coding agents behind one chat protocol: a Go server starts each agent as a
subprocess, turns what it says into protocol events, keeps a directory of threads, and fans the events out
to browsers, which fold them into the transcript they draw. This project models the parts of it whose
correctness does not show in any one function, and proves it.

- `Multiplexer` - any number of callers share one pipe to a subprocess. The race between "register, then
  check `closed`" and "store `closed`, then fail the rest" is a step machine with an inductive invariant; the
  critical sections are a class. The ids are any injective numbering, so the results hold for the copies in
  `backend/internal/agents/claudecode/process.go` and `backend/internal/agents/codex/rpc.go` as well, where
  ids are matched as sections 4 and 5 of JSON-RPC 2.0 ask.
  `MultiplexerCauses` says why a call came to return what it did, over whole runs.
- `Throttle` - the login throttle: a bound on counted failures in every window of every run, proved together
  with the fact that eviction cannot be observed. `ThrottleReset` is about what a successful login leaves.
- `Transcript` (with `Trees`), `Settling`, `Paging`, `TranscriptRuns`, `TranscriptStore` - the transcript reducer,
  its settling of streamed blocks, replayed pages, what whole runs of a client leave, and the object that does it
  in place.
- `ToolTree`, `Streaming`, `Showing` - what an event leaves on screen in terms of the event: tools in document order,
  messages while they stream, and everything else. `Sieves` is what one list leaves of another, in order.
- `PromptNames`, `OwnPrompts` - a client that shows its prompts before they are sent, against one that only watches,
  for the events of any backend.
- `PiMapping`, `PiStream`, `PiLive`, `PiReplay`, `PiOutput` - pi's translation to events; live and replayed transcripts
  are the same, on the owner's screen as well. `PiScreen` says what they show in terms of what pi said, `PiWriting`
  what they show while pi writes, `PiLoading` what a loaded file shows.
- `PiTurns`, `PiDialogs`, `PiSession` - the pi session: turns, usage and dialogs as step machines, and the
  class whose methods are those steps, each entered in a run that the class keeps.
- `Hub`, `HubAudience`, `HubStore` - fan-out through bounded channels, with the lock held across a publish.
- `Cursor`, `CursorOrder`, `CursorRefusals`, `Directory`, `DirectoryWrites`, `Registry` - keyset paging over a table that
  changes under the walk, the order it pages by, the cursor's text, and which cursors are refused.
- `PiBranch`, `PiHistory`, `ClaudeAssembly`, `HistoryPages` - the two history readers, and claude's assembly of a
  message told line by line.
- `ClaudeScreen`, `ClaudeDrafts`, `ClaudeLines`, `ClaudeShows`, `ClaudeNames`, `ClaudeLive`, `ClaudeOrder`,
  `ClaudeSender` - a claude thread watched live, pieces and prompts included, against its replay: `ClaudeScreen` draws
  a file in closed form, `ClaudeDrafts` sets a screen with messages half told beside it, the others take both through
  a run, `ClaudeOrder` says in which runs they come out the same, and `ClaudeSender` adds the prompts of the client.
- `ClaudeUser`, `ClaudeReading`, `ClaudeWriting` - what claude's user lines are published as and what they are stored
  as, how what claude writes to its file reads back, and what is on screen while claude prints.
- `PromptLedger` - the bounded memory of accepted prompts.
- `Presentation`, `PresentationPieces` - rows and statistics of the rendered transcript, and what they show and count.
- `Basics`, `Decimals` - options, sequences and decimal numbers.

`dafny verify dfyconfig.toml` checks all of it.

## Where the code differs from what is said of it

- `backend/internal/chat/hub.go:80` says the extra slot makes the overflow frame always fit. Ordinary events
  may take that slot too, so the frame can wait, with the hub's lock held: `Hub.OverflowWaits` says exactly
  when, `Hub.PublisherWaits` gives a run.
- A pi turn can be finished before it is announced as started, when pi settles before the prompt's verdict is
  in: `PiTurns.FinishBeforeStart`. `PiTurns.TurnsBracketed` says which runs are free of it.
- A pi dialog can be resolved before it is requested, as the request is published after the lock is released:
  `PiDialogs.ResolvedBeforeRequested`. `PiDialogs.InOrderIfPatient` says in which runs it is not.
- `frontend/src/store/transcript.ts:311` says that anything a page repeats is dropped. A message known from its
  deltas alone is not in `seen`, so a page that repeats it shows it twice: `TranscriptRuns.RunsAreDistinct` says that
  this is the only way to have one id twice, `TranscriptRuns.DoubledByDelta` gives the run.
- `frontend/src/store/transcript.ts:190` says that `seen` keeps history from doubling a prompt. It does under the id
  of the echo; claude's file has the prompt under the id of its line (`ClaudeOrder.LiveEqualsReplay` renames it), and
  a page with another id is not known: `Paging.PromptReturns` says exactly when the prompt comes back,
  `TranscriptRuns.PromptTwice` gives a run.
- `backend/internal/agents/claudecode/transcript.go:56` says that history and a live stream render identically. What
  comes on screen while a claude message streams, before its first line, changes places with it between the screen
  and the file: `ClaudeOrder.LiveEqualsReplay` says exactly when, `ClaudeOrder.NoteOvertaken` gives a run. And a user
  line that is an envelope is published as the text it is and stored as what it stands for:
  `ClaudeUser.AgreeUnlessEnvelope`.
- What comes on screen between a prompt and its echo stands after the prompt on its sender's screen and before it
  everywhere else: `OwnPrompts.SenderShowsWatched` and `OwnPrompts.NoticeOvertakes`.
- A page that leaves a note leaves it again when loaded again: `Paging.RepeatedPage` says exactly when,
  `Paging.RepeatedNote` gives one.
- A claude message that goes on after a `result` line is replayed with more than was published last:
  `ClaudeAssembly.LiveIsReplay` and `ClaudeAssembly.OutlivesItsTurn`.
- Cumulative tool output that pi truncated from the front is repeated on screen:
  `PiOutput.OutputFollowsSnapshots` and `PiOutput.CutSnapshot`.
- The nested conditions under which `activityStats` looks for something running below a tool never change
  its answer: `Presentation.ActivityStats`.

## Model

| member | source | states |
|---|---|---|
| Multiplexer.NoStrandedWaiter | backend/internal/agents/pi/process.go:156-249 | for any number of calls and any interleaving, once the exit has failed the rest, every call still in its select has exactly one message, and an id left in the table belongs to a call that has yet to make its closed check or to take its id back |
| Multiplexer.AtMostOneMessage | backend/internal/agents/pi/process.go:162-249 | over a whole run with duplicate responses, timeouts, cancelled contexts and the exit, no waiter is sent to twice |
| Multiplexer.ReaderNeverBlocks | backend/internal/agents/pi/process.go:162-189 | in every reachable state the reader's own next step is enabled: a one-slot channel never holds up a delivery or the failing of the rest |
| Multiplexer.OwnAnswerOnly | backend/internal/agents/pi/process.go:162-174 | data returned to a call came in a successful line bearing that call's id; a refusal came in a failed line bearing it, or is the reason of an exit the reader locked the table with |
| Multiplexer.EveryMessageIsOwn | backend/internal/agents/pi/process.go:162-189 | whatever is sent on a call's channel bears that call's id, and is a line the reader took or the failure of an exit it locked the table with |
| MultiplexerCauses.WhyItReturned | backend/internal/agents/pi/process.go:206-247 | over a whole run, a call returns unsent only if the reader had stored the flag or the write failed, and then nothing of it was written; timed out only if its timer fired, cancelled only if its context was; and an answer only with a message received |
| MultiplexerCauses.TableHolds | backend/internal/agents/pi/process.go:213-247 | after any run with a reader that has not left, the table holds exactly the calls that registered and that no line, timeout, refused send or exit has taken out since |
| MultiplexerCauses.FirstLineAnswers | backend/internal/agents/pi/process.go:162-174 | once a call has registered, the first line the reader takes under its id is what its channel gets, whatever else is taken, written, cancelled or exits before and after |
| MultiplexerCauses.CallGoesThrough | backend/internal/agents/pi/process.go:206-249 | with the process open, a registered call that checks the flag, has its line written and a line under its id taken and delivered goes through these steps and returns the data of that line if it says success, and its error if not |
| MultiplexerCauses.ReasonTells | backend/internal/agents/pi/process.go:178-189 | the failure of an exit names its cause, if it has one |
| Multiplexer.NobodyWaitsOnADeadProcess | backend/internal/agents/pi/process.go:213-249 | with the process gone, a call that has not returned has a step of its own enabled, and the step brings it closer to returning |
| Multiplexer.RunsEndReturned | backend/internal/agents/pi/process.go:156-249 | of a dead process every run of the calls' steps is no longer than the steps they have left, and where none of them can go on every call has returned |
| Multiplexer.EveryCallReturns | backend/internal/agents/pi/process.go:156-249 | and there is such a run of the callers' own steps after which every call has returned |
| Multiplexer.InvAlways | backend/internal/agents/pi/process.go:121-249 | the invariant behind these holds in every state of every run |
| Multiplexer.PiIdsInjective | backend/internal/agents/pi/process.go:214-216 | pi numbers its requests apart, which is what the other results ask of the ids |
| Multiplexer.Process.Enter | backend/internal/agents/pi/process.go:213-221 | draws the next id and registers a fresh channel under it, nothing else changing |
| Multiplexer.Process.TakeBack | backend/internal/agents/pi/process.go:226-247 | one id leaves the table, after a refused send or a timeout |
| Multiplexer.Process.StoreClosed | backend/internal/agents/pi/process.go:156-157 | the flag is up, and the table untouched |
| Multiplexer.Process.Resolve | backend/internal/agents/pi/process.go:162-174 | the response goes to the waiter under its id and to nobody else, and the id leaves the table |
| Multiplexer.Process.FailPending | backend/internal/agents/pi/process.go:178-189 | every waiter gets one failure bearing its own id, and the table is empty |
| Throttle.FailuresBounded | backend/internal/server/auth.go:194-252 | in any run of gated failures, every closed window of fifteen minutes holds at most twice the limit of failures for an address, and at most twice the global limit in all |
| Throttle.BoundAttained | backend/internal/server/auth.go:194-252 | a run that attains the bound for an address, so it cannot be lowered |
| Throttle.FullBucketLocks | backend/internal/server/auth.go:240-252 | whatever an open bucket has counted, the failure that makes it the limit within its window locks the key for the lock time, and none before it locks anything |
| Throttle.GlobalBoundAttained | backend/internal/server/auth.go:194-252 | a run that attains the bound for the server as a whole |
| Throttle.EvictionInvisible | backend/internal/server/auth.go:255-275 | whatever is asked, counted or cleared after stale buckets are removed, every answer is the one given had they stayed |
| Throttle.SweepKeepsSwept | backend/internal/server/auth.go:255-275 | the sweep for stale buckets removes nothing that could be told from its absence |
| Throttle.AgeEvictionUnreached | backend/internal/server/auth.go:255-275 | in gated runs at most 2 * maxGlobal + 1 buckets are fresh, the map never exceeds maxBuckets, and what is swept is invisible, so buckets are never evicted by age |
| Throttle.RunInv | backend/internal/server/auth.go:223-275 | the joint induction: the swept map agrees with the one never swept as long as the counts obey the bound |
| Throttle.RetryMeansLocked | backend/internal/server/auth.go:207-219 | the answer is 0 exactly when neither the address nor the server is locked; otherwise waiting that long ends every lock, and a second less does so only when a lock ends on that very instant |
| Throttle.OlderGoFirst | backend/internal/server/auth.go:262-275 | what the eviction by age removes is no younger than what it keeps |
| Throttle.LoginThrottle.RetryAfter | backend/internal/server/auth.go:207-219 | computes the seconds to wait from the two buckets |
| Throttle.LoginThrottle.RecordFailure | backend/internal/server/auth.go:223-229 | counts against the address and the whole server, then sweeps, as the specification of one failure says |
| Throttle.LoginThrottle.ResetFailures | backend/internal/server/auth.go:232-236 | drops the address's bucket and the global one, and no other |
| ThrottleReset.ResetUnlocks | backend/internal/server/auth.go:207-236 | after a reset neither the address nor the server is locked, at any time, whatever the map held |
| ThrottleReset.ResetStartsOver | backend/internal/server/auth.go:223-252 | from then on every answer to the address, whatever it and the server are counted, asked and reset, is the one an empty map gives |
| ThrottleReset.ResetNeedsAFullLimit | backend/internal/server/auth.go:223-252 | so fewer new failures than the limit, of the address and in all, lock nothing |
| ThrottleReset.FullLimitLocks | backend/internal/server/auth.go:194-252 | and that many do: five failures of the address within 900 seconds of the first, or twenty in all, lock it for 900 seconds from the last, and none before the last does |
| ThrottleReset.ResetSparesOthers | backend/internal/server/auth.go:232-236 | any other address keeps its lock and its count |
| Throttle.LoginThrottle.RecordLocked | backend/internal/server/auth.go:240-252 | opens, counts in or locks one bucket and leaves every other as it was |
| Throttle.LoginThrottle.EvictLocked | backend/internal/server/auth.go:255-275 | what is left is a permitted sweep of what was there |
| Settling.SettleIsPointwise | frontend/src/store/transcript.ts:113-134 | settling decides every position on its own: a visible block replaces what was streamed there, a tool keeps its result, children and output, blocks past the array stay, and no position is left empty |
| Settling.GrownArray | frontend/src/store/transcript.ts:113-134 | settling a prefix of the array and then the whole of it equals settling the whole alone |
| Settling.SettleIdempotent | frontend/src/store/transcript.ts:113-134 | settling twice is settling once |
| Settling.StreamingAbsorbed | frontend/src/store/transcript.ts:205-235 | of an array whose blocks all have something to draw, and of which nothing past its end was streamed, the settled message shows what a client that saw no delta or tool start shows, streamed output apart |
| Settling.StreamKeepsDraft | frontend/src/store/transcript.ts:214-235 | a delta or tool start within the final array keeps the message a draft of it |
| Streaming.PiecesAccumulate | frontend/src/store/transcript.ts:214-223 | any run of text and thinking deltas of a message, in any order of positions: each position shows what it had and then its own pieces one behind the other, texts where it is text and thoughts where it is a thought; a delta of the other kind changes nothing; a position passed over is an empty text; and nothing else on screen changes |
| Streaming.CallOpens | frontend/src/store/transcript.ts:225-235 | the start of a call nobody has seen opens it at its position under its name and kind, and leaves every other position and item as it was |
| Streaming.InputAccumulates | frontend/src/store/transcript.ts:237-242 | any run of input deltas of a call: the one tool they are for shows them one behind the other, and no other tool changes |
| Streaming.InputSettles | frontend/src/store/transcript.ts:244-250 | once the call has ended its input is the one it ended with, whatever was streamed, and nothing of the stream is left |
| ToolTree.FindIsFirst | frontend/src/store/transcript.ts:50-63 | looking a tool up finds the first of that id in document order, at any depth, or none if there is none |
| ToolTree.UpdateTouchesOne | frontend/src/store/transcript.ts:237-264 | an update of a tool puts its input or output behind what there is, gives the input as a whole, or sets the result, on the first tool of that id at any depth, and changes no other tool |
| ToolTree.UpdateKeepsProse | frontend/src/store/transcript.ts:237-264 | and no word of any message |
| Showing.MessageShows | frontend/src/store/transcript.ts:92-134 | a message nobody has seen comes at the end, block by block: prose as prose, a thought as a thought, a call under its name, kind and input, and an empty text where there is nothing to show |
| Showing.UserShows | frontend/src/store/transcript.ts:136-203 | a user message comes at the end as its images and the texts that are not empty, in order, and not at all if there are none |
| Showing.AsidesFold | frontend/src/store/transcript.ts:266-287 | over any events of the conversation the notes and alerts on screen are those the events are for, each as it is, in order, behind those there were |
| Showing.TurnEndShows | frontend/src/store/transcript.ts:289-302 | the end of a turn stops all that streams and takes no word, tool or item away |
| Showing.NestedShows | frontend/src/store/transcript.ts:65-69 | what an event of a subagent does to the list below its tool is what it does to a transcript of its own |
| Trees.StopIsStill | frontend/src/store/transcript.ts:288-302 | after a turn's end no message streams at any depth, and the tree changes only if one did |
| Paging.PagingHomomorphism | frontend/src/store/transcript.ts:313-319 | prepending the newer page and then the older one equals prepending both as one page, when the newer names nothing the older introduces |
| Paging.WholeHistory | frontend/src/store/transcript.ts:313-319 | so loading any number of pages, newest first, shows what folding the whole history shows |
| Paging.RepeatedPage | frontend/src/store/transcript.ts:313-319 | loading a page again changes nothing if and only if nothing in it leaves a note, which has no id to be known by |
| Paging.ReplayDoublesNothing | frontend/src/store/transcript.ts:205-235 | after a page of any transcript that shows no message twice, none is shown twice if and only if the page has none of an id on screen and not in `seen` |
| TranscriptRuns.RunsAreDistinct | frontend/src/store/transcript.ts:153-319 | a run of events, pages loaded, prompts shown and prompts taken off leaves a message twice on screen if and only if some page of it brought one that was then on screen from its deltas alone, as long as user and assistant ids differ and a prompt is shown before any user message under its id |
| TranscriptRuns.UnknownIsStreamed | frontend/src/store/transcript.ts:205-235 | after such a run a message on screen is not in `seen` if and only if the run has a delta or tool start of it that was taken in, no settled message of it that was, and no page that brought it |
| TranscriptRuns.PageDoubles | frontend/src/store/transcript.ts:310-319 | so any page loaded after such a run, at the start, on a reconnect or scrolling back, leaves every message once if and only if the run did and the page brings none that was streamed and neither settled nor brought by an earlier page |
| TranscriptRuns.DoubledByDelta | frontend/src/store/transcript.ts:214-223 | one delta of a message, and a page with the message: it is shown twice |
| TranscriptRuns.PromptTwice | frontend/src/store/transcript.ts:161-195 | a run with a prompt whose echo bears the local id, and a page that has it under another id: it is shown twice, once under each |
| Paging.PromptReturns | frontend/src/store/transcript.ts:161-203 | after a prompt and its echo, a page that stores the prompt under an id shows it again if and only if that id was not folded in before and is neither the local one nor the echo's |
| OwnPrompts.SenderShowsWatched | frontend/src/store/transcript.ts:161-203 | for any events of any backend: with every prompt echoed, the client that showed its prompts before they were sent shows what a client without prompts of its own shows, up to the ids of those prompts, if and only if nothing new came on screen while a prompt waited and each echo was of the one waiting first and had something to see |
| OwnPrompts.AlwaysSynced | frontend/src/store/transcript.ts:161-203 | until that fails, the one screen is at every point the other by those names, with the prompts that wait after it in the order they were shown |
| OwnPrompts.OutOfStep | frontend/src/store/transcript.ts:161-203 | once it fails, a prompt stands from then on where the other screen has something else, or is nowhere on it |
| OwnPrompts.EventAlike | frontend/src/store/transcript.ts:183-307 | every event but an echo changes two screens alike that differ in the ids of user items and in prompts waiting at the end |
| OwnPrompts.NoticeOvertakes | frontend/src/store/transcript.ts:161-203 | a notice between a prompt and its echo is such a failure |
| Paging.RepeatedNote | frontend/src/store/transcript.ts:313-319 | a page with a context boundary loaded twice shows it twice |
| Paging.ExistingItemsStay | frontend/src/store/transcript.ts:313-319 | what is on screen stays as the end of the list |
| Paging.PageInv | frontend/src/store/transcript.ts:183-212 | every message a page folds is known by its id, and no two of its items share one |
| Paging.LocalPromptUndone | frontend/src/store/transcript.ts:153-181 | taking a local prompt off again leaves no trace if and only if its local id had not been folded in before |
| Paging.EchoSettlesPrompt | frontend/src/store/transcript.ts:185-203 | the echo settles the item already on screen, and history cannot bring the message back |
| TranscriptStore.SettleBlocks | frontend/src/store/transcript.ts:113-134 | the loop over a message's blocks computes the specification of settling |
| TranscriptStore.AssistantIndex | frontend/src/store/transcript.ts:71-80 | the search from the end finds the last message with the id, or none |
| TranscriptStore.VisibleBlocks | frontend/src/store/transcript.ts:136-147 | the loop keeps exactly the blocks with something to show |
| TranscriptStore.Store.ReceiveUser | frontend/src/store/transcript.ts:185-203 | settles the local prompt the message echoes, or adds it once |
| TranscriptStore.Store.ReceiveAssistant | frontend/src/store/transcript.ts:205-212 | settles the message in the list it belongs to, or drops it |
| TranscriptStore.Store.ReceiveStream | frontend/src/store/transcript.ts:214-235 | adds the delta or the tool start to the message in the list it belongs to |
| TranscriptStore.Store.Receive | frontend/src/store/transcript.ts:183-307 | the object after an event is the specification's transcript after it, for every kind of event |
| TranscriptStore.Store.PrependHistory | frontend/src/store/transcript.ts:313-319 | folds a page on its own and puts what is new of it in front |
| TranscriptStore.Store.ShowPrompt | frontend/src/store/transcript.ts:169-174 | puts a local prompt at the end and remembers its id |
| TranscriptStore.Store.DropPrompt | frontend/src/store/transcript.ts:176-181 | takes the last prompt with that client id off and forgets its id |
| PiMapping.MessageIDsDiffer | backend/internal/agents/pi/mapping.go:102-110 | a user and an assistant message never share an id, and two of one role share it only with their timestamp |
| PiReplay.LiveEqualsReplay | backend/internal/agents/pi/session.go:439-608 | for every well-formed sequence of lines, folding what the session publishes gives the items and ids that folding the stored entries gives, once notices, alerts and streamed tool output are erased |
| PiReplay.SenderEqualsReplay | backend/internal/agents/pi/session.go:503-551 | with the owner's prompts on their client's screen before pi echoes them, that client shows what a watcher shows, prompts under the ids of their messages, if and only if nothing came on screen past a prompt that waited; and then it shows what the session file replays |
| PiReplay.EchoEnds | backend/internal/agents/pi/session.go:503-521 | the user message pi ends for a prompt that waits on its client's screen answers it: it waits no more, and stands for that message |
| PiLive.TraceInStep | backend/internal/agents/pi/session.go:439-608 | after every line, mid-message included, the live tree is the replayed one around the message being streamed |
| PiScreen.ReplayShows | backend/internal/agents/pi/mapping.go:112-130 | for every well-formed run, the stored thread shows every message that ended and every compaction, in order, and nothing else: an assistant message part by part, prose, thought or call with its name, kind and input, each call with the texts, images and error flag of the last result message that ended for it, or no result if none did; a user message with its own texts and images |
| PiScreen.LiveShows | backend/internal/agents/pi/session.go:439-608 | and so does the thread watched live, at every point, besides the message pi is at and the stream's own notices and alerts |
| PiScreen.AsidesAnnounced | backend/internal/agents/pi/session.go:542-563 | the notes and alerts on the live screen are, in order, one for each failed message, with its error or that it had none, each compaction, each retry and each line that could not be read |
| PiWriting.WritingShows | backend/internal/agents/pi/session.go:466-481 | whatever pi wrote before, the texts and thoughts it writes next of its message go each behind what its position shows, texts as texts and thoughts as thoughts, and nothing else on screen changes |
| PiWriting.CallShows | backend/internal/agents/pi/session.go:482-494 | a call pi begins is on screen under its name and kind, with the pieces of its input one behind the other |
| PiWriting.CallEndShows | backend/internal/agents/pi/session.go:495-500 | a call that is complete shows its arguments as a whole |
| PiWriting.SettledIsStill | backend/internal/agents/pi/session.go:613-645 | once pi has settled no message streams, whatever was left half said |
| PiWriting.InputStartsOver | backend/internal/agents/pi/session.go:439-500 | input at a position whose call has not begun since the message started, or since pi settled, is published for no call |
| PiWriting.OutputStartsOver | backend/internal/agents/pi/session.go:551-608 | once a tool has its result, a snapshot under its id is published whole |
| PiOutput.OutputFollowsSnapshots | backend/internal/agents/pi/session.go:582-608 | the output of a tool on screen always ends with its latest snapshot, and equals it if and only if every snapshot extended the one before |
| PiOutput.CutSnapshot | backend/internal/agents/pi/session.go:582-608 | the snapshots `ab` and `b` leave `abb` on screen |
| PiOutput.AccumulatedEndsWithLast | backend/internal/agents/pi/session.go:582-608 | the same of the deltas alone |
| PiOutput.ScreenShowsAccumulated | frontend/src/store/transcript.ts:252-257 | the reducer shows what the published deltas add up to |
| PiTurns.AlwaysConsistent | backend/internal/agents/pi/session.go:213-277 | at every lock release `running` holds exactly when `turnStarted` is set, and an interrupted or named turn is running |
| PiTurns.TurnsBracketed | backend/internal/agents/pi/session.go:234-277 | turn events alternate between a start and the finish of the same turn or a fatal exit if and only if pi neither settles nor dies between a prompt's claim and its verdict |
| PiTurns.FinishBeforeStart | backend/internal/agents/pi/session.go:261-268 | a run in which it does, where the finish is published before the start |
| PiTurns.FinishReports | backend/internal/agents/pi/session.go:613-643 | a finish carries the turn's id, puts interrupted before failed, and reports the sum over the replies since the claim |
| PiTurns.SpentReports | backend/internal/agents/pi/session.go:503-570 | the usage published after a reply is the turn's total so far |
| PiTurns.TurnAccounts | backend/internal/protocol/usage.go:16-28 | usage, cost, failure, echo and interruption are at every point what has happened since the claim; reasoning is reported if and only if some reply reported it |
| PiTurns.FirstUserMessageEchoes | backend/internal/agents/pi/session.go:503-570 | the owner's prompt is claimed by the first user message of its turn alone |
| PiDialogs.AlwaysAccounted | backend/internal/agents/pi/session.go:346-385 | the dialogs asked are at every point the disjoint union of those pending, being resolved and resolved, and of each the request is published or still to be |
| PiDialogs.ResolvedExactlyOnce | backend/internal/agents/pi/session.go:346-385 | no dialog is requested or resolved twice or is in two places, and one that is neither pending nor on its way has been both if it was asked |
| PiDialogs.PendingSince | backend/internal/agents/pi/session.go:346-385 | a dialog is pending exactly if it was asked and neither an answer to it nor a cancelling of all came since |
| PiDialogs.InOrderIfPatient | backend/internal/agents/pi/session.go:712-723 | no resolution is published before its request if and only if nobody resolves a dialog between the unlock that makes it pending and the publication of its request |
| PiDialogs.ResolvedBeforeRequested | backend/internal/agents/pi/session.go:373-385 | an interrupt in between does it |
| PiDialogs.AnswersNeverBothWin | backend/internal/agents/pi/session.go:346-371 | of all the answers racing for a dialog at most one wins |
| PiSession.Session.ClaimTurn | backend/internal/agents/pi/session.go:234-248 | claims the turn and resets what it counts, or refuses it as busy and changes nothing |
| PiSession.Session.AcceptTurn | backend/internal/agents/pi/session.go:265-268 | announces the turn of the prompt that was taken |
| PiSession.Session.AbandonTurn | backend/internal/agents/pi/session.go:271-277 | gives the turn up with nothing published |
| PiSession.Session.OnAgentStart | backend/internal/agents/pi/session.go:420-433 | opens a turn nobody prompted, unless one is running |
| PiSession.Session.OnMessageStart | backend/internal/agents/pi/session.go:439-448 | starts assembling a message |
| PiSession.Session.OnMessageUpdate | backend/internal/agents/pi/session.go:466-500 | publishes the delta of an update under the message being assembled |
| PiSession.Session.OnMessageEnd | backend/internal/agents/pi/session.go:503-570 | settles a message: its entry, its error, the echo it claims and the usage it adds |
| PiSession.Session.EchoPrompt | backend/internal/agents/pi/session.go:516-521 | the first user message of a turn takes the prompt's id, later ones none |
| PiSession.Session.CountReply | backend/internal/agents/pi/session.go:522-537 | adds the reply to the turn's usage, cost and failure, and publishes the total |
| PiSession.Session.PublishMessage | backend/internal/agents/pi/session.go:549-563 | publishes the entry of the message, if it has one, and the error it failed with |
| PiSession.Session.OnToolUpdate | backend/internal/agents/pi/session.go:582-608 | publishes what a snapshot adds to the one before |
| PiSession.Session.OnSettled | backend/internal/agents/pi/session.go:613-645 | resolves every pending dialog once and finishes the turn that is running, if any |
| PiSession.Session.TurnStatus | backend/internal/agents/pi/session.go:620-627 | interrupted exactly when the turn was, failed exactly when it failed and was not, completed otherwise |
| PiSession.Session.CloseTurn | backend/internal/agents/pi/session.go:613-643 | finishes a turn that is running, or does nothing, as the settling step of the run |
| PiSession.Session.FinishTurn | backend/internal/agents/pi/session.go:616-643 | closes the running turn with its summary and forgets the message in assembly |
| PiSession.Session.ClearTurn | backend/internal/agents/pi/session.go:213-219 | says whether a turn was running, and clears it |
| PiSession.Session.OnExit | backend/internal/agents/pi/session.go:213-230 | resolves every pending dialog once and reports the exit if a turn was running |
| PiSession.Session.ReportExit | backend/internal/agents/pi/session.go:224-229 | a fatal exit is published if a turn was running |
| PiSession.Session.OnInterrupt | backend/internal/agents/pi/session.go:279-291 | marks the running turn, and with a live process cancels its dialogs |
| PiSession.Session.AskDialog | backend/internal/agents/pi/session.go:718-720 | under the lock a new dialog becomes pending, with nothing published |
| PiSession.Session.AnnounceDialog | backend/internal/agents/pi/session.go:721-721 | its request is published, once |
| PiSession.Session.OnUIRequest | backend/internal/agents/pi/session.go:712-723 | the two steps, one after the other, at the end of the run |
| PiSession.Session.TakeDialog | backend/internal/agents/pi/session.go:346-351 | the answer wins if and only if the dialog was pending, which it then is not |
| PiSession.Session.ResolveDialog | backend/internal/agents/pi/session.go:363-363 | the resolution of a dialog that was taken is published, once |
| PiSession.Session.Respond | backend/internal/agents/pi/session.go:346-371 | an answer that wins resolves its dialog, and one that does not changes nothing but the run |
| PiSession.Session.ResolveEach | backend/internal/agents/pi/session.go:379-384 | each dialog taken is resolved once, in any order |
| PiSession.Session.CancelPending | backend/internal/agents/pi/session.go:373-385 | each pending dialog is resolved once, in any order, and none is left |
| Hub.StreamsAreFaithful | backend/internal/chat/hub.go:46-109 | between publishes, what went into a channel is every matching event of its subscription in order, or those up to the first that did not fit and one overflow frame for it, in a channel then closed |
| HubAudience.FramesHeard | backend/internal/chat/hub.go:46-74 | what a subscriber of the directory hears are the updates and deletions of threads and what one of a thread hears are the events of that thread, all that were published while it was subscribed, in order, unless it was cut off |
| Hub.ChannelsCloseOnce | backend/internal/chat/hub.go:62-109 | no channel is closed twice, no send waits on a closed one, and no thread keeps an empty set |
| Hub.NothingAfterClose | backend/internal/chat/hub.go:62-74 | once a channel is closed no step of any run puts another frame into it |
| Hub.UnsubscribeIdempotent | backend/internal/chat/hub.go:93-108 | ending a subscription twice is ending it once |
| Hub.DeliveryHands | backend/internal/chat/hub.go:62-74 | the steps of one delivery put into the channel the event, nothing, or the overflow frame |
| Hub.OverflowWaits | backend/internal/chat/hub.go:66-73 | the send of the overflow frame waits if and only if the open channel has every slot taken, and then the lock is held until that subscriber receives |
| Hub.PublisherWaits | backend/internal/chat/hub.go:79-81 | a run that gets there: the slot meant for the overflow frame is one ordinary events use |
| Hub.InvAlways | backend/internal/chat/hub.go:46-109 | the invariant behind these holds in every state of every run |
| HubStore.HubStore.DeliverLocked | backend/internal/chat/hub.go:62-74 | hands the event over, or after a wait the overflow frame with which it closes the channel |
| HubStore.HubStore.DeliverAll | backend/internal/chat/hub.go:49-56 | each subscriber of a set is handed the event once, in any order |
| HubStore.Subscription.AwaitRoom | backend/internal/chat/hub.go:71-71 | the send on a full channel goes on after receives, which lose nothing |
| HubStore.HubStore.Publish | backend/internal/chat/hub.go:46-57 | each subscriber of the thread, and of the directory for a directory event, is handed the event once and nobody else is touched |
| HubStore.HubStore.Subscribe | backend/internal/chat/hub.go:79-91 | an open, empty channel enters the one table it belongs to |
| HubStore.HubStore.Unsubscribe | backend/internal/chat/hub.go:93-108 | the channel leaves its table, an emptied thread leaves with it, and the channel is closed |
| Cursor.CursorRoundTrip | backend/internal/protocol/threads.go:81-109 | a cursor read back, with or without padding, is the keyset it was made from, through base64url of section 5 of RFC 4648 over an RFC 3339 stamp |
| Cursor.StampRoundTrip | backend/internal/protocol/threads.go:81-84 | a stamp written to the nanosecond with trailing zeros dropped reads back as itself |
| Cursor.Base64RoundTrip | backend/internal/protocol/threads.go:83-97 | decoding undoes encoding for any bytes |
| Cursor.BeforeTotal | backend/internal/protocol/threads.go:88-93 | of two different keysets one comes before the other |
| Cursor.BeforeTransitive | backend/internal/protocol/threads.go:88-93 | the order is transitive |
| Cursor.BeforeIrreflexive | backend/internal/protocol/threads.go:88-93 | no keyset comes before itself |
| CursorOrder.BeforeIsEarlier | backend/internal/protocol/threads.go:88-93 | a row comes before a cursor if and only if, at the first of year, month, day, hour, minute, second and nanosecond in which their stamps differ, it has the smaller, or the stamps are the same and its id is the lower bytewise |
| CursorOrder.StampColumns | backend/internal/protocol/threads.go:81-84 | the text of a stamp has each field in its columns, in full width |
| CursorOrder.ReadStamps | backend/internal/protocol/threads.go:99-109 | a text that reads as a stamp is the text of that stamp, which is a real date and time |
| CursorOrder.YearLengths | backend/internal/protocol/threads.go:81-84 | the months of a valid date add up to the years of the calendar, leap years included |
| CursorOrder.Alphabet | backend/internal/protocol/threads.go:83-97 | each of the sixty-four letters is the one table 2 of RFC 4648 has, and reads back as its number |
| CursorOrder.TestVectors | backend/internal/protocol/threads.go:83-97 | and section 10 of RFC 4648 comes out as it stands, padding aside |
| Directory.PageIsUnique | backend/internal/chat/registry.go:258-280 | table, cursor and limit determine the page |
| Directory.CursorAsksForTheRest | backend/internal/chat/service.go:173-189 | a page has a cursor if and only if rows are left, and the cursor sent back as text asks for exactly those |
| CursorRefusals.WhatIsAsked | backend/internal/protocol/threads.go:95-109 | the empty cursor alone asks for the first page; any other is refused if and only if, its padding off, it is not base64url or has no bar in what it says, and otherwise what stands before the first bar is the stamp and what stands after it the id |
| Directory.NothingTwice | backend/internal/chat/registry.go:258-280 | a walk interleaved with any writes stamped past its first page lists no thread twice, in strictly descending order, each row as it stood when the walk began |
| Directory.EveryUntouchedThread | backend/internal/chat/registry.go:258-280 | a walk that has run out of cursors has listed every thread nobody touched meanwhile |
| Directory.WalkEnds | backend/internal/chat/registry.go:258-280 | a walk takes at most one page more than the directory had threads, whatever is written meanwhile |
| DirectoryWrites.LastWriteStands | backend/internal/chat/registry.go:159-220 | after any writes a thread is in the directory with the stamp and record of the last write to it, and is not if that removed it; writes to other threads change nothing of it, and neither an update nor a touch brings back one that is not there |
| DirectoryWrites.WalkBegins | backend/internal/chat/registry.go:258-280 | every table has a first page of at most so many rows |
| DirectoryWrites.WalkGoesOn | backend/internal/chat/registry.go:258-280 | and a walk that is not done always has a next page, so that it does get to its end |
| Registry.PageCut | backend/internal/chat/registry.go:270-273 | one row more than asked for tells whether older ones exist |
| Registry.Registry.Query | backend/internal/chat/registry.go:258-269 | the newest so many rows past the cursor |
| Registry.Registry.Put | backend/internal/chat/registry.go:159-165 | inserts or replaces the row, and publishes it |
| Registry.Registry.Apply | backend/internal/chat/registry.go:180-192 | the read-modify-write of one row, or nothing for an unknown thread |
| Registry.Registry.Update | backend/internal/chat/registry.go:171-175 | changes and publishes the row; an unknown thread is ignored in silence |
| Registry.Registry.Touch | backend/internal/chat/registry.go:195-195 | changes nothing but the stamp |
| Registry.Registry.Remove | backend/internal/chat/registry.go:205-220 | deletes the row, and says so only if there was one |
| Registry.Registry.Page | backend/internal/chat/registry.go:258-280 | the newest rows strictly before the cursor, newest first, and whether older ones exist |
| Registry.Registry.ListThreads | backend/internal/chat/service.go:173-189 | refuses a cursor it cannot read, else answers the page with the cursor of its last row when older rows remain |
| PiBranch.WalkIsAncestors | backend/internal/agents/pi/transcript.go:64-75 | without a circle above the last entry the walk lists exactly its ancestors, each once, each below its parent |
| PiBranch.LongerOnlyAround | backend/internal/agents/pi/transcript.go:66-74 | the bound on the walk cuts it short if and only if the parents run in a circle |
| PiBranch.BranchIsAChain | backend/internal/agents/pi/transcript.go:64-75 | the branch ends at the entry written last, each entry names the one before it, and the first names none the file has |
| PiBranch.BranchInFileOrder | backend/internal/agents/pi/transcript.go:64-75 | with distinct ids and parents before children there is no circle, and the branch is in the order of the file |
| PiBranch.ReadEntries | backend/internal/agents/pi/transcript.go:48-58 | the scan keeps what it should and remembers where each id was written last |
| PiBranch.ReadBranch | backend/internal/agents/pi/transcript.go:64-75 | the loop terminates on every file and computes the branch |
| PiHistory.CursorsAreUnique | backend/internal/agents/pi/transcript.go:94-95 | on such a file no two entries share a cursor and none has the empty one |
| PiHistory.Settle | backend/internal/agents/pi/transcript.go:77-91 | the loop keeps the entries that are transcript, under their file ids |
| PiHistory.Slice | backend/internal/agents/pi/transcript.go:102-106 | the page ending at a place, with a cursor when something is left before it |
| HistoryPages.Find | backend/internal/agents/pi/transcript.go:96-101 | the first entry under the cursor, or none |
| PiHistory.PagesTile | backend/internal/agents/pi/transcript.go:96-106 | following the cursors with any limits lists the end of the history with no gap and no repeat, and all of it once the limits add up |
| PiHistory.ReadTranscript | backend/internal/agents/pi/transcript.go:48-106 | computes the page, an unknown cursor giving an empty one |
| PiLoading.LoadingShows | backend/internal/agents/pi/transcript.go:48-91 | the history loaded shows every message and compaction of the branch pi will go on from, part by part as pi wrote it, each call with how its tool ended last, in order, and nothing else |
| PiLoading.HistoryIsReplay | backend/internal/agents/pi/transcript.go:77-91 | the history of a branch is the replay of what pi said when it wrote its entries |
| PiLoading.EntriesAreSieved | backend/internal/agents/pi/transcript.go:48-58 | the scan takes every line that decodes, is not the header and has an id, in order, and no other |
| PiLoading.UnknownIsEmpty | backend/internal/agents/pi/transcript.go:96-101 | a cursor the history does not have gets an empty page and no way on |
| ClaudeAssembly.PublishedGrows | backend/internal/agents/claudecode/session.go:604-620 | inside a turn every published list of a message is a prefix of the next |
| ClaudeAssembly.PublishedIsTold | backend/internal/agents/claudecode/session.go:604-620 | a published list is everything the turn has told of the message |
| ClaudeAssembly.OneEntryGrows | backend/internal/agents/claudecode/transcript.go:82-104 | history holds one entry for a message, where its first line stood and under that line's id, with all it was told |
| ClaudeAssembly.LiveIsReplay | backend/internal/agents/claudecode/session.go:588-622 | the list published last is the one history replays if and only if nothing was told of the message before that line's turn |
| ClaudeAssembly.OutlivesItsTurn | backend/internal/agents/claudecode/session.go:669-670 | a message told in two turns is published without its beginning, which the file has |
| ClaudeAssembly.PagesDisjoint | backend/internal/agents/claudecode/transcript.go:112-135 | a page and the one its cursor asks for abut if and only if the cursor is not the empty one and no earlier entry came from the line it names, and overlap if and only if it is the empty one |
| ClaudeAssembly.PagesTile | backend/internal/agents/claudecode/transcript.go:112-135 | following the cursors with any limits leaves no gap and no repeat if and only if every cursor followed leads back so |
| ClaudeAssembly.TilesAreWhole | backend/internal/agents/claudecode/transcript.go:112-135 | pages without gap or repeat hold a stretch of the history exactly as it is |
| ClaudeAssembly.ReadOne | backend/internal/agents/claudecode/transcript.go:84-109 | one line grows the entry of its message, opens one, or adds what it settles into; a sidechain adds nothing |
| ClaudeAssembly.ReadTranscript | backend/internal/agents/claudecode/transcript.go:82-135 | the loop over the lines and the slice compute the page, an unknown cursor giving the latest one |
| ClaudeReading.SidechainsUnread | backend/internal/agents/claudecode/transcript.go:82-109 | what is read of a file is what is read of it without the lines of subagents |
| ClaudeReading.EntriesStand | backend/internal/agents/claudecode/transcript.go:82-109 | what any other line settles into comes after what came before it, in order, under the id of its line |
| ClaudeReading.UserLineRead | backend/internal/agents/claudecode/transcript.go:82-156 | a user line of the conversation is read as its entries, in order, and a subagent's not at all |
| ClaudeReading.PageHolds | backend/internal/agents/claudecode/transcript.go:112-135 | a page ends before the first entry its cursor names, or at the end of the history when there is none, holds as many entries as it may, and says how to go on exactly while there are more |
| ClaudeWriting.WritingShows | backend/internal/agents/claudecode/session.go:541-575 | whatever a client has on screen, the texts and thoughts claude prints next of its message go each behind what its position shows, texts as texts and thoughts as thoughts, and nothing else on screen changes |
| ClaudeWriting.CallShows | backend/internal/agents/claudecode/session.go:553-575 | a call claude begins is on screen under its name and kind, with the pieces of its input one behind the other |
| ClaudeWriting.LineTells | backend/internal/agents/claudecode/session.go:588-618 | the line of a message completes each of its calls with its input, in order, and then tells all the turn has told of the message |
| ClaudeWriting.ResultIsStill | backend/internal/agents/claudecode/session.go:650-675 | once a turn has its result no message streams on any client, whatever was left half said |
| ClaudeAssembly.Session.OnAssistant | backend/internal/agents/claudecode/session.go:604-618 | appends to the message and publishes the whole of it |
| ClaudeAssembly.Session.OnResult | backend/internal/agents/claudecode/session.go:669-670 | forgets every message of the turn |
| ClaudeOrder.LiveEqualsReplay | backend/internal/agents/claudecode/session.go:541-645 | for every run of lines, streamed pieces and owner prompts in which all that is streamed has been told, any number of messages streaming at once, the transcript folded from what the session published, renaming the prompts, is the one folded from the file if and only if nothing was put on screen past a message that streamed before its first line, but the first such message, and no prompt of the client's own had nothing to see |
| ClaudeOrder.OutOfPlace | backend/internal/agents/claudecode/session.go:541-645 | after a step that puts something there, whatever follows, one place on screen holds an assistant message and in the file something else |
| ClaudeOrder.NoteOvertaken | backend/internal/agents/claudecode/session.go:771-798 | a note published between a message's first delta and its first line stays after the message on screen and stands before it in the file |
| ClaudeOrder.NoteMisses | backend/internal/agents/claudecode/session.go:771-798 | all that run streams is told, so the note alone is what the equality fails by |
| ClaudeOrder.StreamedThenTold | backend/internal/agents/claudecode/session.go:541-618 | a message streamed and then told is a run that tells all it streams, and is not one before its line |
| ClaudeSender.SenderEqualsReplay | backend/internal/agents/claudecode/session.go:303-311 | with its prompts on screen before the session has sent them, their client shows what a watcher shows if and only if nothing came on screen past a prompt that waited, and then it shows what the file replays, prompts renamed, if and only if every step landed for the watcher |
| ClaudeSender.EchoedLater | backend/internal/agents/claudecode/session.go:303-311 | a prompt shown, and then sent and echoed, is such a run |
| ClaudeLive.LandedReplays | backend/internal/agents/claudecode/session.go:303-311 | with every step in its place the transcript watched live is the file's, up to the prompts' ids |
| ClaudeLive.LiveShows | backend/internal/agents/claudecode/session.go:541-645 | such a run leaves the drawn history: each message with the blocks told and its tools with their results, nothing streamed left over |
| ClaudeLive.AlwaysShown | backend/internal/agents/claudecode/session.go:541-645 | at every point of such a run, mid-message included, the screen is the drawn history with drafts past what each message was told, and after it the messages nothing is told of yet, in the order they began |
| ClaudeShows.PieceShows | frontend/src/store/transcript.ts:214-235 | a delta or tool start past what is told changes nothing that is drawn: it drafts, or opens its message after the others that began early |
| ClaudeShows.LineShows | backend/internal/agents/claudecode/session.go:588-618 | the events of the line of a message that is drawn, or comes next, turn the screen into the one of the longer history, keeping the drafts past it and the messages after it |
| ClaudeShows.OtherShows | backend/internal/agents/claudecode/session.go:630-647 | so do those of any other line that draws nothing or finds no message begun early, results landing on their tools among drafts |
| ClaudeShows.PromptShows | backend/internal/agents/claudecode/session.go:308-311 | so does the echo of a prompt, on the client that sent it and on any other |
| ClaudeLines.ScreensExtend | backend/internal/agents/claudecode/transcript.go:82-109 | reading on, the drawn history only grows: what is drawn stays in its place, the same item by kind and id |
| ClaudeUser.AgreeUnlessEnvelope | backend/internal/agents/claudecode/session.go:633-647 | the events published for a user line of the conversation leave any screen that has not seen the line what its stored entries leave it, if and only if the line is no caveat, local command, command output or task notification |
| ClaudeUser.PublishedAsStored | backend/internal/agents/claudecode/transcript.go:137-155 | so exactly those user lines are published as they are stored that are no such envelope |
| ClaudeUser.CommandReads | backend/internal/agents/claudecode/transcript.go:187-237 | a local command as claude writes it reads back as its name and arguments, whatever the arguments hold and however the tags are spaced |
| ClaudeUser.EnvelopeDiffers | backend/internal/agents/claudecode/transcript.go:195-237 | no envelope comes to what its text comes to, on any screen that has not seen the line |
| ClaudeReading.LineIsTold | backend/internal/agents/claudecode/session.go:633-647 | a user line is published as the results in it, in order, and then its texts and images, in order, as one message, if it has any |
| ClaudeReading.CommandStored | backend/internal/agents/claudecode/transcript.go:213-226 | a command as claude writes it is stored as its name and, behind a space, its arguments if there are any, without the white space around either |
| ClaudeReading.OutputStored | backend/internal/agents/claudecode/transcript.go:227-236 | what a command put out, on either stream and whatever it holds, is stored as an answer unless it is white space, and the caveat as nothing |
| ClaudeReading.NoticeStored | backend/internal/agents/claudecode/transcript.go:195-211 | the notice of a finished task is stored as its summary and its status, any status but completed and stopped as failed |
| ClaudeReading.Trims | backend/internal/agents/claudecode/transcript.go:195-226 | trimming takes the white space off both ends and nothing else |
| ClaudeUser.Session.OnUser | backend/internal/agents/claudecode/session.go:633-647 | publishes the results of a user line's tools in order and then what can be seen of it as one message |
| ClaudeUser.TranscriptEntries | backend/internal/agents/claudecode/transcript.go:137-156 | makes of the line what the specification of the reader does |
| ClaudeUser.VisibleBlocks | backend/internal/agents/claudecode/mapping.go:107-118 | keeps the texts and images in order |
| ClaudeDrafts.SettleLike | frontend/src/store/transcript.ts:113-134 | settling a longer prefix of the array over drafts of the rest draws exactly that prefix and keeps the drafts past it |
| ClaudeLines.AlwaysFeasible | backend/internal/agents/claudecode/session.go:604-618 | at every point of an orderly run, what is still to be told names no tool the thread knows or has a result of |
| ClaudeLines.ScreenTold | backend/internal/agents/claudecode/transcript.go:82-109 | every message drawn from the file has all the blocks it was told |
| ClaudeScreen.Grow | frontend/src/store/transcript.ts:205-212 | publishing the whole message so far makes the screen the one the grown entry shows |
| ClaudeScreen.ResultLands | frontend/src/store/transcript.ts:259-264 | a tool result lands on the one tool it names, if that is on screen |
| PromptLedger.Ledger.Seen | backend/internal/chat/service.go:34-47 | new, replay or conflict, by the last 4096 recorded prompts alone |
| PromptLedger.Ledger.Record | backend/internal/chat/service.go:49-61 | `order` stays the last at most 4096 log entries without repeats and `digests` holds exactly their ids |
| PromptLedger.OneVerdict | backend/internal/chat/service.go:34-47 | of the three exactly one applies |
| PromptLedger.RememberedFor | backend/internal/chat/service.go:309-331 | an id that was accepted starts no second turn, and another prompt under it is refused, until 4096 others have been recorded; then the next one taken starts one |
| PromptLedger.NewStarts | backend/internal/chat/service.go:309-331 | a prompt under an id that never had a turn starts one exactly if the backend takes it, and fails if not |
| PromptLedger.TurnsApart | backend/internal/chat/service.go:309-331 | two turns under one id are more than 4096 apart |
| PromptLedger.Service.Handle | backend/internal/chat/service.go:309-331 | only a new prompt reaches the backend, and is recorded if and only if it was taken |
| Presentation.PresentTranscript | frontend/src/lib/transcriptPresentation.ts:14-44 | expanding the rows gives exactly the visible blocks and items in order, and the rows are canonical |
| Presentation.PresentItem | frontend/src/lib/transcriptPresentation.ts:23-42 | the rows of one item put its visible pieces after those there are |
| Presentation.Act | frontend/src/lib/transcriptPresentation.ts:16-20 | an entry joins the activity group at the end, or begins one |
| Presentation.RowsDetermined | frontend/src/lib/transcriptPresentation.ts:14-44 | these two facts leave no choice of rows |
| Presentation.GroupsStandApart | frontend/src/lib/transcriptPresentation.ts:16-20 | no activity group is empty or next to another, and each has the id of its first entry |
| PresentationPieces.PiecesShow | frontend/src/lib/transcriptPresentation.ts:14-44 | every item and every part of a message shows in its place, prose under the id of its position, a thought that streams or has something in it, a tool; what is left out is white space alone; and a message that has only begun shows that it thinks |
| PresentationPieces.GroupCounts | frontend/src/lib/transcriptPresentation.ts:75-100 | a group counts the tools an event can reach in it, each once, the shell calls, the failed results and the alerts at any depth, and the calls without a result; and it runs if and only if the turn is on and a call or thought of its own has not ended |
| Presentation.ActivityStats | frontend/src/lib/transcriptPresentation.ts:75-100 | every tool of the trees is counted once, alerts count as failures at any depth, and a group runs if and only if the turn is active and one of its own entries runs, whatever lies below |
| Presentation.Visit | frontend/src/lib/transcriptPresentation.ts:77-94 | counts a tool and all below it |
| Presentation.VisitChildren | frontend/src/lib/transcriptPresentation.ts:85-93 | counts what is below a tool; nothing there decides whether the group runs |
| Presentation.PendingAndFinished | frontend/src/lib/transcriptPresentation.ts:81-84 | pending and finished tools are all the tools |

## Left out

- Subprocesses, pipes, scanners, HTTP, server-sent events, timers and files: lines, responses and clock readings are inputs.
- JSON: lines arrive decoded, and one that does not decode is an input of its own. System reminders are taken to be cut from texts and their ends trimmed before the reducer sees them.
- SQLite and GORM: the table is a map, the query picks the newest rows, and the stamp a write gets is an input. A row's run state, asked of its backend, is left out of the summary.
- Password comparison, cookies, origin checks and the digest of a prompt: a refused password and a payload are inputs, and payloads stand for their digests.
- Handlers of one session run as whole steps between lock releases; what two handlers publish concurrently outside the lock can interleave more finely. The transcript results take the events of one line as published together.
- Multiplexer.Process.FailPending: the codex copy sends a failure without an id; the shared model gives each failure the id it is filed under.
- Multiplexer.NoStrandedWaiter: for a second instance only the ids matter, so the claude and codex copies have no class of their own.
- Throttle.FailuresBounded: takes sequential failures let through by the gate, a clock that does not go back, no reset in between, and addresses other than `*`, which is the key of the global bucket.
- Transcript: the tree is a value, so an edit of one tool replaces it; two positions holding one and the same block object after a tool settled at a second position are not modelled. Notes and alerts carry no local id.
- Settling.SettleIsPointwise: takes distinct tool ids, each at its own position if it is on screen already.
- PiReplay.LiveEqualsReplay: takes messages and tools with distinct ids, deltas within the final array, and blocks that all have something to draw.
- PiScreen.ReplayShows: takes the runs `PiReplay.LiveEqualsReplay` takes; `PiLoading.LoadingShows` those of the messages in the branch.
- PiWriting.CallShows: takes a call at a position past those on screen under an id that is not there yet; at a position that is there already, or under an id that is, a start changes nothing.
- PiReplay.SenderEqualsReplay: the same, and prompts with client ids that are not empty and not used before. A retry notice or an alert while a prompt waits makes the sender's screen another, though the file has neither.
- OwnPrompts.SenderShowsWatched: takes a client that loads no page in between and takes no prompt off again, client ids that are used once and not empty, no message under the local id of a prompt but its own echo, and echoes in the conversation itself under an id not seen before.
- ClaudeSender.SenderEqualsReplay: takes what `ClaudeOrder.LiveEqualsReplay` and `OwnPrompts.SenderShowsWatched` take.
- ClaudeOrder.LiveEqualsReplay: takes the lines and pieces of the conversation itself, not of subagents; messages and tools with distinct ids; every piece at a position that its message will have, that something is drawn at, and that its line has not told yet, a tool start at its own; a result after its tool; no message beyond its turn; and other lines published as they are stored, which leaves out notices, errors and the envelopes of `ClaudeUser`.
- ClaudeUser.CommandReads: takes names and messages without `<`, which no command has.
- ClaudeReading.NoticeStored: takes values without `<`, and the three fields in the order claude writes them; `ClaudeReading.CommandStored` takes names and messages without it.
- TranscriptRuns.RunsAreDistinct: takes user and assistant ids apart, a prompt shown once and before any user message bears its id, and client ids that are not empty. Doubling is of one id; `Paging.PromptReturns` is of two.
- Settling.StreamingAbsorbed: takes an array whose blocks all have something to draw, streamed to no further than its end; `ClaudeDrafts.SettleLike` settles a part of the array at a time, and lets a block with nothing to draw be where nothing was streamed.
- Multiplexer.Process.Enter: the methods of the class are held to the table and the channels one by one; a call makes its channel operations and reads the flag outside the lock, so what strings its methods together is the step machine alone.
- PiTurns.TurnsBracketed: a turn is closed or opened and the closing or opening published in one step, a prompt's apart. The code publishes after it has released the lock, so that a new prompt's start can come before the finish or the exit of the turn before it; the model has the order in which the lock was held.
- PiTurns.FinishReports: usage is in whole numbers and cost in reals, without the rounding of floating point.
- Cursor.CursorRoundTrip: a cursor whose stamp is not in the form the encoder writes, such as one with an offset, is set apart as `Elsewhere`: the time library decides there.
- Directory.EveryUntouchedThread: takes every write after the first page to be stamped past all rows stored then, and pages of at least one row, which is what the server asks for.
- PiHistory.PagesTile: takes ids written once and parents before children, as pi does.
- PromptLedger.RememberedFor: takes prompts handled one after the other; two at once under one id can both find it new. Titling the thread is left out.
- Hub.StreamsAreFaithful: says what is in a channel, not when the subscriber reads it; the writer of the event stream is not modelled.
- Codex and OpenCode turn handling, the other commands of the service, capability descriptors, option checks, error classification and the React components: settled by reading one branch.
