# yuke: proofs of its core

This project models the parts of yuke that are hard to get right, and proves what their documentation promises:

- `Wire`, `Encoders`: the incremental request encoder. It caches encoded elements and gives the bytes of a fresh encode after every history of calls.
- `Commits`, `TurnStates`, `Toolsets`, `Turns`: the decisions of a turn and its driver. Commits replay to the live context, and every tool call is answered.
- `Stores`, `Clients`, `Journals`, `Sessions`, `Paging`: durable sessions. An event log with one writer, pending inputs, leases, forks, crash repair, and pages.
- `Replies`, `Updates`: the reduction of streamed answers, and the live drafts that tie stream ids to saved blocks.
- `Wyhash`, `Base64`, `HttpDates`, `Retries`: a streaming hash, a canonical codec, calendar arithmetic, and the retry bounds.

Objects whose methods update their fields are classes here: `Encoder`, `Hasher`, `Reply`, `TurnState`, `Publisher`, `MemoryStore`, `Journal`, `Turn`, and `Session`. Code that only computes is functions.

How the model reads the program:

- The model, the tools, the hooks, the transport, and the clock are arbitrary. Each of their answers is an arbitrary value. A hook behind a tool answers under the id of its call, as its documentation demands.
- Every wait lets other clients call any operation of the store any number of times. They follow the owner lock: they do not write the events of a session that another writer holds.
- A write can fail before it saves, or save and then fail. A caller can drop the future of a turn at any wait. A loop without a bound of its own runs an arbitrary number of steps, and then its future counts as dropped, so every finite run is covered.
- The reducers behind a stream number blocks densely in start order, name only started blocks, and stop a block at most once. A stream that breaks this ends as a failed attempt.
- Claims about calls and results hold as long as the callers of the turns keep the pairing (`Journals.Keeps`): inputs are plain text and media, and no replacement cuts between a call and its result. `Sessions.Session.Run` states when a session stays paired, in both directions.
- No two compared blocks or keys share a hash in the encoder. Buffers are values.
- Delays are whole nanoseconds up to the longest one of the language. The product of a delay and the jitter has any relative error up to one part in 2 to the 50, which covers its four float roundings, and then rounds to the nearest nanosecond.

Where the code and its documentation differ, the model follows the code:

- `TurnInputs::take` can fail behind inputs that it took. Their records stay, and the failed end of the turn has no blocks. `Journals.Journal.Save` says that the store then saves that end if and only if nothing was taken, `Turns.Turn.TakeInput` and `Turns.Turn.StepDone` say which action follows the failure and that a turn which took something halts, and `Sessions.Session.Run` says that the log then has no end of the turn and that the session is stale. `Journals.FailedTakeWitness` is an input: the hook keeps the first of two inputs and fails on the second.
- The element of a tool search result of the Responses protocol also reads blocks before its group (crates/ai/src/wire/openai_responses.rs:266-276). The text of a group here reads every block up to its end, and the cache is still right.
- The date reader takes a weekday that is not the one of the date, and a plus sign before a number (`HttpDates.LooseDateReads`). `HttpDates.ReadsPrintedDates` says exactly which accepted texts are the printed form of their date, its weekday included.
- A comment of the backoff promises 75% to 100% of a delay (crates/ai/src/retry.rs:112). The rounding of the cut can take a part of a nanosecond more: `Retries.ShortDelayLosesMore` is an input. `Retries.QuarterIsKept` says for exactly which delays the promise holds when the product is exact, and `Retries.QuarterIsKeptInFloats` says it for delays below 39 hours and every product within the float error. A policy in whole microseconds below 39 hours keeps it (`Retries.MicrosecondsKeepAll`).
- A comment of the run says that a note alone never starts a turn (crates/agent/src/session.rs:489). It can: a turn can accept the note of an interrupted one and end before its first save, and then a client or the hook can remove every other input. `Sessions.NoteAloneWitness` is such a store. `Sessions.TakeFirst` gives the exact condition: the input of a turn is notes alone if and only if the first take took nothing but notes.

A result that is used folded, such as `Turns.Turn.Standing`, is a value and not a predicate, so that a caller does not see its body.

## Model

| member | source | states |
|---|---|---|
| Base64.EncodeInto | crates/ai/src/base64.rs:17-39 | What the table-driven loop appends to the buffer is the padded encoding of section 4 of RFC 4648, a definition over groups of 3 bytes that knows no table and no cells |
| Base64.ReadChunk | crates/ai/src/base64.rs:54-85 | The accumulator of a chunk reads exactly the digits of up to 4 positions, and rejects set bits behind a short last chunk |
| Base64.Decode | crates/ai/src/base64.rs:43-85 | The decoding loop gives the canonical decoding of the text, or nothing |
| Base64.DecodesExactlyTheEncodings | crates/ai/src/base64.rs:43-85 | For every text and byte string and either alphabet: the decoder gives the bytes if and only if the text is their padded or their unpadded encoding |
| Base64.AcceptsEncodings | crates/ai/src/base64.rs:17-85 | Decoding inverts encoding, with the padding and without it |
| Base64.AcceptsOnlyEncodings | crates/ai/src/base64.rs:54-85 | A text that decodes is the encoding of its bytes, with or without its padding, so no second spelling exists |
| Base64.EncodingsAreInjective | crates/ai/src/base64.rs:17-85 | Two byte strings with one encoding are equal |
| Base64.BareLength | crates/ai/src/base64.rs:17-39 | The length of an encoding, with and without padding, from the length of the data alone |
| Wyhash.Hasher.constructor | crates/ai/src/wyhash.rs:22-31 | A new hasher holds the empty input under its seed |
| Wyhash.Hasher.Mixin | crates/ai/src/wyhash.rs:33-40 | One round over three lanes, lane by lane in place, equals the round of the reference |
| Wyhash.Hasher.Flush | crates/ai/src/wyhash.rs:50-70 | A long write completes the buffered block and mixes it in, and the lanes are then the rounds of the whole input up to that block |
| Wyhash.Hasher.KeepRest | crates/ai/src/wyhash.rs:64-77 | The rest of a long write stays in the buffer, and behind a rest of less than 16 bytes the end of the buffer holds the bytes right before it |
| Wyhash.Hasher.Write | crates/ai/src/wyhash.rs:50-78 | A write of any length keeps the invariant: lanes, buffered last block, and the kept tail follow from the joined input |
| Wyhash.Hasher.Finish | crates/ai/src/wyhash.rs:80-106 | The final hash of a hasher is the one-shot Wyhash of everything that it took |
| Wyhash.HashPieces | crates/ai/src/wyhash.rs:50-106 | Every split of an input into writes, empty ones too, hashes like one write of the joined bytes |
| Wyhash.RoundsOfPrefix | crates/ai/src/wyhash.rs:50-78 | The rounds of the first blocks do not depend on the bytes that come later |
| Wyhash.BufferedAppend | crates/ai/src/wyhash.rs:50-78 | A short write that only joins the buffer keeps the block count and the kept tail |
| Wyhash.LastBytes | crates/ai/src/wyhash.rs:80-106 | The 16 bytes that the final step reads from the buffer, kept tail included, are the last 16 bytes of the input |
| Wire.GroupEnd | crates/ai/src/wire/openai_chat.rs:83-147 | The end of a group lies behind its start and within the context, for each of the three protocols (also crates/ai/src/wire/anthropic.rs:79-92 and crates/ai/src/wire/openai_responses.rs:85-101) |
| Wire.RunEnd | crates/ai/src/wire/openai_responses.rs:85-101 | A run holds only blocks that join it, and the block behind it does not |
| Wire.GroupEndIsLocal | crates/ai/src/wire/openai_responses.rs:85-101 | For each protocol, a group that ends before its context does ends at the same block in every context that agrees up to the one block behind it |
| Wire.CacheIndex | crates/ai/src/wire.rs:60-67 | The marker is on the last block that can carry it, and there is one exactly when some block can |
| Encoders.GroupsAreLocal | crates/ai/src/encoder.rs:262-306 | Two contexts that agree through the block behind a recorded element reach that element with the same buffer and the same records |
| Encoders.ReachedElement | crates/ai/src/encoder.rs:219-260 | Each recorded element is a point that a fresh encode comes by, with the bytes and the elements before it |
| Encoders.GroupsJoin | crates/ai/src/encoder.rs:262-306 | Writing group by group with a comma only behind a non-empty buffer gives the texts of the groups joined by commas, without the dropped groups |
| Encoders.ReachedEnd | crates/ai/src/encoder.rs:262-306 | A complete walk over the groups ends with exactly the elements of a fresh body |
| Encoders.Encoder.constructor | crates/ai/src/encoder.rs:163-167 | A new encoder holds no elements |
| Encoders.Encoder.CountSame | crates/ai/src/encoder.rs:219-260 | The hash comparison finds exactly the common first blocks of the last and the new request |
| Encoders.Encoder.DropChanged | crates/ai/src/encoder.rs:219-260 | What stays behind a changed block is a point that a fresh encode of the new blocks comes by, although the element before it read one more block |
| Encoders.Encoder.Keep | crates/ai/src/encoder.rs:219-260 | The kept bytes, elements, and hashes are those of a fresh encode of the new request at the returned block, also after a failed write; under the same key the kept hashes are those of exactly the common first blocks, no element that starts in them is cut except the last one, and an unchanged request keeps everything |
| Encoders.Encoder.WriteElements | crates/ai/src/encoder.rs:283-297 | The loop extends a reached point to the end of the blocks, or stops at a failed write with a state that the next request can still use |
| Encoders.Encoder.Advance | crates/ai/src/encoder.rs:177-297 | From any valid state to the elements of the new blocks, or to a failed write that the next request can still use; under the same key no group is written before an element that starts at a block that both requests share |
| Encoders.Encoder.Serialize | crates/ai/src/encoder.rs:262-306 | After it the buffer is the fresh elements and then the head, and a request that repeats a successful one writes no group |
| Encoders.Encoder.Encode | crates/ai/src/encoder.rs:177-217 | Any call on a valid encoder gives the body of a fresh encoder or an error that the request itself or one of its writes caused, and the encoder stays valid; under the same key it writes no group before an element that starts at a shared block |
| Encoders.EncodeNext | crates/ai/src/encoder.rs:177-217 | One more call behind any history keeps what the encoder holds, and serves its request as a fresh encoder does |
| Encoders.EncodeAll | crates/ai/src/encoder.rs:177-306 | Every history of calls, with appends, edits, cuts, marker moves, key changes, and writes that fail in the middle: each successful body equals the body of a fresh encoder for that request |
| Replies.Reply.Keep | crates/ai/src/reply.rs:94-131 | One event changes only the part of its own block, as the reduction of the event says |
| Replies.PartsAreIndependent | crates/ai/src/reply.rs:94-131 | The part of a block in any legal stream is the reduction of the events of that block alone |
| Replies.InterleavingDoesNotMatter | crates/ai/src/reply.rs:94-141 | Two legal streams that differ only in the interleaving of different blocks reduce to the same parts and the same completion |
| Replies.StoppedHoldsItsDeltas | crates/ai/src/reply.rs:94-131 | A stopped block holds the in-order join of its own deltas |
| Replies.CompleteFollowsIds | crates/ai/src/reply.rs:133-141 | The completion lists the stopped blocks in start order: its index i is the block with the i-th smallest stopped id |
| Replies.AscendingIsUnique | crates/ai/src/reply.rs:133-168 | Two ascending lists of the same ids are equal |
| Commits.ResultsFollowCalls | crates/engine/src/turn_state.rs:68-70 | In an unbroken context the results answer the calls one by one in call order, and exactly the waiting calls have none |
| Commits.BalancedAnswersEachCall | crates/engine/src/turn_state.rs:68-70 | In a balanced context each call has exactly one result with its id in call order, and no prefix holds a result before its call |
| Commits.AnswerOpens | crates/engine/src/turn_state.rs:288-331 | An answer behind a balanced context opens exactly its own calls, and their results in call order close it again |
| Commits.InputKeepsBalance | crates/engine/src/turn_state.rs:351-355 | Plain input keeps every call answered |
| Commits.OpenCallsAreWaiting | crates/agent/src/session.rs:393-405 | In every resumable context the calls behind the last user block are exactly the calls without a result |
| Commits.RepairBalances | crates/agent/src/session.rs:373-381 | Error results for the open calls give every call of a resumable context its result |
| Commits.RepairsExactlyTheResumable | crates/agent/src/session.rs:373-405 | The repair answers every call if and only if only an answer at the end of the context has calls without results |
| TurnStates.NotRunAnswers | crates/engine/src/turn_state.rs:310-321 | The results of calls that did not run answer those calls one by one in call order |
| TurnStates.DisplaysPointAtResults | crates/engine/src/turn_state.rs:390-405 | Each saved display points at the result block of its own call with that call's display and duration, and the indexes strictly ascend |
| TurnStates.DisplaysAreComplete | crates/engine/src/turn_state.rs:390-405 | Every result with a display or a duration has its display in the commit |
| TurnStates.HistoryGrows | crates/engine/src/turn_state.rs:68-70 | One more commit keeps three facts: the commits replay to the live context, to the live token count, and every prefix of them is resumable |
| TurnStates.TurnState.constructor | crates/engine/src/turn_state.rs:247-256 | A turn starts with its context saved and no commits |
| TurnStates.TurnState.CommitsReplay | crates/engine/src/turn_state.rs:68-70 | Between two calls, replaying all lent commits on the starting context and tokens gives the live context and tokens |
| TurnStates.TurnState.SendInput | crates/engine/src/turn_state.rs:351-355 | New input joins the context in one commit, or in none when it is empty, and the turn waits for an answer |
| TurnStates.TurnState.Replace | crates/engine/src/turn_state.rs:271-285 | The commit of a replacement holds the number of blocks that really stayed, so its replay gives the replaced context, and it clears the token count |
| TurnStates.TurnState.ModelFinished | crates/engine/src/turn_state.rs:288-331 | For each finish reason: calls run only after a tool or a stop finish; after every other one each call gets its error result in the same commit, and only a length cut asks again |
| TurnStates.TurnState.AddOutcomes | crates/engine/src/turn_state.rs:390-405 | The results join the context in call order, with displays whose indexes count from the last commit |
| TurnStates.TurnState.ToolsFinished | crates/engine/src/turn_state.rs:334-337 | The results of every call of the answer close the round: every call is answered, and one commit holds the results |
| TurnStates.TurnState.Proceed | crates/engine/src/turn_state.rs:341-347 | A finished turn without new input ends as completed with its finish reason; any other round goes on |
| TurnStates.TurnState.Stop | crates/engine/src/turn_state.rs:358-364 | A stop ends a finished turn as completed and any other as stopped |
| TurnStates.TurnState.ModelCancelled | crates/engine/src/turn_state.rs:368-381 | A cancelled attempt keeps its output, and each complete call of it gets an error result in the final commit |
| TurnStates.TurnState.ToolsCancelled | crates/engine/src/turn_state.rs:384-387 | A cancel among the calls still answers every call before the end |
| TurnStates.TurnState.Cancel | crates/engine/src/turn_state.rs:408-410 | A cancel after a round adds no block |
| TurnStates.TurnState.Fail | crates/engine/src/turn_state.rs:413-415 | A failure adds no block, and the commit keeps its text |
| TurnStates.TurnState.Finish | crates/engine/src/turn_state.rs:435-448 | The final commit holds exactly the unsaved blocks, and every call of a paired turn is answered |
| TurnStates.ResultsClose | crates/engine/src/turn_state.rs:334-337 | Results in call order close a resumable context |
| Updates.NamedBlocks | crates/agent/src/updates.rs:67-103 | The ids of a committed draft ascend, and the block at each index of the commit is the block that the stream gave under that id, for a completed and for a cancelled answer |
| Updates.DraftsCloseOnce | crates/agent/src/updates.rs:56-103 | In every correct trace a draft starts at most once and each started draft is closed exactly once, except one that is still open |
| Updates.SeenParts | crates/agent/src/updates.rs:122-161 | What a reader knows of the open draft is the reduction of the events that the observer saw of it |
| Updates.CommittedDraftNamesItsBlocks | crates/agent/src/updates.rs:91-103 | A committed draft comes right behind its saved commit, and its ids name that commit's blocks in the stream that the observer saw |
| Updates.SortedStops | crates/agent/src/updates.rs:144-147 | Sorting the ids in stop order gives the ascending ids of the stopped blocks |
| Updates.FitsAccepts | crates/agent/src/updates.rs:122-190 | Every event that the engine reports in its order extends a correct trace, so no expectation of the source can fail |
| Updates.Publisher.constructor | crates/agent/src/updates.rs:39-44 | A new publisher sent nothing |
| Updates.Publisher.Report | crates/agent/src/updates.rs:122-190 | Each reported event keeps the trace correct: no model event outside a draft, a tool event always at a saved call |
| Updates.Publisher.ReportTool | crates/agent/src/updates.rs:109-114 | The position of a tool event is the saved position of its call, taken from the newest commit with calls |
| Updates.Publisher.Committed | crates/agent/src/updates.rs:67-103 | A confirmed commit is published once with the names of its draft, which closes, and the turn ends exactly with a commit that has an end |
| Updates.Publisher.Drop | crates/agent/src/updates.rs:193-201 | At the end of any turn, also a dropped one, no draft is open, and the observer got exactly the trace |
| Updates.RepeatsFollowSilence | crates/engine/src/drive.rs:385-403 | A scheduled retry comes right behind a failed attempt that gave the observer no event |
| Updates.SettledTraces | crates/agent/src/updates.rs:56-201 | For a whole trace: at every index a committed draft names the blocks of the commit right before it and a scheduled retry follows a failed attempt without events, and each started draft starts and closes exactly once |
| Stores.PushedReplays | crates/agent/src/memory.rs:82-88 | How one more event changes the replayed context, turn, tokens, settings, and consumed ids |
| Stores.ConsumeOnce | crates/agent/src/memory.rs:357-376 | A commit moves ids from the pending inputs to the log, and every id over all events and pending inputs stays unique |
| Stores.ForkEndsSettled | crates/agent/src/memory.rs:150-177 | A fork copies a non-empty prefix with settings that ends at a completed turn, or, only when no turn completed, before the first commit |
| Stores.ForkOk | crates/agent/src/memory.rs:238-262 | The copied session keeps numbering and unique inputs, and its newest turn is not open |
| Stores.RemainingOne | crates/agent/src/memory.rs:290-300 | Removing the first input with an id removes exactly the inputs with that id |
| Stores.MemoryStore.constructor | crates/agent/src/memory.rs:193-195 | A new store has no session and no writer |
| Stores.MemoryStore.NextWrite | crates/agent/src/memory.rs:42-45 | Each write number is above the newest write of every session |
| Stores.MemoryStore.ToOpened | crates/agent/src/memory.rs:116-145 | The fold over the events gives the replayed settings, context, newest turn, and tokens |
| Stores.MemoryStore.CreateSession | crates/agent/src/memory.rs:211-236 | A new session starts with one settings event, is owned, and leaves all others unchanged |
| Stores.MemoryStore.ForkSession | crates/agent/src/memory.rs:238-262 | A fork holds exactly the cut prefix of its source, has no pending input, and leaves the source and all others unchanged; a refused fork adds no session |
| Stores.MemoryStore.SetSettings | crates/agent/src/memory.rs:264-269 | Settings become the next event, with its number, of this session alone |
| Stores.MemoryStore.AcceptInput | crates/agent/src/memory.rs:278-288 | An accepted input gets an id that no input of any session had, and what the store accepted under an id never changes |
| Stores.MemoryStore.RemoveInput | crates/agent/src/memory.rs:290-300 | A removal takes out exactly the named pending input and remembers it as removed, or reports why it cannot and changes nothing |
| Stores.MemoryStore.RemovedStaysOut | crates/agent/src/memory.rs:278-376 | In every valid state an input that was ever removed is neither pending in its session nor consumed by a commit of it |
| Stores.MemoryStore.Open | crates/agent/src/memory.rs:337-345 | A write access succeeds if and only if no writer holds the session, and the loaded facts are the replay of its log |
| Stores.MemoryStore.Release | crates/agent/src/memory.rs:185-189 | The drop of a lease frees its session alone |
| Stores.MemoryStore.SaveCommit | crates/agent/src/memory.rs:347-376 | A commit is saved if and only if its inputs are distinct, pending, and fit in its blocks; a refused one names its reason and changes nothing, a saved one adds one event and removes exactly its inputs |
| Stores.MemoryStore.DeleteSession | crates/agent/src/memory.rs:417-427 | A session is deleted if and only if no writer holds it |
| Stores.MemoryStore.ListSessions | crates/agent/src/memory.rs:302-330 | A page shows the first matches behind the cursor by newest write, and it names a next position exactly when more matches follow |
| Stores.MemoryStore.Load | crates/agent/src/memory.rs:383-401 | A page holds the events that it asks for by number: all of them, those above a number, or the last ones below a number |
| Stores.PageHoldsItsNumbers | crates/agent/src/memory.rs:383-401 | Under the numbering of a log, the slices of a page are the events above a number, and the last `limit` events below a number |
| Clients.OtherClient | crates/agent/src/memory.rs:210-427 | Whatever one other client calls, held sessions keep their events, logs grow only at their end, ids are never reused, and what was removed stays removed |
| Clients.OtherClients | crates/agent/src/memory.rs:210-427 | The same for any number of calls, so also for any history of a store from its start |
| Paging.WalkSessions | crates/agent/src/memory.rs:302-330 | Walking the list by cursor with any calls between the pages terminates, shows no session twice, and shows every match that nobody writes or deletes meanwhile; its pages have moments that follow each other, at most the limit of sessions each, and each shown session was in the store and matched the query at the moment of its page |
| Paging.WalkEventsBack | crates/agent/src/memory.rs:383-401 | Walking backwards page by page while the log grows rebuilds the log of the first load without a gap or a repeat |
| Paging.FollowEvents | crates/agent/src/memory.rs:383-401 | Following a log forwards rebuilds the whole log at the last load |
| Paging.ForkStaysApart | crates/agent/src/memory.rs:238-262 | A fork keeps its copied events whatever happens to its source, and a write to the fork changes no other session |
| Journals.RecordsCountBlocks | crates/protocol/src/input.rs:174-196 | The records of inputs ask for exactly their model blocks, and each input has at least one |
| Journals.DecidedComesFrom | crates/agent/src/session.rs:126-168 | What a hook can make of an accepted input: its id, its source, and its content stay, only the blocks for the model change, and a note of the session stays as it is |
| Journals.TracedArePending | crates/agent/src/memory.rs:347-376 | Inputs that come from accepted ones and whose ids are pending come from exactly the pending inputs with those ids |
| Journals.FailedTakeWitness | crates/agent/src/session.rs:119-170 | Two inputs during a turn, of which the hook keeps the first and fails on the second: the store refuses the end of the turn and holds the turn as open, and it saves the same end without the record |
| Journals.Journal.Take | crates/agent/src/session.rs:119-170 | Behind a take every input accepted before it is taken or no longer pending, no input is taken twice, each taken input is an accepted input of this session as the hook left it, new records ascend, and the returned blocks are exactly the model blocks of the new inputs in order; a failure behind taken inputs marks their blocks as lost |
| Journals.Journal.TakeAll | crates/agent/src/session.rs:122-168 | The loop over a list of the store takes its inputs in order, and each one that is still pending behind it is taken |
| Journals.Journal.TakeNext | crates/agent/src/session.rs:122-168 | An input that the turn did not take before joins the taken ones exactly as the decision about it says: equal to the pending one when it is kept or a note, with other blocks for the model when the hook replaced them; a skipped, removed, or failed one changes nothing that was taken |
| Journals.Journal.Check | crates/agent/src/session.rs:126-163 | The decision about one input, with another read of the store behind the hook: an input that passes is still pending and is what the decision makes of it, a note passes as it is unless a read of the store fails, and a skipped input is not pending any more |
| Journals.Journal.RemoveOne | crates/agent/src/session.rs:149-163 | Behind a removal that does not fail, the input is no longer pending, whoever removed it; the removal never passes the input |
| Journals.Journal.Commit | crates/agent/src/session.rs:185-198 | A confirmed commit is saved once and published; an unconfirmed one is saved once or not at all and never published; a commit that lost the blocks of taken inputs is not saved; either way the log stays the replay of the saved commits |
| Journals.Journal.Save | crates/agent/src/store.rs:208-223 | A saved commit starts with exactly the model blocks of the inputs that it consumes, and each of them is the input that the store held as pending under that id, as the hook left it; a commit without blocks is saved if and only if nothing was taken |
| Journals.Journal.AwaitSaved | crates/agent/src/session.rs:185-198 | Behind a saved commit the answer can still be lost: then nothing is published, and the log keeps the commit |
| Journals.Journal.Confirm | crates/agent/src/session.rs:190-196 | The token count of the journal and the published commits catch up with the log |
| Journals.KeepsLast | crates/agent/src/session.rs:363-405 | A run whose callers keep the pairing kept it before its last commit too |
| Retries.RepeatsAreBounded | crates/ai/src/retry.rs:78-115 | A delay is given only for an attempt that showed no event, before the last attempt, and it lies between three quarters of the capped backoff, less the slack of its float product, and the larger cap, with the server delay as a floor |
| Retries.BackoffInRange | crates/ai/src/retry.rs:109-115 | For every draw and float error in its bounds, the jitter leaves between three quarters and all of the capped delay, less a slack of at most half a nanosecond for every delay below 39 hours |
| Retries.QuarterIsKept | crates/ai/src/retry.rs:109-115 | With exact products, no jitter cuts more than a quarter of a delay if and only if the delay in nanoseconds does not leave 3 over 4 |
| Retries.QuarterIsKeptInFloats | crates/ai/src/retry.rs:109-115 | For a delay below 39 hours, no jitter with any float error in its bounds cuts more than a quarter if and only if the delay in nanoseconds leaves 0 or 1 over 4 |
| Retries.MicrosecondsKeepAll | crates/ai/src/retry.rs:109-115 | Under a policy in whole microseconds every backoff below 39 hours keeps its three quarters exactly, and with an exact product every longer one too, unless the doubling saturates |
| Retries.CutFits | crates/ai/src/retry.rs:109-115 | The rounded cut is never larger than the delay, so the subtraction never saturates |
| Toolsets.Resolve | crates/engine/src/drive.rs:288-308 | The call behind the bridge keeps the call id, and so does the result of a refused one |
| Toolsets.ResolvedAtBlocks | crates/engine/src/drive.rs:719-730 | The calls of an answer are resolved once each in block order, at their own block indexes |
| Toolsets.DisplaysPointAtCalls | crates/engine/src/drive.rs:700-715 | Each call display points at the block of its call and shows the hints of the real tool, in block order |
| Toolsets.GroupsPartition | crates/engine/src/drive.rs:731-741 | The groups joined are the call list; each is a run of parallel calls or one serial call, and no two parallel groups meet |
| Toolsets.PartitionIsUnique | crates/engine/src/drive.rs:731-741 | Only one cut of the calls has these properties |
| Turns.KeptAreWithoutReasoning | crates/engine/src/drive.rs:369-379 | Dropping the reasoning from the kept blocks of a cancel keeps the ids and the order of the others |
| Turns.Turn.Tell | crates/engine/src/drive.rs:337-380 | Each event of the driver extends the observer's correct trace by its own update |
| Turns.Turn.Race | crates/engine/src/drive.rs:879-913 | A cancelled turn never takes the result of the work, because each poll checks the cancel first |
| Turns.Turn.Attempt | crates/engine/src/drive.rs:353-391 | An attempt opens one draft and ends with the whole answer of that draft, with its kept blocks after a cancel, or with the draft discarded |
| Turns.Turn.ReadReply | crates/engine/src/drive.rs:366-391 | The reply and the observer read the same events, so the answer is what the observer saw |
| Turns.Turn.Send | crates/engine/src/drive.rs:329-407 | The send loop terminates within the permitted attempts, opens at most one draft for each, repeats only silent attempts, and waits within the bounds of the policy |
| Turns.Turn.Save | crates/engine/src/drive.rs:587-608 | A saved commit carries the displays of its calls; once saved, all saved commits replay to the live context, and a process can stop there; a cancel can come during the save |
| Turns.Turn.ReplaceContext | crates/engine/src/drive.rs:657-665 | A replacement that changes nothing is not saved, and any other is saved before the next request |
| Turns.Turn.SendRound | crates/engine/src/drive.rs:632-696 | Any number of planned and repeated rounds ends with every commit saved and with the updates that the answer, the failure, or the cancel needs; only a cancelled turn ends a round as cancelled |
| Turns.Turn.AskAgain | crates/engine/src/drive.rs:676-694 | A failed round runs again, or it ends with that failure, with the failure of a hook, or, when the turn is cancelled, with a cancel |
| Turns.Turn.StartGroup | crates/engine/src/drive.rs:745-776 | Before a group runs, its calls start once each in call order, and when the turn is dropped in between, a first part of them did; refused, blocked, and cancelled calls finish at once |
| Turns.Turn.RunGroup | crates/engine/src/drive.rs:778-788 | In every interleaving each approved call finishes exactly once under its own id, and no call starts again |
| Turns.Turn.PollCall | crates/engine/src/drive.rs:791-817 | A cancel before the start of a call gives the error result of a call that did not run |
| Turns.Turn.NextGroup | crates/engine/src/drive.rs:731-740 | The group that starts at a call is the next maximal run of parallel calls, or the serial call alone |
| Turns.Turn.CallTools | crates/engine/src/drive.rs:719-788 | Each call of the answer starts once and then finishes once, each group starts its calls in call order, no call of a later group starts before a group ends, and the outcomes answer the calls in call order |
| Turns.OutcomeIds | crates/engine/src/drive.rs:719-742 | Outcomes in call order give result blocks in call order |
| Turns.AnswerNames | crates/engine/src/drive.rs:288-407 | The draft of a whole answer names the blocks of the commit that the state makes of it |
| Turns.CutNames | crates/engine/src/drive.rs:369-380 | The draft of a cancelled answer names the blocks of the final commit |
| Turns.Turn.TakeSent | crates/engine/src/drive.rs:533-544 | An answer, a failure, and a cancel each lead to their own next action, whose commit fits the open draft |
| Turns.Turn.StepSend | crates/engine/src/drive.rs:528-545 | Behind the input commit and a round, the commit of the next action fits the saved log and the open draft, and no taken input waits |
| Turns.Turn.StepTools | crates/engine/src/drive.rs:547-555 | A cancel among the calls ends the turn as cancelled and anything else asks the round hook; either way every call is answered and the commit of the results fits the log |
| Turns.Turn.EndRound | crates/engine/src/drive.rs:565-574 | Each decision after a round ends the turn with its own result |
| Turns.Turn.TakeInput | crates/engine/src/drive.rs:567-571 | The next commit holds exactly the model blocks of the taken inputs; a finished turn without new input completes; a failed take ends the turn as failed with a commit without blocks, and the blocks count as lost exactly when something was taken; a dropped one halts |
| Turns.Turn.StepDone | crates/engine/src/drive.rs:576-580 | The turn ends for its caller only when its end is confirmed, and an end behind lost blocks halts the turn with no end in the log |
| Turns.Turn.Run | crates/engine/src/drive.rs:508-581 | Every run, with failed and dropped writes at any point: the log grew by the saved commits in order and is always one that a repair can close; a confirmed end leaves memory equal to the replay of the log |
| Turns.Turn.EndAgrees | crates/engine/src/drive.rs:508-581 | Behind a confirmed end the log replays to the live context, the token count of the state, and the token count of the journal, and the observer saw every saved commit |
| Turns.SavedPoint | crates/engine/src/drive.rs:587-608 | Behind a saved commit the log holds the live context, so only an answer at its end can have calls without results |
| Sessions.ReopenAnswersEachCall | crates/agent/src/session.rs:363-404 | Stop the process behind any event of a paired log: opening again ends the open turn once, and then each call of the context has exactly one result in call order |
| Sessions.OpenAndEndTurn | crates/agent/src/session.rs:363-391 | An open ends an open turn with exactly one commit and loads its replay; behind a failed or unconfirmed repair the lock of the session is free again |
| Sessions.EndTurn | crates/agent/src/session.rs:373-390 | The repair of an open turn is the next event and ends the turn, or it fails and frees the lock, whether it saved or not |
| Sessions.Session.constructor | crates/agent/src/session.rs:261-273 | A session starts in agreement with its log |
| Sessions.Session.ContextAnswersCalls | crates/agent/src/session.rs:45-61 | The context of a paired session that holds its lease answers every call |
| Sessions.Session.Recover | crates/agent/src/session.rs:313-325 | A recover reads under the lease it has, or takes it; it returns the commit of a repair exactly when the log held an open turn; a failed one leaves the memory of the session as it was, and frees a lock that it took |
| Sessions.Session.SetSettings | crates/agent/src/session.rs:333-344 | Confirmed settings are the next event and the current settings; an unconfirmed write leaves the memory as it was, without the lease, and the lock is free |
| Sessions.Session.Run | crates/agent/src/session.rs:464-541 | Every run of a turn keeps the agreement with the log and grows the log by exactly its saved commits, each behind the model blocks of inputs that the store accepted for this session; a failed save or a drop leaves the session stale and its lock free; a take that failed behind inputs leaves the turn open in the log; no input is reported only when none accepted before is pending; the observer gets a correct trace with the saved commits in order; and the session stays paired if and only if the callers kept the pairing |
| Sessions.ObservedTraces | crates/agent/src/session.rs:464-541 | The three facts of a whole trace hold for every trace that an observer of a run gets |
| Sessions.TakeFirst | crates/agent/src/session.rs:479-494 | The input of a turn is exactly the model blocks of the taken inputs, and it is empty only when no input accepted before is pending; behind an interrupted turn the store accepts its note once, behind inputs of which none is a note, and the turn takes it unless another client removed it; the turn starts with notes alone if and only if the first take took nothing but notes |
| Sessions.NoteAloneWitness | crates/agent/src/session.rs:479-494 | A store behind a failed turn whose only pending input is the note about that turn, and the note has blocks for the model |
| Sessions.CreateSession | crates/agent/src/session.rs:222-230 | A created session agrees with its log and is paired |
| Sessions.OpenSession | crates/agent/src/session.rs:239-243 | An opened session agrees with the repaired log and owns it; a failed repair leaves no lock |
| Sessions.ForkSession | crates/agent/src/session.rs:252-259 | A forked session agrees with its copied log, which is a prefix of the source |
| Sessions.Life | crates/agent/src/session.rs:216-541 | In every state of any sequence of turns, settings, recovers, and pauses among other clients, a session that holds its lease agrees with the replay of its log, and its log only grows |
| HttpDates.CivilIsNaive | crates/ai/src/http.rs:261-279 | The count by 400-year eras equals the naive count of years, months, and days from 1970-01-01, for every valid date |
| HttpDates.NextDayAddsOne | crates/ai/src/http.rs:261-279 | The next calendar day adds one, across month ends, leap years, and eras |
| HttpDates.CivilAscends | crates/ai/src/http.rs:271-279 | A later date has a larger count |
| HttpDates.CivilCountsDays | crates/ai/src/http.rs:271-279 | The date n days behind 1970-01-01, walked day by day, has the count n |
| HttpDates.WeekdaysFollow | crates/ai/src/http.rs:228-279 | The weekday of the next day is the next weekday, and 1970-01-01 is a Thursday |
| HttpDates.EveryDateIsReached | crates/ai/src/http.rs:271-279 | The walk reaches every date since 1970, at its count |
| HttpDates.PrintedDateReads | crates/ai/src/http.rs:228-259 | Reading a printed date of section 5.6.7 of RFC 9110 gives its date, its time, and the epoch second of the naive count |
| HttpDates.ReadsPrintedDates | crates/ai/src/http.rs:228-259 | A text that reads as a date is the printed form of that date with its own weekday if and only if it names that weekday and no number in it starts with a plus sign |
| HttpDates.LooseDateReads | crates/ai/src/http.rs:228-259 | Two inputs that pass: one with a wrong weekday, one with a plus sign |
| HttpDates.DateDelayReachesDate | crates/ai/src/http.rs:203-212 | A client that waits as a printed date asks repeats at that second, or at once when the date is past |

## Left out

- The bytes of groups and heads, JSON, headers, URLs, and blobs: a text of a group is an arbitrary function of what it reads.
- The parsing of provider streams and the classification of failures: crates/ai/src/stream and crates/ai/src/failure are not part of this model beyond the contract above.
- Prompts, titles, renames, summaries beyond the id, the settings, the fork source, and the parent, and all clocks of a store.
- The update for an input that a hook removed, and the payloads of tool updates: opaque to every claim here.
- The reading of a decimal `retry-after` and of `retry-after-ms`: float parsing. The reading is a parameter of `HttpDates.RetryAfterMs`.
- The search among deferred tools: it ranks with logarithms. Only the kept call id and its concurrency are here.
- The single float roundings behind the product of a delay and the jitter, of which only their common bound counts, and the width of buffer lengths and counters. Hash words and the hashed length wrap, and delays saturate, as in the source.
- The store of crates/store, which keeps its sessions in a database file. The in-memory store stands for the shared contract here.
- The choice of a model and settings for a round, the tool definitions of a request, and the working folder of a call display.
- Journals.FailedTakeWitness: does not run the take that fails, because its hook and the other clients are arbitrary there; it gives the store what that take leaves.
- Sessions.NoteAloneWitness: does not run the turn that accepts the note, for the same reason; it makes the same calls on the store.
- Turns.Turn.Run: does not model a turn without a journal, because a session always sets one.
- Journals.Journal.Take: does not model which decision the hook makes, because a hook is arbitrary; it states what holds for every decision.
